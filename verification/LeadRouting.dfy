/** Who gets a new lead: round robin over the members, or the configured manager. */
module LeadRouting {
  import opened Prelude

  type UserId = string

  datatype Role = OWNER | MANAGER | AGENT | VIEWER

  datatype Member = Member(user: UserId, role: Role)

  datatype Strategy = MANAGER_ASSIGN | ROUND_ROBIN | NONE

  // ----- round robin -----

  /** `indexOf`. */
  function IndexOf(users: seq<UserId>, u: UserId): (i: int)
    ensures -1 <= i < |users|
    ensures i >= 0 ==> users[i] == u && u !in users[..i]
    ensures i < 0 <==> u !in users
  {
    if users == [] then -1
    else if users[0] == u then 0
    else
      var i := IndexOf(users[1..], u);
      if i < 0 then -1 else i + 1
  }

  /** Position that is served next. */
  function NextIndex(users: seq<UserId>, cursor: Option<UserId>): (i: nat)
    requires users != []
    ensures i < |users|
  {
    if cursor.Some? && cursor.value in users then (IndexOf(users, cursor.value) + 1) % |users| else 0
  }

  function Eligible(members: seq<Member>): seq<UserId> {
    if members == [] then []
    else (if members[0].role != VIEWER then [members[0].user] else []) + Eligible(members[1..])
  }

  lemma {:induction false} EligibleIff(members: seq<Member>, u: UserId)
    ensures u in Eligible(members) <==> exists m :: m in members && m.user == u && m.role in {OWNER, MANAGER, AGENT}
    decreases |members|
  {
    if members != [] {
      EligibleIff(members[1..], u);
      if u in Eligible(members[1..]) {
        var m :| m in members[1..] && m.user == u && m.role in {OWNER, MANAGER, AGENT};
        assert m in members;
      }
    }
  }

  class Routing {
    var cursor: Option<UserId>

    constructor ()
      ensures cursor == None
    {
      cursor := None;
    }

    /** `members` are the organisation's memberships, oldest first. */
    method ResolveOwner(members: seq<Member>, strategy: Strategy, defaultOwner: Option<UserId>)
      returns (owner: Option<UserId>)
      modifies this
      ensures strategy == NONE ==> owner == None
      ensures strategy == MANAGER_ASSIGN ==>
        if defaultOwner.Some? && exists m :: m in members && m.user == defaultOwner.value then owner == defaultOwner
        else IsOldestManager(members, owner)
      ensures strategy == ROUND_ROBIN ==>
        owner == if Eligible(members) == [] then None
          else Some(Eligible(members)[NextIndex(Eligible(members), old(cursor))])
      ensures cursor == if strategy == ROUND_ROBIN && owner.Some? then owner else old(cursor)
      ensures owner.Some? ==> exists m :: m in members && m.user == owner.value
    {
      match strategy
      case NONE => return None;
      case MANAGER_ASSIGN =>
        owner := ManagerFor(members, defaultOwner);
        ManagerForIs(members, defaultOwner);
      case ROUND_ROBIN =>
        var userIds := Eligible(members);
        if |userIds| == 0 { return None; }
        var nextIndex := 0;
        if cursor.Some? {
          var cursorIndex := IndexOf(userIds, cursor.value);
          if cursorIndex >= 0 { nextIndex := (cursorIndex + 1) % |userIds|; }
        }
        EligibleIff(members, userIds[nextIndex]);
        owner := Some(userIds[nextIndex]);
        cursor := owner;
    }
  }

  // ----- the configured manager -----

  predicate IsManager(m: Member) { m.role == OWNER || m.role == MANAGER }

  function FirstManager(members: seq<Member>): Option<UserId> {
    if members == [] then None
    else if IsManager(members[0]) then Some(members[0].user)
    else FirstManager(members[1..])
  }

  function ManagerFor(members: seq<Member>, defaultOwner: Option<UserId>): Option<UserId> {
    if defaultOwner.Some? && exists m :: m in members && m.user == defaultOwner.value then defaultOwner
    else FirstManager(members)
  }

  /** The user of the oldest membership as owner or manager; nobody exactly when there is no such membership. */
  ghost predicate IsOldestManager(members: seq<Member>, user: Option<UserId>) {
    if user.None? then forall m :: m in members ==> m.role !in {OWNER, MANAGER}
    else exists i :: 0 <= i < |members| && members[i].role in {OWNER, MANAGER} && members[i].user == user.value
                     && forall j :: 0 <= j < i ==> members[j].role !in {OWNER, MANAGER}
  }

  lemma {:induction false} FirstManagerIs(members: seq<Member>)
    ensures IsOldestManager(members, FirstManager(members))
    decreases |members|
  {
    if members != [] {
      FirstManagerIs(members[1..]);
      if IsManager(members[0]) {
        assert members[0] in members;
      } else if FirstManager(members).Some? {
        var i :| 0 <= i < |members[1..]| && members[1..][i].role in {OWNER, MANAGER}
                 && members[1..][i].user == FirstManager(members).value
                 && forall j :: 0 <= j < i ==> members[1..][j].role !in {OWNER, MANAGER};
        assert members[i + 1] == members[1..][i];
        forall j | 0 <= j < i + 1 ensures members[j].role !in {OWNER, MANAGER} {
          assert j > 0 ==> members[j] == members[1..][j - 1];
        }
      }
    }
  }

  /** The configured owner if still a member, otherwise the oldest owner or manager. */
  lemma ManagerForIs(members: seq<Member>, defaultOwner: Option<UserId>)
    ensures var o := ManagerFor(members, defaultOwner);
      && (if defaultOwner.Some? && exists m :: m in members && m.user == defaultOwner.value then o == defaultOwner
          else IsOldestManager(members, o))
      && (o.Some? ==> exists m :: m in members && m.user == o.value)
  {
    FirstManagerIs(members);
  }

  // ----- whole runs on a fixed list -----

  /** The users chosen by k calls in a row. */
  function Choices(users: seq<UserId>, cursor: Option<UserId>, k: nat): (c: seq<UserId>)
    requires users != []
    ensures |c| == k
    decreases k
  {
    if k == 0 then []
    else
      var u := users[NextIndex(users, cursor)];
      [u] + Choices(users, Some(u), k - 1)
  }

  function Count(s: seq<UserId>, u: UserId): nat {
    if s == [] then 0 else (if s[0] == u then 1 else 0) + Count(s[1..], u)
  }

  /** Calls until position m is served, when position `start` is served next. */
  function Distance(start: nat, m: nat, n: nat): nat
    requires start < n && m < n
  {
    if m >= start then m - start else m + n - start
  }

  lemma ModNext(i: nat, n: nat)
    requires i < n
    ensures (i + 1) % n == if i + 1 == n then 0 else i + 1
  {
  }

  lemma AfterServing(users: seq<UserId>, i: nat)
    requires Distinct(users) && i < |users|
    ensures NextIndex(users, Some(users[i])) == if i + 1 == |users| then 0 else i + 1
  {
    var at := IndexOf(users, users[i]);
    assert users[i] in users && at == i;
    ModNext(i, |users|);
  }

  /** How often a position at the given distance comes up in k calls. */
  function Turns(k: nat, distance: nat, n: nat): nat
    requires distance < n
  {
    (k + n - 1 - distance) / n
  }

  lemma MulMonotone(x: int, y: int, n: nat)
    requires x <= y
    ensures x * n <= y * n
  {
  }

  lemma DivIs(a: nat, n: nat, q: nat)
    requires n > 0 && q * n <= a < q * n + n
    ensures a / n == q
  {
    var p := a / n;
    if p < q { MulMonotone(p + 1, q, n); } else if q < p { MulMonotone(q + 1, p, n); }
  }

  lemma TurnsSteps(k: nat, n: nat)
    requires n > 0
    ensures Turns(k + 1, 0, n) == Turns(k, n - 1, n) + 1
    ensures forall d :: 0 <= d < n ==> Turns(0, d, n) == 0
    ensures forall d :: 0 <= d < n - 1 ==> Turns(k, d, n) == Turns(k + 1, d + 1, n)
  {
    DivIs(k + n, n, k / n + 1);
    forall d | 0 <= d < n ensures Turns(0, d, n) == 0 { DivIs(n - 1 - d, n, 0); }
  }

  lemma DivMonotone(a: nat, b: nat, n: nat)
    requires a <= b && n > 0
    ensures a / n <= b / n
  {
    if a / n > b / n { MulMonotone(b / n + 1, a / n, n); }
  }

  lemma {:induction false} CountExactly(users: seq<UserId>, cursor: Option<UserId>, k: nat, m: nat)
    requires Distinct(users) && m < |users|
    ensures Count(Choices(users, cursor, k), users[m])
            == Turns(k, Distance(NextIndex(users, cursor), m, |users|), |users|)
    decreases k
  {
    hide Turns, NextIndex;
    var n := |users|;
    var i := NextIndex(users, cursor);
    TurnsSteps(if k > 0 then k - 1 else 0, n);
    if k > 0 {
      CountExactly(users, Some(users[i]), k - 1, m);
      AfterServing(users, i);
      assert Choices(users, cursor, k)[1..] == Choices(users, Some(users[i]), k - 1);
    }
  }

  /** After k calls every member has had floor(k / n) or ceil(k / n) of them. */
  lemma EvenShares(users: seq<UserId>, cursor: Option<UserId>, k: nat, u: UserId)
    requires Distinct(users) && u in users
    ensures k / |users| <= Count(Choices(users, cursor, k), u) <= (k + |users| - 1) / |users|
  {
    var n := |users|;
    var m :| 0 <= m < n && users[m] == u;
    var d := Distance(NextIndex(users, cursor), m, n);
    CountExactly(users, cursor, k, m);
    DivMonotone(k, k + n - 1 - d, n);
    DivMonotone(k + n - 1 - d, k + n - 1, n);
  }

  lemma {:induction false} LaterChoices(users: seq<UserId>, cursor: Option<UserId>, k: nat, n: nat)
    returns (later: Option<UserId>)
    requires users != []
    ensures Choices(users, cursor, k + n)[k..] == Choices(users, later, n)
    decreases k
  {
    if k == 0 {
      later := cursor;
    } else {
      var u := users[NextIndex(users, cursor)];
      later := LaterChoices(users, Some(u), k - 1, n);
      assert Choices(users, cursor, k + n)[k..] == Choices(users, Some(u), k - 1 + n)[k - 1..];
    }
  }

  lemma TurnsOnce(d: nat, n: nat)
    requires d < n
    ensures Turns(n, d, n) == 1
  {
    DivIs(n + n - 1 - d, n, 1);
  }

  /** Any n consecutive calls on a list of n members serve each member exactly once. */
  lemma EachOncePerRound(users: seq<UserId>, cursor: Option<UserId>, before: nat, u: UserId)
    requires Distinct(users) && u in users
    ensures Count(Choices(users, cursor, before + |users|)[before..], u) == 1
  {
    hide Turns, NextIndex, Choices, Count;
    var n := |users|;
    var later := LaterChoices(users, cursor, before, n);
    var m :| 0 <= m < n && users[m] == u;
    CountExactly(users, later, n, m);
    TurnsOnce(Distance(NextIndex(users, later), m, n), n);
  }

  // ----- the list changes between calls -----

  /** Each call sees its own member list. */
  function ChoicesOver(lists: seq<seq<UserId>>, cursor: Option<UserId>): (c: seq<UserId>)
    requires forall l :: l in lists ==> l != []
    ensures |c| == |lists|
    decreases |lists|
  {
    if lists == [] then []
    else
      assert lists[0] in lists && forall l :: l in lists[1..] ==> l in lists;
      var u := lists[0][NextIndex(lists[0], cursor)];
      [u] + ChoicesOver(lists[1..], Some(u))
  }

  /** Whatever happened to the list, the choice is on the list of its own call. */
  lemma {:induction false} ChoiceIsCurrent(lists: seq<seq<UserId>>, cursor: Option<UserId>, i: nat)
    requires (forall l :: l in lists ==> l != []) && i < |lists|
    ensures ChoicesOver(lists, cursor)[i] in lists[i]
    decreases i
  {
    assert lists[0] in lists && forall l :: l in lists[1..] ==> l in lists;
    if i > 0 { ChoiceIsCurrent(lists[1..], Some(lists[0][NextIndex(lists[0], cursor)]), i - 1); }
  }

  /** Members only join, at the end, as the oldest-first order has it. */
  ghost predicate Growing(lists: seq<seq<UserId>>) {
    && (forall i :: 0 <= i < |lists| ==> lists[i] != [] && Distinct(lists[i]))
    && (forall i :: 0 < i < |lists| ==> lists[i - 1] <= lists[i])
  }

  /**
   * While members only join, nobody starves: with never more than `cap` members, every member of
   * the first list is served within `cap` calls.
   */
  lemma {:induction false} NobodyStarves(lists: seq<seq<UserId>>, cursor: Option<UserId>, u: UserId, cap: nat)
    requires Growing(lists) && |lists| >= cap >= 1 && u in lists[0]
    requires forall i :: 0 <= i < |lists| ==> |lists[i]| <= cap
    ensures exists i :: 0 <= i < cap && ChoicesOver(lists, cursor)[i] == u
  {
    var m :| 0 <= m < |lists[0]| && lists[0][m] == u;
    var i := ServedAfter(lists, cursor, m, cap);
  }

  lemma {:induction false} ServedAfter(lists: seq<seq<UserId>>, cursor: Option<UserId>, m: nat, cap: nat)
    returns (i: nat)
    requires Growing(lists) && lists != [] && m < |lists[0]|
    requires forall j :: 0 <= j < |lists| ==> |lists[j]| <= cap
    requires |lists| > Distance(NextIndex(lists[0], cursor), m, cap)
    ensures i <= Distance(NextIndex(lists[0], cursor), m, cap) && ChoicesOver(lists, cursor)[i] == lists[0][m]
    decreases |lists|
  {
    hide NextIndex;
    var now := NextIndex(lists[0], cursor);
    if now == m {
      i := 0;
    } else {
      var u := lists[0][now];
      var rest := lists[1..];
      GrowingTail(lists, now);
      GrowingTail(lists, m);
      AfterServing(rest[0], now);
      var later := ServedAfter(rest, Some(u), m, cap);
      i := later + 1;
    }
  }

  lemma GrowingTail(lists: seq<seq<UserId>>, i: nat)
    requires Growing(lists) && |lists| > 1 && i < |lists[0]|
    ensures Growing(lists[1..]) && i < |lists[1]| && lists[1][i] == lists[0][i]
  {
    assert lists[1 - 1] <= lists[1];
    forall j | 0 < j < |lists[1..]|
      ensures lists[1..][j - 1] <= lists[1..][j]
    {
      assert lists[(j + 1) - 1] <= lists[j + 1];
    }
  }
}
