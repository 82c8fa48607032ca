/**
 * How far apart live runs of one job are, over runs of the system in which no two callers work on
 * one key at once. Other keys, the worker and crashes interleave freely.
 */
module JobSpacing {
  import opened Prelude
  import opened JobQueue
  import opened JobProtocol

  predicate SameJob(a: JobRun, b: JobRun) { a.kind == b.kind && a.org == b.org && a.key == b.key && IsKey(a.key) }

  predicate BothLive(a: JobRun, b: JobRun) { Live(a) && Live(b) && SameJob(a, b) }

  /** One was created no earlier than the TTL after the other wrote its lock. */
  predicate FarApart(a: JobRun, b: JobRun) {
    a.lockedAt + Ttl(a.kind) <= b.createdAt || b.lockedAt + Ttl(b.kind) <= a.createdAt
  }

  ghost predicate Spaced(s: State) {
    forall i, j :: i in s.runs && j in s.runs && i != j && BothLive(s.runs[i], s.runs[j]) ==>
      FarApart(s.runs[i], s.runs[j])
  }

  // ----- the caller's discipline -----

  predicate IsOn(r: JobRun, k: LockKey) { r.org == k.org && IsKey(r.key) && r.key.value == k.key }

  /** No live run behind the key needs the lock for longer than the new one does. */
  ghost predicate TtlFits(s: State, q: Request, lockedAt: int)
    requires IsKey(q.key)
  {
    forall id :: id in s.runs && Live(s.runs[id]) && IsOn(s.runs[id], KeyOf(q)) ==>
      s.runs[id].lockedAt + Ttl(s.runs[id].kind) <= lockedAt + Ttl(q.kind)
  }

  /** Between reading the lock and inserting the run. */
  predicate BusyOn(th: Thread, k: LockKey) {
    match th
    case LockRead(q, _, _) => IsKey(q.key) && KeyOf(q) == k
    case Passed(q, _, _) => IsKey(q.key) && KeyOf(q) == k
    case Locked(q, _, _) => IsKey(q.key) && KeyOf(q) == k
    case _ => false
  }

  /** No retry, one caller at a time on a key, and the TTL condition at every lock write. */
  ghost predicate Allowed(w: World, a: Action) {
    match a
    case Retry(_, _) => false
    case ReadLock(t, q, _) => IsKey(q.key) ==> forall u :: u in w.threads ==> !BusyOn(w.threads[u], KeyOf(q))
    case WriteLock(t, lockedAt, _) =>
      var th := ThreadOf(w, t); th.Passed? && IsKey(th.q.key) ==> TtlFits(w.s, th.q, lockedAt)
    case _ => true
  }

  ghost predicate Disciplined(w: World, actions: seq<Action>)
    decreases |actions|
  {
    actions != [] ==>
      && (Enabled(w, actions[0]) ==> Allowed(w, actions[0]))
      && Disciplined(Apply(w, actions[0]), actions[1..])
  }

  // ----- the invariant -----

  ghost predicate CoversTill(s: State, k: LockKey, end: int) {
    HasLock(s, k) && forall l :: l in s.locks && s.locks[l].key == k ==> s.locks[l].expiresAt >= end
  }

  /** Every live keyed run is covered by its lock until its TTL has passed. */
  ghost predicate IsCovered(s: State, r: JobRun) {
    Live(r) && IsKey(r.key) ==> CoversTill(s, LockKey(r.org, r.key.value), r.lockedAt + Ttl(r.kind))
  }

  ghost predicate Covered(s: State) { forall id :: id in s.runs ==> IsCovered(s, s.runs[id]) }

  /** The time of every live run of the job is up. */
  ghost predicate IsQuiet(s: State, q: Request, t: int) {
    forall id :: id in s.runs && Matches(s.runs[id], q) ==> s.runs[id].lockedAt + Ttl(q.kind) <= t
  }

  ghost predicate Fits(s: State, now: int, th: Thread) {
    match th
    case LockRead(q, found, expiresAt) =>
      IsKey(q.key) && IsLockFound(s, KeyOf(q), found) && (found.Some? ==> s.locks[found.value].expiresAt == expiresAt)
    case Passed(q, found, checkedAt) =>
      IsKey(q.key) && IsLockFound(s, KeyOf(q), found) && checkedAt <= now && IsQuiet(s, q, checkedAt)
    case Locked(q, checkedAt, lockedAt) =>
      && checkedAt <= lockedAt <= now
      && (IsKey(q.key) ==> IsQuiet(s, q, checkedAt) && CoversTill(s, KeyOf(q), lockedAt + Ttl(q.kind)))
    case _ => true
  }

  ghost predicate SingleRow(s: State) {
    forall i, j :: i in s.locks && j in s.locks && s.locks[i].key == s.locks[j].key ==> i == j
  }

  ghost predicate TimesOk(s: State, now: int) {
    forall id :: id in s.runs ==> s.runs[id].lockedAt <= s.runs[id].createdAt <= now
  }

  ghost predicate QueueOk(s: State) {
    && s.pending !! s.inHand
    && forall id :: id in s.pending + s.inHand ==> id in s.runs && Live(s.runs[id])
  }

  ghost predicate TablesOk(s: State, now: int) {
    SingleRow(s) && TimesOk(s, now) && QueueOk(s) && Spaced(s) && Covered(s)
  }

  ghost predicate Alone(w: World) {
    forall t, u, k :: t in w.threads && u in w.threads && t != u && BusyOn(w.threads[t], k) ==> !BusyOn(w.threads[u], k)
  }

  ghost predicate Inv(w: World) {
    && Sound(w) && TablesOk(w.s, w.now) && Alone(w)
    && (forall t :: t in w.threads ==> Fits(w.s, w.now, w.threads[t]))
  }

  // ----- what a step leaves of other threads -----

  /** The key's lock rows are untouched and it has no new live run. */
  ghost predicate KeySame(s: State, s': State, k: LockKey) {
    && (forall l :: l in s.locks && s.locks[l].key == k ==> l in s'.locks && s'.locks[l] == s.locks[l])
    && (forall l :: l in s'.locks && s'.locks[l].key == k ==> l in s.locks && s.locks[l].key == k)
    && (forall id :: id in s'.runs && Live(s'.runs[id]) && IsOn(s'.runs[id], k) ==>
          id in s.runs && Live(s.runs[id]) && SameRun(s.runs[id], s'.runs[id]))
  }

  lemma LockAnswerCarries(s: State, s': State, k: LockKey, found: Option<LockId>)
    requires KeySame(s, s', k)
    ensures HasLock(s', k) <==> HasLock(s, k)
    ensures IsLockFound(s, k, found) ==> IsLockFound(s', k, found)
  {
    if HasLock(s, k) {
      var l :| l in s.locks && s.locks[l].key == k;
      assert l in s'.locks && s'.locks[l].key == k;
    }
  }

  lemma QuietCarries(s: State, s': State, q: Request, t: int)
    requires IsKey(q.key) && KeySame(s, s', KeyOf(q)) && IsQuiet(s, q, t)
    ensures IsQuiet(s', q, t)
  {
    forall id | id in s'.runs && Matches(s'.runs[id], q) ensures s'.runs[id].lockedAt + Ttl(q.kind) <= t {
      assert IsOn(s'.runs[id], KeyOf(q)) && Matches(s.runs[id], q);
    }
  }

  lemma FitsCarries(s: State, now: int, s': State, now': int, th: Thread)
    requires Fits(s, now, th) && now <= now'
    requires forall k :: BusyOn(th, k) ==> KeySame(s, s', k)
    ensures Fits(s', now', th)
  {
    match th
    case LockRead(q, found, _) =>
      assert BusyOn(th, KeyOf(q));
      LockAnswerCarries(s, s', KeyOf(q), found);
    case Passed(q, found, checkedAt) =>
      assert BusyOn(th, KeyOf(q));
      LockAnswerCarries(s, s', KeyOf(q), found);
      QuietCarries(s, s', q, checkedAt);
    case Locked(q, checkedAt, lockedAt) =>
      if IsKey(q.key) {
        assert BusyOn(th, KeyOf(q));
        LockAnswerCarries(s, s', KeyOf(q), None);
        QuietCarries(s, s', q, checkedAt);
      }
    case _ =>
  }

  /** A step of thread t that leaves every other busy thread's key alone. */
  lemma PutKeepsInv(w: World, t: Tid, s': State, th: Thread)
    requires Inv(w) && Sound(Put(w, t, s', th)) && TablesOk(s', w.now) && Fits(s', w.now, th)
    requires forall u, k :: u in w.threads && u != t && BusyOn(w.threads[u], k) ==>
        KeySame(w.s, s', k) && !BusyOn(th, k)
    ensures Inv(Put(w, t, s', th))
  {
    forall u | u in w.threads && u != t ensures Fits(s', w.now, w.threads[u]) {
      FitsCarries(w.s, w.now, s', w.now, w.threads[u]);
    }
  }

  /** What the invariant says about one caller. */
  lemma CallerFacts(w: World, t: Tid)
    requires Inv(w) && t in w.threads
    ensures TablesOk(w.s, w.now) && Fits(w.s, w.now, w.threads[t]) && ThreadOk(w.s, w.threads[t])
    ensures forall u, k :: u in w.threads && u != t && BusyOn(w.threads[u], k) ==> !BusyOn(w.threads[t], k)
  {
  }

  // ----- the steps of a caller -----

  lemma ReadKeeps(w: World, t: Tid, q: Request, found: Option<LockId>)
    requires Inv(w) && Enabled(w, ReadLock(t, q, found)) && Allowed(w, ReadLock(t, q, found))
    ensures Inv(Apply(w, ReadLock(t, q, found)))
  {
    StepKeepsSound(w, ReadLock(t, q, found));
    PutKeepsInv(w, t, w.s, LockRead(q, found, if found.Some? then w.s.locks[found.value].expiresAt else 0));
  }

  /** Whoever passes the check finds the time of every live run of its job up. */
  lemma PassedIsQuiet(s: State, q: Request, found: Option<LockId>, now: int)
    requires Covered(s) && IsKey(q.key) && IsLockFound(s, KeyOf(q), found)
    requires !Deduplicates(s, q, found, now)
    ensures IsQuiet(s, q, now)
  {
    forall id | id in s.runs && Matches(s.runs[id], q) ensures s.runs[id].lockedAt + Ttl(q.kind) <= now {
      assert IsCovered(s, s.runs[id]) && LockKey(q.org, q.key.value) == KeyOf(q);
      assert HasRun(s, q);
    }
  }

  lemma CheckKeeps(w: World, t: Tid)
    requires Inv(w) && Enabled(w, Check(t))
    ensures Inv(Apply(w, Check(t)))
  {
    StepKeepsSound(w, Check(t));
    var th := w.threads[t];
    assert Fits(w.s, w.now, th) && BusyOn(th, KeyOf(th.q));
    if !Deduplicates(w.s, th.q, th.found, w.now) { PassedIsQuiet(w.s, th.q, th.found, w.now); }
    PutKeepsInv(w, t, w.s, Apply(w, Check(t)).threads[t]);
  }

  /** Moving or creating the lock of one key: it covers till the new end, and other keys stay as they are. */
  lemma WrittenRows(s: State, k: LockKey, found: Option<LockId>, newLock: LockId, end: int)
    requires SingleRow(s) && IsLockFound(s, k, found) && newLock !in s.locks
    ensures var s' := LockWritten(s, k, found, newLock, end);
      && s' == s.(locks := s'.locks) && SingleRow(s') && CoversTill(s', k, end)
      && (forall l :: l in s.locks && s.locks[l].key != k ==> l in s'.locks && s'.locks[l] == s.locks[l])
      && (forall l :: l in s'.locks && s'.locks[l].key != k ==> l in s.locks && s.locks[l] == s'.locks[l])
  {
    var s' := LockWritten(s, k, found, newLock, end);
    var row := if found.Some? then found.value else newLock;
    assert row in s'.locks && s'.locks[row] == Lock(k, end);
    assert forall l :: l in s'.locks && s'.locks[l].key == k ==> l == row;
  }

  lemma WrittenTables(s: State, now: int, q: Request, found: Option<LockId>, newLock: LockId, lockedAt: int)
    requires TablesOk(s, now) && IsKey(q.key) && IsLockFound(s, KeyOf(q), found) && newLock !in s.locks
    requires TtlFits(s, q, lockedAt)
    ensures var s' := LockWritten(s, KeyOf(q), found, newLock, lockedAt + Ttl(q.kind));
      && TablesOk(s', now) && CoversTill(s', KeyOf(q), lockedAt + Ttl(q.kind)) && s'.runs == s.runs
      && forall k :: k != KeyOf(q) ==> KeySame(s, s', k)
  {
    hide LockWritten, IsLockFound, CoversTill, SingleRow, Spaced, TimesOk, QueueOk, Covered, Live, TtlFits, Ttl;
    var end := lockedAt + Ttl(q.kind);
    var s' := LockWritten(s, KeyOf(q), found, newLock, end);
    WrittenRows(s, KeyOf(q), found, newLock, end);
    WrittenCovers(s, s', q, lockedAt);
    RunFacts(s, s', now);
  }

  lemma WrittenCovers(s: State, s': State, q: Request, lockedAt: int)
    requires Covered(s) && IsKey(q.key) && TtlFits(s, q, lockedAt) && s'.runs == s.runs
    requires CoversTill(s', KeyOf(q), lockedAt + Ttl(q.kind))
    requires forall l :: l in s.locks && s.locks[l].key != KeyOf(q) ==> l in s'.locks && s'.locks[l] == s.locks[l]
    requires forall l :: l in s'.locks && s'.locks[l].key != KeyOf(q) ==> l in s.locks && s.locks[l] == s'.locks[l]
    ensures Covered(s')
  {
    hide CoversTill, Ttl;
    forall id | id in s'.runs ensures IsCovered(s', s'.runs[id]) {
      assert IsCovered(s, s.runs[id]);
      CoverCarries(s, s', s.runs[id], q, lockedAt + Ttl(q.kind));
    }
  }

  /** What depends on the run table alone. */
  lemma RunFacts(s: State, s': State, now: int)
    requires s'.runs == s.runs && s'.pending == s.pending && s'.inHand == s.inHand
    ensures TimesOk(s', now) == TimesOk(s, now) && QueueOk(s') == QueueOk(s) && Spaced(s') == Spaced(s)
  {
  }

  lemma CoverCarries(s: State, s': State, r: JobRun, q: Request, end: int)
    requires IsCovered(s, r) && IsKey(q.key) && CoversTill(s', KeyOf(q), end)
    requires Live(r) && IsOn(r, KeyOf(q)) ==> r.lockedAt + Ttl(r.kind) <= end
    requires forall l :: l in s.locks && s.locks[l].key != KeyOf(q) ==> l in s'.locks && s'.locks[l] == s.locks[l]
    requires forall l :: l in s'.locks && s'.locks[l].key != KeyOf(q) ==> l in s.locks && s.locks[l] == s'.locks[l]
    ensures IsCovered(s', r)
  {
    if Live(r) && IsKey(r.key) && LockKey(r.org, r.key.value) != KeyOf(q) {
      var l :| l in s.locks && s.locks[l].key == LockKey(r.org, r.key.value);
      assert l in s'.locks && s'.locks[l].key == LockKey(r.org, r.key.value);
    }
  }

  lemma QuietAsRuns(s: State, s': State, q: Request, t: int)
    requires s'.runs == s.runs && IsQuiet(s, q, t)
    ensures IsQuiet(s', q, t)
  {
  }

  lemma WritesTo(w: World, t: Tid, lockedAt: int, newLock: LockId)
    requires Enabled(w, WriteLock(t, lockedAt, newLock)) && Fits(w.s, w.now, ThreadOf(w, t))
    ensures var th := ThreadOf(w, t);
      Apply(w, WriteLock(t, lockedAt, newLock))
      == Put(w, t, LockWritten(w.s, KeyOf(th.q), th.found, newLock, lockedAt + Ttl(th.q.kind)),
             Locked(th.q, th.checkedAt, lockedAt))
  {
  }

  lemma WriteKeeps(w: World, t: Tid, lockedAt: int, newLock: LockId)
    requires Inv(w) && Enabled(w, WriteLock(t, lockedAt, newLock)) && Allowed(w, WriteLock(t, lockedAt, newLock))
    ensures Inv(Apply(w, WriteLock(t, lockedAt, newLock)))
  {
    hide Sound, TablesOk, CoversTill, TtlFits, Apply, LockWritten, IsQuiet, KeySame, ThreadOk, Ttl;
    StepKeepsSound(w, WriteLock(t, lockedAt, newLock));
    CallerFacts(w, t);
    WritesTo(w, t, lockedAt, newLock);
    var th := w.threads[t];
    assert BusyOn(th, KeyOf(th.q));
    WrittenTables(w.s, w.now, th.q, th.found, newLock, lockedAt);
    var s' := LockWritten(w.s, KeyOf(th.q), th.found, newLock, lockedAt + Ttl(th.q.kind));
    QuietAsRuns(w.s, s', th.q, th.checkedAt);
    PutKeepsInv(w, t, s', Locked(th.q, th.checkedAt, lockedAt));
  }

  /** A new run of a job whose live runs have had their time. */
  lemma InsertedTables(s: State, now: int, q: Request, checkedAt: int, lockedAt: int, id: RunId)
    requires TablesOk(s, now) && checkedAt <= lockedAt <= now && id !in s.runs
    requires IsKey(q.key) ==> IsQuiet(s, q, checkedAt) && CoversTill(s, KeyOf(q), lockedAt + Ttl(q.kind))
    ensures TablesOk(RunInserted(s, id, q, lockedAt, now), now)
    ensures forall k :: !(IsKey(q.key) && k == KeyOf(q)) ==> KeySame(s, RunInserted(s, id, q, lockedAt, now), k)
  {
    hide Spaced, CoversTill, IsQuiet, Ttl;
    var s' := RunInserted(s, id, q, lockedAt, now);
    InsertedSpaced(s, now, q, checkedAt, lockedAt, id);
    forall i | i in s'.runs ensures IsCovered(s', s'.runs[i]) {
      if i != id { assert IsCovered(s, s.runs[i]); }
      CoversTillCarries(s, s', s'.runs[i]);
    }
  }

  lemma InsertedSpaced(s: State, now: int, q: Request, checkedAt: int, lockedAt: int, id: RunId)
    requires Spaced(s) && checkedAt <= now && id !in s.runs
    requires IsKey(q.key) ==> IsQuiet(s, q, checkedAt)
    ensures Spaced(RunInserted(s, id, q, lockedAt, now))
  {
    hide Ttl;
    var s' := RunInserted(s, id, q, lockedAt, now);
    forall i | i in s.runs && BothLive(s.runs[i], s'.runs[id])
      ensures FarApart(s.runs[i], s'.runs[id]) && FarApart(s'.runs[id], s.runs[i])
    {
      assert Matches(s.runs[i], q);
    }
  }

  lemma CoversTillCarries(s: State, s': State, r: JobRun)
    requires s'.locks == s.locks && IsCovered(s, r)
    ensures IsCovered(s', r)
  {
  }

  lemma InsertKeeps(w: World, t: Tid, id: RunId)
    requires Inv(w) && Enabled(w, InsertRun(t, id))
    ensures Inv(Apply(w, InsertRun(t, id)))
  {
    StepKeepsSound(w, InsertRun(t, id));
    CallerFacts(w, t);
    hide Inv, Sound, TablesOk, IsQuiet, CoversTill, RunInserted, KeySame;
    var th := w.threads[t];
    assert IsKey(th.q.key) ==> BusyOn(th, KeyOf(th.q));
    InsertedTables(w.s, w.now, th.q, th.checkedAt, th.lockedAt, id);
    PutKeepsInv(w, t, RunInserted(w.s, id, th.q, th.lockedAt, w.now), Inserted(th.q, id));
  }

  lemma PushKeeps(w: World, t: Tid, ok: bool)
    requires Inv(w) && Enabled(w, Push(t, ok))
    ensures Inv(Apply(w, Push(t, ok)))
  {
    StepKeepsSound(w, Push(t, ok));
    CallerFacts(w, t);
    hide Inv, Sound, CoversTill, IsCovered, FarApart;
    var th := w.threads[t];
    var s' := if ok then Pushed(w.s, th.id) else w.s;
    forall i | i in s'.runs ensures IsCovered(s', s'.runs[i]) { CoversTillCarries(w.s, s', w.s.runs[i]); }
    PutKeepsInv(w, t, s', Idle);
  }

  lemma QuietStepKeeps(w: World, a: Action)
    requires Inv(w) && Enabled(w, a) && (a.BeginKeyless? || a.Crash?)
    ensures Inv(Apply(w, a))
  {
    StepKeepsSound(w, a);
    PutKeepsInv(w, a.t, w.s, Apply(w, a).threads[a.t]);
  }

  // ----- the worker -----

  lemma WorkerTables(s: State, s': State, id: RunId, now: int)
    requires TablesOk(s, now) && id in s.pending + s.inHand && s'.locks == s.locks
    requires id in s'.runs && s'.runs == s.runs[id := s'.runs[id]] && SameRun(s.runs[id], s'.runs[id])
    requires s'.pending !! s'.inHand && s'.pending + s'.inHand <= s.pending + s.inHand
    requires id in s'.pending + s'.inHand ==> Live(s'.runs[id])
    ensures TablesOk(s', now) && forall k :: KeySame(s, s', k)
  {
    forall i | i in s'.runs ensures IsCovered(s', s'.runs[i]) {
      assert IsCovered(s, s.runs[i]);
      CoversTillCarries(s, s', s.runs[i]);
    }
    forall i, j | i in s'.runs && j in s'.runs && i != j && BothLive(s'.runs[i], s'.runs[j])
      ensures FarApart(s'.runs[i], s'.runs[j])
    {
      assert BothLive(s.runs[i], s.runs[j]);
    }
  }

  lemma WorkerKeeps(w: World, a: Action)
    requires Inv(w) && Enabled(w, a) && (a.Start? || a.Stall? || a.Finish?)
    ensures Inv(Apply(w, a))
  {
    StepKeepsSound(w, a);
    var s' := Apply(w, a).s;
    assert a.id in w.s.pending + w.s.inHand;
    WorkerTables(w.s, s', a.id, w.now);
    forall t | t in w.threads ensures Fits(s', w.now, w.threads[t]) {
      FitsCarries(w.s, w.now, s', w.now, w.threads[t]);
    }
  }

  lemma WaitKeeps(w: World, ms: nat)
    requires Inv(w)
    ensures Inv(Apply(w, Wait(ms)))
  {
    StepKeepsSound(w, Wait(ms));
    forall t | t in w.threads ensures Fits(w.s, w.now + ms, w.threads[t]) {
      FitsCarries(w.s, w.now, w.s, w.now + ms, w.threads[t]);
    }
  }

  lemma StepKeepsInv(w: World, a: Action)
    requires Inv(w) && (Enabled(w, a) ==> Allowed(w, a))
    ensures Inv(Apply(w, a))
  {
    hide Inv;
    if Enabled(w, a) {
      match a
      case Wait(ms) => WaitKeeps(w, ms);
      case ReadLock(t, q, found) => ReadKeeps(w, t, q, found);
      case Check(t) => CheckKeeps(w, t);
      case WriteLock(t, lockedAt, newLock) => WriteKeeps(w, t, lockedAt, newLock);
      case InsertRun(t, id) => InsertKeeps(w, t, id);
      case Push(t, ok) => PushKeeps(w, t, ok);
      case Start(_) => WorkerKeeps(w, a);
      case Stall(_) => WorkerKeeps(w, a);
      case Finish(_, _) => WorkerKeeps(w, a);
      case Retry(_, _) =>
      case _ => QuietStepKeeps(w, a);
    }
  }

  lemma {:induction false} RunKeepsInv(w: World, actions: seq<Action>)
    requires Inv(w) && Disciplined(w, actions)
    ensures Inv(Exec(w, actions))
    decreases |actions|
  {
    if actions != [] {
      StepKeepsInv(w, actions[0]);
      RunKeepsInv(Apply(w, actions[0]), actions[1..]);
    }
  }

  /**
   * From an empty system, while every lock write meets the TTL condition and no two callers work on
   * one key at once: of two live runs of one organisation, key and type, the later was created no
   * earlier than the type's TTL after the earlier wrote its lock.
   */
  lemma ReachableFarApart(now: int, actions: seq<Action>, i: RunId, j: RunId)
    requires Disciplined(World(EMPTY, now, map[]), actions)
    requires var runs := Exec(World(EMPTY, now, map[]), actions).s.runs;
             i in runs && j in runs && i != j && BothLive(runs[i], runs[j])
    ensures var runs := Exec(World(EMPTY, now, map[]), actions).s.runs; FarApart(runs[i], runs[j])
  {
    RunKeepsInv(World(EMPTY, now, map[]), actions);
  }

  /** A key used by one job type only meets the TTL condition by itself. */
  lemma OneTypeFits(w: World, t: Tid, lockedAt: int)
    requires Inv(w) && ThreadOf(w, t).Passed? && ThreadOf(w, t).checkedAt <= lockedAt
    requires var q := ThreadOf(w, t).q;
             IsKey(q.key) && forall id :: id in w.s.runs && IsOn(w.s.runs[id], KeyOf(q)) ==> w.s.runs[id].kind == q.kind
    ensures TtlFits(w.s, ThreadOf(w, t).q, lockedAt)
  {
    var q := ThreadOf(w, t).q;
    assert Fits(w.s, w.now, w.threads[t]);
    forall id | id in w.s.runs && Live(w.s.runs[id]) && IsOn(w.s.runs[id], KeyOf(q))
      ensures w.s.runs[id].lockedAt + Ttl(w.s.runs[id].kind) <= lockedAt + Ttl(q.kind)
    {
      assert Matches(w.s.runs[id], q);
    }
  }

  // ----- one job type per key -----

  /** No retry, and one caller at a time on a key. */
  ghost predicate TakesTurns(w: World, actions: seq<Action>)
    decreases |actions|
  {
    actions != [] ==>
      && (Enabled(w, actions[0]) ==> IsTurn(w, actions[0]))
      && TakesTurns(Apply(w, actions[0]), actions[1..])
  }

  ghost predicate IsTurn(w: World, a: Action) {
    !a.Retry? && (a.ReadLock? && IsKey(a.q.key) ==> forall u :: u in w.threads ==> !BusyOn(w.threads[u], KeyOf(a.q)))
  }

  /** Every request on a key is for the key's one job type. */
  predicate RequestFits(q: Request, kinds: LockKey -> JobType) { IsKey(q.key) ==> q.kind == kinds(KeyOf(q)) }

  predicate AsksFor(a: Action, kinds: LockKey -> JobType) { a.ReadLock? ==> RequestFits(a.q, kinds) }

  predicate ThreadKind(th: Thread, kinds: LockKey -> JobType) {
    match th
    case LockRead(q, _, _) => RequestFits(q, kinds)
    case Passed(q, _, _) => RequestFits(q, kinds)
    case Locked(q, _, _) => RequestFits(q, kinds)
    case _ => true
  }

  ghost predicate KindsOk(w: World, kinds: LockKey -> JobType) {
    && (forall id :: id in w.s.runs && IsKey(w.s.runs[id].key) ==>
          w.s.runs[id].kind == kinds(LockKey(w.s.runs[id].org, w.s.runs[id].key.value)))
    && (forall t :: t in w.threads ==> ThreadKind(w.threads[t], kinds))
  }

  lemma StepKeepsKinds(w: World, a: Action, kinds: LockKey -> JobType)
    requires KindsOk(w, kinds) && AsksFor(a, kinds)
    ensures KindsOk(Apply(w, a), kinds)
  {
  }

  lemma TurnIsAllowed(w: World, a: Action, kinds: LockKey -> JobType)
    requires Inv(w) && KindsOk(w, kinds) && Enabled(w, a) && IsTurn(w, a)
    ensures Allowed(w, a)
  {
    if a.WriteLock? {
      var q := ThreadOf(w, a.t).q;
      assert ThreadKind(w.threads[a.t], kinds);
      forall id | id in w.s.runs && IsOn(w.s.runs[id], KeyOf(q)) ensures w.s.runs[id].kind == q.kind {
        assert KeyOf(q) == LockKey(w.s.runs[id].org, w.s.runs[id].key.value);
      }
      OneTypeFits(w, a.t, a.lockedAt);
    }
  }

  lemma {:induction false} TurnsAreDisciplined(w: World, actions: seq<Action>, kinds: LockKey -> JobType)
    requires Inv(w) && KindsOk(w, kinds) && TakesTurns(w, actions) && forall a :: a in actions ==> AsksFor(a, kinds)
    ensures Disciplined(w, actions)
    decreases |actions|
  {
    hide Inv, KindsOk, IsTurn, Allowed, Apply, Enabled;
    if actions != [] {
      var a := actions[0];
      assert a in actions && forall b :: b in actions[1..] ==> b in actions;
      if Enabled(w, a) { TurnIsAllowed(w, a, kinds); }
      StepKeepsInv(w, a);
      StepKeepsKinds(w, a, kinds);
      TurnsAreDisciplined(Apply(w, a), actions[1..], kinds);
    }
  }

  /**
   * When every key belongs to one job type, nothing is retried and callers of one key take turns,
   * live runs of one job lie a TTL apart, over any run from an empty system.
   */
  lemma OneTypeFarApart(now: int, actions: seq<Action>, kinds: LockKey -> JobType, i: RunId, j: RunId)
    requires TakesTurns(World(EMPTY, now, map[]), actions) && forall a :: a in actions ==> AsksFor(a, kinds)
    requires var runs := Exec(World(EMPTY, now, map[]), actions).s.runs;
             i in runs && j in runs && i != j && BothLive(runs[i], runs[j])
    ensures var runs := Exec(World(EMPTY, now, map[]), actions).s.runs; FarApart(runs[i], runs[j])
  {
    TurnsAreDisciplined(World(EMPTY, now, map[]), actions, kinds);
    ReachableFarApart(now, actions, i, j);
  }
}
