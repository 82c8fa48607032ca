/**
 * The WhatsApp inbox: one thread per phone and integration, fed by inbound messages and worked on
 * by assigning, reading, answering and closing it. Calls run one at a time; timestamps are ms.
 */
module Inbox {
  import opened Prelude

  type ThreadId = string
  type UserId = string

  datatype ThreadStatus = OPEN | PENDING | CLOSED

  datatype Thread = Thread(
    phone: string,
    integration: Option<string>,
    status: ThreadStatus,
    assignee: Option<UserId>,
    unread: nat,
    unreplied: bool,
    unrepliedSince: Option<int>)

  datatype Message = Message(thread: ThreadId, providerId: string)

  datatype Db = Db(threads: map<ThreadId, Thread>, messages: seq<Message>)

  /** An inbound webhook event; the provider id may be missing (empty). */
  datatype Event = Event(phone: string, providerId: string, integration: Option<string>, now: int)

  datatype InboxError = MISSING_PHONE | ACCESS_DENIED | THREAD_NOT_FOUND | ALREADY_ASSIGNED | THREAD_CLOSED
    | LEAD_OPTED_OUT_CHANNEL

  // ----- specification -----

  /** The rows the thread lookup may return; without an integration any thread of the phone will do. */
  predicate Fits(t: Thread, e: Event) {
    t.phone == e.phone && (e.integration.Some? ==> t.integration == e.integration)
  }

  predicate HasThread(db: Db, e: Event) { exists t :: t in db.threads && Fits(db.threads[t], e) }

  predicate Known(db: Db, providerId: string) { exists m :: m in db.messages && m.providerId == providerId }

  predicate IsDuplicate(db: Db, e: Event) { e.providerId != "" && Known(db, e.providerId) }

  function NewThread(e: Event): Thread {
    Thread(e.phone, e.integration, OPEN, None, 0, true, Some(e.now))
  }

  function Touched(t: Thread, now: int): Thread {
    t.(unreplied := true,
       unrepliedSince := if t.unrepliedSince.None? then Some(now) else t.unrepliedSince,
       unread := if t.assignee.Some? then t.unread + 1 else t.unread,
       status := if t.status == CLOSED then OPEN else t.status)
  }

  function Opened(db: Db, t: ThreadId, e: Event): Db {
    if t in db.threads then db else db.(threads := db.threads[t := NewThread(e)])
  }

  /** Effect of an event on its thread t; the thread is opened before the duplicate check. */
  function Received(db: Db, t: ThreadId, e: Event): Db {
    var db1 := Opened(db, t, e);
    if IsDuplicate(db, e) then db1
    else Db(db1.threads[t := Touched(db1.threads[t], e.now)], db1.messages + [Message(t, e.providerId)])
  }

  function AssigneeWritten(db: Db, t: ThreadId, user: UserId): Db {
    if t in db.threads then db.(threads := db.threads[t := db.threads[t].(assignee := Some(user))]) else db
  }

  function Assigned(db: Db, t: ThreadId, user: UserId): Db {
    if t in db.threads && db.threads[t].assignee.None? then AssigneeWritten(db, t, user) else db
  }

  function MarkedRead(db: Db, t: ThreadId): Db {
    if t in db.threads then db.(threads := db.threads[t := db.threads[t].(unread := 0)]) else db
  }

  function StatusSet(db: Db, t: ThreadId, status: ThreadStatus): Db {
    if t !in db.threads then db
    else
      var th := db.threads[t].(status := status);
      db.(threads := db.threads[t := if status == CLOSED then th.(unreplied := false, unrepliedSince := None) else th])
  }

  // ----- the service -----

  class InboxService {
    var db: Db

    constructor ()
      ensures db == Db(map[], [])
    {
      db := Db(map[], []);
    }

    /** The inbound processor; `newId` is the id a new thread would get. */
    method Process(e: Event, newId: ThreadId) returns (r: Result<ThreadId, InboxError>)
      requires newId !in db.threads
      modifies this
      ensures r == Err(MISSING_PHONE) <==> e.phone == ""
      ensures r.Err? ==> r == Err(MISSING_PHONE) && db == old(db)
      ensures r.Ok? ==> db == Received(old(db), r.value, e)
      ensures r.Ok? ==> r.value in db.threads && db.threads[r.value].phone == e.phone
                        && (e.integration.Some? ==> db.threads[r.value].integration == e.integration)
      ensures r.Ok? ==> r.value == newId || r.value in old(db).threads
      ensures r.Ok? ==> Lands(old(db), r.value, e)
    {
      if e.phone == "" { return Err(MISSING_PHONE); }
      var t := newId;
      if exists x :: x in db.threads && Fits(db.threads[x], e) {
        t :| t in db.threads && Fits(db.threads[t], e);
      } else {
        db := db.(threads := db.threads[t := NewThread(e)]);
      }
      if e.providerId != "" && exists m :: m in db.messages && m.providerId == e.providerId { return Ok(t); }
      var thread := db.threads[t];
      var update := thread.(unreplied := true);
      if thread.unrepliedSince.None? { update := update.(unrepliedSince := Some(e.now)); }
      if thread.assignee.Some? { update := update.(unread := thread.unread + 1); }
      if thread.status == CLOSED { update := update.(status := OPEN); }
      db := Db(db.threads[t := update], db.messages + [Message(t, e.providerId)]);
      return Ok(t);
    }

    /** `assign` by a manager. */
    method AssignTo(t: ThreadId, user: UserId, isManager: bool, isMember: bool) returns (r: Result<(), InboxError>)
      modifies this
      ensures r.Ok? <==> isManager && isMember && t in old(db).threads && old(db).threads[t].assignee.None?
      ensures r == Err(THREAD_NOT_FOUND) <==> isManager && t !in old(db).threads
      ensures r == Err(ALREADY_ASSIGNED) <==>
                isManager && t in old(db).threads && old(db).threads[t].assignee.Some?
      ensures r.Err? ==> r.error in {ACCESS_DENIED, THREAD_NOT_FOUND, ALREADY_ASSIGNED}
      ensures db == if r.Ok? then Assigned(old(db), t, user) else old(db)
    {
      if !isManager { return Err(ACCESS_DENIED); }
      if t !in db.threads { return Err(THREAD_NOT_FOUND); }
      if db.threads[t].assignee.Some? { return Err(ALREADY_ASSIGNED); }
      if !isMember { return Err(ACCESS_DENIED); }
      db := db.(threads := db.threads[t := db.threads[t].(assignee := Some(user))]);
      return Ok(());
    }

    method Claim(t: ThreadId, user: UserId) returns (r: Result<(), InboxError>)
      modifies this
      ensures db == Assigned(old(db), t, user)
      ensures r.Ok? <==> t in old(db).threads && old(db).threads[t].assignee.None?
      ensures r == Err(ALREADY_ASSIGNED) <==> t in old(db).threads && old(db).threads[t].assignee.Some?
      ensures r == Err(THREAD_NOT_FOUND) <==> t !in old(db).threads
    {
      if t !in db.threads { return Err(THREAD_NOT_FOUND); }
      if db.threads[t].assignee.Some? { return Err(ALREADY_ASSIGNED); }
      db := db.(threads := db.threads[t := db.threads[t].(assignee := Some(user))]);
      return Ok(());
    }

    method MarkRead(t: ThreadId, visible: bool) returns (r: Result<(), InboxError>)
      modifies this
      ensures r.Ok? <==> t in old(db).threads && visible
      ensures r.Err? ==> r.error == THREAD_NOT_FOUND
      ensures db == if r.Ok? then MarkedRead(old(db), t) else old(db)
    {
      if t !in db.threads || !visible { return Err(THREAD_NOT_FOUND); }
      db := db.(threads := db.threads[t := db.threads[t].(unread := 0)]);
      return Ok(());
    }

    method ChangeStatus(t: ThreadId, status: ThreadStatus, visible: bool) returns (r: Result<(), InboxError>)
      modifies this
      ensures r.Ok? <==> t in old(db).threads && visible
      ensures r.Err? ==> r.error == THREAD_NOT_FOUND
      ensures db == if r.Ok? then StatusSet(old(db), t, status) else old(db)
    {
      if t !in db.threads || !visible { return Err(THREAD_NOT_FOUND); }
      var update := db.threads[t].(status := status);
      if status == CLOSED { update := update.(unreplied := false, unrepliedSince := None); }
      db := db.(threads := db.threads[t := update]);
      return Ok(());
    }

    /** `sendMessage`: queues an answer unless the linked lead has opted out; the thread row is not written. */
    method SendMessage(t: ThreadId, visible: bool, optedOut: bool) returns (r: Result<(), InboxError>)
      modifies this
      ensures r.Ok? <==> t in old(db).threads && visible && old(db).threads[t].status != CLOSED && !optedOut
      ensures r == Err(THREAD_NOT_FOUND) <==> t !in old(db).threads || !visible
      ensures r == Err(THREAD_CLOSED) <==> t in old(db).threads && visible && old(db).threads[t].status == CLOSED
      ensures r == Err(LEAD_OPTED_OUT_CHANNEL) <==>
                t in old(db).threads && visible && old(db).threads[t].status != CLOSED && optedOut
      ensures db == if r.Ok? then Sent(old(db), t) else old(db)
    {
      if t !in db.threads || !visible { return Err(THREAD_NOT_FOUND); }
      if db.threads[t].status == CLOSED { return Err(THREAD_CLOSED); }
      if optedOut { return Err(LEAD_OPTED_OUT_CHANNEL); }
      db := db.(messages := db.messages + [Message(t, "")]);
      return Ok(());
    }
  }

  function Sent(db: Db, t: ThreadId): Db {
    if t in db.threads && db.threads[t].status != CLOSED then db.(messages := db.messages + [Message(t, "")]) else db
  }

  // ----- runs -----

  /** `Inbound` carries the thread its event ends up in. */
  datatype Op =
    | Inbound(t: ThreadId, e: Event)
    | Assign(t: ThreadId, user: UserId)
    | Read(t: ThreadId)
    | Status(t: ThreadId, status: ThreadStatus)
    | Send(t: ThreadId)

  function Step(db: Db, op: Op): Db {
    match op
    case Inbound(t, e) => Received(db, t, e)
    case Assign(t, user) => Assigned(db, t, user)
    case Read(t) => MarkedRead(db, t)
    case Status(t, status) => StatusSet(db, t, status)
    case Send(t) => Sent(db, t)
  }

  function After(ops: seq<Op>): Db {
    if ops == [] then Db(map[], []) else Step(After(ops[..|ops| - 1]), ops[|ops| - 1])
  }

  ghost predicate ThreadOk(t: Thread) {
    && (t.status == CLOSED ==> !t.unreplied)
    && (t.unreplied <==> t.unrepliedSince.Some?)
    && (t.assignee.None? ==> t.unread == 0)
  }

  /** No provider id is stored twice. */
  ghost predicate DistinctIds(db: Db) {
    forall i, j :: 0 <= i < j < |db.messages| && db.messages[i].providerId != "" ==>
      db.messages[i].providerId != db.messages[j].providerId
  }

  lemma StepKeepsThreads(db: Db, op: Op)
    requires forall t :: t in db.threads ==> ThreadOk(db.threads[t])
    ensures forall t :: t in Step(db, op).threads ==> ThreadOk(Step(db, op).threads[t])
  {
  }

  lemma AppendKeepsIds(db: Db, m: Message, after: Db)
    requires DistinctIds(db) && after.messages == db.messages + [m] && (m.providerId == "" || !Known(db, m.providerId))
    ensures DistinctIds(after)
  {
    forall i, j | 0 <= i < j < |after.messages| && after.messages[i].providerId != ""
      ensures after.messages[i].providerId != after.messages[j].providerId
    {
      assert after.messages[i] == db.messages[i] && db.messages[i] in db.messages;
    }
  }

  lemma StepKeepsIds(db: Db, op: Op)
    requires DistinctIds(db)
    ensures DistinctIds(Step(db, op))
  {
    var after := Step(db, op);
    if after.messages != db.messages {
      AppendKeepsIds(db, Message(op.t, if op.Inbound? then op.e.providerId else ""), after);
    }
  }

  /**
   * In every reachable state: a closed thread waits for no answer, a thread waits exactly when its
   * waiting time is known, an unassigned thread counts nothing, and no message is stored twice.
   */
  lemma {:induction false} Reachable(ops: seq<Op>)
    ensures forall t :: t in After(ops).threads ==> ThreadOk(After(ops).threads[t])
    ensures DistinctIds(After(ops))
    decreases |ops|
  {
    if ops != [] {
      var before := ops[..|ops| - 1];
      Reachable(before);
      StepKeepsThreads(After(before), ops[|ops| - 1]);
      StepKeepsIds(After(before), ops[|ops| - 1]);
    }
  }

  /** What one operation adds to the count of new messages, or that it clears it. */
  function NewAfter(db: Db, op: Op, t: ThreadId, count: nat): nat {
    if op.t != t then count
    else match op
      case Inbound(_, e) => count + if IsDuplicate(db, e) then 0 else 1
      case Assign(_, _) => if t in db.threads && db.threads[t].assignee.None? then 0 else count
      case Read(_) => 0
      case _ => count
  }

  /** Distinct messages stored for the thread since it was last assigned or read, whichever is later. */
  function NewSince(ops: seq<Op>, t: ThreadId): nat {
    if ops == [] then 0
    else NewAfter(After(ops[..|ops| - 1]), ops[|ops| - 1], t, NewSince(ops[..|ops| - 1], t))
  }

  lemma StepKeepsUnread(db: Db, op: Op, t: ThreadId, count: nat)
    requires forall t :: t in db.threads ==> ThreadOk(db.threads[t])
    requires t in db.threads && db.threads[t].assignee.Some? ==> db.threads[t].unread == count
    ensures var after := Step(db, op);
      t in after.threads && after.threads[t].assignee.Some? ==> after.threads[t].unread == NewAfter(db, op, t, count)
  {
  }

  /** The unread counter of an assigned thread is the number of distinct messages since it was assigned or read. */
  lemma {:induction false} UnreadIsNewSince(ops: seq<Op>, t: ThreadId)
    requires t in After(ops).threads
    ensures After(ops).threads[t].unread == if After(ops).threads[t].assignee.Some? then NewSince(ops, t) else 0
    decreases |ops|
  {
    hide Step, NewAfter;
    Reachable(ops);
    if ops != [] {
      var before := ops[..|ops| - 1];
      Reachable(before);
      if t in After(before).threads { UnreadIsNewSince(before, t); }
      StepKeepsUnread(After(before), ops[|ops| - 1], t, NewSince(before, t));
    }
  }

  lemma StepKeepsAssignee(db: Db, op: Op, t: ThreadId)
    requires t in db.threads && db.threads[t].assignee.Some?
    ensures t in Step(db, op).threads && Step(db, op).threads[t].assignee == db.threads[t].assignee
  {
  }

  /** Once written, the assignee never changes. */
  lemma {:induction false} AssigneeWrittenOnce(ops: seq<Op>, more: seq<Op>, t: ThreadId)
    requires t in After(ops).threads && After(ops).threads[t].assignee.Some?
    ensures t in After(ops + more).threads && After(ops + more).threads[t].assignee == After(ops).threads[t].assignee
    decreases |more|
  {
    hide Step;
    if more == [] {
      assert ops + more == ops;
    } else {
      var n := |more| - 1;
      AssigneeWrittenOnce(ops, more[..n], t);
      AfterOneMore(ops, more);
      StepKeepsAssignee(After(ops + more[..n]), more[n], t);
    }
  }

  lemma AfterOneMore(ops: seq<Op>, more: seq<Op>)
    requires more != []
    ensures After(ops + more) == Step(After(ops + more[..|more| - 1]), more[|more| - 1])
  {
    hide Step;
    ConcatLast(ops, more);
    assert ops + more != [];
  }

  lemma StepKeepsWaiting(db: Db, op: Op, t: ThreadId)
    requires t in db.threads && ThreadOk(db.threads[t]) && db.threads[t].unreplied && op != Status(t, CLOSED)
    ensures t in Step(db, op).threads && Step(db, op).threads[t].unreplied
    ensures Step(db, op).threads[t].unrepliedSince == db.threads[t].unrepliedSince
  {
  }

  /** Answering does not help: a thread keeps waiting, since the same moment, until it is closed. */
  lemma {:induction false} WaitsUntilClosed(ops: seq<Op>, more: seq<Op>, t: ThreadId)
    requires t in After(ops).threads && After(ops).threads[t].unreplied
    requires forall op :: op in more ==> op != Status(t, CLOSED)
    ensures t in After(ops + more).threads && After(ops + more).threads[t].unreplied
    ensures After(ops + more).threads[t].unrepliedSince == After(ops).threads[t].unrepliedSince
    decreases |more|
  {
    hide Step;
    if more == [] {
      assert ops + more == ops;
    } else {
      var n := |more| - 1;
      assert more[n] in more && forall op :: op in more[..n] ==> op in more;
      WaitsUntilClosed(ops, more[..n], t);
      AfterOneMore(ops, more);
      Reachable(ops + more[..n]);
      StepKeepsWaiting(After(ops + more[..n]), more[n], t);
    }
  }

  // ----- where the order of the code shows -----

  /**
   * An event is stored at most once, but a repeated one still opens a thread when none fits its phone and
   * integration.
   */
  lemma DuplicateOpensThreadIff(db: Db, t: ThreadId, e: Event)
    requires IsDuplicate(db, e) && (HasThread(db, e) <==> t in db.threads)
    ensures Received(db, t, e).messages == db.messages
    ensures Received(db, t, e) != db <==> !HasThread(db, e)
    ensures !HasThread(db, e) ==> Received(db, t, e).threads[t].unreplied
  {
    if !HasThread(db, e) { assert t in Received(db, t, e).threads; }
  }

  /** A claim that read the row `seen` and writes now. */
  function ClaimWritten(db: Db, t: ThreadId, user: UserId, seen: Thread): Db {
    if seen.assignee.None? then AssigneeWritten(db, t, user) else db
  }

  /** The first user that these operations try to assign the thread to. */
  function FirstAssignee(ops: seq<Op>, t: ThreadId): Option<UserId> {
    if ops == [] then None
    else
      var earlier, op := FirstAssignee(ops[..|ops| - 1], t), ops[|ops| - 1];
      if earlier.Some? then earlier else if op.Assign? && op.t == t then Some(op.user) else None
  }

  lemma StepAssigns(db: Db, op: Op, t: ThreadId)
    requires t in db.threads
    ensures t in Step(db, op).threads
    ensures Step(db, op).threads[t].assignee ==
            if db.threads[t].assignee.None? && op.Assign? && op.t == t then Some(op.user) else db.threads[t].assignee
  {
  }

  lemma {:induction false} AssigneeAfter(ops: seq<Op>, more: seq<Op>, t: ThreadId)
    requires t in After(ops).threads
    ensures t in After(ops + more).threads
    ensures After(ops + more).threads[t].assignee ==
            if After(ops).threads[t].assignee.Some? then After(ops).threads[t].assignee else FirstAssignee(more, t)
    decreases |more|
  {
    hide Step;
    if more == [] {
      assert ops + more == ops;
    } else {
      var n := |more| - 1;
      AssigneeAfter(ops, more[..n], t);
      AfterOneMore(ops, more);
      StepAssigns(After(ops + more[..n]), more[n], t);
    }
  }

  /**
   * A claim that reads the thread and writes only after other calls takes it from its assignee if
   * and only if the thread was free when read and the first of those calls to assign it named
   * somebody else. In particular this is what happens to two overlapping claims.
   */
  lemma LateClaimOverwritesIff(ops: seq<Op>, between: seq<Op>, t: ThreadId, user: UserId)
    requires t in After(ops).threads
    ensures var seen, db := After(ops).threads[t], After(ops + between);
      && t in db.threads
      && (db.threads[t].assignee.Some? && ClaimWritten(db, t, user, seen).threads[t].assignee != db.threads[t].assignee
          <==> seen.assignee.None? && FirstAssignee(between, t).Some? && FirstAssignee(between, t) != Some(user))
  {
    AssigneeAfter(ops, between, t);
  }

  /** A claim whose write follows its read is the `Assigned` of the runs above. */
  lemma PromptClaim(ops: seq<Op>, t: ThreadId, user: UserId)
    requires t in After(ops).threads
    ensures ClaimWritten(After(ops), t, user, After(ops).threads[t]) == After(ops + [Assign(t, user)])
  {
    AfterOneMore(ops, [Assign(t, user)]);
    assert ops + [Assign(t, user)][..0] == ops;
  }

  // ----- whose thread a message ends in -----

  /**
   * Thread t takes the event: a stored thread of its phone and, if it names one, its integration; or
   * a new thread, when there is none.
   */
  ghost predicate Lands(db: Db, t: ThreadId, e: Event) {
    if t in db.threads
    then db.threads[t].phone == e.phone && (e.integration.Some? ==> db.threads[t].integration == e.integration)
    else forall x :: x in db.threads ==>
           || db.threads[x].phone != e.phone
           || (e.integration.Some? && db.threads[x].integration != e.integration)
  }

  /** What an event leaves, row by row; an id that was stored before adds no message. */
  lemma ReceivedOutcome(db: Db, t: ThreadId, e: Event)
    ensures var after := Received(db, t, e);
            var repeated := e.providerId != "" && exists m :: m in db.messages && m.providerId == e.providerId;
      && t in after.threads && after.threads.Keys == db.threads.Keys + {t}
      && (forall x :: x in db.threads && x != t ==> after.threads[x] == db.threads[x])
      && after.messages == (if repeated then db.messages else db.messages + [Message(t, e.providerId)])
      && (t !in db.threads ==>
            after.threads[t] == Thread(e.phone, e.integration, OPEN, None, 0, true, Some(e.now)))
      && (t in db.threads && repeated ==> after.threads[t] == db.threads[t])
      && (t in db.threads && !repeated ==>
            var row := db.threads[t];
            after.threads[t] == Thread(
              row.phone, row.integration, if row.status == CLOSED then OPEN else row.status, row.assignee,
              row.unread + if row.assignee.Some? then 1 else 0, true,
              if row.unrepliedSince.Some? then row.unrepliedSince else Some(e.now)))
  {
  }

  /** The other operations write one thing each: the free assignee, the counter, the status, or a message. */
  lemma OtherOutcome(db: Db, t: ThreadId, user: UserId, status: ThreadStatus)
    requires t in db.threads
    ensures var row := db.threads[t];
      && Step(db, Assign(t, user)) == Db(db.threads[t := Thread(
           row.phone, row.integration, row.status, if row.assignee.Some? then row.assignee else Some(user),
           row.unread, row.unreplied, row.unrepliedSince)], db.messages)
      && Step(db, Read(t)) == Db(db.threads[t := Thread(
           row.phone, row.integration, row.status, row.assignee, 0, row.unreplied, row.unrepliedSince)], db.messages)
      && Step(db, Status(t, status)) == Db(db.threads[t := Thread(
           row.phone, row.integration, status, row.assignee, row.unread,
           row.unreplied && status != CLOSED, if status == CLOSED then None else row.unrepliedSince)], db.messages)
      && Step(db, Send(t)) == Db(db.threads, db.messages + if row.status == CLOSED then [] else [Message(t, "")])
  {
    assert db.threads == db.threads[t := db.threads[t]] && db.messages == db.messages + [];
  }

  /** Every event of the run went to a thread that takes it. */
  ghost predicate AllLand(ops: seq<Op>) {
    forall i :: 0 <= i < |ops| && ops[i].Inbound? ==> Lands(After(ops[..i]), ops[i].t, ops[i].e)
  }

  ghost predicate OneThreadEach(db: Db) {
    forall x, y :: x in db.threads && y in db.threads && x != y ==>
      db.threads[x].phone != db.threads[y].phone || db.threads[x].integration != db.threads[y].integration
  }

  lemma StepKeepsRows(db: Db, op: Op)
    requires op.Inbound? ==> Lands(db, op.t, op.e)
    ensures Step(db, op).threads.Keys == if op.Inbound? then db.threads.Keys + {op.t} else db.threads.Keys
    ensures forall x :: x in db.threads ==>
      x in Step(db, op).threads && Step(db, op).threads[x].phone == db.threads[x].phone
      && Step(db, op).threads[x].integration == db.threads[x].integration
    ensures op.Inbound? ==> op.t in Step(db, op).threads && Step(db, op).threads[op.t].phone == op.e.phone
    ensures op.Inbound? && (op.e.integration.Some? || op.t !in db.threads) ==>
      Step(db, op).threads[op.t].integration == op.e.integration
  {
  }

  lemma StepKeepsThreadEach(db: Db, op: Op)
    requires OneThreadEach(db) && (op.Inbound? ==> Lands(db, op.t, op.e))
    ensures OneThreadEach(Step(db, op))
  {
    hide Step;
    StepKeepsRows(db, op);
  }

  lemma PrefixLands(ops: seq<Op>, n: nat)
    requires AllLand(ops) && n <= |ops|
    ensures AllLand(ops[..n])
  {
    forall i | 0 <= i < n && ops[..n][i].Inbound? ensures Lands(After(ops[..n][..i]), ops[..n][i].t, ops[..n][i].e) {
      assert ops[..n][..i] == ops[..i];
    }
  }

  /** Over any run there is never more than one thread for a phone and an integration. */
  lemma {:induction false} OneThreadPerPair(ops: seq<Op>)
    requires AllLand(ops)
    ensures OneThreadEach(After(ops))
    decreases |ops|
  {
    if ops != [] {
      hide Step;
      var n := |ops| - 1;
      PrefixLands(ops, n);
      OneThreadPerPair(ops[..n]);
      StepKeepsThreadEach(After(ops[..n]), ops[n]);
    }
  }

  /** The thread an event went to stays the thread of its phone and integration. */
  lemma {:induction false} ThreadOfEvent(ops: seq<Op>, i: nat)
    requires AllLand(ops) && i < |ops| && ops[i].Inbound?
    ensures ops[i].t in After(ops).threads && After(ops).threads[ops[i].t].phone == ops[i].e.phone
    ensures ops[i].e.integration.Some? ==> After(ops).threads[ops[i].t].integration == ops[i].e.integration
    decreases |ops|
  {
    hide Step;
    var n := |ops| - 1;
    PrefixLands(ops, n);
    OneThreadPerPair(ops[..n]);
    StepKeepsRows(After(ops[..n]), ops[n]);
    if i < n { ThreadOfEvent(ops[..n], i); }
  }

  /**
   * Over any run, with assigning, reading, answering and closing in between, two events that name an
   * integration end in one thread if and only if their phones and integrations are equal.
   */
  lemma SameThreadIff(ops: seq<Op>, i: nat, j: nat)
    requires AllLand(ops) && i < |ops| && j < |ops| && ops[i].Inbound? && ops[j].Inbound?
    requires ops[i].e.integration.Some? && ops[j].e.integration.Some?
    ensures ops[i].t == ops[j].t <==>
            ops[i].e.phone == ops[j].e.phone && ops[i].e.integration == ops[j].e.integration
  {
    hide After, AllLand;
    OneThreadPerPair(ops);
    ThreadOfEvent(ops, i);
    ThreadOfEvent(ops, j);
  }

  /**
   * No index backs this up. Two events of one phone and integration that both look for their thread
   * before either has written leave two threads if and only if there was none yet.
   */
  lemma OverlappingEventsSplitIff(db: Db, t: ThreadId, e: Event, t': ThreadId, e': Event)
    requires OneThreadEach(db) && Lands(db, t, e) && Lands(db, t', e')
    requires e.phone == e'.phone && e.integration == e'.integration && e.integration.Some?
    requires t !in db.threads && t' !in db.threads ==> t != t'
    ensures t in db.threads <==> t' in db.threads
    ensures OneThreadEach(Received(Received(db, t, e), t', e')) <==> t in db.threads
  {
    ReceivedOutcome(db, t, e);
    ReceivedOutcome(Received(db, t, e), t', e');
    hide Received;
    var after := Received(Received(db, t, e), t', e');
    if t !in db.threads {
      assert after.threads[t].phone == after.threads[t'].phone;
      assert after.threads[t].integration == after.threads[t'].integration;
    }
  }
}
