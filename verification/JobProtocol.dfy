/**
 * Enqueues as they really run: four statements that other callers, the worker and the
 * administrator can come between. A run of the system is any sequence of actions; an action
 * that is not enabled changes nothing.
 */
module JobProtocol {
  import opened Prelude
  import opened JobQueue

  type Tid = string

  /** Where a caller stands within `enqueue`. */
  datatype Thread =
    | Idle
    | LockRead(q: Request, found: Option<LockId>, expiresAt: int)
    | Passed(q: Request, found: Option<LockId>, checkedAt: int)
    | Locked(q: Request, checkedAt: int, lockedAt: int)
    | Inserted(q: Request, id: RunId)

  datatype World = World(s: State, now: int, threads: map<Tid, Thread>)

  datatype Action =
    | Wait(ms: nat)
    | ReadLock(t: Tid, q: Request, found: Option<LockId>)
    | BeginKeyless(t: Tid, q: Request)
    | Check(t: Tid)
    | WriteLock(t: Tid, lockedAt: int, newLock: LockId)
    | InsertRun(t: Tid, id: RunId)
    | Push(t: Tid, ok: bool)
    | Crash(t: Tid)
    | Start(id: RunId)
    | Stall(id: RunId)
    | Finish(id: RunId, ok: bool)
    | Retry(id: RunId, taken: bool)

  function ThreadOf(w: World, t: Tid): Thread { if t in w.threads then w.threads[t] else Idle }

  function Put(w: World, t: Tid, s: State, th: Thread): World { w.(s := s, threads := w.threads[t := th]) }

  predicate Enabled(w: World, a: Action) {
    match a
    case Wait(_) => true
    case ReadLock(t, q, found) => ThreadOf(w, t).Idle? && IsKey(q.key) && IsLockFound(w.s, KeyOf(q), found)
    case BeginKeyless(t, q) => ThreadOf(w, t).Idle? && !IsKey(q.key)
    case Check(t) => ThreadOf(w, t).LockRead?
    // the clock is read at some moment between the check and the write
    case WriteLock(t, lockedAt, newLock) =>
      var th := ThreadOf(w, t);
      th.Passed? && IsKey(th.q.key) && th.checkedAt <= lockedAt <= w.now && newLock !in w.s.locks
    case InsertRun(t, id) => ThreadOf(w, t).Locked? && id !in w.s.runs
    case Push(t, _) => ThreadOf(w, t).Inserted?
    case Crash(t) => t in w.threads
    case Start(id) => id in w.s.pending && id in w.s.runs
    case Stall(id) => id in w.s.inHand && id in w.s.runs
    case Finish(id, _) => id in w.s.inHand && id in w.s.runs
    case Retry(id, _) => id in w.s.runs && w.s.runs[id].status == FAILED
  }

  function Apply(w: World, a: Action): World {
    if !Enabled(w, a) then w else
    match a
    case Wait(ms) => w.(now := w.now + ms)
    case ReadLock(t, q, found) =>
      Put(w, t, w.s, LockRead(q, found, if found.Some? then w.s.locks[found.value].expiresAt else 0))
    case BeginKeyless(t, q) => Put(w, t, w.s, Locked(q, w.now, w.now))
    case Check(t) =>
      var th := ThreadOf(w, t);
      if th.found.Some? && th.expiresAt > w.now && HasRun(w.s, th.q) then Put(w, t, w.s, Idle)
      else Put(w, t, w.s, Passed(th.q, th.found, w.now))
    case WriteLock(t, lockedAt, newLock) =>
      var th := ThreadOf(w, t);
      if th.found.None? && CreateRefused(w.s, KeyOf(th.q)) then Put(w, t, w.s, Idle)
      else Put(w, t, LockWritten(w.s, KeyOf(th.q), th.found, newLock, lockedAt + Ttl(th.q.kind)),
               Locked(th.q, th.checkedAt, lockedAt))
    case InsertRun(t, id) =>
      var th := ThreadOf(w, t);
      Put(w, t, RunInserted(w.s, id, th.q, th.lockedAt, w.now), Inserted(th.q, id))
    case Push(t, ok) => Put(w, t, if ok then Pushed(w.s, ThreadOf(w, t).id) else w.s, Idle)
    case Crash(t) => Put(w, t, w.s, Idle)
    case Start(id) => w.(s := Started(w.s, id))
    case Stall(id) => w.(s := Redelivered(w.s, id))
    case Finish(id, ok) => w.(s := Finished(w.s, id, ok))
    case Retry(id, taken) => w.(s := Retried(w.s, id, taken))
  }

  function Exec(w: World, actions: seq<Action>): World
    decreases |actions|
  {
    if actions == [] then w else Exec(Apply(w, actions[0]), actions[1..])
  }

  // ----- what every interleaving keeps -----

  /** At most one lock row per organization and key. */
  ghost predicate OneRowPerOrgKey(s: State) {
    forall i, j :: i in s.locks && j in s.locks && s.locks[i].key == s.locks[j].key && s.locks[i].key.org.Some? ==>
      i == j
  }

  ghost predicate FoundOk(s: State, q: Request, found: Option<LockId>) {
    IsKey(q.key) && (found.Some? ==> found.value in s.locks && s.locks[found.value].key == KeyOf(q))
  }

  /** A caller that inserted its run and has not handed it over: nobody else touches the row. */
  ghost predicate InsertedOk(s: State, q: Request, id: RunId) {
    && id in s.runs && id !in s.pending && id !in s.inHand
    && s.runs[id].status == QUEUED && s.runs[id].kind == q.kind && s.runs[id].org == q.org && s.runs[id].key == q.key
  }

  ghost predicate ThreadOk(s: State, th: Thread) {
    match th
    case Idle => true
    case LockRead(q, found, _) => FoundOk(s, q, found)
    case Passed(q, found, _) => FoundOk(s, q, found)
    case Locked(q, _, _) => true
    case Inserted(q, id) => InsertedOk(s, q, id)
  }

  ghost predicate Sound(w: World) {
    && OneRowPerOrgKey(w.s) && w.s.pending <= w.s.runs.Keys && w.s.inHand <= w.s.runs.Keys
    && (forall t :: t in w.threads ==> ThreadOk(w.s, w.threads[t]))
    && (forall t, u :: t in w.threads && u in w.threads && t != u && w.threads[t].Inserted? && w.threads[u].Inserted?
          ==> w.threads[t].id != w.threads[u].id)
  }

  predicate SameRun(a: JobRun, b: JobRun) { a.(status := QUEUED, attempts := 0) == b.(status := QUEUED, attempts := 0) }

  /** Rows are never removed, a lock never changes its key, and a run never its job. */
  ghost predicate Grows(s: State, s': State) {
    && (forall l :: l in s.locks ==> l in s'.locks && s'.locks[l].key == s.locks[l].key)
    && (forall id :: id in s.runs ==> id in s'.runs && SameRun(s.runs[id], s'.runs[id]))
  }

  /** Tables changed by others leave a thread sound while they spare its run. */
  lemma ThreadCarries(s: State, s': State, th: Thread)
    requires ThreadOk(s, th) && Grows(s, s')
    requires th.Inserted? ==> s'.runs[th.id] == s.runs[th.id] && th.id !in s'.pending && th.id !in s'.inHand
    ensures ThreadOk(s', th)
  {
  }

  /** One thread's step, with the tables it leaves behind. */
  lemma PutKeepsSound(w: World, t: Tid, s': State, th: Thread)
    requires Sound(w) && OneRowPerOrgKey(s') && s'.pending <= s'.runs.Keys && s'.inHand <= s'.runs.Keys
    requires Grows(w.s, s') && ThreadOk(s', th)
    requires forall u :: u in w.threads && u != t && w.threads[u].Inserted? ==>
               && s'.runs[w.threads[u].id] == w.s.runs[w.threads[u].id]
               && w.threads[u].id !in s'.pending && w.threads[u].id !in s'.inHand
               && (th.Inserted? ==> th.id != w.threads[u].id)
    ensures Sound(Put(w, t, s', th))
  {
    forall u | u in w.threads && u != t ensures ThreadOk(s', w.threads[u]) { ThreadCarries(w.s, s', w.threads[u]); }
  }

  lemma WriteKeepsRows(s: State, q: Request, found: Option<LockId>, newLock: LockId, expiresAt: int)
    requires OneRowPerOrgKey(s) && FoundOk(s, q, found) && newLock !in s.locks
    requires found.Some? || !CreateRefused(s, KeyOf(q))
    ensures var s' := LockWritten(s, KeyOf(q), found, newLock, expiresAt);
            OneRowPerOrgKey(s') && Grows(s, s') && HasLock(s', KeyOf(q))
  {
    var s' := LockWritten(s, KeyOf(q), found, newLock, expiresAt);
    var row := if found.Some? then found.value else newLock;
    assert row in s'.locks && s'.locks[row].key == KeyOf(q);
    if found.None? {
      forall l | l in s.locks && KeyOf(q).org.Some? ensures s.locks[l].key != KeyOf(q) { assert !HasLock(s, KeyOf(q)); }
    }
  }

  lemma ThreadStepKeepsSound(w: World, a: Action)
    requires Sound(w) && Enabled(w, a)
    requires a.ReadLock? || a.BeginKeyless? || a.Check? || a.InsertRun? || a.Push? || a.Crash?
    ensures Sound(Apply(w, a)) && Grows(w.s, Apply(w, a).s)
  {
    PutKeepsSound(w, a.t, Apply(w, a).s, Apply(w, a).threads[a.t]);
  }

  lemma WriteLockKeepsSound(w: World, a: Action)
    requires Sound(w) && Enabled(w, a) && a.WriteLock?
    ensures Sound(Apply(w, a)) && Grows(w.s, Apply(w, a).s)
  {
    var th := w.threads[a.t];
    if th.found.Some? || !CreateRefused(w.s, KeyOf(th.q)) {
      WriteKeepsRows(w.s, th.q, th.found, a.newLock, a.lockedAt + Ttl(th.q.kind));
    }
    PutKeepsSound(w, a.t, Apply(w, a).s, Apply(w, a).threads[a.t]);
  }

  lemma WorkerKeepsSound(w: World, a: Action)
    requires Sound(w) && Enabled(w, a) && (a.Start? || a.Stall? || a.Finish? || a.Retry?)
    ensures Sound(Apply(w, a)) && Grows(w.s, Apply(w, a).s)
  {
    var s' := Apply(w, a).s;
    forall t | t in w.threads ensures ThreadOk(s', w.threads[t]) { ThreadCarries(w.s, s', w.threads[t]); }
  }

  lemma StepKeepsSound(w: World, a: Action)
    requires Sound(w)
    ensures Sound(Apply(w, a)) && Grows(w.s, Apply(w, a).s)
  {
    if Enabled(w, a) {
      match a
      case Wait(_) =>
      case WriteLock(_, _, _) => WriteLockKeepsSound(w, a);
      case Start(_) => WorkerKeepsSound(w, a);
      case Stall(_) => WorkerKeepsSound(w, a);
      case Finish(_, _) => WorkerKeepsSound(w, a);
      case Retry(_, _) => WorkerKeepsSound(w, a);
      case _ => ThreadStepKeepsSound(w, a);
    }
  }

  /** Under every interleaving: one lock row per organization and key, and no row is ever removed. */
  lemma {:induction false} RunKeepsSound(w: World, actions: seq<Action>)
    requires Sound(w)
    ensures Sound(Exec(w, actions)) && Grows(w.s, Exec(w, actions).s)
    decreases |actions|
  {
    if actions != [] {
      StepKeepsSound(w, actions[0]);
      RunKeepsSound(Apply(w, actions[0]), actions[1..]);
    }
  }

  /**
   * A run that failed with attempts left waits in RETRYING for a redelivery the queue never makes,
   * and the administrator's retry refuses it: it keeps its row for good, whatever interleaves.
   */
  lemma {:induction false} RetryingIsFinal(w: World, actions: seq<Action>, id: RunId)
    requires Sound(w) && id in w.s.runs && w.s.runs[id].status == RETRYING && id !in w.s.pending + w.s.inHand
    ensures id in Exec(w, actions).s.runs && Exec(w, actions).s.runs[id] == w.s.runs[id]
    decreases |actions|
  {
    if actions != [] {
      StepKeepsSound(w, actions[0]);
      RetryingStays(w, actions[0], id);
      RetryingIsFinal(Apply(w, actions[0]), actions[1..], id);
    }
  }

  lemma RetryingStays(w: World, a: Action, id: RunId)
    requires Sound(w) && id in w.s.runs && w.s.runs[id].status == RETRYING && id !in w.s.pending + w.s.inHand
    ensures var s' := Apply(w, a).s; id in s'.runs && s'.runs[id] == w.s.runs[id] && id !in s'.pending + s'.inHand
  {
  }

  /** Waiting in the run table with no entry in the queue and nobody about to make one. */
  ghost predicate IsLost(w: World, id: RunId) {
    && id in w.s.runs && w.s.runs[id].status == QUEUED && id !in w.s.pending && id !in w.s.inHand
    && forall t :: t in w.threads && w.threads[t].Inserted? ==> w.threads[t].id != id
  }

  lemma LostStays(w: World, a: Action, id: RunId)
    requires IsLost(w, id)
    ensures IsLost(Apply(w, a), id) && Apply(w, a).s.runs[id] == w.s.runs[id]
  {
  }

  /**
   * A run whose entry the queue refused, or ignored on a retry, stays QUEUED for good, whatever
   * interleaves: a live run nobody will work on.
   */
  lemma {:induction false} LostIsFinal(w: World, actions: seq<Action>, id: RunId)
    requires IsLost(w, id)
    ensures IsLost(Exec(w, actions), id) && Exec(w, actions).s.runs[id] == w.s.runs[id]
    decreases |actions|
  {
    if actions != [] {
      LostStays(w, actions[0], id);
      LostIsFinal(Apply(w, actions[0]), actions[1..], id);
    }
  }

  /** How runs get lost: a push that fails, or a retry whose entry is ignored. */
  lemma LosesRun(w: World, a: Action)
    requires Sound(w) && Enabled(w, a)
    ensures a.Push? && !a.ok ==> IsLost(Apply(w, a), ThreadOf(w, a.t).id)
    ensures a.Retry? && !a.taken && a.id !in w.s.pending + w.s.inHand ==> IsLost(Apply(w, a), a.id)
  {
  }

  // ----- an undisturbed enqueue is the function of `JobQueue` -----

  /** The actions of a caller nobody comes between. */
  function ActionsOf(t: Tid, w: World, found: Option<LockId>, newLock: LockId, id: RunId, q: Request, c: Clock,
                     added: bool): seq<Action>
    requires IsKey(q.key) && w.now <= c.checkedAt <= c.lockedAt <= c.createdAt
  {
    [ReadLock(t, q, found), Wait(c.checkedAt - w.now), Check(t)]
    + if Deduplicates(w.s, q, found, c.checkedAt) then []
      else [Wait(c.lockedAt - c.checkedAt), WriteLock(t, c.lockedAt, newLock), Wait(c.createdAt - c.lockedAt),
            InsertRun(t, id), Push(t, added)]
  }

  lemma {:induction false} ExecSplits(w: World, first: seq<Action>, second: seq<Action>)
    ensures Exec(w, first + second) == Exec(Exec(w, first), second)
    decreases |first|
  {
    if first == [] {
      assert first + second == second;
    } else {
      assert (first + second)[1..] == first[1..] + second;
      ExecSplits(Apply(w, first[0]), first[1..], second);
    }
  }

  lemma ExecStep(w: World, a: Action, rest: seq<Action>)
    ensures Exec(w, [a] + rest) == Exec(Apply(w, a), rest)
  {
    assert ([a] + rest)[1..] == rest;
  }

  lemma ChecksTo(w: World, t: Tid, found: Option<LockId>, q: Request, checkedAt: int)
    requires ThreadOf(w, t).Idle? && IsKey(q.key) && IsLockFound(w.s, KeyOf(q), found) && w.now <= checkedAt
    ensures Exec(w, [ReadLock(t, q, found), Wait(checkedAt - w.now), Check(t)])
            == World(w.s, checkedAt, w.threads[t := if Deduplicates(w.s, q, found, checkedAt) then Idle
                                                     else Passed(q, found, checkedAt)])
  {
    var read, wait := ReadLock(t, q, found), Wait(checkedAt - w.now);
    ExecStep(w, read, [wait, Check(t)]);
    ExecStep(Apply(w, read), wait, [Check(t)]);
    ExecStep(Apply(Apply(w, read), wait), Check(t), []);
    assert [read] + [wait, Check(t)] == [read, wait, Check(t)] && [wait] + [Check(t)] == [wait, Check(t)];
    assert [Check(t)] + [] == [Check(t)];
    var th := Apply(w, read).threads[t];
    assert Apply(w, read).threads[t := Idle] == w.threads[t := Idle];
    assert Apply(w, read).threads[t := Passed(q, found, checkedAt)] == w.threads[t := Passed(q, found, checkedAt)];
  }

  lemma LocksTo(w: World, t: Tid, found: Option<LockId>, newLock: LockId, q: Request, checkedAt: int, lockedAt: int)
    requires ThreadOf(w, t) == Passed(q, found, checkedAt) && w.now == checkedAt <= lockedAt
    requires IsKey(q.key) && IsLockFound(w.s, KeyOf(q), found) && newLock !in w.s.locks
    ensures Exec(w, [Wait(lockedAt - checkedAt), WriteLock(t, lockedAt, newLock)])
            == World(LockWritten(w.s, KeyOf(q), found, newLock, lockedAt + Ttl(q.kind)), lockedAt,
                     w.threads[t := Locked(q, checkedAt, lockedAt)])
  {
    var wait, write := Wait(lockedAt - checkedAt), WriteLock(t, lockedAt, newLock);
    ExecStep(w, wait, [write]);
    ExecStep(Apply(w, wait), write, []);
    assert [wait] + [write] == [wait, write] && [write] + [] == [write];
  }

  lemma InsertsTo(w: World, t: Tid, id: RunId, q: Request, c: Clock, added: bool)
    requires ThreadOf(w, t) == Locked(q, c.checkedAt, c.lockedAt) && w.now == c.lockedAt <= c.createdAt
    requires id !in w.s.runs
    ensures var s' := RunInserted(w.s, id, q, c.lockedAt, c.createdAt);
            Exec(w, [Wait(c.createdAt - c.lockedAt), InsertRun(t, id), Push(t, added)])
            == World(if added then Pushed(s', id) else s', c.createdAt, w.threads[t := Idle])
  {
    var wait, insert, push := Wait(c.createdAt - c.lockedAt), InsertRun(t, id), Push(t, added);
    var w1 := Apply(Apply(w, wait), insert);
    ExecStep(w, wait, [insert, push]);
    ExecStep(Apply(w, wait), insert, [push]);
    ExecStep(w1, push, []);
    assert [wait] + [insert, push] == [wait, insert, push] && [insert] + [push] == [insert, push];
    assert [push] + [] == [push];
    assert Apply(w1, push).threads == w.threads[t := Idle];
  }

  /** A caller left alone does to the tables exactly what `Enqueued` says. */
  lemma EnqueueIsLoneThread(w: World, t: Tid, found: Option<LockId>, newLock: LockId, id: RunId, q: Request, c: Clock,
                            added: bool)
    requires ThreadOf(w, t).Idle? && IsKey(q.key) && IsLockFound(w.s, KeyOf(q), found)
    requires newLock !in w.s.locks && id !in w.s.runs && w.now <= c.checkedAt <= c.lockedAt <= c.createdAt
    ensures Exec(w, ActionsOf(t, w, found, newLock, id, q, c, added)).s
            == Enqueued(w.s, found, newLock, id, q, c, added)
  {
    hide Apply, Exec, RunInserted;
    var first := [ReadLock(t, q, found), Wait(c.checkedAt - w.now), Check(t)];
    ChecksTo(w, t, found, q, c.checkedAt);
    if Deduplicates(w.s, q, found, c.checkedAt) {
      assert ActionsOf(t, w, found, newLock, id, q, c, added) == first;
    } else {
      var w1 := World(w.s, c.checkedAt, w.threads[t := Passed(q, found, c.checkedAt)]);
      var w2 := World(LockWritten(w.s, KeyOf(q), found, newLock, c.lockedAt + Ttl(q.kind)), c.lockedAt,
                      w1.threads[t := Locked(q, c.checkedAt, c.lockedAt)]);
      var lock := [Wait(c.lockedAt - c.checkedAt), WriteLock(t, c.lockedAt, newLock)];
      var insert := [Wait(c.createdAt - c.lockedAt), InsertRun(t, id), Push(t, added)];
      LocksTo(w1, t, found, newLock, q, c.checkedAt, c.lockedAt);
      InsertsTo(w2, t, id, q, c, added);
      ExecSplits(w1, lock, insert);
      ExecSplits(w, first, lock + insert);
      assert ActionsOf(t, w, found, newLock, id, q, c, added) == first + (lock + insert);
    }
  }
}
