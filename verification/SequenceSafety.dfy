/** The invariant holds after every run of the system, and what follows from it. */
module SequenceSafety {
  import opened Prelude
  import opened StepLists
  import opened SequenceModel
  import opened SequenceEngine
  import opened SequenceInvariant
  import DedupeKeys

  // ----- one action -----

  /** Actions that only grow the database and leave every run's index alone. */
  lemma DbOnlyStep(s: State, db: Db)
    requires Inv(s) && DbOk(db) && Grows(s.db, db) && db.jobs == s.db.jobs
    requires forall id :: id in s.db.runs ==> db.runs[id].nextStepIndex == s.db.runs[id].nextStepIndex
    ensures Inv(s.(db := db))
  {
    forall t | t in s.threads ensures ThreadOk(db, s.threads[t]) {
      ThreadSurvives(s.db, db, s.threads[t]);
    }
  }

  /** A thread's own transaction that leaves indexes alone and writes no job. */
  lemma QuietPut(s: State, t: Tid, db: Db, th: Thread)
    requires Inv(s) && t in s.threads && DbOk(db) && Grows(s.db, db) && db.jobs == s.db.jobs
    requires forall id :: id in s.db.runs ==> db.runs[id].nextStepIndex == s.db.runs[id].nextStepIndex
    requires ThreadOk(db, th)
    requires Owns(th) ==> Owns(s.threads[t]) && th.cur == s.threads[t].cur && th.pc != StepCreated
    ensures Inv(Put(s, t, db, th)) && Grows(s.db, db)
  {
    PutKeepsThreads(s, t, db, th);
  }

  lemma FetchKeeps(s: State, t: Tid, kind: TickKind, batch: seq<RunId>)
    requires Inv(s) && Enabled(s, Fetch(t, kind, batch))
    ensures Inv(Apply(s, Fetch(t, kind, batch))) && Grows(s.db, Apply(s, Fetch(t, kind, batch)).db)
  {
    forall id | id in batch ensures SnapshotOk(s.db, TakeSnapshot(s.db, id)) {
      assert RunOk(s.db.lists[s.db.runs[id].sequenceId], s.db.runs[id]);
    }
    var th := FetchThread(s.db, kind, batch);
    if batch != [] {
      forall x | x in th.rest ensures SnapshotOk(s.db, x) {
        var i :| 0 <= i < |th.rest| && th.rest[i] == x;
        assert batch[1..][i] in batch;
      }
      assert batch[0] in batch;
    }
    PutKeepsThreads(s, t, s.db, th);
  }

  lemma ExamineKeeps(s: State, t: Tid, o: Observation)
    requires Inv(s) && Enabled(s, Examine(t, o))
    ensures Inv(ExamineStep(s, t, o)) && Grows(s.db, ExamineStep(s, t, o).db)
  {
    hide Grows, RunsOk, RunStepsOk, JobsOk, ListsOk;
    var th := s.threads[t];
    var x := th.cur;
    assert ThreadOk(s.db, th);
    match Decide(x, o)
    case Close(status) =>
      if status == COMPLETED {
        assert x.steps in s.db.lists[x.run.sequenceId];
        assert ReachesEnd(s.db.lists[x.run.sequenceId], s.db.runs[x.runId].nextStepIndex);
      }
      CloseRunKeepsDb(s.db, x.runId, status);
      var db := CloseRun(s.db, x.runId, status);
      ThreadAfterRelease(s.db, db, th);
      QuietPut(s, t, db, NextRun(th));
    case Record(passed) =>
      var index := x.steps[x.run.nextStepIndex].orderIndex;
      assert index == x.run.nextStepIndex;
      if (x.runId, index) in s.db.runSteps {
        GiveUpKeeps(s, t);
      } else {
        ClaimKeeps(s, t, if passed then SCHEDULED else SKIPPED, if passed then StepCreated else Advancing);
      }
  }

  lemma ThreadAfterRelease(before: Db, after: Db, th: Thread)
    requires th.Ticking? && Grows(before, after) && ThreadOk(before, th)
    ensures ThreadOk(after, NextRun(th)) && !Owns(NextRun(th))
  {
    NextRunOk(before, th);
    ThreadSurvives(before, after, NextRun(th));
  }

  /** The run-step insert that succeeds makes the thread the only owner of the run. */
  lemma ClaimKeeps(s: State, t: Tid, status: StepStatus, pc: Pc)
    requires Inv(s) && t in s.threads && s.threads[t].Ticking? && s.threads[t].pc == Begin && pc != Begin
    requires var x := s.threads[t].cur;
             x.run.nextStepIndex < |x.steps| && (x.runId, x.run.nextStepIndex) !in s.db.runSteps
    ensures var x := s.threads[t].cur;
            var db := InsertRunStep(s.db, x.runId, x.run.nextStepIndex, status);
            Inv(Put(s, t, db, s.threads[t].(pc := pc))) && Grows(s.db, db)
  {
    var th := s.threads[t];
    var x := th.cur;
    var db := InsertRunStep(s.db, x.runId, x.run.nextStepIndex, status);
    InsertRunStepKeepsDb(s.db, x, status);
    ThreadSurvives(s.db, db, th);
    var index := x.run.nextStepIndex;
    assert index == s.db.runs[x.runId].nextStepIndex;
    forall u | u in s.threads && u != t && Owns(s.threads[u]) ensures s.threads[u].cur.runId != x.runId {
      assert OwnerOk(s.db, s.threads[u].cur);
    }
    PutKeepsThreads(s, t, db, th.(pc := pc));
  }

  lemma RefusedKeeps(s: State, t: Tid, pc: Pc)
    requires Inv(s) && t in s.threads && Owns(s.threads[t]) && pc in {Advancing, JobRefused}
    ensures Inv(Put(s, t, s.db, s.threads[t].(pc := pc))) && Grows(s.db, s.db)
  {
    assert ThreadOk(s.db, s.threads[t]);
    QuietPut(s, t, s.db, s.threads[t].(pc := pc));
  }

  /** The stored `orderIndex` is the position, so the step inserted is the one the run is at. */
  lemma CurrentStepOrder(db: Db, th: Thread)
    requires th.Ticking? && ThreadOk(db, th) && th.cur.run.nextStepIndex < |th.cur.steps|
    ensures th.cur.steps[th.cur.run.nextStepIndex].orderIndex == th.cur.run.nextStepIndex
  {
  }

  function Inserted(s: State, t: Tid): State
    requires ThreadOf(s, t).Ticking? && ThreadOf(s, t).cur.run.nextStepIndex < |ThreadOf(s, t).cur.steps|
  {
    var th := ThreadOf(s, t);
    var x := th.cur;
    Put(s, t, InsertJob(s.db, x.steps[x.run.nextStepIndex].channel, x.runId, x.run.nextStepIndex),
        th.(pc := JobCreated))
  }

  function Refused(s: State, t: Tid): State
    requires ThreadOf(s, t).Ticking?
  {
    var th := ThreadOf(s, t);
    Put(s, t, s.db, th.(pc := if th.kind == WorkerTick then Advancing else JobRefused))
  }

  lemma DeliverResult(s: State, t: Tid)
    requires Enabled(s, Dispatch(t, DELIVERABLE))
    requires var x := ThreadOf(s, t).cur; x.steps[x.run.nextStepIndex].orderIndex == x.run.nextStepIndex
    ensures DispatchStep(s, t, DELIVERABLE) == Refused(s, t) || DispatchStep(s, t, DELIVERABLE) == Inserted(s, t)
  {
  }

  lemma DeliverKeeps(s: State, t: Tid)
    requires Inv(s) && Enabled(s, Dispatch(t, DELIVERABLE))
    ensures Inv(DispatchStep(s, t, DELIVERABLE)) && Grows(s.db, DispatchStep(s, t, DELIVERABLE).db)
  {
    var th := s.threads[t];
    CurrentStepOrder(s.db, th);
    DeliverResult(s, t);
    if DispatchStep(s, t, DELIVERABLE) == Refused(s, t) {
      RefusedKeeps(s, t, if th.kind == WorkerTick then Advancing else JobRefused);
    } else {
      JobKeeps(s, t);
    }
  }

  lemma DispatchKeeps(s: State, t: Tid, route: Route)
    requires Inv(s) && Enabled(s, Dispatch(t, route))
    ensures Inv(DispatchStep(s, t, route)) && Grows(s.db, DispatchStep(s, t, route).db)
  {
    match route
    case NO_PROVIDER => StatusKeeps(s, t, STEP_FAILED);
    case NO_VALID_CONTACT => StatusKeeps(s, t, SKIPPED);
    case CREATE_ERROR =>
      if s.threads[t].kind == WorkerTick { StatusKeeps(s, t, STEP_FAILED); } else { GiveUpKeeps(s, t); }
    case DELIVERABLE => DeliverKeeps(s, t);
  }

  /** An exception: the loop in `processSequenceTick` logs it and takes the next run. */
  lemma GiveUpKeeps(s: State, t: Tid)
    requires Inv(s) && t in s.threads && s.threads[t].Ticking?
    ensures Inv(Put(s, t, s.db, NextRun(s.threads[t]))) && Grows(s.db, s.db)
  {
    assert ThreadOk(s.db, s.threads[t]);
    NextRunOk(s.db, s.threads[t]);
    QuietPut(s, t, s.db, NextRun(s.threads[t]));
  }

  lemma MarkKeeps(s: State, t: Tid, ok: bool)
    requires Inv(s) && Enabled(s, MarkStep(t, ok))
    ensures Inv(MarkStepStatus(s, t, ok)) && Grows(s.db, MarkStepStatus(s, t, ok).db)
  {
    var th := s.threads[t];
    if th.kind == WorkerTick {
      StatusKeeps(s, t, if ok then SENT else STEP_FAILED);
    } else if ok {
      StatusKeeps(s, t, if th.pc == JobRefused then SENT else SCHEDULED);
    } else {
      GiveUpKeeps(s, t);
    }
  }

  lemma StatusKeeps(s: State, t: Tid, status: StepStatus)
    requires Inv(s) && t in s.threads && Owns(s.threads[t])
    ensures var db := WithStatus(s.db, s.threads[t].cur, status);
            Inv(Put(s, t, db, s.threads[t].(pc := Advancing))) && Grows(s.db, db)
  {
    var th := s.threads[t];
    var db := WithStatus(s.db, th.cur, status);
    WithStatusKeepsDb(s.db, th.cur, status);
    ThreadSurvives(s.db, db, th);
    QuietPut(s, t, db, th.(pc := Advancing));
  }

  lemma JobKeeps(s: State, t: Tid)
    requires Inv(s) && t in s.threads && Owns(s.threads[t]) && s.threads[t].pc == StepCreated
    ensures var x := s.threads[t].cur;
            var db := InsertJob(s.db, x.steps[x.run.nextStepIndex].channel, x.runId, x.run.nextStepIndex);
            Inv(Put(s, t, db, s.threads[t].(pc := JobCreated))) && Grows(s.db, db)
  {
    var th := s.threads[t];
    var x := th.cur;
    assert ThreadOk(s.db, th);
    var index := x.run.nextStepIndex;
    var db := InsertJob(s.db, x.steps[index].channel, x.runId, index);
    InsertJobKeepsDb(s.db, x.steps[index].channel, x.runId, index);
    ThreadSurvives(s.db, db, th);
    forall u | u in s.threads && u != t && Owns(s.threads[u]) && s.threads[u].pc == StepCreated
      ensures !HasJob(db, s.threads[u].cur.runId, s.threads[u].cur.run.nextStepIndex)
    {
      assert !HasJob(s.db, s.threads[u].cur.runId, s.threads[u].cur.run.nextStepIndex);
    }
    PutKeepsThreads(s, t, db, th.(pc := JobCreated));
  }

  lemma AdvanceKeeps(s: State, t: Tid)
    requires Inv(s) && Enabled(s, Advance(t))
    ensures Inv(Apply(s, Advance(t))) && Grows(s.db, Apply(s, Advance(t)).db)
  {
    hide Grows, DbOk;
    var th := s.threads[t];
    assert ThreadOk(s.db, th);
    var db := AdvanceRun(s.db, th.cur);
    AdvanceRunKeepsDb(s.db, th.cur);
    ThreadAfterRelease(s.db, db, th);
    PutKeepsThreads(s, t, db, NextRun(th));
  }

  lemma StartKeeps(s: State, t: Tid, id: RunId)
    requires Inv(s) && Enabled(s, CommitStart(t, id))
    ensures Inv(Apply(s, CommitStart(t, id))) && Grows(s.db, Apply(s, CommitStart(t, id)).db)
  {
    var th := s.threads[t];
    assert ThreadOk(s.db, th);
    if HasRunFor(s.db, th.sequenceId, th.leadId) {
      PutKeepsThreads(s, t, s.db, Idle);
    } else {
      InsertRunKeepsDb(s.db, id, th);
      PutKeepsThreads(s, t, InsertRun(s.db, id, th.sequenceId, th.leadId, th.startedAt, th.firstAt), Idle);
    }
  }

  lemma ListActionKeeps(s: State, a: Action)
    requires Inv(s) && Enabled(s, a)
    requires a.CreateSequence? || a.SetSequenceStatus? || a.ReplaceSteps?
    ensures Inv(Apply(s, a)) && Grows(s.db, Apply(s, a).db)
  {
    var db := Apply(s, a).db;
    if a.ReplaceSteps? { OrderChecksDecide(a.steps); }
    forall id | id in db.sequences && db.sequences[id].status == ACTIVE ensures HasSteps(db.lists[id]) {
      if a.ReplaceSteps? { HasStepsMonotone(s.db.lists[id], db.lists[id]); }
    }
    assert ListsOk(db.sequences, db.lists);
    MoreListsKeepDb(s.db, db);
    DbOnlyStep(s, db);
  }

  lemma BeginKeeps(s: State, t: Tid, id: SeqId, lead: LeadId)
    requires Inv(s) && Enabled(s, BeginStart(t, id, lead))
    ensures Inv(Apply(s, BeginStart(t, id, lead))) && Grows(s.db, Apply(s, BeginStart(t, id, lead)).db)
  {
    assert HasSteps(s.db.lists[id]) && s.db.sequences[id].steps in s.db.lists[id];
    PutKeepsThreads(s, t, s.db, Apply(s, BeginStart(t, id, lead)).threads[t]);
  }

  lemma StopKeeps(s: State, id: RunId)
    requires Inv(s) && Enabled(s, Stop(id))
    ensures Inv(Apply(s, Stop(id))) && Grows(s.db, Apply(s, Stop(id)).db)
  {
    StopRunKeepsDb(s.db, id);
    DbOnlyStep(s, StopRun(s.db, id));
  }

  lemma WaitKeeps(s: State, ms: nat)
    requires Inv(s)
    ensures Inv(Apply(s, Wait(ms))) && Grows(s.db, Apply(s, Wait(ms)).db)
  {
    TimeKeepsDb(s.db, ms);
    DbOnlyStep(s, s.db.(now := s.db.now + ms));
  }

  lemma CrashKeeps(s: State, t: Tid)
    requires Inv(s) && Enabled(s, Crash(t))
    ensures Inv(Apply(s, Crash(t))) && Grows(s.db, Apply(s, Crash(t)).db)
  {
    QuietPut(s, t, s.db, Idle);
  }

  lemma NothingGrows(s: State, a: Action)
    ensures !Enabled(s, a) ==> Apply(s, a) == s && Grows(s.db, s.db)
  {
  }

  lemma StepKeepsInv(s: State, a: Action)
    requires Inv(s)
    ensures Inv(Apply(s, a)) && Grows(s.db, Apply(s, a).db)
  {
    hide Inv, Grows, ExamineStep, DispatchStep, MarkStepStatus, AdvanceRun, StopRun, IsDueBatch, TakeSnapshot;
    NothingGrows(s, a);
    if Enabled(s, a) {
      match a
      case Wait(ms) => WaitKeeps(s, ms);
      case CreateSequence(_, _, _) => ListActionKeeps(s, a);
      case SetSequenceStatus(_, _) => ListActionKeeps(s, a);
      case ReplaceSteps(_, _) => ListActionKeeps(s, a);
      case BeginStart(t, id, lead) => BeginKeeps(s, t, id, lead);
      case CommitStart(t, id) => StartKeeps(s, t, id);
      case Stop(id) => StopKeeps(s, id);
      case Fetch(t, kind, batch) => FetchKeeps(s, t, kind, batch);
      case Examine(t, o) => ExamineKeeps(s, t, o);
      case Dispatch(t, route) => DispatchKeeps(s, t, route);
      case MarkStep(t, ok) => MarkKeeps(s, t, ok);
      case Advance(t) => AdvanceKeeps(s, t);
      case Throw(t) => GiveUpKeeps(s, t);
      case Crash(t) => CrashKeeps(s, t);
    }
  }

  // ----- whole runs -----

  lemma GrowsTransitive(a: Db, b: Db, c: Db)
    requires Grows(a, b) && Grows(b, c)
    ensures Grows(a, c)
  {
    assert c.jobs[..|a.jobs|] == c.jobs[..|b.jobs|][..|a.jobs|];
  }

  lemma {:induction false} RunKeepsInv(s: State, actions: seq<Action>)
    requires Inv(s)
    ensures Inv(Exec(s, actions)) && Grows(s.db, Exec(s, actions).db)
    decreases |actions|
  {
    if actions != [] {
      StepKeepsInv(s, actions[0]);
      RunKeepsInv(Apply(s, actions[0]), actions[1..]);
      GrowsTransitive(s.db, Apply(s, actions[0]).db, Exec(s, actions).db);
    }
  }

  lemma ReachableInv(actions: seq<Action>)
    ensures Inv(Exec(INIT, actions))
  {
    RunKeepsInv(INIT, actions);
  }
}
