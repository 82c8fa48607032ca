/**
 * When a tick sends and what it writes otherwise: for one processing of a run, and for every
 * thread of the protocol. Stated on the rows, the observation and the route alone.
 */
module SequenceOutcomes {
  import opened Prelude
  import opened StepLists
  import opened SequenceModel
  import opened SequenceEngine
  import opened SequenceInvariant
  import opened SequenceSafety
  import opened SequenceSerial
  import opened SequenceTheorems
  import DedupeKeys

  // ----- one processing -----

  /** What the lead and its replies must look like for a message to go out. */
  predicate Clears(x: Snapshot, o: Observation) {
    !(x.stopOnReply && o.replied) && o.leadFound && !o.optedOut && o.conditionsPass
  }

  /** The step the snapshot stands at has no run step yet. */
  predicate IsOpen(db: Db, x: Snapshot) {
    x.run.nextStepIndex < |x.steps| && (x.runId, x.run.nextStepIndex) !in db.runSteps
  }

  /** A processing writes an outbound job if and only if nothing at all stands against it, and then exactly one. */
  lemma SendsIff(db: Db, x: Snapshot, p: Processing)
    requires Usable(db, x)
    ensures var after := Process(db, x, p); var index := x.run.nextStepIndex;
      && (after.jobs != db.jobs <==>
            && Clears(x, p.observation) && IsOpen(db, x) && p.route == DELIVERABLE
            && forall j :: j in db.jobs ==>
                 j.kind != x.steps[index].channel || j.dedupeKey != DedupeKeys.DedupeKey(x.runId, index))
      && (after.jobs != db.jobs ==>
            after.jobs == db.jobs + [Job(x.steps[index].channel, DedupeKeys.DedupeKey(x.runId, index), x.runId, index)])
  {
  }

  /** The run row a processing leaves when it closes the run instead of working on its step. */
  ghost predicate ClosedAs(db: Db, after: Db, id: RunId, status: RunStatus)
    requires id in db.runs
  {
    after == db.(runs := db.runs[id := db.runs[id].(status := status, nextStepAt := None)])
  }

  /** The status the run step ends with; `taken` says that the job's key was in the table already. */
  function StepOutcome(p: Processing, taken: bool): StepStatus {
    if !p.observation.conditionsPass || p.route == NO_VALID_CONTACT then SKIPPED
    else if p.route != DELIVERABLE then STEP_FAILED
    else if taken then SCHEDULED
    else if p.marked then SENT
    else STEP_FAILED
  }

  /** The run stands at the next step of the snapshot's list, or is through with it. */
  ghost predicate MovedOn(before: Run, row: Run, x: Snapshot) {
    var next := x.run.nextStepIndex + 1;
    && row.nextStepIndex == next
    && row == before.(status := row.status, nextStepIndex := next, nextStepAt := row.nextStepAt)
    && (next < |x.steps| ==>
          row.status == before.status
          && row.nextStepAt == Some(x.run.startedAt + x.steps[next].delayMinutes * 60_000))
    && (next >= |x.steps| ==> row.status == COMPLETED && row.nextStepAt == None)
  }

  /** What one processing does to the run when it closes it. */
  lemma ClosingOutcome(db: Db, x: Snapshot, p: Processing)
    requires Usable(db, x)
    ensures var after := Process(db, x, p); var o := p.observation;
            var stops, ends := x.stopOnReply && o.replied, x.run.nextStepIndex >= |x.steps|;
      && (stops ==> ClosedAs(db, after, x.runId, CANCELED))
      && (!stops && ends ==> ClosedAs(db, after, x.runId, COMPLETED))
      && (!stops && !ends && !o.leadFound ==> ClosedAs(db, after, x.runId, FAILED))
      && (!stops && !ends && o.leadFound && o.optedOut ==> ClosedAs(db, after, x.runId, CANCELED))
  {
  }

  /**
   * Otherwise: the run step, the run row, and nothing else but the job; nothing at all when the step
   * has its run step already.
   */
  lemma StepOutcomeIs(db: Db, x: Snapshot, p: Processing)
    requires Usable(db, x) && x.run.nextStepIndex < |x.steps|
    requires !(x.stopOnReply && p.observation.replied) && p.observation.leadFound && !p.observation.optedOut
    ensures var after := Process(db, x, p); var index := x.run.nextStepIndex;
            var taken := JobKeyTaken(db, x.steps[index].channel, DedupeKeys.DedupeKey(x.runId, index));
      if IsOpen(db, x)
      then
        && after.runSteps == db.runSteps[(x.runId, index) := RunStep(StepOutcome(p, taken), db.now)]
        && MovedOn(db.runs[x.runId], after.runs[x.runId], x)
        && after == db.(runs := db.runs[x.runId := after.runs[x.runId]], runSteps := after.runSteps, jobs := after.jobs)
      else after == db
  {
    if IsOpen(db, x) {
      hide JobKeyTaken, DedupeKeys.DedupeKey, Send, AdvanceRun;
      var recorded := InsertRunStep(db, x.runId, x.run.nextStepIndex,
                                    if p.observation.conditionsPass then SCHEDULED else SKIPPED);
      if p.observation.conditionsPass { SendOutcome(db, recorded, x, p); }
      AdvanceOutcome(if p.observation.conditionsPass then Send(recorded, x, p) else recorded, x);
    }
  }

  lemma SendOutcome(db: Db, recorded: Db, x: Snapshot, p: Processing)
    requires Usable(db, x) && IsOpen(db, x) && p.observation.conditionsPass
    requires recorded == InsertRunStep(db, x.runId, x.run.nextStepIndex, SCHEDULED)
    ensures var after := Send(recorded, x, p); var index := x.run.nextStepIndex;
            var taken := JobKeyTaken(db, x.steps[index].channel, DedupeKeys.DedupeKey(x.runId, index));
      && after.runSteps == db.runSteps[(x.runId, index) := RunStep(StepOutcome(p, taken), db.now)]
      && after == db.(runSteps := after.runSteps, jobs := after.jobs)
  {
    hide DedupeKeys.DedupeKey;
    assert JobKeyTaken(recorded, x.steps[x.run.nextStepIndex].channel,
                       DedupeKeys.DedupeKey(x.runId, x.run.nextStepIndex))
        == JobKeyTaken(db, x.steps[x.run.nextStepIndex].channel,
                       DedupeKeys.DedupeKey(x.runId, x.run.nextStepIndex));
  }

  lemma AdvanceOutcome(db: Db, x: Snapshot)
    requires x.runId in db.runs
    ensures var after := AdvanceRun(db, x);
      && MovedOn(db.runs[x.runId], after.runs[x.runId], x)
      && after == db.(runs := db.runs[x.runId := after.runs[x.runId]])
  {
  }

  // ----- one stop -----

  /** A stop closes what is open of the run, and leaves finished steps and all other rows alone. */
  lemma StopOutcome(db: Db, id: RunId)
    requires id in db.runs
    ensures var after := StopRun(db, id);
      && after.runs[id].status == CANCELED && after.runSteps.Keys == db.runSteps.Keys
      && after == db.(runs := db.runs[id := db.runs[id].(status := CANCELED)], runSteps := after.runSteps)
      && (forall k :: k in db.runSteps && k.0 == id && db.runSteps[k].status in {PENDING, SCHEDULED} ==>
            after.runSteps[k] == RunStep(STEP_CANCELED, db.runSteps[k].createdAt))
      && (forall k :: k in db.runSteps && (k.0 != id || db.runSteps[k].status !in {PENDING, SCHEDULED}) ==>
            after.runSteps[k] == db.runSteps[k])
  {
  }

  // ----- what a tick fetches -----

  /** A running run whose time has come, even just now, is fetched, unless fifty no later ones are. */
  lemma DueIsFetched(db: Db, batch: seq<RunId>, id: RunId, at: int)
    requires IsDueBatch(db, batch)
    requires id in db.runs && db.runs[id].status == RUNNING && db.runs[id].nextStepAt == Some(at) && at <= db.now
    ensures id in batch
         || (|batch| == 50 && forall k :: 0 <= k < 50 ==>
               batch[k] in db.runs && exists t: int :: db.runs[batch[k]].nextStepAt == Some(t) && t <= at)
  {
    assert IsDue(db, id);
    if id !in batch {
      if |batch| < 50 {
        AllDueFetched(db, batch);
      }
      forall k | 0 <= k < |batch|
        ensures batch[k] in db.runs && exists t: int :: db.runs[batch[k]].nextStepAt == Some(t) && t <= at
      {
        assert batch[k] in batch && IsDue(db, batch[k]);
        assert DueTime(db, batch[k]) <= DueTime(db, id);
        assert db.runs[batch[k]].nextStepAt == Some(DueTime(db, batch[k]));
      }
    }
  }

  lemma AllDueFetched(db: Db, batch: seq<RunId>)
    requires IsDueBatch(db, batch) && |batch| < 50
    ensures forall id :: id in db.runs && IsDue(db, id) ==> id in batch
  {
    var fetched := set id | id in batch;
    DistinctSize(batch);
    assert fetched <= Due(db);
    SameSizeSame(fetched, Due(db));
    forall id | id in db.runs && IsDue(db, id) ensures id in batch {
      assert id in Due(db);
      assert id in fetched;
    }
  }

  lemma {:induction false} DistinctSize(s: seq<RunId>)
    requires Distinct(s)
    ensures |set id | id in s| == |s|
  {
    if s != [] {
      DistinctSize(s[1..]);
      assert (set id | id in s) == (set id | id in s[1..]) + {s[0]};
    }
  }

  lemma SameSizeSame(a: set<RunId>, b: set<RunId>)
    requires a <= b && |a| == |b|
    ensures a == b
  {
    assert |b - a| == 0;
  }

  /** What is fetched is running and due, each run once, earliest first. */
  lemma FetchedInOrder(db: Db, batch: seq<RunId>, i: nat, j: nat)
    requires IsDueBatch(db, batch) && i < j < |batch|
    ensures batch[i] in db.runs && batch[j] in db.runs && batch[i] != batch[j]
    ensures var a, b := db.runs[batch[i]], db.runs[batch[j]];
      && a.status == RUNNING && b.status == RUNNING && a.nextStepAt.Some? && b.nextStepAt.Some?
      && a.nextStepAt.value <= b.nextStepAt.value <= db.now
  {
    assert batch[i] in batch && batch[j] in batch;
    assert IsDue(db, batch[i]) && IsDue(db, batch[j]) && DueTime(db, batch[i]) <= DueTime(db, batch[j]);
  }

  // ----- the services' transactions and the statuses of both ticks -----

  /** A start nobody comes between: a run due at its start plus the first delay, one per sequence and lead. */
  lemma StartOutcome(s: State, t: Tid, q: SeqId, lead: LeadId, id: RunId)
    requires ThreadOf(s, t).Idle? && q in s.db.sequences && s.db.sequences[q].status == ACTIVE && id !in s.db.runs
    ensures var sequence := s.db.sequences[q]; var startedAt := s.db.now + sequence.startDelayMinutes * 60_000;
            var steps := sequence.steps;
            var first := if steps == [] then None else Some(startedAt + steps[0].delayMinutes * 60_000);
      Apply(Apply(s, BeginStart(t, q, lead)), CommitStart(t, id)).db ==
      if exists r :: r in s.db.runs && s.db.runs[r].sequenceId == q && s.db.runs[r].leadId == lead then s.db
      else s.db.(runs := s.db.runs[id := Run(q, lead, RUNNING, startedAt, 0, first)])
  {
    var begun := Apply(s, BeginStart(t, q, lead));
    assert begun.db == s.db && ThreadOf(begun, t).Starting?;
  }

  /** The other service calls: a new sequence is a draft without steps; status and steps are what is sent, sorted. */
  lemma ServiceOutcome(s: State, a: Action)
    requires Enabled(s, a) && (a.Wait? || a.CreateSequence? || a.SetSequenceStatus? || a.ReplaceSteps?)
    ensures Apply(s, a).threads == s.threads
    ensures a.Wait? ==> Apply(s, a).db == s.db.(now := s.db.now + a.ms)
    ensures !a.Wait? ==>
      var after := Apply(s, a).db;
      && after == s.db.(sequences := after.sequences, lists := after.lists)
      && after.sequences.Keys == s.db.sequences.Keys + {a.seqId}
      && forall q :: q in after.sequences ==>
           after.sequences[q] ==
           if q != a.seqId then s.db.sequences[q]
           else if a.CreateSequence? then Sequence(DRAFT, [], a.stopOnReply, a.startDelayMinutes)
           else if a.SetSequenceStatus? then s.db.sequences[q].(status := a.status)
           else s.db.sequences[q].(steps := SortByOrder(a.steps))
  {
    hide SortByOrder;
  }

  /** The status the run step of the thread's step gets, and nothing else in the tables. */
  ghost predicate StepBecomes(before: Db, after: Db, x: Snapshot, status: StepStatus) {
    var key := (x.runId, x.run.nextStepIndex);
    && key in before.runSteps
    && after == before.(runSteps := before.runSteps[key := RunStep(status, before.runSteps[key].createdAt)])
  }

  /**
   * Where the worker and the API's twin differ: the worker marks a sent step SENT and a failed insert
   * or mark FAILED; the twin marks a queued step SCHEDULED and a duplicate SENT, and gives the run up on
   * any failure, without touching the tables.
   */
  lemma MarkOutcome(s: State, t: Tid, succeeded: bool)
    requires Inv(s) && Enabled(s, MarkStep(t, succeeded))
    ensures var th := s.threads[t]; var s' := Apply(s, MarkStep(t, succeeded));
      if th.kind == ApiTick && !succeeded then s' == Put(s, t, s.db, NextRun(th))
      else
        && s'.threads == s.threads[t := th.(pc := Advancing)]
        && StepBecomes(s.db, s'.db, th.cur,
             if th.kind == ApiTick then if th.pc == JobRefused then SENT else SCHEDULED
             else if succeeded then SENT else STEP_FAILED)
  {
    assert ThreadOk(s.db, s.threads[t]);
    hide Inv, ThreadOk, Enabled;
  }

  lemma RouteOutcome(s: State, t: Tid, route: Route)
    requires Inv(s) && Enabled(s, Dispatch(t, route)) && route != DELIVERABLE
    ensures var th := s.threads[t]; var s' := Apply(s, Dispatch(t, route));
      if route == CREATE_ERROR && th.kind == ApiTick then s' == Put(s, t, s.db, NextRun(th))
      else
        && s'.threads == s.threads[t := th.(pc := Advancing)]
        && StepBecomes(s.db, s'.db, th.cur, if route == NO_VALID_CONTACT then SKIPPED else STEP_FAILED)
  {
    assert ThreadOk(s.db, s.threads[t]);
    hide Inv, ThreadOk, Enabled;
  }

  // ----- every thread of the protocol -----

  /** The system after the first n actions. */
  ghost function StateAt(actions: seq<Action>, n: nat): State
    requires n <= |actions|
  {
    Exec(INIT, actions[..n])
  }

  lemma StateAtStart(actions: seq<Action>)
    ensures StateAt(actions, 0) == INIT
  {
    assert actions[..0] == [];
  }

  lemma StateAtNext(actions: seq<Action>, n: nat)
    requires n < |actions|
    ensures StateAt(actions, n + 1) == Apply(StateAt(actions, n), actions[n])
  {
    hide Apply;
    assert actions[..n + 1] == actions[..n] + [actions[n]];
    ExecSplits(INIT, actions[..n], [actions[n]]);
    ExecOne(StateAt(actions, n), actions[n]);
  }

  /**
   * In every reachable state a dispatch, by the worker or by the API's twin, writes a job if and
   * only if its route is open: the job of the step the thread works on.
   */
  lemma DispatchSendsIff(actions: seq<Action>, t: Tid, route: Route)
    requires Enabled(Exec(INIT, actions), Dispatch(t, route))
    ensures var s := Exec(INIT, actions); var x := s.threads[t].cur; var index := x.run.nextStepIndex;
      Apply(s, Dispatch(t, route)).db.jobs ==
      if route == DELIVERABLE
      then s.db.jobs + [Job(x.steps[index].channel, DedupeKeys.DedupeKey(x.runId, index), x.runId, index)]
      else s.db.jobs
  {
    var s := Exec(INIT, actions);
    var x := s.threads[t].cur;
    ReachableInv(actions);
    DedupeNeverRefuses(actions, t, x.steps[x.run.nextStepIndex].channel);
    assert ThreadOk(s.db, s.threads[t]);
    CurrentStepOrder(s.db, s.threads[t]);
    hide Inv, ThreadOk, IsDueBatch;
  }

  /** Thread t starts a processing at position i. */
  ghost predicate ExaminesAt(actions: seq<Action>, i: nat, t: Tid) {
    i < |actions| && actions[i].Examine? && actions[i].t == t && Enabled(StateAt(actions, i), actions[i])
  }

  /**
   * Position i starts the processing thread t is in at position n, on the same snapshot, and what it
   * observed lets the message through.
   */
  ghost predicate ClearedBy(actions: seq<Action>, i: nat, n: nat, t: Tid)
    requires n <= |actions|
  {
    && i < n && ExaminesAt(actions, i, t) && (forall m: nat :: i < m < n ==> !ExaminesAt(actions, m, t))
    && ThreadOf(StateAt(actions, n), t).Ticking?
    && var x := StateAt(actions, i).threads[t].cur;
       && x == ThreadOf(StateAt(actions, n), t).cur
       && Clears(x, actions[i].observation)
       && IsOpen(StateAt(actions, i).db, x)
  }

  /** A thread gets to its dispatch only through an examination that lets it through, and stays there meanwhile. */
  lemma CreatedComesFrom(s: State, a: Action, t: Tid)
    requires Inv(s)
    requires ThreadOf(Apply(s, a), t).Ticking? && ThreadOf(Apply(s, a), t).pc == StepCreated
    ensures t in s.threads && s.threads[t].Ticking? && s.threads[t].cur == ThreadOf(Apply(s, a), t).cur
    ensures if a.Examine? && a.t == t && Enabled(s, a)
            then Clears(s.threads[t].cur, a.observation) && IsOpen(s.db, s.threads[t].cur)
            else s.threads[t].pc == StepCreated
  {
    hide IsDueBatch, DispatchStep, MarkStepStatus, StopRun, StoreSteps, SortByOrder, AdvanceRun, Inv;
    if a.Examine? && a.t == t && Enabled(s, a) {
      NewOwnerIsCurrent(s, t);
    } else if Enabled(s, a) && a.Dispatch? {
      DispatchLeaves(s, a.t, a.route);
    } else if Enabled(s, a) && a.MarkStep? {
      MarkLeaves(s, a.t, a.succeeded);
    }
  }

  lemma DispatchLeaves(s: State, t: Tid, route: Route)
    requires Enabled(s, Dispatch(t, route))
    ensures var s' := DispatchStep(s, t, route);
            s'.threads == s.threads[t := s'.threads[t]] && !(s'.threads[t].Ticking? && s'.threads[t].pc == StepCreated)
  {
  }

  lemma MarkLeaves(s: State, t: Tid, succeeded: bool)
    requires Enabled(s, MarkStep(t, succeeded))
    ensures var s' := MarkStepStatus(s, t, succeeded);
            s'.threads == s.threads[t := s'.threads[t]] && !(s'.threads[t].Ticking? && s'.threads[t].pc == StepCreated)
  {
  }

  lemma {:induction false} DispatcherIsCleared(actions: seq<Action>, n: nat, t: Tid) returns (i: nat)
    requires n <= |actions|
    requires ThreadOf(StateAt(actions, n), t).Ticking? && ThreadOf(StateAt(actions, n), t).pc == StepCreated
    ensures ClearedBy(actions, i, n, t)
    decreases n
  {
    hide Apply, Enabled, Inv;
    StateAtStart(actions);
    ReachableInv(actions[..n - 1]);
    StateAtNext(actions, n - 1);
    CreatedComesFrom(StateAt(actions, n - 1), actions[n - 1], t);
    i := n - 1;
    if !ExaminesAt(actions, n - 1, t) { i := DispatcherIsCleared(actions, n - 1, t); }
  }

  /**
   * Every job of every run of the system comes from a dispatch whose route was open, in a processing
   * whose examination saw no reply the sequence stops on, an existing lead that has not opted out and
   * passing conditions, and which wrote the run step of that step itself.
   */
  lemma EveryJobWasCleared(actions: seq<Action>, n: nat)
    requires n < |actions| && StateAt(actions, n + 1).db.jobs != StateAt(actions, n).db.jobs
    ensures actions[n].Dispatch? && actions[n].route == DELIVERABLE
    ensures exists i: nat :: ClearedBy(actions, i, n, actions[n].t)
  {
    hide Apply, Enabled, ClearedBy;
    var s, a := StateAt(actions, n), actions[n];
    StateAtNext(actions, n);
    JobsOnlyFromDispatch(s, a);
    DispatcherHolds(s, a.t, a.route);
    DispatchSendsIff(actions[..n], a.t, a.route);
    var i := DispatcherIsCleared(actions, n, a.t);
  }

  lemma DispatcherHolds(s: State, t: Tid, route: Route)
    requires Enabled(s, Dispatch(t, route))
    ensures ThreadOf(s, t).Ticking? && ThreadOf(s, t).pc == StepCreated
  {
  }

  /**
   * So a processing that observed a reply it must stop on, a missing lead, an opt-out or failing
   * conditions never adds a job: before its thread adds one, it has started another processing.
   */
  lemma RefusedNeverSends(actions: seq<Action>, i: nat, n: nat, t: Tid)
    requires i < n < |actions| && ExaminesAt(actions, i, t)
    requires !Clears(StateAt(actions, i).threads[t].cur, actions[i].observation)
    requires actions[n].Dispatch? && actions[n].t == t
    requires StateAt(actions, n + 1).db.jobs != StateAt(actions, n).db.jobs
    ensures exists m: nat :: i < m < n && ExaminesAt(actions, m, t)
  {
    EveryJobWasCleared(actions, n);
    var c: nat :| ClearedBy(actions, c, n, t);
    assert c > i;
  }
}
