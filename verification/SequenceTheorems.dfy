/** The promises of the message-sequence engine, for every run of the system. */
module SequenceTheorems {
  import opened Prelude
  import opened StepLists
  import opened SequenceModel
  import opened SequenceEngine
  import opened SequenceInvariant
  import opened SequenceSafety
  import DedupeKeys

  // ----- at most one send per (run, step), in order -----

  ghost predicate SameTarget(db: Db, i: nat, j: nat)
    requires i < |db.jobs| && j < |db.jobs| && db.jobs[i].runId in db.runs && db.jobs[j].runId in db.runs
  {
    && db.runs[db.jobs[i].runId].sequenceId == db.runs[db.jobs[j].runId].sequenceId
    && db.runs[db.jobs[i].runId].leadId == db.runs[db.jobs[j].runId].leadId
    && db.jobs[i].stepIndex == db.jobs[j].stepIndex
  }

  /** At most one outbound job per sequence, lead and step index, whatever interleaves. */
  lemma AtMostOneJob(actions: seq<Action>, i: nat, j: nat)
    requires i < |Exec(INIT, actions).db.jobs| && j < |Exec(INIT, actions).db.jobs|
    ensures var db := Exec(INIT, actions).db;
            && db.jobs[i].runId in db.runs && db.jobs[j].runId in db.runs
            && (SameTarget(db, i, j) ==> i == j)
  {
    ReachableInv(actions);
    var db := Exec(INIT, actions).db;
    assert (db.jobs[i].runId, db.jobs[i].stepIndex) in db.runSteps;
    assert (db.jobs[j].runId, db.jobs[j].stepIndex) in db.runSteps;
  }

  lemma RunStepsBelow(db: Db, id: RunId, top: int, k: int)
    requires RunStepsOk(db.now, db.lists, db.runs, db.runSteps) && (id, top) in db.runSteps && 0 <= k <= top
    ensures (id, k) in db.runSteps
  {
    var key := (id, top);
    assert RunStepOk(db.now, db.lists[db.runs[id].sequenceId], db.runs[id], key.1, db.runSteps[key]);
    if k < top { assert 0 <= k < db.runs[id].nextStepIndex; }
  }

  /** A job for a step exists only after every step up to it has its run step. */
  lemma JobsFollowRunSteps(actions: seq<Action>, i: nat, k: nat)
    requires i < |Exec(INIT, actions).db.jobs| && k <= Exec(INIT, actions).db.jobs[i].stepIndex
    ensures var db := Exec(INIT, actions).db; (db.jobs[i].runId, k as int) in db.runSteps
  {
    ReachableInv(actions);
    var db := Exec(INIT, actions).db;
    RunStepsBelow(db, db.jobs[i].runId, db.jobs[i].stepIndex, k);
  }

  /** The run-step insert already serialises senders: the job's dedupe key is never found taken. */
  lemma DedupeNeverRefuses(actions: seq<Action>, t: Tid, kind: Channel)
    requires var s := Exec(INIT, actions); t in s.threads && Owns(s.threads[t]) && s.threads[t].pc == StepCreated
    ensures var s := Exec(INIT, actions); var x := s.threads[t].cur;
            && x.run.nextStepIndex < |x.steps|
            && !JobKeyTaken(s.db, kind, DedupeKeys.DedupeKey(x.runId, x.steps[x.run.nextStepIndex].orderIndex))
  {
    ReachableInv(actions);
    var s := Exec(INIT, actions);
    var x := s.threads[t].cur;
    assert ThreadOk(s.db, s.threads[t]);
    CurrentStepOrder(s.db, s.threads[t]);
    var index := x.run.nextStepIndex;
    assert !HasJob(s.db, x.runId, index);
    forall i | 0 <= i < |s.db.jobs| ensures s.db.jobs[i].dedupeKey != DedupeKeys.DedupeKey(x.runId, index) {
      DedupeKeys.DedupeKeyInjective(s.db.jobs[i].runId, s.db.jobs[i].stepIndex, x.runId, index);
    }
  }

  // ----- nothing is taken back -----

  lemma {:induction false} ExecSplits(s: State, first: seq<Action>, second: seq<Action>)
    ensures Exec(s, first + second) == Exec(Exec(s, first), second)
    decreases |first|
  {
    if first == [] {
      assert first + second == second;
    } else {
      assert (first + second)[1..] == first[1..] + second;
      ExecSplits(Apply(s, first[0]), first[1..], second);
    }
  }

  /**
   * Along any continuation a run keeps its sequence, lead and start; its index never goes
   * back, however stale the writer; a run that left RUNNING never returns; run steps and
   * jobs are never removed.
   */
  lemma NothingGoesBack(before: seq<Action>, after: seq<Action>)
    ensures Grows(Exec(INIT, before).db, Exec(INIT, before + after).db)
  {
    ReachableInv(before);
    RunKeepsInv(Exec(INIT, before), after);
    ExecSplits(INIT, before, after);
  }

  // ----- timing -----

  /**
   * While a sequence has only ever had the step list `l`: a RUNNING run is due exactly at its
   * start plus the delay of its next step, no run step precedes its due time, and a COMPLETED
   * run has exactly one run step for each index of the list.
   */
  lemma TimingOnUnchangedList(actions: seq<Action>, id: RunId, l: seq<StepDef>)
    requires var db := Exec(INIT, actions).db;
             id in db.runs && db.runs[id].sequenceId in db.lists && db.lists[db.runs[id].sequenceId] == {l}
    ensures var db := Exec(INIT, actions).db; var run := db.runs[id];
      && run.nextStepIndex <= |l|
      && (run.status == RUNNING ==>
            && run.nextStepIndex < |l|
            && run.nextStepAt == Some(run.startedAt + l[run.nextStepIndex].delayMinutes * MINUTE))
      && (forall j: int :: (id, j) in db.runSteps ==>
            0 <= j < |l| && db.runSteps[(id, j)].createdAt >= run.startedAt + l[j].delayMinutes * MINUTE)
      && (run.status == COMPLETED ==>
            run.nextStepIndex == |l| && forall j: int :: (id, j) in db.runSteps <==> 0 <= j < |l|)
  {
    ReachableInv(actions);
    var db := Exec(INIT, actions).db;
    var run := db.runs[id];
    var lists := db.lists[run.sequenceId];
    assert RunOk(lists, run) && l != [];
    forall j: int | (id, j) in db.runSteps
      ensures 0 <= j < |l| && db.runSteps[(id, j)].createdAt >= run.startedAt + l[j].delayMinutes * MINUTE
    {
      assert RunStepOk(db.now, lists, run, j, db.runSteps[(id, j)]);
    }
  }

  /** With lists that did change: the due time still comes from some list that was stored. */
  lemma TimingOnAnyLists(actions: seq<Action>, id: RunId)
    requires id in Exec(INIT, actions).db.runs
    ensures var db := Exec(INIT, actions).db; var run := db.runs[id];
      && run.sequenceId in db.lists
      && (run.nextStepAt.Some? ==>
            Scheduled(db.lists[run.sequenceId], run.startedAt, run.nextStepIndex, run.nextStepAt.value))
      && (forall j: int :: (id, j) in db.runSteps ==>
            NotEarly(db.lists[run.sequenceId], run.startedAt, j, db.runSteps[(id, j)].createdAt))
  {
    ReachableInv(actions);
    var db := Exec(INIT, actions).db;
    forall j: int | (id, j) in db.runSteps
      ensures NotEarly(db.lists[db.runs[id].sequenceId], db.runs[id].startedAt, j, db.runSteps[(id, j)].createdAt)
    {
      assert RunStepOk(db.now, db.lists[db.runs[id].sequenceId], db.runs[id], j, db.runSteps[(id, j)]);
    }
  }

  // ----- after stopRun -----

  /** The runs a tick has fetched and not finished. */
  function Snapshots(th: Thread): seq<Snapshot> {
    if th.Ticking? then [th.cur] + th.rest else []
  }

  ghost predicate Holds(th: Thread, id: RunId) {
    exists x :: x in Snapshots(th) && x.runId == id
  }

  /** No thread holds a snapshot of `id` beyond `index`, and every holder is among `holders`. */
  ghost predicate HeldWithin(s: State, id: RunId, index: nat, holders: set<Tid>) {
    forall t, x :: t in s.threads && x in Snapshots(s.threads[t]) && x.runId == id ==>
      t in holders && x.run.nextStepIndex <= index
  }

  ghost predicate Stopped(s: State, id: RunId) {
    id in s.db.runs && s.db.runs[id].status != RUNNING
  }

  /** A tick's own actions keep its snapshots or drop the one it is at. */
  lemma TickThreadAfter(s: State, a: Action)
    requires Enabled(s, a) && (a.Examine? || a.Dispatch? || a.MarkStep? || a.Advance? || a.Throw?)
    ensures var th := s.threads[a.t];
      && a.t in s.threads && th.Ticking? && a.t in Apply(s, a).threads
      && var after := Apply(s, a).threads[a.t];
         && Apply(s, a).threads == s.threads[a.t := after]
         && (after == NextRun(th) || Snapshots(after) == Snapshots(th))
  {
  }

  lemma FetchedIsDue(db: Db, kind: TickKind, batch: seq<RunId>, x: Snapshot)
    requires IsDueBatch(db, batch) && forall id :: id in batch ==>
        id in db.runs && db.runs[id].sequenceId in db.sequences
    requires x in Snapshots(FetchThread(db, kind, batch))
    ensures IsDue(db, x.runId)
  {
    hide IsDue;
    var th := FetchThread(db, kind, batch);
    var i :| 0 <= i < |Snapshots(th)| && Snapshots(th)[i] == x;
    assert Snapshots(th)[1..] == th.rest;
    assert x.runId == batch[i];
  }

  /** A step only drops snapshots, except a fetch, which takes due runs. */
  lemma SnapshotsAfterStep(s: State, a: Action, t: Tid, x: Snapshot)
    requires t in Apply(s, a).threads && x in Snapshots(Apply(s, a).threads[t])
    ensures (t in s.threads && x in Snapshots(s.threads[t])) || IsDue(s.db, x.runId)
  {
    hide ExamineStep, DispatchStep, MarkStepStatus, AdvanceRun, FetchThread, Snapshots;
    if Enabled(s, a) {
      if a.Examine? || a.Dispatch? || a.MarkStep? || a.Advance? || a.Throw? {
        TickThreadAfter(s, a);
        NextRunDrops(s.threads[a.t], x);
      } else if a.Fetch? && a.t == t {
        FetchedIsDue(s.db, a.kind, a.batch, x);
      } else if a.BeginStart? || a.CommitStart? || a.Crash? {
        NoSnapshots(Apply(s, a).threads[a.t], x);
      }
    }
  }

  lemma NextRunDrops(th: Thread, x: Snapshot)
    requires th.Ticking?
    ensures x in Snapshots(NextRun(th)) ==> x in Snapshots(th)
  {
    if th.rest != [] { assert Snapshots(NextRun(th)) == th.rest; }
  }

  lemma NoSnapshots(th: Thread, x: Snapshot)
    ensures !th.Ticking? ==> x !in Snapshots(th)
  {
  }

  lemma HeldAfterStep(s: State, a: Action, id: RunId, index: nat, holders: set<Tid>)
    requires Inv(s) && Stopped(s, id) && HeldWithin(s, id, index, holders)
    ensures Stopped(Apply(s, a), id) && HeldWithin(Apply(s, a), id, index, holders)
  {
    hide Apply, Inv;
    StepKeepsInv(s, a);
    forall t, x | t in Apply(s, a).threads && x in Snapshots(Apply(s, a).threads[t]) && x.runId == id
      ensures t in holders && x.run.nextStepIndex <= index
    {
      SnapshotsAfterStep(s, a, t, x);
    }
  }

  /** Only a dispatching thread adds a job, for the step of the snapshot it works on. */
  lemma JobsOnlyFromDispatch(s: State, a: Action)
    ensures var jobs := Apply(s, a).db.jobs;
      || jobs == s.db.jobs
      || (&& a.Dispatch? && Enabled(s, a)
          && |jobs| == |s.db.jobs| + 1 && s.db.jobs <= jobs
          && var x := s.threads[a.t].cur;
             && jobs[|s.db.jobs|].runId == x.runId
             && jobs[|s.db.jobs|].stepIndex == x.steps[x.run.nextStepIndex].orderIndex)
  {
  }

  ghost predicate NewJobsWithin(before: seq<Job>, after: seq<Job>, id: RunId, index: nat) {
    && before <= after
    && forall i :: |before| <= i < |after| && after[i].runId == id ==> after[i].stepIndex == index
  }

  lemma NewJobWithin(s: State, t: Tid, jobs: seq<Job>, id: RunId, index: nat, holders: set<Tid>)
    requires HeldWithin(s, id, index, holders)
    requires t in s.threads && s.threads[t].Ticking? && s.db.jobs <= jobs && |jobs| == |s.db.jobs| + 1
    requires var x := s.threads[t].cur;
             && jobs[|s.db.jobs|].runId == x.runId
             && jobs[|s.db.jobs|].stepIndex == x.run.nextStepIndex
             && (x.runId == id ==> x.run.nextStepIndex >= index)
    ensures NewJobsWithin(s.db.jobs, jobs, id, index)
    ensures jobs[|s.db.jobs|].runId == id ==> t in holders
  {
    assert s.threads[t].cur in Snapshots(s.threads[t]);
  }

  lemma JobAfterStep(s: State, a: Action, id: RunId, index: nat, holders: set<Tid>)
    requires Inv(s) && HeldWithin(s, id, index, holders)
    requires id in s.db.runs && s.db.runs[id].nextStepIndex >= index
    ensures NewJobsWithin(s.db.jobs, Apply(s, a).db.jobs, id, index)
    ensures |s.db.jobs| < |Apply(s, a).db.jobs| && Apply(s, a).db.jobs[|s.db.jobs|].runId == id
            ==> a.Dispatch? && a.t in holders
  {
    JobsOnlyFromDispatch(s, a);
    if Apply(s, a).db.jobs != s.db.jobs {
      OwnerFacts(s, a.t);
      NewJobWithin(s, a.t, Apply(s, a).db.jobs, id, index, holders);
    }
  }

  lemma OwnerFacts(s: State, t: Tid)
    requires Inv(s) && t in s.threads && Owns(s.threads[t])
    ensures var x := s.threads[t].cur;
            && x.runId in s.db.runs
            && s.db.runs[x.runId].nextStepIndex == x.run.nextStepIndex < |x.steps|
            && x.steps[x.run.nextStepIndex].orderIndex == x.run.nextStepIndex
  {
    assert ThreadOk(s.db, s.threads[t]);
    CurrentStepOrder(s.db, s.threads[t]);
  }

  lemma {:induction false} JobsAfterStop(s: State, id: RunId, index: nat, holders: set<Tid>, actions: seq<Action>)
    requires Inv(s) && Stopped(s, id) && HeldWithin(s, id, index, holders)
    requires s.db.runs[id].nextStepIndex >= index
    ensures NewJobsWithin(s.db.jobs, Exec(s, actions).db.jobs, id, index)
    decreases |actions|
  {
    hide Apply, Inv, HeldWithin;
    if actions != [] {
      StepKeepsInv(s, actions[0]);
      HeldAfterStep(s, actions[0], id, index, holders);
      JobAfterStep(s, actions[0], id, index, holders);
      JobsAfterStop(Apply(s, actions[0]), id, index, holders, actions[1..]);
    }
  }

  lemma {:induction false} HoldersAfterStop(s: State, id: RunId, index: nat, holders: set<Tid>, actions: seq<Action>)
    requires Inv(s) && Stopped(s, id) && HeldWithin(s, id, index, holders)
    ensures Stopped(Exec(s, actions), id) && HeldWithin(Exec(s, actions), id, index, holders)
    decreases |actions|
  {
    hide Apply, Inv, HeldWithin;
    if actions != [] {
      StepKeepsInv(s, actions[0]);
      HeldAfterStep(s, actions[0], id, index, holders);
      HoldersAfterStop(Apply(s, actions[0]), id, index, holders, actions[1..]);
    }
  }

  ghost function HoldersOf(s: State, id: RunId): set<Tid> {
    set t | t in s.threads && Holds(s.threads[t], id)
  }

  lemma AllHeldNow(s: State, id: RunId)
    requires Inv(s) && id in s.db.runs
    ensures HeldWithin(s, id, s.db.runs[id].nextStepIndex, HoldersOf(s, id))
  {
    forall t, x | t in s.threads && x in Snapshots(s.threads[t]) && x.runId == id
      ensures t in HoldersOf(s, id) && x.run.nextStepIndex <= s.db.runs[id].nextStepIndex
    {
      assert ThreadOk(s.db, s.threads[t]);
      assert SnapshotOk(s.db, x);
    }
  }

  lemma ExecOne(s: State, a: Action)
    ensures Exec(s, [a]) == Apply(s, a)
  {
    assert [a][1..] == [];
    assert Exec(Apply(s, a), []) == Apply(s, a);
  }

  /**
   * Once `stopRun` has committed, whatever follows adds at most one job for the run, and it
   * is for the step the run stood at.
   */
  lemma AtMostOneJobAfterStop(before: seq<Action>, id: RunId, after: seq<Action>)
    requires id in Exec(INIT, before).db.runs
    ensures var stopped := Exec(INIT, before + [Stop(id)]).db;
            var later := Exec(INIT, before + [Stop(id)] + after).db;
      && id in stopped.runs && stopped.runs[id].status == CANCELED
      && id in later.runs && later.runs[id].status != RUNNING
      && NewJobsWithin(stopped.jobs, later.jobs, id, stopped.runs[id].nextStepIndex)
      && (forall i, j ::
            (|stopped.jobs| <= i < j < |later.jobs|) ==> later.jobs[i].runId != id || later.jobs[j].runId != id)
  {
    var stopped := Exec(INIT, before + [Stop(id)]);
    ReachableInv(before + [Stop(id)]);
    ReachableInv(before + [Stop(id)] + after);
    ExecSplits(INIT, before, [Stop(id)]);
    ExecOne(Exec(INIT, before), Stop(id));
    ExecSplits(INIT, before + [Stop(id)], after);
    var index := stopped.db.runs[id].nextStepIndex;
    AllHeldNow(stopped, id);
    JobsAfterStop(stopped, id, index, HoldersOf(stopped, id), after);
    HoldersAfterStop(stopped, id, index, HoldersOf(stopped, id), after);
  }

  /** Only a tick that already held the run when it was no longer RUNNING can still write a job for it. */
  lemma OnlyEarlierFetchesSend(before: seq<Action>, id: RunId, after: seq<Action>, a: Action)
    requires Stopped(Exec(INIT, before), id)
    requires var s := Exec(INIT, before + after);
             |s.db.jobs| < |Apply(s, a).db.jobs| && Apply(s, a).db.jobs[|s.db.jobs|].runId == id
    ensures a.Dispatch? && a.t in Exec(INIT, before).threads && Holds(Exec(INIT, before).threads[a.t], id)
  {
    var s := Exec(INIT, before);
    ReachableInv(before);
    ReachableInv(before + after);
    ExecSplits(INIT, before, after);
    NothingGoesBack(before, after);
    AllHeldNow(s, id);
    var index := s.db.runs[id].nextStepIndex;
    HoldersAfterStop(s, id, index, HoldersOf(s, id), after);
    JobAfterStep(Exec(s, after), a, id, index, HoldersOf(s, id));
  }

  // ----- a crash between the run-step insert and the advance -----

  /** The run step of the current index exists and nobody is left to move the run past it. */
  ghost predicate Parked(s: State, id: RunId) {
    && id in s.db.runs
    && (id, s.db.runs[id].nextStepIndex) in s.db.runSteps
    && forall t :: t in s.threads && Owns(s.threads[t]) ==> s.threads[t].cur.runId != id
  }

  /** A crash or an exception of the owner parks the run. */
  lemma LosingTheOwnerParks(s: State, t: Tid, a: Action)
    requires Inv(s) && t in s.threads && Owns(s.threads[t]) && a in {Crash(t), Throw(t)}
    ensures Parked(Apply(s, a), s.threads[t].cur.runId)
    ensures Apply(s, a).db == s.db
  {
    assert ThreadOk(s.db, s.threads[t]);
  }

  /** What one action can do to a run's index. */
  lemma IndexOnlyFromAdvance(s: State, a: Action, id: RunId)
    requires id in s.db.runs
    ensures id in Apply(s, a).db.runs
    ensures Apply(s, a).db.runs[id].nextStepIndex == s.db.runs[id].nextStepIndex
         || (a.Advance? && Enabled(s, a) && s.threads[a.t].cur.runId == id)
  {
  }

  /** A thread becomes an owner only by inserting the run step itself. */
  lemma OwnersOnlyFromInsert(s: State, a: Action, t: Tid)
    requires t in Apply(s, a).threads && Owns(Apply(s, a).threads[t])
    ensures t in s.threads && s.threads[t].Ticking? && Apply(s, a).threads[t].cur == s.threads[t].cur
    ensures Owns(s.threads[t])
         || (var x := s.threads[t].cur;
             && x.run.nextStepIndex < |x.steps|
             && (x.runId, x.steps[x.run.nextStepIndex].orderIndex) !in s.db.runSteps)
  {
  }

  lemma ParkedStep(s: State, a: Action, id: RunId)
    requires Inv(s) && Parked(s, id)
    ensures Parked(Apply(s, a), id)
    ensures Apply(s, a).db.runs[id].nextStepIndex == s.db.runs[id].nextStepIndex
    ensures NoNewJobs(s.db.jobs, Apply(s, a).db.jobs, id)
  {
    hide Apply, Inv;
    StepKeepsInv(s, a);
    IndexOnlyFromAdvance(s, a, id);
    JobsOnlyFromDispatch(s, a);
    forall t | t in Apply(s, a).threads && Owns(Apply(s, a).threads[t])
      ensures Apply(s, a).threads[t].cur.runId != id
    {
      OwnersOnlyFromInsert(s, a, t);
      NewOwnerIsCurrent(s, t);
    }
  }

  lemma NewOwnerIsCurrent(s: State, t: Tid)
    requires Inv(s) && t in s.threads && s.threads[t].Ticking?
    ensures var x := s.threads[t].cur;
            && x.runId in s.db.runs
            && (x.run.nextStepIndex < |x.steps| ==>
                 && x.steps[x.run.nextStepIndex].orderIndex == x.run.nextStepIndex
                 && ((x.runId, x.run.nextStepIndex) in s.db.runSteps
                     || x.run.nextStepIndex == s.db.runs[x.runId].nextStepIndex))
  {
    assert ThreadOk(s.db, s.threads[t]);
    var x := s.threads[t].cur;
    if x.run.nextStepIndex < |x.steps| { CurrentStepOrder(s.db, s.threads[t]); }
  }

  ghost predicate NoNewJobs(before: seq<Job>, after: seq<Job>, id: RunId) {
    before <= after && forall i :: |before| <= i < |after| ==> after[i].runId != id
  }

  /** No continuation ever advances a parked run or sends another message for it. */
  lemma {:induction false} ParkedForever(s: State, id: RunId, actions: seq<Action>)
    requires Inv(s) && Parked(s, id)
    ensures var s' := Exec(s, actions);
            && Parked(s', id)
            && s'.db.runs[id].nextStepIndex == s.db.runs[id].nextStepIndex
            && NoNewJobs(s.db.jobs, s'.db.jobs, id)
    decreases |actions|
  {
    hide Apply, Inv, Parked;
    if actions != [] {
      StepKeepsInv(s, actions[0]);
      ParkedStep(s, actions[0], id);
      ParkedForever(Apply(s, actions[0]), id, actions[1..]);
    }
  }
}
