/** What every action of the protocol keeps, under every interleaving. */
module SequenceInvariant {
  import opened Prelude
  import opened StepLists
  import opened SequenceModel
  import opened SequenceEngine
  import DedupeKeys

  // ----- the database part -----

  ghost predicate ListsOk(sequences: map<SeqId, Sequence>, lists: map<SeqId, set<seq<StepDef>>>) {
    && sequences.Keys == lists.Keys
    && (forall id :: id in sequences ==>
          if lists[id] == {} then sequences[id].steps == [] else sequences[id].steps in lists[id])
    && (forall id :: id in sequences && sequences[id].status == ACTIVE ==> HasSteps(lists[id]))
    && (forall id, l :: id in lists && l in lists[id] ==> WellOrdered(l))
  }

  /** `at` is the due time some stored list gives to step `index` of a run started at `start`. */
  ghost predicate Scheduled(lists: set<seq<StepDef>>, start: int, index: nat, at: int) {
    exists l: seq<StepDef> :: l in lists && index < |l| && at == start + l[index].delayMinutes * MINUTE
  }

  ghost predicate ReachesEnd(lists: set<seq<StepDef>>, index: nat) {
    exists l: seq<StepDef> :: l in lists && |l| <= index
  }

  ghost predicate WithinList(lists: set<seq<StepDef>>, index: int) {
    exists l: seq<StepDef> :: l in lists && 0 <= index < |l|
  }

  ghost predicate RunOk(lists: set<seq<StepDef>>, run: Run) {
    && HasSteps(lists)
    && (run.nextStepIndex == 0 || WithinList(lists, run.nextStepIndex - 1))
    && (run.nextStepAt.Some? ==> Scheduled(lists, run.startedAt, run.nextStepIndex, run.nextStepAt.value))
    && (run.status == RUNNING && run.nextStepAt.None? ==> run.nextStepIndex == 0 && [] in lists)
    && (run.status == COMPLETED ==> ReachesEnd(lists, run.nextStepIndex))
  }

  ghost predicate RunsOk(lists: map<SeqId, set<seq<StepDef>>>, runs: map<RunId, Run>) {
    && (forall id :: id in runs ==>
          runs[id].sequenceId in lists && RunOk(lists[runs[id].sequenceId], runs[id]))
    && (forall p, q :: p in runs && q in runs && p != q ==>
          runs[p].sequenceId != runs[q].sequenceId || runs[p].leadId != runs[q].leadId)
  }

  /** A run step was written no earlier than the due time some stored list gives it. */
  ghost predicate NotEarly(lists: set<seq<StepDef>>, start: int, index: int, at: int) {
    exists l: seq<StepDef> :: l in lists && 0 <= index < |l| && start + l[index].delayMinutes * MINUTE <= at
  }

  ghost predicate RunStepOk(now: int, lists: set<seq<StepDef>>, run: Run, index: int, step: RunStep) {
    && 0 <= index <= run.nextStepIndex
    && step.createdAt <= now
    && WithinList(lists, index)
    && NotEarly(lists, run.startedAt, index, step.createdAt)
  }

  ghost predicate RunStepsOk(now: int, lists: map<SeqId, set<seq<StepDef>>>,
                             runs: map<RunId, Run>, runSteps: map<(RunId, int), RunStep>) {
    && (forall k :: k in runSteps ==>
          && k.0 in runs && runs[k.0].sequenceId in lists
          && RunStepOk(now, lists[runs[k.0].sequenceId], runs[k.0], k.1, runSteps[k]))
    && (forall id, j: int :: id in runs && 0 <= j < runs[id].nextStepIndex ==> (id, j) in runSteps)
  }

  ghost predicate JobsOk(keys: set<(RunId, int)>, jobs: seq<Job>) {
    && (forall i :: 0 <= i < |jobs| ==>
          && (jobs[i].runId, jobs[i].stepIndex) in keys
          && jobs[i].dedupeKey == DedupeKeys.DedupeKey(jobs[i].runId, jobs[i].stepIndex))
    && (forall i, j :: 0 <= i < j < |jobs| ==>
          jobs[i].runId != jobs[j].runId || jobs[i].stepIndex != jobs[j].stepIndex)
  }

  ghost predicate DbOk(db: Db) {
    && ListsOk(db.sequences, db.lists)
    && RunsOk(db.lists, db.runs)
    && RunStepsOk(db.now, db.lists, db.runs, db.runSteps)
    && JobsOk(db.runSteps.Keys, db.jobs)
  }

  // ----- the thread part -----

  ghost predicate SnapshotOk(db: Db, x: Snapshot) {
    && x.runId in db.runs
    && var row := db.runs[x.runId];
       && x.run.status == RUNNING
       && x.run.sequenceId == row.sequenceId && x.run.startedAt == row.startedAt
       && row.sequenceId in db.lists
       && x.steps in db.lists[row.sequenceId] && WellOrdered(x.steps)
       && x.run.nextStepIndex <= row.nextStepIndex
       && x.run.nextStepAt.Some? && x.run.nextStepAt.value <= db.now
       && Scheduled(db.lists[row.sequenceId], x.run.startedAt, x.run.nextStepIndex, x.run.nextStepAt.value)
  }

  /** The thread that wrote the run step of a run's current index and has not moved on. */
  ghost predicate Owns(th: Thread) {
    th.Ticking? && th.pc != Begin
  }

  ghost predicate OwnerOk(db: Db, x: Snapshot) {
    && x.runId in db.runs
    && db.runs[x.runId].nextStepIndex == x.run.nextStepIndex < |x.steps|
    && (x.runId, x.run.nextStepIndex) in db.runSteps
  }

  ghost predicate StartOk(db: Db, th: Thread)
    requires th.Starting?
  {
    && th.sequenceId in db.lists && HasSteps(db.lists[th.sequenceId])
    && (th.firstAt.Some? ==> Scheduled(db.lists[th.sequenceId], th.startedAt, 0, th.firstAt.value))
    && (th.firstAt.None? ==> [] in db.lists[th.sequenceId])
  }

  ghost predicate ThreadOk(db: Db, th: Thread) {
    match th
    case Idle => true
    case Starting(_, _, _, _) => StartOk(db, th)
    case Ticking(_, pc, cur, rest) =>
      && SnapshotOk(db, cur)
      && (forall x :: x in rest ==> SnapshotOk(db, x))
      && (pc != Begin ==> OwnerOk(db, cur))
  }

  ghost predicate HasJob(db: Db, id: RunId, index: int) {
    exists i :: 0 <= i < |db.jobs| && db.jobs[i].runId == id && db.jobs[i].stepIndex == index
  }

  ghost predicate ThreadsOk(s: State) {
    && (forall t :: t in s.threads ==> ThreadOk(s.db, s.threads[t]))
    && (forall t, u :: t in s.threads && u in s.threads && t != u && Owns(s.threads[t]) && Owns(s.threads[u])
          ==> s.threads[t].cur.runId != s.threads[u].cur.runId)
    && (forall t :: t in s.threads && Owns(s.threads[t]) && s.threads[t].pc == StepCreated
          ==> !HasJob(s.db, s.threads[t].cur.runId, s.threads[t].cur.run.nextStepIndex))
  }

  ghost predicate Inv(s: State) {
    DbOk(s.db) && ThreadsOk(s)
  }

  // ----- what every action keeps of the database -----

  ghost predicate RunGrows(before: Run, after: Run) {
    && after.sequenceId == before.sequenceId && after.leadId == before.leadId
    && after.startedAt == before.startedAt
    && before.nextStepIndex <= after.nextStepIndex
    && (before.status != RUNNING ==> after.status != RUNNING)
  }

  ghost predicate Grows(before: Db, after: Db) {
    && before.now <= after.now
    && (forall id :: id in before.lists ==> id in after.lists && before.lists[id] <= after.lists[id])
    && (forall id :: id in before.runs ==> id in after.runs && RunGrows(before.runs[id], after.runs[id]))
    && before.runSteps.Keys <= after.runSteps.Keys
    && |before.jobs| <= |after.jobs| && after.jobs[..|before.jobs|] == before.jobs
  }

  lemma ScheduledMonotone(small: set<seq<StepDef>>, large: set<seq<StepDef>>, start: int, index: nat, at: int)
    requires small <= large && Scheduled(small, start, index, at)
    ensures Scheduled(large, start, index, at)
  {
    var l: seq<StepDef> :| l in small && index < |l| && at == start + l[index].delayMinutes * MINUTE;
    assert l in large;
  }

  lemma HasStepsMonotone(small: set<seq<StepDef>>, large: set<seq<StepDef>>)
    requires small <= large && HasSteps(small)
    ensures HasSteps(large)
  {
    var l :| l in small && l != [];
    assert l in large;
  }

  /** Growth keeps what a thread relies on, except ownership of a run that moved on. */
  lemma ThreadSurvives(before: Db, after: Db, th: Thread)
    requires Grows(before, after) && ThreadOk(before, th)
    requires Owns(th) ==> after.runs[th.cur.runId].nextStepIndex == before.runs[th.cur.runId].nextStepIndex
    ensures ThreadOk(after, th)
  {
    match th
    case Idle =>
    case Starting(id, _, start, firstAt) =>
      HasStepsMonotone(before.lists[id], after.lists[id]);
      if firstAt.Some? { ScheduledMonotone(before.lists[id], after.lists[id], start, 0, firstAt.value); }
    case Ticking(_, _, cur, rest) =>
      SnapshotSurvives(before, after, cur);
      forall x | x in rest ensures SnapshotOk(after, x) { SnapshotSurvives(before, after, x); }
  }

  lemma SnapshotSurvives(before: Db, after: Db, x: Snapshot)
    requires Grows(before, after) && SnapshotOk(before, x)
    ensures SnapshotOk(after, x)
  {
    var id := before.runs[x.runId].sequenceId;
    ScheduledMonotone(before.lists[id], after.lists[id], x.run.startedAt, x.run.nextStepIndex, x.run.nextStepAt.value);
  }

  /** Replacing one thread in a grown database: the rest of the invariant carries over. */
  lemma PutKeepsThreads(s: State, t: Tid, db: Db, th: Thread)
    requires ThreadsOk(s) && Grows(s.db, db) && ThreadOk(db, th)
    requires forall u :: u in s.threads && u != t && Owns(s.threads[u]) ==>
               && db.runs[s.threads[u].cur.runId].nextStepIndex == s.db.runs[s.threads[u].cur.runId].nextStepIndex
               && (Owns(th) ==> th.cur.runId != s.threads[u].cur.runId)
    requires forall u :: u in s.threads && u != t && Owns(s.threads[u]) && s.threads[u].pc == StepCreated ==>
               !HasJob(db, s.threads[u].cur.runId, s.threads[u].cur.run.nextStepIndex)
    requires Owns(th) && th.pc == StepCreated ==> !HasJob(db, th.cur.runId, th.cur.run.nextStepIndex)
    ensures ThreadsOk(Put(s, t, db, th))
  {
    var s' := Put(s, t, db, th);
    forall u | u in s'.threads ensures ThreadOk(db, s'.threads[u]) {
      if u != t { ThreadSurvives(s.db, db, s.threads[u]); }
    }
  }

  lemma NextRunOk(db: Db, th: Thread)
    requires th.Ticking? && ThreadOk(db, th)
    ensures ThreadOk(db, NextRun(th)) && !Owns(NextRun(th))
  {
  }

  // ----- each transaction keeps the database part -----

  lemma RunOkMonotone(small: set<seq<StepDef>>, large: set<seq<StepDef>>, run: Run)
    requires small <= large && RunOk(small, run)
    ensures RunOk(large, run)
  {
    HasStepsMonotone(small, large);
    if run.nextStepAt.Some? {
      ScheduledMonotone(small, large, run.startedAt, run.nextStepIndex, run.nextStepAt.value);
    }
    if run.status == COMPLETED {
      var l :| l in small && |l| <= run.nextStepIndex;
      assert l in large;
    }
    if run.nextStepIndex != 0 { WithinListMonotone(small, large, run.nextStepIndex - 1); }
  }

  lemma WithinListMonotone(small: set<seq<StepDef>>, large: set<seq<StepDef>>, index: int)
    requires small <= large && WithinList(small, index)
    ensures WithinList(large, index)
  {
    var l :| l in small && 0 <= index < |l|;
    assert l in large;
  }

  lemma RunStepOkMonotone(now: int, now': int, small: set<seq<StepDef>>, large: set<seq<StepDef>>,
                          run: Run, run': Run, index: int, step: RunStep)
    requires small <= large && now <= now' && RunGrows(run, run')
    requires RunStepOk(now, small, run, index, step)
    ensures RunStepOk(now', large, run', index, step)
  {
    WithinListMonotone(small, large, index);
    var l: seq<StepDef> :| l in small && 0 <= index < |l|
      && run.startedAt + l[index].delayMinutes * MINUTE <= step.createdAt;
    assert l in large;
  }

  /** Growth of lists, clock and run rows keeps the run steps justified. */
  lemma RunStepsMonotone(before: Db, after: Db)
    requires RunStepsOk(before.now, before.lists, before.runs, before.runSteps)
    requires Grows(before, after) && after.runSteps == before.runSteps
    requires after.runs.Keys >= before.runs.Keys
    requires forall id, j: int :: id in after.runs && 0 <= j < after.runs[id].nextStepIndex ==>
        (id, j) in after.runSteps
    ensures RunStepsOk(after.now, after.lists, after.runs, after.runSteps)
  {
    forall k | k in after.runSteps
      ensures k.0 in after.runs && after.runs[k.0].sequenceId in after.lists
      ensures RunStepOk(after.now, after.lists[after.runs[k.0].sequenceId], after.runs[k.0], k.1, after.runSteps[k])
    {
      var q := before.runs[k.0].sequenceId;
      RunStepOkMonotone(before.now, after.now, before.lists[q], after.lists[q],
                        before.runs[k.0], after.runs[k.0], k.1, before.runSteps[k]);
    }
  }

  /** New lists never invalidate what was justified by the old ones. */
  lemma MoreListsKeepDb(db: Db, db': Db)
    requires DbOk(db) && ListsOk(db'.sequences, db'.lists)
    requires db' == db.(sequences := db'.sequences, lists := db'.lists)
    requires forall id :: id in db.lists ==> id in db'.lists && db.lists[id] <= db'.lists[id]
    ensures DbOk(db') && Grows(db, db')
  {
    forall id | id in db'.runs
      ensures db'.runs[id].sequenceId in db'.lists && RunOk(db'.lists[db'.runs[id].sequenceId], db'.runs[id])
    {
      var q := db.runs[id].sequenceId;
      RunOkMonotone(db.lists[q], db'.lists[q], db.runs[id]);
    }
    RunStepsMonotone(db, db');
  }

  lemma TimeKeepsDb(db: Db, ms: nat)
    requires DbOk(db)
    ensures DbOk(db.(now := db.now + ms)) && Grows(db, db.(now := db.now + ms))
  {
    RunStepsMonotone(db, db.(now := db.now + ms));
  }

  /** A run row may move to the next index once the run step of its index exists. */
  ghost predicate RowMayBecome(db: Db, id: RunId, row: Run)
    requires id in db.runs
  {
    && RunGrows(db.runs[id], row)
    && (row.nextStepIndex == db.runs[id].nextStepIndex
        || (row.nextStepIndex == db.runs[id].nextStepIndex + 1 && (id, db.runs[id].nextStepIndex) in db.runSteps))
  }

  lemma RewriteKeepsRuns(lists: map<SeqId, set<seq<StepDef>>>, runs: map<RunId, Run>, id: RunId, row: Run)
    requires RunsOk(lists, runs) && id in runs && RunGrows(runs[id], row)
    requires RunOk(lists[runs[id].sequenceId], row)
    ensures RunsOk(lists, runs[id := row])
  {
  }

  lemma RewriteRunKeepsDb(db: Db, id: RunId, row: Run)
    requires DbOk(db) && id in db.runs && RowMayBecome(db, id, row)
    requires RunOk(db.lists[db.runs[id].sequenceId], row)
    ensures DbOk(db.(runs := db.runs[id := row])) && Grows(db, db.(runs := db.runs[id := row]))
  {
    var db' := db.(runs := db.runs[id := row]);
    RewriteKeepsRuns(db.lists, db.runs, id, row);
    forall q, j: int | q in db'.runs && 0 <= j < db'.runs[q].nextStepIndex ensures (q, j) in db'.runSteps {
      if q == id && j == db.runs[id].nextStepIndex { } else { assert 0 <= j < db.runs[q].nextStepIndex; }
    }
    RunStepsMonotone(db, db');
  }

  lemma CloseRunKeepsDb(db: Db, id: RunId, status: RunStatus)
    requires DbOk(db) && id in db.runs && status != RUNNING
    requires status == COMPLETED ==> ReachesEnd(db.lists[db.runs[id].sequenceId], db.runs[id].nextStepIndex)
    ensures DbOk(CloseRun(db, id, status)) && Grows(db, CloseRun(db, id, status))
  {
    RewriteRunKeepsDb(db, id, db.runs[id].(status := status, nextStepAt := None));
  }

  /** Step statuses carry no obligation: only which steps exist and since when. */
  lemma StepStatusesKeepDb(db: Db, db': Db)
    requires DbOk(db) && db' == db.(runSteps := db'.runSteps) && db'.runSteps.Keys == db.runSteps.Keys
    requires forall k :: k in db.runSteps ==> db'.runSteps[k].createdAt == db.runSteps[k].createdAt
    ensures DbOk(db') && Grows(db, db')
  {
    forall k | k in db'.runSteps
      ensures k.0 in db'.runs
      ensures RunStepOk(db'.now, db'.lists[db'.runs[k.0].sequenceId], db'.runs[k.0], k.1, db'.runSteps[k])
    {
      assert k in db.runSteps;
    }
  }

  lemma StopRunKeepsDb(db: Db, id: RunId)
    requires DbOk(db) && id in db.runs
    ensures DbOk(StopRun(db, id)) && Grows(db, StopRun(db, id))
  {
    hide ListsOk, JobsOk, RunStepsOk, HasSteps, WithinList, ReachesEnd, Scheduled;
    var row := db.runs[id].(status := CANCELED);
    var mid := db.(runs := db.runs[id := row]);
    RewriteRunKeepsDb(db, id, row);
    StepStatusesKeepDb(mid, StopRun(db, id));
  }

  lemma AdvancedRowOk(lists: set<seq<StepDef>>, row: Run, x: Snapshot)
    requires RunOk(lists, row) && x.steps in lists && row.startedAt == x.run.startedAt
    requires row.nextStepIndex == x.run.nextStepIndex < |x.steps|
    ensures RunOk(lists, AdvancedRow(row, x))
  {
    var next := x.run.nextStepIndex + 1;
    assert WithinList(lists, next - 1);
    if next < |x.steps| {
      assert Scheduled(lists, row.startedAt, next, AdvancedRow(row, x).nextStepAt.value);
      if row.status == COMPLETED {
        var l :| l in lists && |l| <= row.nextStepIndex;
        assert |l| <= next;
      }
    } else {
      assert ReachesEnd(lists, next);
    }
  }

  lemma AdvanceRunKeepsDb(db: Db, x: Snapshot)
    requires DbOk(db) && SnapshotOk(db, x) && OwnerOk(db, x)
    ensures DbOk(AdvanceRun(db, x)) && Grows(db, AdvanceRun(db, x))
  {
    var row := db.runs[x.runId];
    AdvancedRowOk(db.lists[row.sequenceId], row, x);
    RewriteRunKeepsDb(db, x.runId, AdvancedRow(row, x));
  }

  lemma InsertRunKeepsDb(db: Db, id: RunId, th: Thread)
    requires DbOk(db) && id !in db.runs && th.Starting? && StartOk(db, th)
    requires !HasRunFor(db, th.sequenceId, th.leadId)
    ensures var db' := InsertRun(db, id, th.sequenceId, th.leadId, th.startedAt, th.firstAt);
            DbOk(db') && Grows(db, db')
  {
    RunStepsMonotone(db, InsertRun(db, id, th.sequenceId, th.leadId, th.startedAt, th.firstAt));
  }

  /** A due snapshot that is not ahead of its row justifies the run step it is about to write. */
  lemma NewRunStepOk(db: Db, x: Snapshot, status: StepStatus)
    requires SnapshotOk(db, x) && x.run.nextStepIndex < |x.steps|
    ensures var row := db.runs[x.runId];
            RunStepOk(db.now, db.lists[row.sequenceId], row, x.run.nextStepIndex, RunStep(status, db.now))
  {
    var lists := db.lists[db.runs[x.runId].sequenceId];
    var index := x.run.nextStepIndex;
    assert WithinList(lists, index);
    assert NotEarly(lists, x.run.startedAt, index, db.now) by {
      var l: seq<StepDef> :| l in lists && index < |l|
        && x.run.nextStepAt.value == x.run.startedAt + l[index].delayMinutes * MINUTE;
    }
  }

  lemma InsertRunStepKeepsDb(db: Db, x: Snapshot, status: StepStatus)
    requires DbOk(db) && SnapshotOk(db, x)
    requires x.run.nextStepIndex < |x.steps| && (x.runId, x.run.nextStepIndex) !in db.runSteps
    ensures var db' := InsertRunStep(db, x.runId, x.run.nextStepIndex, status);
            DbOk(db') && Grows(db, db') && OwnerOk(db', x)
  {
    var key := (x.runId, x.run.nextStepIndex);
    var db' := InsertRunStep(db, key.0, key.1, status);
    NewRunStepOk(db, x, status);
    AddRunStepOk(db.now, db.lists, db.runs, db.runSteps, key, db'.runSteps[key]);
    AtCurrentIndex(db, x);
    hide ListsOk, RunsOk, RunStepsOk, SnapshotOk;
    assert db'.runSteps.Keys == db.runSteps.Keys + {key};
  }

  lemma AddRunStepOk(now: int, lists: map<SeqId, set<seq<StepDef>>>, runs: map<RunId, Run>,
                     runSteps: map<(RunId, int), RunStep>, key: (RunId, int), step: RunStep)
    requires RunStepsOk(now, lists, runs, runSteps) && key.0 in runs && runs[key.0].sequenceId in lists
    requires RunStepOk(now, lists[runs[key.0].sequenceId], runs[key.0], key.1, step)
    ensures RunStepsOk(now, lists, runs, runSteps[key := step])
  {
    hide RunStepOk;
  }

  /** A snapshot whose run step is still missing is not behind its row. */
  lemma AtCurrentIndex(db: Db, x: Snapshot)
    requires DbOk(db) && SnapshotOk(db, x) && (x.runId, x.run.nextStepIndex) !in db.runSteps
    ensures x.run.nextStepIndex == db.runs[x.runId].nextStepIndex
  {
  }

  lemma WithStatusKeepsDb(db: Db, x: Snapshot, status: StepStatus)
    requires DbOk(db)
    ensures DbOk(WithStatus(db, x, status)) && Grows(db, WithStatus(db, x, status))
    ensures WithStatus(db, x, status).runs == db.runs && WithStatus(db, x, status).jobs == db.jobs
    ensures WithStatus(db, x, status).runSteps.Keys == db.runSteps.Keys
  {
    hide DbOk, Grows;
    StepStatusesKeepDb(db, WithStatus(db, x, status));
  }

  lemma InsertJobKeepsDb(db: Db, kind: Channel, id: RunId, index: int)
    requires DbOk(db) && (id, index) in db.runSteps && !HasJob(db, id, index)
    ensures DbOk(InsertJob(db, kind, id, index)) && Grows(db, InsertJob(db, kind, id, index))
  {
    hide ListsOk, RunsOk, RunStepsOk;
    assert JobsOk(db.runSteps.Keys, InsertJob(db, kind, id, index).jobs);
  }
}
