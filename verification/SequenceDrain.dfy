/**
 * One worker ticking at a frozen clock: every tick handles min(50, due) runs, and repeated
 * ticks empty the set of due runs exactly when no due run is parked.
 */
module SequenceDrain {
  import opened Prelude
  import opened StepLists
  import opened SequenceModel
  import opened SequenceInvariant
  import opened SequenceEngine
  import opened SequenceSafety
  import opened SequenceSerial

  // ----- one tick -----

  /** The loop over fetched runs; the k-th processing belongs to the k-th run. */
  ghost function ProcessAll(db: Db, xs: seq<Snapshot>, ps: seq<Processing>): Db
    requires |ps| == |xs|
    decreases |xs|
  {
    if xs == [] then db
    else if xs[0].runId !in db.runs then db
    else ProcessAll(Process(db, xs[0], ps[0]), xs[1..], ps[1..])
  }

  function SnapshotsOf(db: Db, batch: seq<RunId>): (xs: seq<Snapshot>)
    requires forall id :: id in batch ==> id in db.runs && db.runs[id].sequenceId in db.sequences
    ensures |xs| == |batch| && forall i :: 0 <= i < |xs| ==> xs[i].runId == batch[i]
  {
    seq(|batch|, i requires 0 <= i < |batch| => TakeSnapshot(db, batch[i]))
  }

  /** One tick of the worker: an admissible batch, processed to the end with `ps`. */
  ghost predicate IsTick(db: Db, batch: seq<RunId>, ps: seq<Processing>, db': Db) {
    && IsDueBatch(db, batch) && |ps| == |batch|
    && (forall id :: id in batch ==> db.runs[id].sequenceId in db.sequences)
    && db' == ProcessAll(db, SnapshotsOf(db, batch), ps)
  }

  // ----- a batch always exists -----

  lemma EarliestExists(db: Db, ids: set<RunId>) returns (first: RunId)
    requires ids != {}
    ensures first in ids && forall id :: id in ids ==> DueTime(db, first) <= DueTime(db, id)
  {
    first :| first in ids;
    if ids != {first} {
      var other := EarliestExists(db, ids - {first});
      if DueTime(db, other) < DueTime(db, first) { first := other; }
      assert ids == ids - {first} + {first};
    }
  }

  lemma {:induction false} EarliestFew(db: Db, ids: set<RunId>, n: nat) returns (batch: seq<RunId>)
    requires n <= |ids|
    ensures |batch| == n && Distinct(batch) && forall id :: id in batch ==> id in ids
    ensures forall i, j :: 0 <= i < j < |batch| ==> DueTime(db, batch[i]) <= DueTime(db, batch[j])
    ensures forall id, k :: id in ids && id !in batch && 0 <= k < |batch| ==> DueTime(db, batch[k]) <= DueTime(db, id)
    decreases n
  {
    if n == 0 {
      batch := [];
    } else {
      var first := EarliestExists(db, ids);
      var rest := EarliestFew(db, ids - {first}, n - 1);
      batch := [first] + rest;
      forall i, j | 0 <= i < j < |batch|
        ensures batch[i] != batch[j] && DueTime(db, batch[i]) <= DueTime(db, batch[j])
      {
        assert batch[j] == rest[j - 1] && rest[j - 1] in rest;
        if i > 0 { assert batch[i] == rest[i - 1]; }
      }
    }
  }

  /** The tick's query always has an answer, so the contracts below are about something. */
  lemma DueBatchExists(db: Db) returns (batch: seq<RunId>)
    ensures IsDueBatch(db, batch)
  {
    batch := EarliestFew(db, Due(db), Min(BATCH, |Due(db)|));
  }

  // ----- the measure -----

  /** Steps left, plus one for noticing the end; 0 once the run is closed. */
  ghost function Remaining(db: Db, id: RunId): nat
    requires id in db.runs
  {
    var run := db.runs[id];
    if run.status != RUNNING then 0
    else if run.sequenceId in db.sequences && run.nextStepIndex < |db.sequences[run.sequenceId].steps| then
      1 + |db.sequences[run.sequenceId].steps| - run.nextStepIndex
    else 1
  }

  ghost function RemainingSteps(db: Db): nat {
    MapSum(map id | id in db.runs :: Remaining(db, id))
  }

  /** Due, at a step whose run step already exists: the insert will be refused. */
  ghost predicate Stuck(db: Db, id: RunId) {
    && IsDue(db, id) && db.runs[id].sequenceId in db.sequences
    && db.runs[id].nextStepIndex < |db.sequences[db.runs[id].sequenceId].steps|
    && (id, db.runs[id].nextStepIndex) in db.runSteps
  }

  ghost predicate NoneStuck(db: Db) {
    forall id :: id in db.runs ==> !Stuck(db, id)
  }

  /** The snapshot is still what the row says. */
  ghost predicate Current(db: Db, x: Snapshot) {
    && IsDue(db, x.runId) && db.runs[x.runId].sequenceId in db.sequences
    && x == TakeSnapshot(db, x.runId)
  }

  lemma CurrentIsOk(db: Db, x: Snapshot)
    requires DbOk(db) && Current(db, x)
    ensures SnapshotOk(db, x) && Usable(db, x)
  {
    assert RunOk(db.lists[x.run.sequenceId], x.run);
  }

  lemma SendFrame(db: Db, x: Snapshot, p: Processing)
    requires x.run.nextStepIndex < |x.steps|
    requires (x.runId, x.steps[x.run.nextStepIndex].orderIndex) in db.runSteps
    ensures var db' := Send(db, x, p);
            db' == db.(runSteps := db'.runSteps, jobs := db'.jobs) && db'.runSteps.Keys == db.runSteps.Keys
  {
  }

  /** What processing leaves of the tables, beside step statuses and jobs. */
  lemma ProcessResult(db: Db, x: Snapshot, p: Processing)
    requires Usable(db, x)
    ensures var db' := Process(db, x, p);
      && db' == db.(runs := db'.runs, runSteps := db'.runSteps, jobs := db'.jobs)
      && match Decide(x, p.observation)
         case Close(status) =>
           && db'.runs == db.runs[x.runId := db.runs[x.runId].(status := status, nextStepAt := None)]
           && db'.runSteps == db.runSteps
         case Record(_) =>
           if (x.runId, x.run.nextStepIndex) in db.runSteps then db' == db
           else
             && db'.runs == db.runs[x.runId := AdvancedRow(db.runs[x.runId], x)]
             && db'.runSteps.Keys == db.runSteps.Keys + {(x.runId, x.run.nextStepIndex)}
  {
    var decision := Decide(x, p.observation);
    if decision.Record? && (x.runId, x.run.nextStepIndex) !in db.runSteps && decision.passed {
      SendFrame(InsertRunStep(db, x.runId, x.run.nextStepIndex, SCHEDULED), x, p);
    }
  }

  lemma ProcessKeepsRunKeys(db: Db, x: Snapshot, p: Processing)
    requires x.runId in db.runs
    ensures Process(db, x, p).runs.Keys == db.runs.Keys
  {
    var decision := Decide(x, p.observation);
    if decision.Record? && decision.passed {
      var index := x.steps[x.run.nextStepIndex].orderIndex;
      if (x.runId, index) !in db.runSteps { SendFrame(InsertRunStep(db, x.runId, index, SCHEDULED), x, p); }
    }
  }

  lemma ProcessKeepsDb(db: Db, x: Snapshot, p: Processing)
    requires DbOk(db) && Current(db, x)
    ensures DbOk(Process(db, x, p))
  {
    CurrentIsOk(db, x);
    var th := Thread.Ticking(WorkerTick, Begin, x, []);
    var s := State(db, map[0 := th]);
    ProcessIsLoneThread(s, 0, x, p);
    RunKeepsInv(s, ActionsOf(0, p, x, db));
  }

  /** A processing that is not refused lowers the run's remaining steps and sticks nowhere. */
  lemma ProcessLowers(db: Db, x: Snapshot, p: Processing)
    requires DbOk(db) && Current(db, x) && !Stuck(db, x.runId)
    ensures x.runId in Process(db, x, p).runs
    ensures Remaining(Process(db, x, p), x.runId) < Remaining(db, x.runId)
    ensures !Stuck(Process(db, x, p), x.runId)
  {
    CurrentIsOk(db, x);
    ProcessResult(db, x, p);
    NoStepAhead(db, x.runId);
  }

  lemma NoStepAhead(db: Db, id: RunId)
    requires DbOk(db) && id in db.runs
    ensures forall j: int :: (id, j) in db.runSteps ==> j <= db.runs[id].nextStepIndex
  {
    forall j: int | (id, j) in db.runSteps ensures j <= db.runs[id].nextStepIndex {
      assert RunStepOk(db.now, db.lists[db.runs[id].sequenceId], db.runs[id], j, db.runSteps[(id, j)]);
    }
  }

  // ----- a whole tick -----

  lemma OthersStay(db: Db, x: Snapshot, p: Processing, id: RunId)
    requires Usable(db, x) && id in db.runs && id != x.runId
    ensures var db' := Process(db, x, p);
            && id in db'.runs && Remaining(db', id) == Remaining(db, id) && (Stuck(db', id) <==> Stuck(db, id))
            && db'.runs[id] == db.runs[id] && db'.sequences == db.sequences && db'.now == db.now
  {
    ProcessResult(db, x, p);
  }

  lemma OneLowersTotal(db: Db, db': Db, id: RunId)
    requires id in db.runs && db'.runs.Keys == db.runs.Keys
    requires Remaining(db', id) < Remaining(db, id)
    requires forall q :: q in db.runs && q != id ==> Remaining(db', q) == Remaining(db, q)
    ensures RemainingSteps(db') < RemainingSteps(db)
  {
    var w := map q | q in db.runs :: Remaining(db, q);
    MapSumUpdate(w, id, Remaining(db', id));
    assert (map q | q in db'.runs :: Remaining(db', q)) == w[id := Remaining(db', id)];
  }

  lemma ProcessLowersTotal(db: Db, x: Snapshot, p: Processing)
    requires DbOk(db) && Current(db, x) && NoneStuck(db)
    ensures RemainingSteps(Process(db, x, p)) < RemainingSteps(db) && NoneStuck(Process(db, x, p))
  {
    CurrentIsOk(db, x);
    ProcessLowers(db, x, p);
    ProcessKeepsRunKeys(db, x, p);
    forall id | id in db.runs && id != x.runId
      ensures Remaining(Process(db, x, p), id) == Remaining(db, id) && !Stuck(Process(db, x, p), id)
    {
      OthersStay(db, x, p, id);
    }
    OneLowersTotal(db, Process(db, x, p), x.runId);
  }

  ghost predicate CurrentAll(db: Db, xs: seq<Snapshot>) {
    && (forall i :: 0 <= i < |xs| ==> Current(db, xs[i]))
    && (forall i, j :: 0 <= i < j < |xs| ==> xs[i].runId != xs[j].runId)
  }

  /** Snapshots of other runs stay current while one run is processed. */
  lemma RestStaysCurrent(db: Db, xs: seq<Snapshot>, p: Processing)
    requires DbOk(db) && xs != [] && CurrentAll(db, xs)
    ensures CurrentAll(Process(db, xs[0], p), xs[1..])
  {
    CurrentIsOk(db, xs[0]);
    forall i | 0 <= i < |xs[1..]| ensures Current(Process(db, xs[0], p), xs[1..][i]) {
      OthersStay(db, xs[0], p, xs[i + 1].runId);
    }
  }

  lemma {:induction false} ProcessAllLowers(db: Db, xs: seq<Snapshot>, ps: seq<Processing>)
    requires DbOk(db) && CurrentAll(db, xs) && NoneStuck(db) && |ps| == |xs|
    ensures DbOk(ProcessAll(db, xs, ps)) && NoneStuck(ProcessAll(db, xs, ps))
    ensures RemainingSteps(ProcessAll(db, xs, ps)) + |xs| <= RemainingSteps(db)
    decreases |xs|
  {
    if xs != [] {
      ProcessKeepsDb(db, xs[0], ps[0]);
      ProcessLowersTotal(db, xs[0], ps[0]);
      RestStaysCurrent(db, xs, ps[0]);
      ProcessAllLowers(Process(db, xs[0], ps[0]), xs[1..], ps[1..]);
    }
  }

  lemma BatchIsCurrent(db: Db, batch: seq<RunId>)
    requires IsDueBatch(db, batch)
    requires forall id :: id in batch ==> db.runs[id].sequenceId in db.sequences
    ensures CurrentAll(db, SnapshotsOf(db, batch))
  {
    var xs := SnapshotsOf(db, batch);
    forall i | 0 <= i < |xs| ensures Current(db, xs[i]) { assert batch[i] in batch; }
  }

  /** A tick without refusals lowers the remaining steps by at least the runs it handles. */
  lemma TickLowers(db: Db, batch: seq<RunId>, ps: seq<Processing>, db': Db)
    requires DbOk(db) && NoneStuck(db) && IsTick(db, batch, ps, db')
    ensures DbOk(db') && NoneStuck(db')
    ensures RemainingSteps(db') + Min(BATCH, |Due(db)|) <= RemainingSteps(db)
  {
    BatchIsCurrent(db, batch);
    ProcessAllLowers(db, SnapshotsOf(db, batch), ps);
  }

  // ----- many ticks -----

  datatype Tick = Tick(batch: seq<RunId>, processings: seq<Processing>)

  /** The databases between consecutive ticks. */
  ghost predicate IsTickRun(dbs: seq<Db>, ticks: seq<Tick>) {
    && |dbs| == |ticks| + 1
    && forall i :: 0 <= i < |ticks| ==> IsTick(dbs[i], ticks[i].batch, ticks[i].processings, dbs[i + 1])
  }

  lemma {:induction false} TickRunLowers(dbs: seq<Db>, ticks: seq<Tick>, n: nat)
    requires IsTickRun(dbs, ticks) && DbOk(dbs[0]) && NoneStuck(dbs[0]) && n < |dbs|
    ensures DbOk(dbs[n]) && NoneStuck(dbs[n])
    ensures Due(dbs[n]) == {} || RemainingSteps(dbs[n]) + n <= RemainingSteps(dbs[0])
    decreases n
  {
    if n > 0 {
      TickRunLowers(dbs, ticks, n - 1);
      var db, tick := dbs[n - 1], ticks[n - 1];
      TickLowers(db, tick.batch, tick.processings, dbs[n]);
      if Due(db) == {} { NothingDueStays(db, tick, dbs[n]); }
    }
  }

  lemma NothingDueStays(db: Db, tick: Tick, db': Db)
    requires IsTick(db, tick.batch, tick.processings, db') && Due(db) == {}
    ensures db' == db
  {
    assert tick.batch == [] && SnapshotsOf(db, tick.batch) == [];
  }

  lemma DueHasRemaining(db: Db)
    ensures Due(db) != {} ==> RemainingSteps(db) > 0
  {
    if Due(db) != {} {
      var id :| id in Due(db);
      MapSumRemove(map q | q in db.runs :: Remaining(db, q), id);
    }
  }

  /** As many ticks as there were remaining steps leave nothing due. */
  lemma TicksDrain(dbs: seq<Db>, ticks: seq<Tick>)
    requires IsTickRun(dbs, ticks) && DbOk(dbs[0]) && NoneStuck(dbs[0])
    requires |ticks| >= RemainingSteps(dbs[0])
    ensures Due(dbs[|ticks|]) == {}
  {
    hide DbOk, NoneStuck, Due, RemainingSteps, IsTick;
    TickRunLowers(dbs, ticks, |ticks|);
    DueHasRemaining(dbs[|ticks|]);
  }

  // ----- the exact condition -----

  /** Nothing outside ends the run: no reply, lead present, not opted out. */
  predicate LetsThrough(p: Processing) {
    !p.observation.replied && p.observation.leadFound && !p.observation.optedOut
  }

  /** A refused insert is logged and forgotten: the run is due again, unchanged. */
  lemma {:induction false} StuckSurvivesProcessing(db: Db, xs: seq<Snapshot>, ps: seq<Processing>, id: RunId)
    requires DbOk(db) && CurrentAll(db, xs) && |ps| == |xs| && Stuck(db, id)
    requires forall i :: 0 <= i < |ps| ==> LetsThrough(ps[i])
    ensures Stuck(ProcessAll(db, xs, ps), id) && DbOk(ProcessAll(db, xs, ps))
    decreases |xs|
  {
    hide DbOk;
    if xs != [] {
      CurrentIsOk(db, xs[0]);
      ProcessResult(db, xs[0], ps[0]);
      if xs[0].runId != id { OthersStay(db, xs[0], ps[0], id); }
      ProcessKeepsDb(db, xs[0], ps[0]);
      RestStaysCurrent(db, xs, ps[0]);
      StuckSurvivesProcessing(Process(db, xs[0], ps[0]), xs[1..], ps[1..], id);
    }
  }

  lemma {:induction false} StuckSurvivesTicks(dbs: seq<Db>, ticks: seq<Tick>, id: RunId, n: nat)
    requires IsTickRun(dbs, ticks) && DbOk(dbs[0]) && Stuck(dbs[0], id) && n < |dbs|
    requires forall i, j :: 0 <= i < |ticks| && 0 <= j < |ticks[i].processings| ==> LetsThrough(ticks[i].processings[j])
    ensures Stuck(dbs[n], id) && DbOk(dbs[n])
    decreases n
  {
    hide Stuck, LetsThrough, DbOk;
    if n > 0 {
      StuckSurvivesTicks(dbs, ticks, id, n - 1);
      var db, tick := dbs[n - 1], ticks[n - 1];
      assert IsTick(db, tick.batch, tick.processings, dbs[(n - 1) + 1]);
      BatchIsCurrent(db, tick.batch);
      StuckSurvivesProcessing(db, SnapshotsOf(db, tick.batch), tick.processings, id);
    }
  }

  /**
   * Repeated ticks empty the due set if and only if no due run is parked at a step that
   * already has its run step (which a crash or an exception after that insert leaves behind).
   */
  lemma TicksDrainIffNoneStuck(dbs: seq<Db>, ticks: seq<Tick>)
    requires IsTickRun(dbs, ticks) && DbOk(dbs[0])
    requires |ticks| >= RemainingSteps(dbs[0])
    requires forall i, j :: 0 <= i < |ticks| && 0 <= j < |ticks[i].processings| ==> LetsThrough(ticks[i].processings[j])
    ensures Due(dbs[|ticks|]) == {} <==> NoneStuck(dbs[0])
  {
    if NoneStuck(dbs[0]) {
      TicksDrain(dbs, ticks);
    } else {
      var id :| id in dbs[0].runs && Stuck(dbs[0], id);
      StuckSurvivesTicks(dbs, ticks, id, |ticks|);
      assert id in Due(dbs[|ticks|]);
    }
  }
}
