/**
 * The services over the sequence tables, one call at a time: list replacement, run start
 * and stop, and the worker's tick. Each method's contract is the transaction or the serial
 * processing the protocol proofs speak about.
 */
module SequenceStore {
  import opened Prelude
  import opened StepLists
  import opened SequenceModel
  import opened SequenceSerial
  import opened SequenceOutcomes
  import opened SequenceDrain
  import DedupeKeys

  datatype ServiceError =
    | SEQUENCE_NOT_FOUND
    | SEQUENCE_NOT_ACTIVE
    | SEQUENCE_ALREADY_RUNNING
    | SEQUENCE_RUN_NOT_FOUND
    | SEQUENCE_HAS_NO_STEPS
    | INVALID_STEPS(reason: StepError)
    | QUEUE_UNAVAILABLE

  /** The unique index on outbound jobs. */
  ghost predicate UniqueKeys(jobs: seq<Job>) {
    forall i, j :: 0 <= i < j < |jobs| ==> jobs[i].kind != jobs[j].kind || jobs[i].dedupeKey != jobs[j].dedupeKey
  }

  class Store {
    var now: int
    var sequences: map<SeqId, Sequence>
    ghost var lists: map<SeqId, set<seq<StepDef>>>
    var runs: map<RunId, Run>
    var runSteps: map<(RunId, int), RunStep>
    var jobs: seq<Job>

    ghost function Contents(): Db
      reads this
    {
      Db(now, sequences, lists, runs, runSteps, jobs)
    }

    constructor ()
      ensures Contents() == EMPTY_DB
    {
      now, sequences, lists, runs, runSteps, jobs := 0, map[], map[], map[], map[], [];
    }

    /** `activate`: refuses a sequence without steps. */
    method Activate(id: SeqId) returns (r: Result<(), ServiceError>)
      modifies this`sequences
      ensures r.Ok? <==> id in old(sequences) && old(sequences)[id].steps != []
      ensures r == Err(SEQUENCE_NOT_FOUND) <==> id !in old(sequences)
      ensures r.Err? ==> r.error in {SEQUENCE_NOT_FOUND, SEQUENCE_HAS_NO_STEPS}
      ensures sequences == if r.Ok? then old(sequences)[id := old(sequences)[id].(status := ACTIVE)] else old(sequences)
    {
      if id !in sequences { return Err(SEQUENCE_NOT_FOUND); }
      if sequences[id].steps == [] { return Err(SEQUENCE_HAS_NO_STEPS); }
      sequences := sequences[id := sequences[id].(status := ACTIVE)];
      return Ok(());
    }

    /** `replaceSteps`: all checks, then delete-and-create in one transaction. */
    method ReplaceSteps(templates: map<int, Channel>, id: SeqId, steps: seq<StepDef>)
      returns (r: Result<(), ServiceError>)
      requires id in sequences ==> id in lists
      modifies this`sequences, this`lists
      ensures r.Ok? <==>
          id in old(sequences) && old(sequences)[id].status in {DRAFT, PAUSED} && Accepted(templates, steps)
      ensures r.Ok? ==>
          WellOrdered(SortByOrder(steps)) && Contents() == StoreSteps(old(Contents()), id, SortByOrder(steps))
      ensures r.Err? ==> Contents() == old(Contents())
      ensures r == Err(SEQUENCE_NOT_FOUND) <==> id !in old(sequences)
      ensures r == Err(INVALID_STEPS(SEQUENCE_NOT_EDITABLE)) <==>
                id in old(sequences) && old(sequences)[id].status !in {DRAFT, PAUSED}
    {
      if id !in sequences { return Err(SEQUENCE_NOT_FOUND); }
      if sequences[id].status != DRAFT && sequences[id].status != PAUSED {
        return Err(INVALID_STEPS(SEQUENCE_NOT_EDITABLE));
      }
      var checked := CheckSteps(templates, steps);
      if checked.Err? { return Err(INVALID_STEPS(checked.error)); }
      lists := lists[id := lists[id] + {checked.value}];
      sequences := sequences[id := sequences[id].(steps := checked.value)];
      return Ok(());
    }

    /** `startRun`: the unique index refuses a second run of a sequence for a lead, whatever its status. */
    method StartRun(sequenceId: SeqId, leadId: LeadId, leadFound: bool, id: RunId)
      returns (r: Result<RunId, ServiceError>)
      requires id !in runs
      modifies this`runs
      ensures r.Ok? <==> sequenceId in sequences && sequences[sequenceId].status == ACTIVE && leadFound
                         && !HasRunFor(old(Contents()), sequenceId, leadId)
      ensures r.Ok? ==> r.value == id
      ensures r.Ok? ==>
                var startedAt := now + sequences[sequenceId].startDelayMinutes * MINUTE;
                Contents() == InsertRun(old(Contents()), id, sequenceId, leadId, startedAt,
                                        FirstStepAt(startedAt, sequences[sequenceId].steps))
      ensures r.Err? ==> Contents() == old(Contents())
      ensures r.Ok? ==>
                var sequence := sequences[sequenceId]; var startedAt := now + sequence.startDelayMinutes * 60_000;
                var first := if sequence.steps == [] then None
                  else Some(startedAt + sequence.steps[0].delayMinutes * 60_000);
                runs == old(runs)[id := Run(sequenceId, leadId, RUNNING, startedAt, 0, first)]
      ensures r == Err(SEQUENCE_NOT_ACTIVE) <==> sequenceId in sequences && sequences[sequenceId].status != ACTIVE
      ensures r == Err(SEQUENCE_ALREADY_RUNNING) <==>
                && sequenceId in sequences && sequences[sequenceId].status == ACTIVE && leadFound
                && exists q :: q in old(runs) && old(runs)[q].sequenceId == sequenceId && old(runs)[q].leadId == leadId
      ensures r.Err? ==> r.error in {SEQUENCE_NOT_FOUND, SEQUENCE_NOT_ACTIVE, SEQUENCE_ALREADY_RUNNING}
    {
      if sequenceId !in sequences { return Err(SEQUENCE_NOT_FOUND); }
      var sequence := sequences[sequenceId];
      if sequence.status != ACTIVE { return Err(SEQUENCE_NOT_ACTIVE); }
      if !leadFound { return Err(SEQUENCE_NOT_FOUND); }
      var startedAt := now + sequence.startDelayMinutes * MINUTE;
      var firstAt := if sequence.steps == [] then None else Some(startedAt + sequence.steps[0].delayMinutes * MINUTE);
      if exists q :: q in runs && runs[q].sequenceId == sequenceId && runs[q].leadId == leadId {
        return Err(SEQUENCE_ALREADY_RUNNING);
      }
      runs := runs[id := Run(sequenceId, leadId, RUNNING, startedAt, 0, firstAt)];
      return Ok(id);
    }

    /** `stopRun`: cancels the run and the run steps still open. */
    method Stop(leadId: LeadId, id: RunId) returns (r: Result<(), ServiceError>)
      modifies this`runs, this`runSteps
      ensures r.Ok? <==> id in old(runs) && old(runs)[id].leadId == leadId
      ensures r.Ok? ==> Contents() == StopRun(old(Contents()), id)
      ensures r.Ok? ==> runSteps.Keys == old(runSteps).Keys && forall k :: k in runSteps ==>
                runSteps[k] == if k.0 == id && old(runSteps)[k].status in {PENDING, SCHEDULED}
                               then RunStep(STEP_CANCELED, old(runSteps)[k].createdAt) else old(runSteps)[k]
      ensures r.Err? ==> r.error == SEQUENCE_RUN_NOT_FOUND && Contents() == old(Contents())
    {
      if id !in runs || runs[id].leadId != leadId { return Err(SEQUENCE_RUN_NOT_FOUND); }
      runs := runs[id := runs[id].(status := CANCELED)];
      runSteps := map k | k in runSteps ::
        if k.0 == id && (runSteps[k].status == PENDING || runSteps[k].status == SCHEDULED)
        then runSteps[k].(status := STEP_CANCELED) else runSteps[k];
      return Ok(());
    }

    method SetStepStatus(id: RunId, index: int, status: StepStatus)
      requires (id, index) in runSteps
      modifies this`runSteps
      ensures Contents() == SequenceModel.SetStepStatus(old(Contents()), id, index, status)
    {
      runSteps := runSteps[(id, index) := runSteps[(id, index)].(status := status)];
    }

    /** The run row write of `advanceRun`, computed from the snapshot. */
    method Advance(x: Snapshot)
      requires x.runId in runs
      modifies this`runs
      ensures Contents() == SequenceModel.AdvanceRun(old(Contents()), x)
    {
      var nextIndex := x.run.nextStepIndex + 1;
      if nextIndex >= |x.steps| {
        runs := runs[x.runId := runs[x.runId].(status := COMPLETED, nextStepIndex := nextIndex, nextStepAt := None)];
        return;
      }
      var nextStepAt := x.run.startedAt + x.steps[nextIndex].delayMinutes * MINUTE;
      runs := runs[x.runId := runs[x.runId].(nextStepIndex := nextIndex, nextStepAt := Some(nextStepAt))];
    }

    /**
     * The API's `createJob`. The job row stays when queueing it fails afterwards, so the next attempt
     * is told it is a duplicate.
     */
    method CreateJob(kind: Channel, runId: RunId, index: int, queued: bool)
      returns (duplicate: Result<bool, ServiceError>)
      modifies this`jobs
      ensures var key := DedupeKeys.DedupeKey(runId, index);
        && (duplicate == Ok(true) <==> JobKeyTaken(old(Contents()), kind, key))
        && (duplicate == Ok(true) ==> Contents() == old(Contents()))
        && (duplicate != Ok(true) ==>
              && Contents() == InsertJob(old(Contents()), kind, runId, index)
              && duplicate == if queued then Ok(false) else Err(QUEUE_UNAVAILABLE))
        && JobKeyTaken(Contents(), kind, key)
      ensures UniqueKeys(old(jobs)) ==> UniqueKeys(jobs)
    {
      var key := DedupeKeys.DedupeKey(runId, index);
      if exists i :: 0 <= i < |jobs| && jobs[i].kind == kind && jobs[i].dedupeKey == key { return Ok(true); }
      jobs := jobs + [Job(kind, key, runId, index)];
      assert jobs[|jobs| - 1].dedupeKey == key;
      if !queued { return Err(QUEUE_UNAVAILABLE); }
      return Ok(false);
    }

    /** Provider and contact checks, the guarded job insert, and the step status they lead to. */
    method SendStep(x: Snapshot, p: Processing)
      requires x.run.nextStepIndex < |x.steps|
      requires (x.runId, x.steps[x.run.nextStepIndex].orderIndex) in runSteps
      modifies this`runSteps, this`jobs
      ensures Contents() == Send(old(Contents()), x, p)
    {
      var step := x.steps[x.run.nextStepIndex];
      if p.route == NO_PROVIDER {
        SetStepStatus(x.runId, step.orderIndex, STEP_FAILED);
      } else if p.route == NO_VALID_CONTACT {
        SetStepStatus(x.runId, step.orderIndex, SKIPPED);
      } else if p.route == CREATE_ERROR {
        SetStepStatus(x.runId, step.orderIndex, STEP_FAILED);
      } else {
        var key := DedupeKeys.DedupeKey(x.runId, step.orderIndex);
        if exists i :: 0 <= i < |jobs| && jobs[i].kind == step.channel && jobs[i].dedupeKey == key {
          return;
        }
        jobs := jobs + [Job(step.channel, key, x.runId, step.orderIndex)];
        SetStepStatus(x.runId, step.orderIndex, if p.marked then SENT else STEP_FAILED);
      }
    }

    /** `processOneRun` of the worker. */
    method ProcessOneRun(x: Snapshot, p: Processing)
      requires x.runId in runs
      modifies this`runs, this`runSteps, this`jobs
      ensures Contents() == Process(old(Contents()), x, p)
      ensures Usable(old(Contents()), x) ==>
                (jobs != old(jobs) <==>
                   && Clears(x, p.observation) && IsOpen(old(Contents()), x) && p.route == DELIVERABLE
                   && forall j :: j in old(jobs) ==>
                        || j.kind != x.steps[x.run.nextStepIndex].channel
                        || j.dedupeKey != DedupeKeys.DedupeKey(x.runId, x.run.nextStepIndex))
    {
      if Usable(Contents(), x) { SendsIff(Contents(), x, p); }
      var o := p.observation;
      if x.stopOnReply && o.replied {
        runs := runs[x.runId := runs[x.runId].(status := CANCELED, nextStepAt := None)];
        return;
      }
      if x.run.nextStepIndex >= |x.steps| {
        runs := runs[x.runId := runs[x.runId].(status := COMPLETED, nextStepAt := None)];
        return;
      }
      if !o.leadFound {
        runs := runs[x.runId := runs[x.runId].(status := FAILED, nextStepAt := None)];
        return;
      }
      if o.optedOut {
        runs := runs[x.runId := runs[x.runId].(status := CANCELED, nextStepAt := None)];
        return;
      }
      var index := x.steps[x.run.nextStepIndex].orderIndex;
      if (x.runId, index) in runSteps { return; }  // P2002, caught by the tick's loop
      runSteps := runSteps[(x.runId, index) := RunStep(if o.conditionsPass then SCHEDULED else SKIPPED, now)];
      if o.conditionsPass {
        SendStep(x, p);
      }
      Advance(x);
    }

    /** `processSequenceTick`: snapshots first, then one run after the other. */
    method Tick(batch: seq<RunId>, ps: seq<Processing>)
      requires IsDueBatch(Contents(), batch) && |ps| == |batch|
      requires forall id :: id in batch ==> runs[id].sequenceId in sequences
      modifies this`runs, this`runSteps, this`jobs
      ensures IsTick(old(Contents()), batch, ps, Contents())
    {
      var xs := [];
      for i := 0 to |batch|
        invariant |xs| == i && forall k :: 0 <= k < i ==> xs[k] == SnapshotsOf(old(Contents()), batch)[k]
      {
        assert batch[i] in batch;
        var run := runs[batch[i]];
        xs := xs + [Snapshot(batch[i], run, sequences[run.sequenceId].steps, sequences[run.sequenceId].stopOnReply)];
      }
      assert xs == SnapshotsOf(old(Contents()), batch);
      for i := 0 to |xs|
        invariant runs.Keys == old(runs).Keys
        invariant ProcessAll(Contents(), xs[i..], ps[i..]) == ProcessAll(old(Contents()), xs, ps)
      {
        assert batch[i] in batch;
        assert xs[i..][1..] == xs[i + 1..] && ps[i..][1..] == ps[i + 1..];
        ProcessKeepsRunKeys(Contents(), xs[i], ps[i]);
        ProcessOneRun(xs[i], ps[i]);
      }
      assert xs[|xs|..] == [] && ps[|ps|..] == [];
    }
  }
}
