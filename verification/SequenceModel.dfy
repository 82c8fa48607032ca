/**
 * Tables of the message-sequence engine and the transactions that write them.
 * Every function below is one committed transaction; `SequenceEngine` interleaves
 * them and `SequenceStore` runs them one call at a time.
 */
module SequenceModel {
  import opened Prelude
  import opened StepLists
  import opened DedupeKeys

  type RunId = string
  type SeqId = int
  type LeadId = int

  const MINUTE: int := 60_000
  const BATCH: nat := 50

  datatype SequenceStatus = DRAFT | ACTIVE | PAUSED | ARCHIVED

  datatype Sequence = Sequence(
    status: SequenceStatus, steps: seq<StepDef>, stopOnReply: bool, startDelayMinutes: int)

  datatype RunStatus = RUNNING | COMPLETED | CANCELED | FAILED

  datatype Run = Run(
    sequenceId: SeqId, leadId: LeadId, status: RunStatus,
    startedAt: int, nextStepIndex: nat, nextStepAt: Option<int>)

  datatype StepStatus = PENDING | SCHEDULED | SENT | STEP_FAILED | SKIPPED | STEP_CANCELED

  datatype RunStep = RunStep(status: StepStatus, createdAt: int)

  datatype Job = Job(kind: Channel, dedupeKey: string, runId: RunId, stepIndex: int)

  /** `lists` remembers every step list `replaceSteps` ever stored for a sequence. */
  datatype Db = Db(
    now: int,
    sequences: map<SeqId, Sequence>,
    lists: map<SeqId, set<seq<StepDef>>>,
    runs: map<RunId, Run>,
    runSteps: map<(RunId, int), RunStep>,
    jobs: seq<Job>)

  const EMPTY_DB := Db(0, map[], map[], map[], map[], [])

  /** What a tick copied out of the database when it fetched the run. */
  datatype Snapshot = Snapshot(runId: RunId, run: Run, steps: seq<StepDef>, stopOnReply: bool)

  // ----- reads -----

  ghost predicate IsDue(db: Db, id: RunId) {
    && id in db.runs
    && db.runs[id].status == RUNNING
    && db.runs[id].nextStepAt.Some?
    && db.runs[id].nextStepAt.value <= db.now
  }

  function DueTime(db: Db, id: RunId): int {
    if id in db.runs && db.runs[id].nextStepAt.Some? then db.runs[id].nextStepAt.value else 0
  }

  ghost function Due(db: Db): set<RunId> {
    set id | id in db.runs && IsDue(db, id)
  }

  /** An answer the tick's query may give: 50 due runs, or all of them, earliest first. */
  ghost predicate IsDueBatch(db: Db, batch: seq<RunId>) {
    && Distinct(batch)
    && (forall id :: id in batch ==> IsDue(db, id))
    && |batch| == Min(BATCH, |Due(db)|)
    && (forall i, j :: 0 <= i < j < |batch| ==>
          DueTime(db, batch[i]) <= DueTime(db, batch[j]))
    && (forall id, k :: IsDue(db, id) && id !in batch && 0 <= k < |batch| ==>
          DueTime(db, batch[k]) <= DueTime(db, id))
  }

  function TakeSnapshot(db: Db, id: RunId): Snapshot
    requires id in db.runs && db.runs[id].sequenceId in db.sequences
  {
    var run := db.runs[id];
    var sequence := db.sequences[run.sequenceId];
    Snapshot(id, run, sequence.steps, sequence.stopOnReply)
  }

  ghost predicate HasSteps(lists: set<seq<StepDef>>) {
    exists l :: l in lists && l != []
  }

  // ----- transactions of the run service -----

  function StoreSteps(db: Db, id: SeqId, steps: seq<StepDef>): Db
    requires id in db.sequences && id in db.lists
  {
    db.(sequences := db.sequences[id := db.sequences[id].(steps := steps)],
        lists := db.lists[id := db.lists[id] + {steps}])
  }

  function FirstStepAt(startedAt: int, steps: seq<StepDef>): Option<int> {
    if steps == [] then None else Some(startedAt + steps[0].delayMinutes * MINUTE)
  }

  predicate HasRunFor(db: Db, sequenceId: SeqId, leadId: LeadId) {
    exists id :: id in db.runs && db.runs[id].sequenceId == sequenceId && db.runs[id].leadId == leadId
  }

  function InsertRun(db: Db, id: RunId, sequenceId: SeqId, leadId: LeadId, startedAt: int, firstAt: Option<int>): Db
  {
    db.(runs := db.runs[id := Run(sequenceId, leadId, RUNNING, startedAt, 0, firstAt)])
  }

  function CancelOpenStep(step: RunStep): RunStep {
    if step.status == PENDING || step.status == SCHEDULED then step.(status := STEP_CANCELED) else step
  }

  /** `stopRun`: status and the open run steps in one transaction; `nextStepAt` is left alone. */
  function StopRun(db: Db, id: RunId): Db
    requires id in db.runs
  {
    db.(runs := db.runs[id := db.runs[id].(status := CANCELED)],
        runSteps := map k | k in db.runSteps ::
          if k.0 == id then CancelOpenStep(db.runSteps[k]) else db.runSteps[k])
  }

  // ----- transactions of a tick -----

  /** CANCELED, COMPLETED or FAILED written without looking at the row again. */
  function CloseRun(db: Db, id: RunId, status: RunStatus): Db
    requires id in db.runs
  {
    db.(runs := db.runs[id := db.runs[id].(status := status, nextStepAt := None)])
  }

  function InsertRunStep(db: Db, id: RunId, index: int, status: StepStatus): Db {
    db.(runSteps := db.runSteps[(id, index) := RunStep(status, db.now)])
  }

  function SetStepStatus(db: Db, id: RunId, index: int, status: StepStatus): Db
    requires (id, index) in db.runSteps
  {
    db.(runSteps := db.runSteps[(id, index) := db.runSteps[(id, index)].(status := status)])
  }

  /** Unique index (organization, type, dedupeKey). */
  predicate JobKeyTaken(db: Db, kind: Channel, key: string) {
    exists i :: 0 <= i < |db.jobs| && db.jobs[i].kind == kind && db.jobs[i].dedupeKey == key
  }

  function InsertJob(db: Db, kind: Channel, id: RunId, index: int): Db {
    db.(jobs := db.jobs + [Job(kind, DedupeKey(id, index), id, index)])
  }

  /** The new index and due time come from the snapshot, not from the row. */
  function AdvancedRow(row: Run, x: Snapshot): Run {
    var next := x.run.nextStepIndex + 1;
    if next < |x.steps| then
      row.(nextStepIndex := next, nextStepAt := Some(x.run.startedAt + x.steps[next].delayMinutes * MINUTE))
    else
      row.(status := COMPLETED, nextStepIndex := next, nextStepAt := None)
  }

  /** `advanceRun`. */
  function AdvanceRun(db: Db, x: Snapshot): Db
    requires x.runId in db.runs
  {
    db.(runs := db.runs[x.runId := AdvancedRow(db.runs[x.runId], x)])
  }

  // ----- what one processing of a run may observe -----

  /** Reply counters and the lead row, as read before the run step is written. */
  datatype Observation = Observation(replied: bool, leadFound: bool, optedOut: bool, conditionsPass: bool)

  /** Provider lookup, contact check and outcome of the job insert. */
  datatype Route = NO_PROVIDER | NO_VALID_CONTACT | DELIVERABLE | CREATE_ERROR

  datatype Decision = Close(status: RunStatus) | Record(passed: bool)

  /** The branches of `processOneRun` down to the run-step insert, in order. */
  function Decide(x: Snapshot, o: Observation): Decision {
    if x.stopOnReply && o.replied then Close(CANCELED)
    else if x.run.nextStepIndex >= |x.steps| then Close(COMPLETED)
    else if !o.leadFound then Close(FAILED)
    else if o.optedOut then Close(CANCELED)
    else Record(o.conditionsPass)
  }
}
