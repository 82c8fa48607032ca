/**
 * The message-sequence protocol as it really runs: any number of ticks, each working
 * through stale snapshots one transaction at a time, interleaved with service calls,
 * thrown errors and crashes. A run of the system is any sequence of actions; an action
 * that is not enabled changes nothing.
 */
module SequenceEngine {
  import opened Prelude
  import opened StepLists
  import opened SequenceModel

  type Tid = int

  /** The worker's processor and the API's twin write different step statuses. */
  datatype TickKind = WorkerTick | ApiTick

  /** Where a tick stands within `processOneRun`. */
  datatype Pc = Begin | StepCreated | JobCreated | JobRefused | Advancing

  datatype Thread =
    | Idle
    | Ticking(kind: TickKind, pc: Pc, cur: Snapshot, rest: seq<Snapshot>)
    | Starting(sequenceId: SeqId, leadId: LeadId, startedAt: int, firstAt: Option<int>)

  datatype State = State(db: Db, threads: map<Tid, Thread>)

  const INIT := State(EMPTY_DB, map[])

  datatype Action =
    | Wait(ms: nat)
    | CreateSequence(seqId: SeqId, stopOnReply: bool, startDelayMinutes: int)
    | SetSequenceStatus(seqId: SeqId, status: SequenceStatus)
    | ReplaceSteps(seqId: SeqId, steps: seq<StepDef>)
    | BeginStart(t: Tid, seqId: SeqId, leadId: LeadId)
    | CommitStart(t: Tid, runId: RunId)
    | Stop(runId: RunId)
    | Fetch(t: Tid, kind: TickKind, batch: seq<RunId>)
    | Examine(t: Tid, observation: Observation)
    | Dispatch(t: Tid, route: Route)
    | MarkStep(t: Tid, succeeded: bool)
    | Advance(t: Tid)
    | Throw(t: Tid)
    | Crash(t: Tid)

  function ThreadOf(s: State, t: Tid): Thread {
    if t in s.threads then s.threads[t] else Idle
  }

  /** The loop over fetched runs: on to the next snapshot, or done. */
  function NextRun(th: Thread): Thread
    requires th.Ticking?
  {
    if th.rest == [] then Idle else Ticking(th.kind, Begin, th.rest[0], th.rest[1..])
  }

  function Put(s: State, t: Tid, db: Db, th: Thread): State {
    State(db, s.threads[t := th])
  }

  // ----- the transactions of one tick thread -----

  function ExamineStep(s: State, t: Tid, o: Observation): State
    requires ThreadOf(s, t).Ticking? && ThreadOf(s, t).cur.runId in s.db.runs
  {
    var th := ThreadOf(s, t);
    var x := th.cur;
    match Decide(x, o)
    case Close(status) => Put(s, t, CloseRun(s.db, x.runId, status), NextRun(th))
    case Record(passed) =>
      var index := x.steps[x.run.nextStepIndex].orderIndex;
      // unique (organization, runId, orderIndex): the insert throws and the loop moves on
      if (x.runId, index) in s.db.runSteps then Put(s, t, s.db, NextRun(th))
      else
        Put(s, t, InsertRunStep(s.db, x.runId, index, if passed then SCHEDULED else SKIPPED),
            th.(pc := if passed then StepCreated else Advancing))
  }

  function WithStatus(db: Db, x: Snapshot, status: StepStatus): Db {
    var key := (x.runId, x.run.nextStepIndex);
    if key in db.runSteps then SetStepStatus(db, key.0, key.1, status) else db
  }

  function DispatchStep(s: State, t: Tid, route: Route): State
    requires ThreadOf(s, t).Ticking? && ThreadOf(s, t).cur.run.nextStepIndex < |ThreadOf(s, t).cur.steps|
  {
    var th := ThreadOf(s, t);
    var x := th.cur;
    match route
    case NO_PROVIDER => Put(s, t, WithStatus(s.db, x, STEP_FAILED), th.(pc := Advancing))
    case NO_VALID_CONTACT => Put(s, t, WithStatus(s.db, x, SKIPPED), th.(pc := Advancing))
    case CREATE_ERROR =>
      if th.kind == WorkerTick then Put(s, t, WithStatus(s.db, x, STEP_FAILED), th.(pc := Advancing))
      else Put(s, t, s.db, NextRun(th))
    case DELIVERABLE =>
      var step := x.steps[x.run.nextStepIndex];
      if JobKeyTaken(s.db, step.channel, DedupeKeys.DedupeKey(x.runId, step.orderIndex)) then
        Put(s, t, s.db, th.(pc := if th.kind == WorkerTick then Advancing else JobRefused))
      else
        Put(s, t, InsertJob(s.db, step.channel, x.runId, step.orderIndex), th.(pc := JobCreated))
  }

  /** Worker: SENT, or FAILED when that update throws. API twin: SCHEDULED, or SENT for a duplicate. */
  function MarkStepStatus(s: State, t: Tid, succeeded: bool): State
    requires ThreadOf(s, t).Ticking?
  {
    var th := ThreadOf(s, t);
    if th.kind == WorkerTick then
      Put(s, t, WithStatus(s.db, th.cur, if succeeded then SENT else STEP_FAILED), th.(pc := Advancing))
    else if succeeded then
      Put(s, t, WithStatus(s.db, th.cur, if th.pc == JobRefused then SENT else SCHEDULED), th.(pc := Advancing))
    else
      Put(s, t, s.db, NextRun(th))
  }

  function FetchThread(db: Db, kind: TickKind, batch: seq<RunId>): Thread
    requires forall id :: id in batch ==> id in db.runs && db.runs[id].sequenceId in db.sequences
  {
    if batch == [] then Idle
    else
      var rest := batch[1..];
      Ticking(kind, Begin, TakeSnapshot(db, batch[0]),
              seq(|rest|, i requires 0 <= i < |rest| => TakeSnapshot(db, rest[i])))
  }

  // ----- which actions are possible, and what they do -----

  ghost predicate Enabled(s: State, a: Action) {
    match a
    case Wait(_) => true
    case CreateSequence(id, _, _) => id !in s.db.sequences && id !in s.db.lists
    // activate() saw a non-empty list in an earlier transaction, so one has been stored
    case SetSequenceStatus(id, status) =>
      id in s.db.sequences && id in s.db.lists && (status == ACTIVE ==> HasSteps(s.db.lists[id]))
    // the DRAFT/PAUSED test read the row in an earlier transaction, so it may be stale here
    case ReplaceSteps(id, steps) =>
      id in s.db.sequences && id in s.db.lists && OrderIsPermutation(steps) && DelaysFollowOrder(steps)
    case BeginStart(t, id, _) => ThreadOf(s, t).Idle? && id in s.db.sequences && s.db.sequences[id].status == ACTIVE
    case CommitStart(t, id) => ThreadOf(s, t).Starting? && id !in s.db.runs
    case Stop(id) => id in s.db.runs
    case Fetch(t, _, batch) =>
      && ThreadOf(s, t).Idle? && IsDueBatch(s.db, batch)
      && (forall id :: id in batch ==> s.db.runs[id].sequenceId in s.db.sequences)
    case Examine(t, _) =>
      var th := ThreadOf(s, t);
      th.Ticking? && th.pc == Begin && th.cur.runId in s.db.runs
    case Dispatch(t, _) =>
      var th := ThreadOf(s, t);
      th.Ticking? && th.pc == StepCreated && th.cur.run.nextStepIndex < |th.cur.steps|
    case MarkStep(t, _) => var th := ThreadOf(s, t); th.Ticking? && th.pc in {JobCreated, JobRefused}
    case Advance(t) =>
      var th := ThreadOf(s, t);
      th.Ticking? && th.pc == Advancing && th.cur.runId in s.db.runs
    case Throw(t) => ThreadOf(s, t).Ticking?
    case Crash(t) => t in s.threads
  }

  ghost function Apply(s: State, a: Action): State {
    if !Enabled(s, a) then s else
    match a
    case Wait(ms) => s.(db := s.db.(now := s.db.now + ms))
    case CreateSequence(id, stopOnReply, delay) =>
      s.(db := s.db.(sequences := s.db.sequences[id := Sequence(DRAFT, [], stopOnReply, delay)],
                     lists := s.db.lists[id := {}]))
    case SetSequenceStatus(id, status) =>
      s.(db := s.db.(sequences := s.db.sequences[id := s.db.sequences[id].(status := status)]))
    case ReplaceSteps(id, steps) => s.(db := StoreSteps(s.db, id, SortByOrder(steps)))
    case BeginStart(t, id, lead) =>
      var sequence := s.db.sequences[id];
      var startedAt := s.db.now + sequence.startDelayMinutes * MINUTE;
      Put(s, t, s.db, Starting(id, lead, startedAt, FirstStepAt(startedAt, sequence.steps)))
    case CommitStart(t, id) =>
      var th := ThreadOf(s, t);
      // unique (organization, sequenceId, leadId): refused as SEQUENCE_ALREADY_RUNNING
      if HasRunFor(s.db, th.sequenceId, th.leadId) then Put(s, t, s.db, Idle)
      else Put(s, t, InsertRun(s.db, id, th.sequenceId, th.leadId, th.startedAt, th.firstAt), Idle)
    case Stop(id) => s.(db := StopRun(s.db, id))
    case Fetch(t, kind, batch) => Put(s, t, s.db, FetchThread(s.db, kind, batch))
    case Examine(t, o) => ExamineStep(s, t, o)
    case Dispatch(t, route) => DispatchStep(s, t, route)
    case MarkStep(t, ok) => MarkStepStatus(s, t, ok)
    case Advance(t) => Put(s, t, AdvanceRun(s.db, ThreadOf(s, t).cur), NextRun(ThreadOf(s, t)))
    case Throw(t) => Put(s, t, s.db, NextRun(ThreadOf(s, t)))
    case Crash(t) => Put(s, t, s.db, Idle)
  }

  ghost function Exec(s: State, actions: seq<Action>): State
    decreases |actions|
  {
    if actions == [] then s else Exec(Apply(s, actions[0]), actions[1..])
  }
}
