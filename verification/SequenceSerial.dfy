/**
 * One worker ticking alone at a frozen clock: what a whole `processOneRun` does to the
 * tables, proved to be what a lone thread of the protocol does.
 */
module SequenceSerial {
  import opened Prelude
  import opened StepLists
  import opened SequenceModel
  import opened SequenceEngine
  import opened SequenceInvariant
  import opened SequenceSafety
  import DedupeKeys

  /** Everything the outside decides during one processing of a run. */
  datatype Processing = Processing(observation: Observation, route: Route, marked: bool)

  /** The worker's `processOneRun` run to its end; a refused run-step insert changes nothing. */
  function Process(db: Db, x: Snapshot, p: Processing): Db
    requires x.runId in db.runs
  {
    match Decide(x, p.observation)
    case Close(status) => CloseRun(db, x.runId, status)
    case Record(passed) =>
      var index := x.steps[x.run.nextStepIndex].orderIndex;
      if (x.runId, index) in db.runSteps then db
      else
        var recorded := InsertRunStep(db, x.runId, index, if passed then SCHEDULED else SKIPPED);
        AdvanceRun(if passed then Send(recorded, x, p) else recorded, x)
  }

  function Send(db: Db, x: Snapshot, p: Processing): Db
    requires x.run.nextStepIndex < |x.steps|
    requires (x.runId, x.steps[x.run.nextStepIndex].orderIndex) in db.runSteps
  {
    var step := x.steps[x.run.nextStepIndex];
    match p.route
    case NO_PROVIDER => SetStepStatus(db, x.runId, step.orderIndex, STEP_FAILED)
    case NO_VALID_CONTACT => SetStepStatus(db, x.runId, step.orderIndex, SKIPPED)
    case CREATE_ERROR => SetStepStatus(db, x.runId, step.orderIndex, STEP_FAILED)
    case DELIVERABLE =>
      if JobKeyTaken(db, step.channel, DedupeKeys.DedupeKey(x.runId, step.orderIndex)) then db
      else
        SetStepStatus(InsertJob(db, step.channel, x.runId, step.orderIndex), x.runId, step.orderIndex,
                      if p.marked then SENT else STEP_FAILED)
  }

  /** The actions a lone worker thread takes for one run. */
  function ActionsOf(t: Tid, p: Processing, x: Snapshot, db: Db): seq<Action> {
    match Decide(x, p.observation)
    case Close(_) => [Examine(t, p.observation)]
    case Record(passed) =>
      var step := x.steps[x.run.nextStepIndex];
      if (x.runId, step.orderIndex) in db.runSteps then [Examine(t, p.observation)]
      else if !passed then [Examine(t, p.observation), Advance(t)]
      else if p.route != DELIVERABLE || JobKeyTaken(db, step.channel, DedupeKeys.DedupeKey(x.runId, step.orderIndex))
        then [Examine(t, p.observation), Dispatch(t, p.route), Advance(t)]
      else [Examine(t, p.observation), Dispatch(t, p.route), MarkStep(t, p.marked), Advance(t)]
  }

  // ----- the serial form refines the protocol -----

  lemma ExecPrefix(s: State, a: Action, rest: seq<Action>)
    ensures Exec(s, [a] + rest) == Exec(Apply(s, a), rest)
  {
    assert ([a] + rest)[1..] == rest;
  }

  lemma PutTwice(s: State, t: Tid, db: Db, th: Thread, db': Db, th': Thread)
    ensures Put(Put(s, t, db, th), t, db', th') == Put(s, t, db', th')
  {
    assert s.threads[t := th][t := th'] == s.threads[t := th'];
  }

  /** A snapshot whose stored order agrees with positions, on a run that exists. */
  ghost predicate Usable(db: Db, x: Snapshot) {
    && x.runId in db.runs
    && (x.run.nextStepIndex < |x.steps| ==> x.steps[x.run.nextStepIndex].orderIndex == x.run.nextStepIndex)
  }

  ghost predicate AtBegin(s: State, t: Tid, x: Snapshot) {
    && t in s.threads && s.threads[t].Ticking? && s.threads[t].kind == WorkerTick
    && s.threads[t].pc == Begin && s.threads[t].cur == x && Usable(s.db, x)
  }

  lemma AdvancesTo(s: State, t: Tid, db: Db, x: Snapshot)
    requires AtBegin(s, t, x) && x.runId in db.runs
    ensures var mid := Put(s, t, db, s.threads[t].(pc := Advancing));
            Exec(mid, [Advance(t)]) == Put(s, t, AdvanceRun(db, x), NextRun(s.threads[t]))
  {
    var th := s.threads[t].(pc := Advancing);
    var mid := Put(s, t, db, th);
    ExecPrefix(mid, Advance(t), []);
    assert [Advance(t)] + [] == [Advance(t)];
    assert NextRun(th) == NextRun(s.threads[t]);
    PutTwice(s, t, db, th, AdvanceRun(db, x), NextRun(th));
  }

  lemma DispatchesTo(s: State, t: Tid, db: Db, x: Snapshot, p: Processing)
    requires AtBegin(s, t, x) && x.runId in db.runs
    requires x.run.nextStepIndex < |x.steps| && (x.runId, x.run.nextStepIndex) in db.runSteps
    requires x.steps[x.run.nextStepIndex].orderIndex == x.run.nextStepIndex
    requires p.route != DELIVERABLE
          || JobKeyTaken(db, x.steps[x.run.nextStepIndex].channel, DedupeKeys.DedupeKey(x.runId, x.run.nextStepIndex))
    ensures var mid := Put(s, t, db, s.threads[t].(pc := StepCreated));
            Apply(mid, Dispatch(t, p.route)) == Put(s, t, Send(db, x, p), s.threads[t].(pc := Advancing))
  {
    PutTwice(s, t, db, s.threads[t].(pc := StepCreated), Send(db, x, p), s.threads[t].(pc := Advancing));
  }

  lemma DeliversTo(s: State, t: Tid, db: Db, x: Snapshot, p: Processing)
    requires AtBegin(s, t, x) && x.runId in db.runs && p.route == DELIVERABLE
    requires x.run.nextStepIndex < |x.steps| && (x.runId, x.run.nextStepIndex) in db.runSteps
    requires x.steps[x.run.nextStepIndex].orderIndex == x.run.nextStepIndex
    requires !JobKeyTaken(db, x.steps[x.run.nextStepIndex].channel, DedupeKeys.DedupeKey(x.runId, x.run.nextStepIndex))
    ensures var mid := Put(s, t, db, s.threads[t].(pc := StepCreated));
            Apply(Apply(mid, Dispatch(t, DELIVERABLE)), MarkStep(t, p.marked))
              == Put(s, t, Send(db, x, p), s.threads[t].(pc := Advancing))
  {
    var th := s.threads[t];
    var mid := Put(s, t, db, th.(pc := StepCreated));
    var sent := InsertJob(db, x.steps[x.run.nextStepIndex].channel, x.runId, x.run.nextStepIndex);
    PutTwice(s, t, db, th.(pc := StepCreated), sent, th.(pc := JobCreated));
    assert Apply(mid, Dispatch(t, DELIVERABLE)) == Put(s, t, sent, th.(pc := JobCreated));
    PutTwice(s, t, sent, th.(pc := JobCreated), Send(db, x, p), th.(pc := Advancing));
  }

  lemma ExaminesTo(s: State, t: Tid, x: Snapshot, p: Processing)
    requires AtBegin(s, t, x)
    ensures Apply(s, Examine(t, p.observation)) ==
      match Decide(x, p.observation)
      case Close(status) => Put(s, t, CloseRun(s.db, x.runId, status), NextRun(s.threads[t]))
      case Record(passed) =>
        if (x.runId, x.run.nextStepIndex) in s.db.runSteps then Put(s, t, s.db, NextRun(s.threads[t]))
        else Put(s, t, InsertRunStep(s.db, x.runId, x.run.nextStepIndex, if passed then SCHEDULED else SKIPPED),
                 s.threads[t].(pc := if passed then StepCreated else Advancing))
  {
  }

  /** A thread left to itself does to the tables exactly what `Process` says, then moves on. */
  lemma ProcessIsLoneThread(s: State, t: Tid, x: Snapshot, p: Processing)
    requires AtBegin(s, t, x)
    ensures Exec(s, ActionsOf(t, p, x, s.db)) == Put(s, t, Process(s.db, x, p), NextRun(s.threads[t]))
  {
    var examine := Examine(t, p.observation);
    var decision := Decide(x, p.observation);
    ExaminesTo(s, t, x, p);
    if decision.Close? || (x.runId, x.run.nextStepIndex) in s.db.runSteps {
      ExecPrefix(s, examine, []);
      assert [examine] + [] == [examine];
    } else {
      var recorded := InsertRunStep(s.db, x.runId, x.run.nextStepIndex, if decision.passed then SCHEDULED else SKIPPED);
      LoneThreadRecords(s, t, x, p, recorded);
    }
  }

  lemma LoneThreadRecords(s: State, t: Tid, x: Snapshot, p: Processing, recorded: Db)
    requires AtBegin(s, t, x) && Decide(x, p.observation).Record?
    requires (x.runId, x.run.nextStepIndex) !in s.db.runSteps
    requires recorded == InsertRunStep(s.db, x.runId, x.run.nextStepIndex,
                                       if Decide(x, p.observation).passed then SCHEDULED else SKIPPED)
    ensures Exec(s, ActionsOf(t, p, x, s.db)) == Put(s, t, Process(s.db, x, p), NextRun(s.threads[t]))
  {
    hide Apply, Exec, AdvanceRun, NextRun;
    var examine := Examine(t, p.observation);
    var passed := Decide(x, p.observation).passed;
    ExaminesTo(s, t, x, p);
    var afterExamine := Apply(s, examine);
    var done := if passed then Send(recorded, x, p) else recorded;
    AdvancesTo(s, t, done, x);
    if !passed {
      ExecPrefix(s, examine, [Advance(t)]);
      assert [examine] + [Advance(t)] == [examine, Advance(t)];
    } else {
      var dispatch := Dispatch(t, p.route);
      ExecPrefix(s, examine, ActionsOf(t, p, x, s.db)[1..]);
      assert [examine] + ActionsOf(t, p, x, s.db)[1..] == ActionsOf(t, p, x, s.db);
      if ActionsOf(t, p, x, s.db)[2] == Advance(t) {
        DispatchesTo(s, t, recorded, x, p);
        ExecPrefix(afterExamine, dispatch, [Advance(t)]);
        assert [dispatch] + [Advance(t)] == ActionsOf(t, p, x, s.db)[1..];
      } else {
        DeliversTo(s, t, recorded, x, p);
        var mark := MarkStep(t, p.marked);
        ExecPrefix(afterExamine, dispatch, [mark, Advance(t)]);
        ExecPrefix(Apply(afterExamine, dispatch), mark, [Advance(t)]);
        assert [dispatch] + [mark, Advance(t)] == ActionsOf(t, p, x, s.db)[1..];
        assert [mark] + [Advance(t)] == [mark, Advance(t)];
      }
    }
  }
}
