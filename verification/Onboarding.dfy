/** The onboarding wizard of an organisation. */
module Onboarding {
  import opened Prelude

  datatype Persona = AGENCY | INDEPENDENT_AGENT | DEVELOPER

  datatype OnboardingStep = ORG_PROFILE | COLLABORATORS | PLAN | PAYMENT_OFFLINE | KYC | FIRST_LISTING | DONE

  datatype OnboardingStatus = IN_PROGRESS | COMPLETED

  const STEP_ORDER := [ORG_PROFILE, COLLABORATORS, PLAN, PAYMENT_OFFLINE, KYC, FIRST_LISTING, DONE]

  datatype Row = Row(status: OnboardingStatus, currentStep: OnboardingStep, completed: set<OnboardingStep>)

  datatype OnboardingError = ONBOARDING_NOT_FOUND | INVALID_STEP_ORDER | STEP_NOT_ALLOWED

  function StepIndex(s: OnboardingStep): (i: nat)
    ensures i < |STEP_ORDER| && STEP_ORDER[i] == s
  {
    match s
    case ORG_PROFILE => 0
    case COLLABORATORS => 1
    case PLAN => 2
    case PAYMENT_OFFLINE => 3
    case KYC => 4
    case FIRST_LISTING => 5
    case DONE => 6
  }

  /** The order the steps are shown in. */
  predicate ComesBefore(a: OnboardingStep, b: OnboardingStep) {
    exists i, j :: 0 <= i < j < |STEP_ORDER| && STEP_ORDER[i] == a && STEP_ORDER[j] == b
  }

  function NextStep(current: OnboardingStep, persona: Option<Persona>): OnboardingStep {
    var idx := StepIndex(current);
    if idx >= |STEP_ORDER| - 1 then DONE
    else
      var next := STEP_ORDER[idx + 1];
      if next == COLLABORATORS && persona == Some(INDEPENDENT_AGENT) then
        if idx + 2 < |STEP_ORDER| then STEP_ORDER[idx + 2] else DONE
      else next
  }

  // ----- specification of the calls; `None` is an organisation without a row -----

  function Started(row: Option<Row>, profileComplete: bool, persona: Option<Persona>): Option<Row> {
    if row.Some? then row
    else
      var first := if profileComplete then NextStep(ORG_PROFILE, persona) else ORG_PROFILE;
      var done0: set<OnboardingStep> := if profileComplete then {ORG_PROFILE} else {};
      var skipped := first != COLLABORATORS && persona == Some(INDEPENDENT_AGENT);
      var done := if skipped then done0 + {COLLABORATORS} else done0;
      Some(Row(IN_PROGRESS, first, done))
  }

  /** `completeStep`: only the current step of a running wizard, and only when its requirement is met. */
  predicate CanComplete(row: Option<Row>, step: OnboardingStep, requirementMet: bool) {
    row.Some? && row.value.status != COMPLETED && step == row.value.currentStep && requirementMet
  }

  function StepCompleted(row: Option<Row>, step: OnboardingStep, requirementMet: bool, persona: Option<Persona>)
    : Option<Row>
  {
    if !CanComplete(row, step, requirementMet) then row
    else
      var next := NextStep(step, persona);
      var skip := next == COLLABORATORS && persona == Some(INDEPENDENT_AGENT);
      Some(row.value.(
        currentStep := if skip then NextStep(COLLABORATORS, persona) else next,
        completed := row.value.completed + {step} + if skip then {COLLABORATORS} else {}))
  }

  predicate CanStepBack(row: Option<Row>, to: OnboardingStep) {
    row.Some? && to != DONE && StepIndex(to) < StepIndex(row.value.currentStep)
  }

  function SteppedBack(row: Option<Row>, to: OnboardingStep): Option<Row> {
    if CanStepBack(row, to) then Some(row.value.(currentStep := to)) else row
  }

  predicate CanFinish(row: Option<Row>) {
    && row.Some? && row.value.status != COMPLETED
    && ORG_PROFILE in row.value.completed && FIRST_LISTING in row.value.completed
  }

  function FinishedRow(row: Option<Row>): Option<Row> {
    if CanFinish(row) then Some(row.value.(status := COMPLETED, currentStep := DONE)) else row
  }

  // ----- the service -----

  class Wizard {
    var row: Option<Row>

    constructor ()
      ensures row == None
    {
      row := None;
    }

    method Start(profileComplete: bool, persona: Option<Persona>) returns (current: OnboardingStep)
      modifies this
      ensures row == Started(old(row), profileComplete, persona) && row.Some? && current == row.value.currentStep
    {
      if row.Some? { return row.value.currentStep; }
      var firstStep := if profileComplete then NextStep(ORG_PROFILE, persona) else ORG_PROFILE;
      var completedSteps := {};
      if profileComplete { completedSteps := completedSteps + {ORG_PROFILE}; }
      if firstStep != COLLABORATORS && persona == Some(INDEPENDENT_AGENT) {
        completedSteps := completedSteps + {COLLABORATORS};
      }
      assert completedSteps == Started(row, profileComplete, persona).value.completed;
      row := Some(Row(IN_PROGRESS, firstStep, completedSteps));
      return firstStep;
    }

    method CompleteStep(step: OnboardingStep, requirementMet: bool, persona: Option<Persona>)
      returns (r: Result<OnboardingStep, OnboardingError>)
      modifies this
      ensures r.Ok? <==> CanComplete(old(row), step, requirementMet)
      ensures r == Err(ONBOARDING_NOT_FOUND) <==> old(row).None?
      ensures r == Err(INVALID_STEP_ORDER) <==>
                old(row).Some? && (old(row).value.status == COMPLETED || step != old(row).value.currentStep)
      ensures r.Err? ==> r.error in {ONBOARDING_NOT_FOUND, INVALID_STEP_ORDER, STEP_NOT_ALLOWED}
      ensures row == StepCompleted(old(row), step, requirementMet, persona)
      ensures r.Ok? ==> row.Some? && r.value == row.value.currentStep
    {
      if row.None? { return Err(ONBOARDING_NOT_FOUND); }
      var onboarding := row.value;
      if onboarding.status == COMPLETED { return Err(INVALID_STEP_ORDER); }
      if step != onboarding.currentStep { return Err(INVALID_STEP_ORDER); }
      if !requirementMet { return Err(STEP_NOT_ALLOWED); }
      var completedSteps := onboarding.completed + {step};
      var actualNext := NextStep(step, persona);
      if actualNext == COLLABORATORS && persona == Some(INDEPENDENT_AGENT) {
        completedSteps := completedSteps + {COLLABORATORS};
        actualNext := NextStep(COLLABORATORS, persona);
      }
      assert completedSteps == StepCompleted(row, step, requirementMet, persona).value.completed;
      row := Some(onboarding.(currentStep := actualNext, completed := completedSteps));
      return Ok(actualNext);
    }

    method StepBack(to: OnboardingStep) returns (r: Result<OnboardingStep, OnboardingError>)
      modifies this
      ensures r.Ok? <==> old(row).Some? && ComesBefore(to, old(row).value.currentStep)
      ensures row == if r.Ok? then Some(old(row).value.(currentStep := to)) else old(row)
      ensures row == SteppedBack(old(row), to)
      ensures r.Err? ==> r.error == if old(row).None? then ONBOARDING_NOT_FOUND else INVALID_STEP_ORDER
    {
      if row.None? { return Err(ONBOARDING_NOT_FOUND); }
      if to == DONE { return Err(INVALID_STEP_ORDER); }
      if StepIndex(to) >= StepIndex(row.value.currentStep) { return Err(INVALID_STEP_ORDER); }
      row := Some(row.value.(currentStep := to));
      return Ok(to);
    }

    method Complete() returns (r: Result<OnboardingStatus, OnboardingError>)
      modifies this
      ensures row == FinishedRow(old(row))
      ensures r.Ok? <==> row.Some? && row.value.status == COMPLETED
      ensures r.Ok? ==> r.value == COMPLETED
      ensures r.Err? ==> r.error == if old(row).None? then ONBOARDING_NOT_FOUND else INVALID_STEP_ORDER
      ensures r.Ok? <==>
        && old(row).Some?
        && (old(row).value.status == COMPLETED || {ORG_PROFILE, FIRST_LISTING} <= old(row).value.completed)
      ensures r.Ok? && old(row).value.status != COMPLETED ==>
                row == Some(Row(COMPLETED, DONE, old(row).value.completed))
    {
      if row.None? { return Err(ONBOARDING_NOT_FOUND); }
      if row.value.status == COMPLETED { return Ok(COMPLETED); }
      if ORG_PROFILE !in row.value.completed { return Err(INVALID_STEP_ORDER); }
      if FIRST_LISTING !in row.value.completed { return Err(INVALID_STEP_ORDER); }
      row := Some(row.value.(status := COMPLETED, currentStep := DONE));
      return Ok(COMPLETED);
    }
  }

  // ----- runs: the persona and the requirements may change before every call -----

  datatype Call =
    | Start(profileComplete: bool, persona: Option<Persona>)
    | CompleteStep(step: OnboardingStep, requirementMet: bool, persona: Option<Persona>)
    | StepBack(to: OnboardingStep)
    | Complete

  function Apply(row: Option<Row>, c: Call): Option<Row> {
    match c
    case Start(profileComplete, persona) => Started(row, profileComplete, persona)
    case CompleteStep(step, requirementMet, persona) => StepCompleted(row, step, requirementMet, persona)
    case StepBack(to) => SteppedBack(row, to)
    case Complete => FinishedRow(row)
  }

  function After(calls: seq<Call>): Option<Row> {
    if calls == [] then None else Apply(After(calls[..|calls| - 1]), calls[|calls| - 1])
  }

  /** Steps that must have been completed before the wizard stands at s; collaborators only when `all`. */
  ghost predicate DoneBefore(row: Row, s: OnboardingStep, all: bool) {
    forall p: OnboardingStep :: StepIndex(p) < StepIndex(s) && (all || p != COLLABORATORS) ==> p in row.completed
  }

  /** Everything before the current step is done, and so is everything before any completed step. */
  ghost predicate Inv(row: Row, all: bool) {
    && DoneBefore(row, row.currentStep, all)
    && (forall s: OnboardingStep :: s in row.completed && s != COLLABORATORS ==> DoneBefore(row, s, all))
    && (row.currentStep == DONE ==> FIRST_LISTING in row.completed)
    && (row.status == COMPLETED ==> FIRST_LISTING in row.completed)
  }

  predicate ForIndependent(c: Call) {
    (c.Start? || c.CompleteStep?) && c.persona == Some(INDEPENDENT_AGENT)
  }

  /** Completing more steps and standing no later keeps what is done before a step. */
  lemma DoneCarries(row: Row, after: Row, all: bool)
    requires Inv(row, all) && row.completed <= after.completed
    ensures forall s: OnboardingStep :: s in row.completed && s != COLLABORATORS ==> DoneBefore(after, s, all)
    ensures forall s: OnboardingStep :: StepIndex(s) <= StepIndex(row.currentStep) ==> DoneBefore(after, s, all)
  {
    assert DoneBefore(row, row.currentStep, all);
    forall s: OnboardingStep | s in row.completed && s != COLLABORATORS ensures DoneBefore(after, s, all) {
      assert DoneBefore(row, s, all);
    }
  }

  lemma CompletionKeepsInv(row: Row, step: OnboardingStep, persona: Option<Persona>, all: bool)
    requires Inv(row, all) && row.status != COMPLETED && step == row.currentStep
    requires all ==> persona != Some(INDEPENDENT_AGENT)
    ensures Inv(StepCompleted(Some(row), step, true, persona).value, all)
  {
    var after := StepCompleted(Some(row), step, true, persona).value;
    DoneCarries(row, after, all);
    assert DoneBefore(after, step, all);
    forall p: OnboardingStep | StepIndex(p) < StepIndex(after.currentStep) && (all || p != COLLABORATORS)
      ensures p in after.completed
    {
      assert StepIndex(p) < StepIndex(step) || p == step || step == DONE;
    }
  }

  lemma FinishKeepsInv(row: Row, all: bool)
    requires Inv(row, all) && CanFinish(Some(row))
    ensures Inv(FinishedRow(Some(row)).value, all)
  {
    var after := FinishedRow(Some(row)).value;
    DoneCarries(row, after, all);
    forall p: OnboardingStep | StepIndex(p) < StepIndex(DONE) && (all || p != COLLABORATORS)
      ensures p in after.completed
    {
      assert StepIndex(p) < StepIndex(FIRST_LISTING) || p == FIRST_LISTING;
    }
  }

  lemma CallKeepsInv(row: Option<Row>, c: Call, all: bool)
    requires row.Some? ==> Inv(row.value, all)
    requires all ==> !ForIndependent(c)
    ensures Apply(row, c).Some? ==> Inv(Apply(row, c).value, all)
  {
    var after := Apply(row, c);
    if after.Some? && after != row {
      match c
      case CompleteStep(step, _, persona) => CompletionKeepsInv(row.value, step, persona, all);
      case Complete => FinishKeepsInv(row.value, all);
      case StepBack(to) => DoneCarries(row.value, after.value, all);
      case Start(_, _) =>
    }
  }

  lemma {:induction false} RunKeepsInv(calls: seq<Call>, all: bool)
    requires all ==> forall c :: c in calls ==> !ForIndependent(c)
    ensures After(calls).Some? ==> Inv(After(calls).value, all)
    decreases |calls|
  {
    if calls != [] {
      assert calls[|calls| - 1] in calls;
      RunKeepsInv(calls[..|calls| - 1], all);
      CallKeepsInv(After(calls[..|calls| - 1]), calls[|calls| - 1], all);
    }
  }

  /**
   * `complete` looks at two flags only, yet a completed wizard has had every step but the
   * collaborators completed, however the persona changed and the user went back; and that step
   * too, when the persona never was an independent agent.
   */
  lemma CompletedMeansAllSteps(calls: seq<Call>)
    requires After(calls).Some? && After(calls).value.status == COMPLETED
    ensures {ORG_PROFILE, PLAN, PAYMENT_OFFLINE, KYC, FIRST_LISTING} <= After(calls).value.completed
    ensures (forall c :: c in calls ==> !ForIndependent(c)) ==> COLLABORATORS in After(calls).value.completed
  {
    var row := After(calls).value;
    RunKeepsInv(calls, false);
    assert DoneBefore(row, FIRST_LISTING, false);
    assert StepIndex(PLAN) < StepIndex(FIRST_LISTING) && StepIndex(PAYMENT_OFFLINE) < StepIndex(FIRST_LISTING)
        && StepIndex(KYC) < StepIndex(FIRST_LISTING) && StepIndex(ORG_PROFILE) < StepIndex(FIRST_LISTING);
    if forall c :: c in calls ==> !ForIndependent(c) {
      RunKeepsInv(calls, true);
      assert DoneBefore(row, FIRST_LISTING, true) && StepIndex(COLLABORATORS) < StepIndex(FIRST_LISTING);
    }
  }

  /** An independent agent is never asked for collaborators, except after stepping back to them. */
  lemma {:induction false} IndependentSkipsCollaborators(calls: seq<Call>)
    requires forall c :: c in calls && (c.Start? || c.CompleteStep?) ==> ForIndependent(c)
    requires StepBack(COLLABORATORS) !in calls
    ensures After(calls).Some? ==> After(calls).value.currentStep != COLLABORATORS
    decreases |calls|
  {
    if calls != [] {
      assert calls[|calls| - 1] in calls;
      IndependentSkipsCollaborators(calls[..|calls| - 1]);
    }
  }

  /** `nextStep` already skips the step, so the code after it that would mark it never applies. */
  lemma SkipMarksNothing(row: Option<Row>, step: OnboardingStep, persona: Option<Persona>)
    requires CanComplete(row, step, true)
    ensures StepCompleted(row, step, true, persona).value.completed == row.value.completed + {step}
    ensures StepCompleted(row, step, true, persona).value.currentStep == NextStep(step, persona)
  {
  }

  /** Hence a persona that changes midway completes the wizard without the collaborators step. */
  lemma CollaboratorsCanStayOpen()
    ensures var agent := Some(INDEPENDENT_AGENT);
            var row := After([Start(false, Some(AGENCY)), CompleteStep(ORG_PROFILE, true, agent),
                              CompleteStep(PLAN, true, agent), CompleteStep(PAYMENT_OFFLINE, true, agent),
                              CompleteStep(KYC, true, agent), CompleteStep(FIRST_LISTING, true, agent), Complete]);
            row.Some? && row.value.status == COMPLETED && COLLABORATORS !in row.value.completed
  {
    var agent := Some(INDEPENDENT_AGENT);
    var c0, c1 := Start(false, Some(AGENCY)), CompleteStep(ORG_PROFILE, true, agent);
    var c2, c3 := CompleteStep(PLAN, true, agent), CompleteStep(PAYMENT_OFFLINE, true, agent);
    var c4, c5 := CompleteStep(KYC, true, agent), CompleteStep(FIRST_LISTING, true, agent);
    var r1 := AfterNext([], c0);
    var r2 := AfterNext(r1, c1);
    var r3 := AfterNext(r2, c2);
    var r4 := AfterNext(r3, c3);
    var r5 := AfterNext(r4, c4);
    var r6 := AfterNext(r5, c5);
    var r7 := AfterNext(r6, Complete);
    assert r7 == [c0, c1, c2, c3, c4, c5, Complete];
  }

  lemma AfterNext(calls: seq<Call>, c: Call) returns (longer: seq<Call>)
    ensures longer == calls + [c] && After(longer) == Apply(After(calls), c)
  {
    longer := calls + [c];
    assert longer[..|longer| - 1] == calls;
  }

  // ----- when exactly the collaborators step is missing -----

  /** Call i was an accepted completion of the step. */
  predicate Completes(calls: seq<Call>, i: int, step: OnboardingStep) {
    0 <= i < |calls| && calls[i].CompleteStep? && calls[i].step == step
    && CanComplete(After(calls[..i]), step, calls[i].requirementMet)
  }

  /** Call i created the row. */
  predicate Creates(calls: seq<Call>, i: int) { 0 <= i < |calls| && calls[i].Start? && After(calls[..i]).None? }

  ghost predicate CollaboratorsCompleted(calls: seq<Call>) { exists i :: Completes(calls, i, COLLABORATORS) }

  /** The row was created for an independent agent. */
  ghost predicate CreatedForIndependent(calls: seq<Call>) { exists i :: Creates(calls, i) && ForIndependent(calls[i]) }

  /** Call i was accepted and led past the profile: by completing it, or by a start that found it complete. */
  predicate LeavesProfile(calls: seq<Call>, i: int) {
    Completes(calls, i, ORG_PROFILE) || (Creates(calls, i) && calls[i].profileComplete)
  }

  ghost predicate LeftByIndependent(calls: seq<Call>) {
    exists i :: LeavesProfile(calls, i) && ForIndependent(calls[i])
  }

  lemma PrefixCalls(calls: seq<Call>, i: int, step: OnboardingStep)
    requires calls != [] && i < |calls| - 1
    ensures Completes(calls[..|calls| - 1], i, step) == Completes(calls, i, step)
    ensures Creates(calls[..|calls| - 1], i) == Creates(calls, i)
  {
    if 0 <= i { assert calls[..|calls| - 1][..i] == calls[..i]; }
  }

  /** The three facts about a run are those about its prefix and its last call. */
  lemma LastCompletion(calls: seq<Call>)
    requires calls != []
    ensures var n := |calls| - 1;
      CollaboratorsCompleted(calls) <==> CollaboratorsCompleted(calls[..n]) || Completes(calls, n, COLLABORATORS)
  {
    var n := |calls| - 1;
    var before := calls[..n];
    if CollaboratorsCompleted(calls) {
      var i :| Completes(calls, i, COLLABORATORS);
      if i < n { PrefixCalls(calls, i, COLLABORATORS); }
    }
    if CollaboratorsCompleted(before) {
      var i :| Completes(before, i, COLLABORATORS);
      PrefixCalls(calls, i, COLLABORATORS);
    }
  }

  lemma LastCreation(calls: seq<Call>)
    requires calls != []
    ensures var n := |calls| - 1;
      CreatedForIndependent(calls) <==>
        CreatedForIndependent(calls[..n]) || (Creates(calls, n) && ForIndependent(calls[n]))
  {
    var n := |calls| - 1;
    var before := calls[..n];
    if CreatedForIndependent(calls) {
      var i :| Creates(calls, i) && ForIndependent(calls[i]);
      if i < n {
        PrefixCalls(calls, i, COLLABORATORS);
        assert Creates(before, i) && before[i] == calls[i];
      }
    }
    if CreatedForIndependent(before) {
      var i :| Creates(before, i) && ForIndependent(before[i]);
      PrefixCalls(calls, i, COLLABORATORS);
      assert Creates(calls, i) && before[i] == calls[i];
    }
  }

  lemma LastLeaving(calls: seq<Call>)
    requires calls != []
    ensures var n := |calls| - 1;
      LeftByIndependent(calls) <==>
        LeftByIndependent(calls[..n]) || (LeavesProfile(calls, n) && ForIndependent(calls[n]))
  {
    var n := |calls| - 1;
    var before := calls[..n];
    if LeftByIndependent(calls) {
      var i :| LeavesProfile(calls, i) && ForIndependent(calls[i]);
      if i < n {
        PrefixCalls(calls, i, ORG_PROFILE);
        assert LeavesProfile(before, i) && before[i] == calls[i];
      }
    }
    if LeftByIndependent(before) {
      var i :| LeavesProfile(before, i) && ForIndependent(before[i]);
      PrefixCalls(calls, i, ORG_PROFILE);
      assert LeavesProfile(calls, i) && before[i] == calls[i];
    }
  }

  lemma LastCall(calls: seq<Call>)
    requires calls != []
    ensures var n := |calls| - 1; var before := calls[..n];
      && (CollaboratorsCompleted(calls) <==> CollaboratorsCompleted(before) || Completes(calls, n, COLLABORATORS))
      && (CreatedForIndependent(calls) <==>
        CreatedForIndependent(before) || (Creates(calls, n) && ForIndependent(calls[n])))
      && (LeftByIndependent(calls) <==>
        LeftByIndependent(before) || (LeavesProfile(calls, n) && ForIndependent(calls[n])))
  {
    hide CollaboratorsCompleted, CreatedForIndependent, LeftByIndependent;
    LastCompletion(calls);
    LastCreation(calls);
    LastLeaving(calls);
  }

  /** The step is marked exactly by an accepted completion of it, or by a creation for an independent agent. */
  lemma {:induction false} CollaboratorsMarkedIff(calls: seq<Call>)
    ensures After(calls).None? ==> !CollaboratorsCompleted(calls) && !CreatedForIndependent(calls)
    ensures After(calls).Some? ==>
      (COLLABORATORS in After(calls).value.completed <==> CollaboratorsCompleted(calls) || CreatedForIndependent(calls))
    decreases |calls|
  {
    hide LeftByIndependent;
    if calls != [] {
      CollaboratorsMarkedIff(calls[..|calls| - 1]);
      LastCall(calls);
    }
  }

  /** Some step behind the collaborators is done or current. */
  ghost predicate IsPast(row: Row) {
    StepIndex(row.currentStep) > 1 || exists s: OnboardingStep :: s in row.completed && StepIndex(s) > 1
  }

  /** Who got past the step without completing it left the profile as an independent agent. */
  lemma {:induction false} PastImpliesLeft(calls: seq<Call>)
    requires After(calls).Some? && IsPast(After(calls).value) && !CollaboratorsCompleted(calls)
    ensures LeftByIndependent(calls)
    decreases |calls|
  {
    var n := |calls| - 1;
    var before := calls[..n];
    LastCall(calls);
    if After(before).Some? && IsPast(After(before).value) { PastImpliesLeft(before); }
  }

  /**
   * A completed wizard lacks the collaborators step if and only if no completion of that step was
   * ever accepted and the row was not created for an independent agent; and then an accepted call
   * for an independent agent led past the profile.
   */
  lemma CollaboratorsMissingIff(calls: seq<Call>)
    requires After(calls).Some? && After(calls).value.status == COMPLETED
    ensures COLLABORATORS !in After(calls).value.completed <==>
            !CollaboratorsCompleted(calls) && !CreatedForIndependent(calls)
    ensures COLLABORATORS !in After(calls).value.completed ==> LeftByIndependent(calls)
  {
    CollaboratorsMarkedIff(calls);
    CompletedMeansAllSteps(calls);
    hide After, CollaboratorsCompleted, CreatedForIndependent, LeftByIndependent;
    var row := After(calls).value;
    assert FIRST_LISTING in row.completed && StepIndex(FIRST_LISTING) > 1;
    if !CollaboratorsCompleted(calls) { PastImpliesLeft(calls); }
  }

  function Position(row: Option<Row>): nat { if row.Some? then StepIndex(row.value.currentStep) else 0 }

  lemma MoveForward(row: Option<Row>, c: Call)
    requires !c.StepBack?
    ensures Position(row) <= Position(Apply(row, c))
    ensures c.CompleteStep? && CanComplete(row, c.step, c.requirementMet) && c.step == COLLABORATORS ==>
              Position(row) == 1 < Position(Apply(row, c))
    ensures c.CompleteStep? && CanComplete(row, c.step, c.requirementMet) && c.step == ORG_PROFILE &&
            ForIndependent(c) ==>
              Position(row) == 0 && Position(Apply(row, c)) > 1
    ensures c.Start? && row.None? && c.profileComplete && ForIndependent(c) ==> Position(Apply(row, c)) > 1
  {
  }

  /** Where the last call moves the wizard. */
  lemma LastMove(calls: seq<Call>)
    requires calls != [] && !calls[|calls| - 1].StepBack?
    ensures var n := |calls| - 1;
      && Position(After(calls[..n])) <= Position(After(calls))
      && (Completes(calls, n, COLLABORATORS) ==> Position(After(calls[..n])) == 1 < Position(After(calls)))
      && (LeavesProfile(calls, n) && ForIndependent(calls[n]) ==>
        Position(After(calls[..n])) == 0 && Position(After(calls)) > 1)
  {
    hide Apply, CanComplete, ForIndependent, Position;
    MoveForward(After(calls[..|calls| - 1]), calls[|calls| - 1]);
    NoRowNoPosition();
  }

  lemma NoRowNoPosition()
    ensures Position(None) == 0
  {
  }

  /** Without step-backs the two ways past the step exclude each other. */
  lemma {:induction false} OneWayPast(calls: seq<Call>)
    requires forall c :: c in calls ==> !c.StepBack?
    ensures CollaboratorsCompleted(calls) || LeftByIndependent(calls) ==> Position(After(calls)) > 1
    ensures !(CollaboratorsCompleted(calls) && LeftByIndependent(calls))
    decreases |calls|
  {
    if calls != [] {
      hide CollaboratorsCompleted, LeftByIndependent, CreatedForIndependent, Completes, LeavesProfile,
        ForIndependent, After;
      var n := |calls| - 1;
      assert calls[n] in calls && forall c :: c in calls[..n] ==> c in calls;
      OneWayPast(calls[..n]);
      LastCall(calls);
      LastMove(calls);
    }
  }

  /**
   * So, without step-backs, a completed wizard lacks the step if and only if the accepted call that
   * led past the profile was for an independent agent and the call that created the row was not.
   */
  lemma CollaboratorsMissingByPersona(calls: seq<Call>)
    requires After(calls).Some? && After(calls).value.status == COMPLETED
    requires forall c :: c in calls ==> !c.StepBack?
    ensures COLLABORATORS !in After(calls).value.completed <==>
        LeftByIndependent(calls) && !CreatedForIndependent(calls)
  {
    CollaboratorsMissingIff(calls);
    OneWayPast(calls);
  }

  /** The call checked the step's requirement and found it met. */
  predicate Checks(c: Call, s: OnboardingStep) {
    || (c.CompleteStep? && c.step == s && c.requirementMet)
    || (c.Start? && s == ORG_PROFILE && c.profileComplete)
  }

  /** A step is marked completed only by a call that met its requirement, the profile also at the start. */
  lemma {:induction false} CompletedStepWasChecked(calls: seq<Call>, s: OnboardingStep)
    requires After(calls).Some? && s in After(calls).value.completed && s != COLLABORATORS
    ensures exists c :: c in calls && Checks(c, s)
    decreases |calls|
  {
    var before, c := calls[..|calls| - 1], calls[|calls| - 1];
    assert c in calls && forall b :: b in before ==> b in calls;
    if After(before).Some? && s in After(before).value.completed { CompletedStepWasChecked(before, s); }
  }

  /** Completed steps are never forgotten, and a completed wizard stays completed. */
  lemma {:induction false} ProgressIsKept(calls: seq<Call>, more: seq<Call>)
    requires After(calls).Some?
    ensures var later := After(calls + more);
            later.Some? && After(calls).value.completed <= later.value.completed
            && (After(calls).value.status == COMPLETED ==> later.value.status == COMPLETED)
    decreases |more|
  {
    var all := calls + more;
    if more == [] {
      assert all == calls;
    } else {
      assert all[..|all| - 1] == calls + more[..|more| - 1];
      ProgressIsKept(calls, more[..|more| - 1]);
    }
  }

  // ----- completions that overlap other calls -----

  /** `completeStep` writes the completed steps it computed from the row it read. */
  function CompletionWritten(now: Row, read: Row, step: OnboardingStep, persona: Option<Persona>): Row {
    var after := StepCompleted(Some(read), step, true, persona).value;
    now.(currentStep := after.currentStep, completed := after.completed)
  }

  /**
   * A completion that reads the row and writes only after other calls keeps what they completed if
   * and only if they completed nothing but that step.
   */
  lemma LateCompletionKeepsIff(calls: seq<Call>, between: seq<Call>, step: OnboardingStep, persona: Option<Persona>)
    requires CanComplete(After(calls), step, true)
    ensures After(calls + between).Some?
    ensures var read, now := After(calls).value, After(calls + between).value;
      now.completed <= CompletionWritten(now, read, step, persona).completed <==>
      forall s: OnboardingStep :: s in now.completed && s !in read.completed ==> s == step
  {
    ProgressIsKept(calls, between);
    SkipMarksNothing(After(calls), step, persona);
  }

  /** Call i was an accepted step-back in a wizard already completed. */
  predicate StepsBackCompleted(calls: seq<Call>, i: int) {
    0 <= i < |calls| && calls[i].StepBack? && CanStepBack(After(calls[..i]), calls[i].to)
    && After(calls[..i]).value.status == COMPLETED
  }

  lemma CompletedBefore(calls: seq<Call>, i: nat)
    requires i <= |calls| && After(calls[..i]).Some? && After(calls[..i]).value.status == COMPLETED
    ensures After(calls).Some? && After(calls).value.status == COMPLETED
  {
    assert calls == calls[..i] + calls[i..];
    ProgressIsKept(calls[..i], calls[i..]);
  }

  /** A completed wizard can still be stepped back; it stands at DONE if and only if that has not happened. */
  lemma {:induction false} AtDoneIff(calls: seq<Call>)
    requires After(calls).Some? && After(calls).value.status == COMPLETED
    ensures After(calls).value.currentStep == DONE <==> forall i :: !StepsBackCompleted(calls, i)
    decreases |calls|
  {
    var n := |calls| - 1;
    var before := calls[..n];
    forall i | 0 <= i < n ensures StepsBackCompleted(before, i) == StepsBackCompleted(calls, i) {
      assert before[..i] == calls[..i];
    }
    if After(before).Some? && After(before).value.status == COMPLETED {
      AtDoneIff(before);
      if !(forall i :: !StepsBackCompleted(before, i)) {
        var i :| StepsBackCompleted(before, i);
        assert StepsBackCompleted(calls, i);
      } else {
        assert calls[n].StepBack? && CanStepBack(After(before), calls[n].to) ==> StepsBackCompleted(calls, n);
      }
    } else {
      forall i ensures !StepsBackCompleted(calls, i) {
        if 0 <= i <= n && StepsBackCompleted(calls, i) { CompletedBefore(before, i); }
      }
    }
  }

  /** A completed wizard can still be stepped back, and then it never stands at DONE again. */
  lemma {:induction false} SteppedBackAfterCompletion(calls: seq<Call>, more: seq<Call>)
    requires After(calls).Some? && After(calls).value.status == COMPLETED && After(calls).value.currentStep != DONE
    ensures After(calls + more).Some?
    ensures After(calls + more).value.status == COMPLETED && After(calls + more).value.currentStep != DONE
    decreases |more|
  {
    ProgressIsKept(calls, more);
    var all := calls + more;
    if more == [] {
      assert all == calls;
    } else {
      assert all[..|all| - 1] == calls + more[..|more| - 1];
      ProgressIsKept(calls, more[..|more| - 1]);
      SteppedBackAfterCompletion(calls, more[..|more| - 1]);
    }
  }
}
