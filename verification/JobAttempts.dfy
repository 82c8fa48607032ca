/**
 * What becomes of a run in the worker's hands, read off the history of the system: attempts are
 * deliveries, and the status is decided by the last of them.
 */
module JobAttempts {
  import opened Prelude
  import opened JobQueue
  import opened JobProtocol

  const EMPTY_WORLD := World(EMPTY, 0, map[])

  /** The system after the first n actions. */
  function WorldAt(actions: seq<Action>, n: nat): World
    requires n <= |actions|
  {
    if n == 0 then EMPTY_WORLD else Apply(WorldAt(actions, n - 1), actions[n - 1])
  }

  /** What happened to a run last: nothing since it was queued, a delivery, or an outcome. */
  datatype Stage = Waiting | Working | Done(ok: bool)

  /** How often the run's entry has been delivered since the run was last queued, and what happened last. */
  function Story(actions: seq<Action>, n: nat, id: RunId): (nat, Stage)
    requires n <= |actions|
  {
    if n == 0 then (0, Waiting)
    else
      var (deliveries, stage) := Story(actions, n - 1, id);
      var a := actions[n - 1];
      if !Enabled(WorldAt(actions, n - 1), a) then (deliveries, stage)
      else if a == Start(id) then (deliveries + 1, Working)
      else if a.Finish? && a.id == id then (deliveries, Done(a.ok))
      else if a.Retry? && a.id == id then (0, Waiting)
      else (deliveries, stage)
  }

  /** The status and the attempts a run must show. */
  predicate Shows(r: JobRun, deliveries: nat, stage: Stage) {
    && r.attempts == deliveries
    && match stage
       case Waiting => r.status == QUEUED && deliveries == 0
       case Working => r.status == RUNNING && deliveries >= 1
       case Done(ok) =>
         && deliveries >= 1
         && (ok ==> r.status == SUCCESS)
         && (!ok ==> if deliveries < r.maxAttempts then r.status == RETRYING else r.status == FAILED)
  }

  ghost predicate Told(w: World, id: RunId, story: (nat, Stage)) {
    && (id in w.s.runs ==> Shows(w.s.runs[id], story.0, story.1))
    && (id !in w.s.runs ==> story == (0, Waiting))
    && (id in w.s.inHand ==> story.1 == Working)
  }

  lemma {:induction false} SoundAt(actions: seq<Action>, n: nat)
    requires n <= |actions|
    ensures Sound(WorldAt(actions, n))
    decreases n
  {
    if n > 0 {
      SoundAt(actions, n - 1);
      StepKeepsSound(WorldAt(actions, n - 1), actions[n - 1]);
    }
  }

  /** What one action does to a run row. */
  function RowAfter(w: World, a: Action, id: RunId, r: JobRun): JobRun {
    if !Enabled(w, a) then r
    else if a == Start(id) then r.(status := RUNNING, attempts := r.attempts + 1)
    else if a.Finish? && a.id == id then
      r.(status := if a.ok then SUCCESS else if r.attempts < r.maxAttempts then RETRYING else FAILED)
    else if a.Retry? && a.id == id then r.(status := QUEUED, attempts := 0)
    else r
  }

  lemma RowAfterStep(w: World, a: Action, id: RunId)
    requires Sound(w)
    ensures id in w.s.runs ==> id in Apply(w, a).s.runs && Apply(w, a).s.runs[id] == RowAfter(w, a, id, w.s.runs[id])
    ensures id !in w.s.runs && id in Apply(w, a).s.runs ==>
      Apply(w, a).s.runs[id].status == QUEUED && Apply(w, a).s.runs[id].attempts == 0
    ensures id in Apply(w, a).s.inHand ==>
      if Enabled(w, a) && a == Start(id) then true
      else id in w.s.inHand && !(Enabled(w, a) && a.Finish? && a.id == id)
  {
  }

  /**
   * In every reachable state: a run's attempts are the deliveries of its entry since it was last
   * queued; it is QUEUED before the first, RUNNING since the last one, and when that has ended
   * SUCCESS, or after a failure FAILED once the deliveries have reached the limit and RETRYING before.
   */
  lemma {:induction false} StatusFollowsDeliveries(actions: seq<Action>, n: nat, id: RunId)
    requires n <= |actions|
    ensures Told(WorldAt(actions, n), id, Story(actions, n, id))
    decreases n
  {
    if n > 0 {
      hide Apply, Sound;
      StatusFollowsDeliveries(actions, n - 1, id);
      SoundAt(actions, n - 1);
      RowAfterStep(WorldAt(actions, n - 1), actions[n - 1], id);
    }
  }

  // ----- no run fails without a redelivery -----

  /** Delivered at most once so far, and not yet while its entry waits. */
  predicate AtMostOnce(s: State, id: RunId) {
    && (id in s.runs ==> s.runs[id].attempts <= 1 && s.runs[id].maxAttempts >= 2 && s.runs[id].status != FAILED)
    && (id in s.pending ==> id !in s.inHand && id in s.runs && s.runs[id].attempts == 0)
  }

  lemma {:induction false} OneDelivery(actions: seq<Action>, n: nat, id: RunId)
    requires n <= |actions| && forall a :: a in actions ==> !a.Stall?
    ensures AtMostOnce(WorldAt(actions, n).s, id)
    decreases n
  {
    if n > 0 {
      hide Sound, AtMostOnce, Apply;
      OneDelivery(actions, n - 1, id);
      SoundAt(actions, n - 1);
      StatusFollowsDeliveries(actions, n - 1, id);
      assert actions[n - 1] in actions;
      OneDeliveryStep(WorldAt(actions, n - 1), actions[n - 1], id);
    } else {
      assert AtMostOnce(EMPTY, id);
    }
  }

  lemma OneDeliveryStep(w: World, a: Action, id: RunId)
    requires Sound(w) && !a.Stall? && AtMostOnce(w.s, id)
    requires id in w.s.runs && w.s.runs[id].status == QUEUED ==> w.s.runs[id].attempts == 0
    ensures AtMostOnce(Apply(w, a).s, id)
  {
  }

  /**
   * The queue delivers an entry once. So unless a worker dies over an entry and it is delivered again,
   * no run is ever FAILED: a failure leaves it in RETRYING, and an administrator's retry does nothing.
   */
  lemma NeverFailed(actions: seq<Action>, n: nat, id: RunId)
    requires n <= |actions| && forall a :: a in actions ==> !a.Stall?
    ensures id in WorldAt(actions, n).s.runs ==> WorldAt(actions, n).s.runs[id].status != FAILED
    ensures id in WorldAt(actions, n).s.runs && Story(actions, n, id).1 == Done(false) ==>
      WorldAt(actions, n).s.runs[id].status == RETRYING
    ensures forall taken :: Retried(WorldAt(actions, n).s, id, taken) == WorldAt(actions, n).s
  {
    hide Apply;
    OneDelivery(actions, n, id);
    StatusFollowsDeliveries(actions, n, id);
  }

  /** The condition is needed: a run with two attempts whose worker dies once is FAILED by a second failure. */
  lemma RedeliveryCanFail(w: World, id: RunId)
    requires id in w.s.pending && id in w.s.runs && w.s.runs[id].attempts == 0 && w.s.runs[id].maxAttempts == 2
    ensures var w2 := Apply(Apply(w, Start(id)), Stall(id));
            var w4 := Apply(Apply(w2, Start(id)), Finish(id, false));
            id in w2.s.pending && id in w4.s.runs && w4.s.runs[id].status == FAILED
  {
    var w1 := Apply(w, Start(id));
    assert id in w1.s.inHand && w1.s.runs[id].attempts == 1;
    var w2 := Apply(w1, Stall(id));
    assert w2.s.runs == w1.s.runs && id in w2.s.pending;
    var w3 := Apply(w2, Start(id));
    assert id in w3.s.inHand && w3.s.runs[id].attempts == 2;
  }
}
