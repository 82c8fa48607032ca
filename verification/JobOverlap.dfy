/**
 * Two enqueues of one key that overlap: both have passed their check before either wrote the
 * lock. Others may do anything in between.
 */
module JobOverlap {
  import opened Prelude
  import opened JobQueue
  import opened JobProtocol

  /** Every action of the two callers is one of the two writes that follow the check. */
  predicate OnlyTheirWrites(actions: seq<Action>, t: Tid, u: Tid) {
    forall a :: a in actions && ActorIs(a, t, u) ==> a.WriteLock? || a.InsertRun?
  }

  predicate ActorIs(a: Action, t: Tid, u: Tid) {
    (a.ReadLock? || a.BeginKeyless? || a.Check? || a.WriteLock? || a.InsertRun? || a.Push? || a.Crash?) && a.t in {t, u}
  }

  /** The caller has got as far as it can: its run is in, or its lock was refused. */
  predicate Over(w: World, t: Tid) { ThreadOf(w, t).Inserted? || ThreadOf(w, t).Idle? }

  /** On its way to a run that nothing can refuse. */
  ghost predicate GoesThrough(w: World, t: Tid, q: Request) {
    match ThreadOf(w, t)
    case Passed(q', found, _) => q' == q && (found.Some? || q.org.None?)
    case Locked(q', _, _) => q' == q
    case Inserted(q', _) => q' == q
    case _ => false
  }

  /** Refused already, or about to be. */
  ghost predicate IsShutOut(w: World, t: Tid, q: Request) {
    match ThreadOf(w, t)
    case Idle => true
    case Passed(q', found, _) => q' == q && IsKey(q.key) && found.None? && CreateRefused(w.s, KeyOf(q))
    case _ => false
  }

  /** Read no lock row, and there still is none. */
  ghost predicate IsFirst(w: World, t: Tid, q: Request) {
    var th := ThreadOf(w, t);
    th.Passed? && th.q == q && IsKey(q.key) && th.found.None? && q.org.Some? && !HasLock(w.s, KeyOf(q))
  }

  predicate TheirMove(a: Action, t: Tid) { !ActorIs(a, t, t) || a.WriteLock? || a.InsertRun? }

  lemma GoesThroughStays(w: World, a: Action, t: Tid, q: Request)
    requires GoesThrough(w, t, q) && TheirMove(a, t)
    ensures GoesThrough(Apply(w, a), t, q)
  {
  }

  lemma RowsStay(w: World, a: Action, k: LockKey)
    requires Sound(w) && HasLock(w.s, k)
    ensures HasLock(Apply(w, a).s, k)
  {
    StepKeepsSound(w, a);
    var l :| l in w.s.locks && w.s.locks[l].key == k;
    assert l in Apply(w, a).s.locks && Apply(w, a).s.locks[l].key == k;
  }

  lemma ShutOutStays(w: World, a: Action, t: Tid, q: Request)
    requires Sound(w) && IsShutOut(w, t, q) && TheirMove(a, t)
    ensures IsShutOut(Apply(w, a), t, q)
  {
    if ThreadOf(w, t).Passed? { RowsStay(w, a, KeyOf(q)); }
  }

  /** The first caller stays first until somebody creates the row; then it is through or shut out. */
  lemma FirstStep(w: World, a: Action, t: Tid, q: Request)
    requires Sound(w) && IsFirst(w, t, q) && TheirMove(a, t)
    ensures var w' := Apply(w, a);
      || IsFirst(w', t, q)
      || (a.WriteLock? && HasLock(w'.s, KeyOf(q)) && if a.t == t then GoesThrough(w', t, q) else IsShutOut(w', t, q))
  {
    if a.WriteLock? && a.t == t && Enabled(w, a) {
      assert a.newLock in Apply(w, a).s.locks && Apply(w, a).s.locks[a.newLock].key == KeyOf(q);
    }
  }

  /** How the two stand to each other: both first, or one of them shut out for good. */
  ghost predicate Exclusive(w: World, t: Tid, u: Tid, q: Request) {
    (IsFirst(w, t, q) && IsFirst(w, u, q)) || IsShutOut(w, t, q) || IsShutOut(w, u, q)
  }

  lemma ExclusiveStays(w: World, a: Action, t: Tid, u: Tid, q: Request)
    requires Sound(w) && Exclusive(w, t, u, q) && t != u && TheirMove(a, t) && TheirMove(a, u)
    ensures Exclusive(Apply(w, a), t, u, q)
  {
    hide Apply, IsFirst, IsShutOut, GoesThrough, Sound;
    if IsShutOut(w, t, q) {
      ShutOutStays(w, a, t, q);
    } else if IsShutOut(w, u, q) {
      ShutOutStays(w, a, u, q);
    } else {
      FirstStep(w, a, t, q);
      FirstStep(w, a, u, q);
      FirstExcludesRow(Apply(w, a), t, q);
      FirstExcludesRow(Apply(w, a), u, q);
    }
  }

  lemma FirstExcludesRow(w: World, t: Tid, q: Request)
    ensures IsFirst(w, t, q) ==> IsKey(q.key) && !HasLock(w.s, KeyOf(q))
  {
  }

  lemma {:induction false} BothGoThrough(w: World, actions: seq<Action>, t: Tid, u: Tid, q: Request)
    requires GoesThrough(w, t, q) && GoesThrough(w, u, q) && OnlyTheirWrites(actions, t, u)
    ensures GoesThrough(Exec(w, actions), t, q) && GoesThrough(Exec(w, actions), u, q)
    decreases |actions|
  {
    if actions != [] {
      assert actions[0] in actions && forall a :: a in actions[1..] ==> a in actions;
      GoesThroughStays(w, actions[0], t, q);
      GoesThroughStays(w, actions[0], u, q);
      BothGoThrough(Apply(w, actions[0]), actions[1..], t, u, q);
    }
  }

  lemma {:induction false} ExclusiveRun(w: World, actions: seq<Action>, t: Tid, u: Tid, q: Request)
    requires Sound(w) && Exclusive(w, t, u, q) && t != u && OnlyTheirWrites(actions, t, u)
    ensures Exclusive(Exec(w, actions), t, u, q)
    decreases |actions|
  {
    if actions != [] {
      assert actions[0] in actions && forall a :: a in actions[1..] ==> a in actions;
      StepKeepsSound(w, actions[0]);
      ExclusiveStays(w, actions[0], t, u, q);
      ExclusiveRun(Apply(w, actions[0]), actions[1..], t, u, q);
    }
  }

  /** The two callers have passed the check of one key. */
  ghost predicate BothPassed(w: World, t: Tid, u: Tid, q: Request) {
    && t != u && IsKey(q.key) && Sound(w)
    && ThreadOf(w, t).Passed? && ThreadOf(w, u).Passed? && ThreadOf(w, t).q == q && ThreadOf(w, u).q == q
  }

  /** Two queued runs of the job, one from each caller. */
  ghost predicate TwoRuns(w: World, t: Tid, u: Tid, q: Request) {
    var a, b := ThreadOf(w, t), ThreadOf(w, u);
    && a.Inserted? && b.Inserted? && a.id != b.id
    && a.id in w.s.runs && b.id in w.s.runs && Matches(w.s.runs[a.id], q) && Matches(w.s.runs[b.id], q)
  }

  lemma ExclusiveOrThrough(w: World, t: Tid, u: Tid, q: Request)
    requires BothPassed(w, t, u, q)
    ensures q.org.None? || (ThreadOf(w, t).found.Some? && ThreadOf(w, u).found.Some?)
            ==> GoesThrough(w, t, q) && GoesThrough(w, u, q)
    ensures !(q.org.None? || (ThreadOf(w, t).found.Some? && ThreadOf(w, u).found.Some?)) ==> Exclusive(w, t, u, q)
  {
    var a, b := ThreadOf(w, t), ThreadOf(w, u);
    assert ThreadOk(w.s, a) && ThreadOk(w.s, b);
    if a.found.Some? { assert HasLock(w.s, KeyOf(q)); }
    if b.found.Some? { assert HasLock(w.s, KeyOf(q)); }
  }

  /**
   * Two overlapping enqueues of one job that both passed the check leave two live runs if and only
   * if the lock row already existed when each of them read it, or the key has no organisation;
   * whatever order their writes take and whatever others do in between.
   */
  lemma OverlappingEnqueuesIff(w: World, actions: seq<Action>, t: Tid, u: Tid, q: Request)
    requires BothPassed(w, t, u, q) && OnlyTheirWrites(actions, t, u)
    requires Over(Exec(w, actions), t) && Over(Exec(w, actions), u)
    ensures TwoRuns(Exec(w, actions), t, u, q) <==>
            q.org.None? || (ThreadOf(w, t).found.Some? && ThreadOf(w, u).found.Some?)
  {
    ExclusiveOrThrough(w, t, u, q);
    var w' := Exec(w, actions);
    RunKeepsSound(w, actions);
    if q.org.None? || (ThreadOf(w, t).found.Some? && ThreadOf(w, u).found.Some?) {
      BothGoThrough(w, actions, t, u, q);
      assert ThreadOk(w'.s, w'.threads[t]) && ThreadOk(w'.s, w'.threads[u]);
    } else {
      ExclusiveRun(w, actions, t, u, q);
    }
  }

  // ----- the first use of an organisation's key -----

  /** Before the row exists both are first; afterwards exactly one is through. */
  ghost predicate OneWins(w: World, t: Tid, u: Tid, q: Request) {
    || (IsFirst(w, t, q) && IsFirst(w, u, q))
    || (GoesThrough(w, t, q) && IsShutOut(w, u, q))
    || (IsShutOut(w, t, q) && GoesThrough(w, u, q))
  }

  lemma OneWinsStays(w: World, a: Action, t: Tid, u: Tid, q: Request)
    requires Sound(w) && OneWins(w, t, u, q) && t != u && (a.WriteLock? || a.InsertRun?) && a.t in {t, u}
    ensures OneWins(Apply(w, a), t, u, q)
  {
    hide Apply, IsFirst, IsShutOut, GoesThrough, Sound;
    if IsFirst(w, t, q) && IsFirst(w, u, q) {
      FirstStep(w, a, t, q);
      FirstStep(w, a, u, q);
      FirstExcludesRow(Apply(w, a), t, q);
      FirstExcludesRow(Apply(w, a), u, q);
    } else if GoesThrough(w, t, q) && IsShutOut(w, u, q) {
      GoesThroughStays(w, a, t, q);
      ShutOutStays(w, a, u, q);
    } else {
      GoesThroughStays(w, a, u, q);
      ShutOutStays(w, a, t, q);
    }
  }

  lemma {:induction false} OneWinsRun(w: World, actions: seq<Action>, t: Tid, u: Tid, q: Request)
    requires Sound(w) && OneWins(w, t, u, q) && t != u
    requires forall a :: a in actions ==> (a.WriteLock? || a.InsertRun?) && a.t in {t, u}
    ensures OneWins(Exec(w, actions), t, u, q)
    decreases |actions|
  {
    if actions != [] {
      assert actions[0] in actions && forall a :: a in actions[1..] ==> a in actions;
      StepKeepsSound(w, actions[0]);
      OneWinsStays(w, actions[0], t, u, q);
      OneWinsRun(Apply(w, actions[0]), actions[1..], t, u, q);
    }
  }

  /**
   * When two callers find an organisation's key unused, exactly one of them ends with a run: the
   * other's insert into the lock table is refused.
   */
  lemma FirstUseHasOneWinner(w: World, actions: seq<Action>, t: Tid, u: Tid, q: Request)
    requires BothPassed(w, t, u, q) && q.org.Some? && !HasLock(w.s, KeyOf(q))
    requires forall a :: a in actions ==> (a.WriteLock? || a.InsertRun?) && a.t in {t, u}
    requires Over(Exec(w, actions), t) && Over(Exec(w, actions), u)
    ensures var w' := Exec(w, actions); ThreadOf(w', t).Inserted? <==> ThreadOf(w', u).Idle?
  {
    assert ThreadOk(w.s, ThreadOf(w, t)) && ThreadOk(w.s, ThreadOf(w, u));
    OneWinsRun(w, actions, t, u, q);
  }

  /** The unique index at work over whole runs: a lock row of an organisation's key is created at most once. */
  lemma CreatedOnce(w: World, t: Tid, lockedAt: int, newLock: LockId, between: seq<Action>, u: Tid, lockedAt': int,
                    newLock': LockId)
    requires Sound(w) && Enabled(w, WriteLock(t, lockedAt, newLock)) && ThreadOf(w, t).found.None?
    requires ThreadOf(w, t).q.org.Some?
    requires ThreadOf(Apply(w, WriteLock(t, lockedAt, newLock)), t).Locked?
    requires var w' := Exec(Apply(w, WriteLock(t, lockedAt, newLock)), between);
      && Enabled(w', WriteLock(u, lockedAt', newLock'))
      && ThreadOf(w', u).found.None? && ThreadOf(w', u).q.org.Some?
      && KeyOf(ThreadOf(w', u).q) == KeyOf(ThreadOf(w, t).q)
    ensures var w' := Exec(Apply(w, WriteLock(t, lockedAt, newLock)), between);
      && Apply(w', WriteLock(u, lockedAt', newLock')).s == w'.s
      && ThreadOf(Apply(w', WriteLock(u, lockedAt', newLock')), u).Idle?
  {
    var w1 := Apply(w, WriteLock(t, lockedAt, newLock));
    StepKeepsSound(w, WriteLock(t, lockedAt, newLock));
    RunKeepsSound(w1, between);
    assert newLock in w1.s.locks && w1.s.locks[newLock].key == KeyOf(ThreadOf(w, t).q);
    assert newLock in Exec(w1, between).s.locks;
  }
}
