/** What the job locks do not give: exact conditions, and inputs on the other side of them. */
module JobLimits {
  import opened Prelude
  import opened JobQueue
  import opened JobSpacing

  // ----- the next enqueue of a job -----

  /** From which moment the lock lets an enqueue of the key pass. */
  function FreeFrom(s: State, found: Option<LockId>, now: int): int {
    if found.Some? && found.value in s.locks then Max(now, s.locks[found.value].expiresAt) else now
  }

  predicate IsFuture(c: Clock, now: int) { now <= c.checkedAt <= c.lockedAt <= c.createdAt }

  /** Whenever the next enqueue of the job comes, live runs of one job stay apart. */
  ghost predicate SafeEnqueue(s: State, q: Request, found: Option<LockId>, newLock: LockId, id: RunId, now: int) {
    forall c, added :: IsFuture(c, now) ==> Spaced(Enqueued(s, found, newLock, id, q, c, added))
  }

  lemma CreatedSpaced(s: State, q: Request, found: Option<LockId>, newLock: LockId, id: RunId, now: int, c: Clock,
                      added: bool)
    requires Spaced(s) && TimesOk(s, now) && id !in s.runs && IsKey(q.key) && IsFuture(c, now)
    ensures Spaced(Created(s, found, newLock, id, q, c, added)) <==> IsQuiet(s, q, c.createdAt)
  {
    var after := Created(s, found, newLock, id, q, c, added);
    var r := NewRun(q, c.lockedAt, c.createdAt);
    assert after.runs == s.runs[id := r];
    assert Ttl(q.kind) > 0;
    if Spaced(after) {
      forall i | i in s.runs && Matches(s.runs[i], q) ensures s.runs[i].lockedAt + Ttl(q.kind) <= c.createdAt {
        assert BothLive(after.runs[i], after.runs[id]);
      }
    } else if IsQuiet(s, q, c.createdAt) {
      forall i | i in s.runs && BothLive(s.runs[i], r) ensures FarApart(s.runs[i], r) && FarApart(r, s.runs[i]) {
        assert Matches(s.runs[i], q);
      }
    }
  }

  /**
   * The next enqueue of a job keeps live runs apart, whenever it comes, if and only if by the moment
   * its lock frees the time of every live run of the job is up.
   */
  lemma NextEnqueueIff(s: State, q: Request, found: Option<LockId>, newLock: LockId, id: RunId, now: int)
    requires Spaced(s) && TimesOk(s, now) && IsKey(q.key) && IsLockFound(s, KeyOf(q), found)
    requires newLock !in s.locks && id !in s.runs
    ensures SafeEnqueue(s, q, found, newLock, id, now) <==> IsQuiet(s, q, FreeFrom(s, found, now))
  {
    hide Spaced, TimesOk;
    var free := FreeFrom(s, found, now);
    if SafeEnqueue(s, q, found, newLock, id, now) {
      var c := Clock(free, free, free);
      assert IsFuture(c, now) && Spaced(Enqueued(s, found, newLock, id, q, c, true));
      assert Enqueued(s, found, newLock, id, q, c, true) == Created(s, found, newLock, id, q, c, true);
      CreatedSpaced(s, q, found, newLock, id, now, c, true);
    } else {
      var c, added :| IsFuture(c, now) && !Spaced(Enqueued(s, found, newLock, id, q, c, added));
      CreatedSpaced(s, q, found, newLock, id, now, c, added);
      var i :| i in s.runs && Matches(s.runs[i], q) && s.runs[i].lockedAt + Ttl(q.kind) > c.createdAt;
      assert HasRun(s, q);
    }
  }

  /**
   * In terms of covering: the next enqueue is safe if and only if every live run of the job is
   * covered by the lock or has had its time. So an uncovered live run whose time is not up admits
   * an enqueue of its own job that breaks the spacing.
   */
  lemma SafeIffCovered(s: State, q: Request, found: Option<LockId>, newLock: LockId, id: RunId, now: int)
    requires Spaced(s) && TimesOk(s, now) && SingleRow(s) && IsKey(q.key) && IsLockFound(s, KeyOf(q), found)
    requires newLock !in s.locks && id !in s.runs
    ensures SafeEnqueue(s, q, found, newLock, id, now) <==>
            forall i :: i in s.runs && Matches(s.runs[i], q) ==>
              IsCovered(s, s.runs[i]) || s.runs[i].lockedAt + Ttl(q.kind) <= now
  {
    hide Spaced, TimesOk, SafeEnqueue, Ttl;
    NextEnqueueIff(s, q, found, newLock, id, now);
    forall i | i in s.runs && Matches(s.runs[i], q)
      ensures s.runs[i].lockedAt + Ttl(q.kind) <= FreeFrom(s, found, now) <==>
              IsCovered(s, s.runs[i]) || s.runs[i].lockedAt + Ttl(q.kind) <= now
    {
      assert KeyOf(q) == LockKey(s.runs[i].org, s.runs[i].key.value);
      if found.Some? { assert HasLock(s, KeyOf(q)); }
    }
  }

  /**
   * A run of another type created under the key moves the lock. From then on the next enqueue of
   * the first type keeps its live runs apart if and only if none of them needed the lock longer
   * than its new end.
   */
  lemma SharedKeyIff(s: State, q: Request, found: Option<LockId>, newLock: LockId, id: RunId, c: Clock, added: bool,
                     q2: Request, found2: Option<LockId>, newLock2: LockId, id2: RunId, now: int)
    requires SingleRow(s) && IsKey(q.key) && IsLockFound(s, KeyOf(q), found) && newLock !in s.locks && id !in s.runs
    requires IsKey(q2.key) && KeyOf(q2) == KeyOf(q) && q2.kind != q.kind
    requires var after := Created(s, found, newLock, id, q, c, added);
      && Spaced(after) && TimesOk(after, now) && IsLockFound(after, KeyOf(q2), found2)
      && newLock2 !in after.locks && id2 !in after.runs
    ensures SafeEnqueue(Created(s, found, newLock, id, q, c, added), q2, found2, newLock2, id2, now) <==>
            forall i :: i in s.runs && Matches(s.runs[i], q2) ==>
              s.runs[i].lockedAt + Ttl(q2.kind) <= Max(now, c.lockedAt + Ttl(q.kind))
  {
    hide Spaced, TimesOk, SafeEnqueue, Ttl;
    var after := Created(s, found, newLock, id, q, c, added);
    NextEnqueueIff(after, q2, found2, newLock2, id2, now);
    WrittenRows(s, KeyOf(q), found, newLock, c.lockedAt + Ttl(q.kind));
    LockEnd(s, q, found, newLock, id, c, added, found2, now);
    if forall i :: i in s.runs && Matches(s.runs[i], q2) ==>
         s.runs[i].lockedAt + Ttl(q2.kind) <= Max(now, c.lockedAt + Ttl(q.kind)) {
      forall i | i in after.runs && Matches(after.runs[i], q2)
        ensures after.runs[i].lockedAt + Ttl(q2.kind) <= FreeFrom(after, found2, now)
      {
        assert i in s.runs && after.runs[i] == s.runs[i];
      }
    } else {
      var i :| i in s.runs && Matches(s.runs[i], q2) &&
        s.runs[i].lockedAt + Ttl(q2.kind) > Max(now, c.lockedAt + Ttl(q.kind));
      assert i in after.runs && Matches(after.runs[i], q2);
    }
  }

  lemma LockEnd(s: State, q: Request, found: Option<LockId>, newLock: LockId, id: RunId, c: Clock, added: bool,
                found2: Option<LockId>, now: int)
    requires SingleRow(s) && IsKey(q.key) && IsLockFound(s, KeyOf(q), found) && newLock !in s.locks
    requires IsLockFound(Created(s, found, newLock, id, q, c, added), KeyOf(q), found2)
    ensures FreeFrom(Created(s, found, newLock, id, q, c, added), found2, now) == Max(now, c.lockedAt + Ttl(q.kind))
  {
    hide Ttl;
    var end := c.lockedAt + Ttl(q.kind);
    var after := Created(s, found, newLock, id, q, c, added);
    var row := if found.Some? then found.value else newLock;
    assert row in after.locks && after.locks[row] == Lock(KeyOf(q), end);
    assert forall l :: l in after.locks && after.locks[l].key == KeyOf(q) ==> l == row;
  }

  /** For example: two live runs of a 24-hour job a minute apart, with a one-minute job in between. */
  lemma SharedKeyBreaksSpacing()
    ensures var scan := Request(AV_SCAN_DOCUMENT, Some("o"), Some("k"));
            var tick := Request(SEQUENCE_TICK, Some("o"), Some("k"));
            var s1 := Enqueued(EMPTY, None, "l", "a", scan, Clock(0, 0, 0), true);
            var s2 := Enqueued(s1, Some("l"), "m", "b", tick, Clock(1, 1, 1), true);
            var s3 := Enqueued(s2, Some("l"), "m", "c", scan, Clock(60001, 60001, 60001), true);
            && IsLockFound(s1, KeyOf(tick), Some("l")) && IsLockFound(s2, KeyOf(scan), Some("l")) && !Spaced(s3)
  {
    var scan, tick := Request(AV_SCAN_DOCUMENT, Some("o"), Some("k")), Request(SEQUENCE_TICK, Some("o"), Some("k"));
    var s1 := Enqueued(EMPTY, None, "l", "a", scan, Clock(0, 0, 0), true);
    var s2 := Enqueued(s1, Some("l"), "m", "b", tick, Clock(1, 1, 1), true);
    var s3 := Enqueued(s2, Some("l"), "m", "c", scan, Clock(60001, 60001, 60001), true);
    assert s1.locks == map["l" := Lock(KeyOf(scan), DAY_MS)] && s2.locks["l"].expiresAt == 60001;
    assert BothLive(s3.runs["a"], s3.runs["c"]);
  }

  // ----- what a live run does give -----

  /** Until its TTL has passed, a covered live run answers every further enqueue of its job. */
  lemma YoungRunDeduplicates(s: State, now: int, first: RunId, q: Request, found: Option<LockId>, t: int)
    requires TablesOk(s, now) && IsKey(q.key) && IsLockFound(s, KeyOf(q), found)
    requires first in s.runs && Matches(s.runs[first], q) && t < s.runs[first].lockedAt + Ttl(q.kind)
    ensures Deduplicates(s, q, found, t)
  {
    assert IsCovered(s, s.runs[first]);
    assert LockKey(q.org, q.key.value) == KeyOf(q);
  }

  // ----- retry -----

  lemma RetryIsSafe(s: State, id: RunId, taken: bool)
    requires Spaced(s) && id in s.runs && s.runs[id].status == FAILED
    requires forall i :: i in s.runs && Live(s.runs[i]) && SameJob(s.runs[i], s.runs[id]) ==>
        FarApart(s.runs[i], s.runs[id])
    ensures Spaced(Retried(s, id, taken))
  {
    var runs := Retried(s, id, taken).runs;
    forall i, j | i in runs && j in runs && i != j && BothLive(runs[i], runs[j]) ensures FarApart(runs[i], runs[j]) {
      if i == id {
        assert FarApart(s.runs[j], s.runs[id]);
      } else if j == id {
        assert FarApart(s.runs[i], s.runs[id]);
      } else {
        assert BothLive(s.runs[i], s.runs[j]);
      }
    }
  }

  /** A retry keeps live runs apart exactly when no live run of the same job lies within the TTL. */
  lemma RetryKeepsIff(s: State, id: RunId, taken: bool)
    requires Spaced(s) && id in s.runs && s.runs[id].status == FAILED
    ensures Spaced(Retried(s, id, taken)) <==>
            forall i :: i in s.runs && Live(s.runs[i]) && SameJob(s.runs[i], s.runs[id]) ==>
              FarApart(s.runs[i], s.runs[id])
  {
    var runs := Retried(s, id, taken).runs;
    if Spaced(Retried(s, id, taken)) {
      forall i | i in s.runs && Live(s.runs[i]) && SameJob(s.runs[i], s.runs[id])
        ensures FarApart(s.runs[i], s.runs[id])
      {
        assert BothLive(runs[i], runs[id]);
      }
    } else if forall i :: i in s.runs && Live(s.runs[i]) && SameJob(s.runs[i], s.runs[id]) ==>
      FarApart(s.runs[i], s.runs[id]) {
      RetryIsSafe(s, id, taken);
    }
  }

  // ----- the answer after a failure -----

  /**
   * When a renewed run fails, an enqueue inside its TTL is answered with an older run: one created
   * before the failed one, whose own TTL was over when the failed one was enqueued.
   */
  lemma StaleAnswer(s: State, q: Request, found: Option<LockId>, newLock: LockId, id: RunId, c: Clock, later: int,
                    answer: RunId)
    requires TablesOk(s, c.checkedAt) && IsKey(q.key) && IsLockFound(s, KeyOf(q), found) && newLock !in s.locks
    requires id !in s.runs
    requires IsFuture(c, c.checkedAt) && later < c.lockedAt + Ttl(q.kind)
    requires HasRun(s, q) && (found.Some? ==> s.locks[found.value].expiresAt <= c.checkedAt)
    requires var failed := Finished(Started(Enqueued(s, found, newLock, id, q, c, true), id), id, false);
             IsLatest(failed, q, answer)
    ensures var failed := Finished(Started(Enqueued(s, found, newLock, id, q, c, true), id), id, false);
      && Deduplicates(failed, q, if found.Some? then found else Some(newLock), later)
      && id in failed.runs && !Live(failed.runs[id]) && answer != id
      && failed.runs[answer].createdAt <= failed.runs[id].createdAt
      && failed.runs[answer].lockedAt + Ttl(q.kind) <= c.checkedAt
  {
    hide Ttl, Spaced;
    var failed := Finished(Started(Enqueued(s, found, newLock, id, q, c, true), id), id, false);
    assert id !in s.inHand by { assert id in s.pending + s.inHand ==> id in s.runs; }
    assert failed.runs == s.runs[id := failed.runs[id]];
    var i :| i in s.runs && Matches(s.runs[i], q);
    assert Matches(failed.runs[i], q);
    assert IsCovered(s, s.runs[answer]) && LockKey(q.org, q.key.value) == KeyOf(q);
  }
}
