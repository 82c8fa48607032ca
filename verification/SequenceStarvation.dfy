/**
 * Parked runs stay due and are fetched again by every tick. When enough of them are due first,
 * they fill every batch and no other run is ever processed.
 */
module SequenceStarvation {
  import opened Prelude
  import opened SequenceModel
  import opened SequenceInvariant
  import opened SequenceSerial
  import opened SequenceDrain

  ghost function StuckRuns(db: Db): set<RunId> {
    set id | id in db.runs && Stuck(db, id)
  }

  ghost function EarlierStuck(db: Db, q: RunId): set<RunId> {
    set id | id in db.runs && Stuck(db, id) && DueTime(db, id) < DueTime(db, q)
  }

  /** Before every due run that could be processed, a whole batch of parked ones is due. */
  ghost predicate Crowded(db: Db) {
    forall q :: IsDue(db, q) && !Stuck(db, q) ==> |EarlierStuck(db, q)| >= BATCH
  }

  ghost predicate AllStuck(db: Db, batch: seq<RunId>) {
    forall id :: id in batch ==> Stuck(db, id)
  }

  // ----- which batches are possible -----

  lemma {:induction false} SubsetOfSeq(s: seq<RunId>, ids: set<RunId>)
    requires forall id :: id in ids ==> id in s
    ensures |ids| <= |s|
    decreases |s|
  {
    if s != [] {
      SubsetOfSeq(s[1..], ids - {s[0]});
      if s[0] in ids { assert ids == ids - {s[0]} + {s[0]}; } else { assert ids == ids - {s[0]}; }
    }
  }

  lemma SubsetSize(a: set<RunId>, b: set<RunId>)
    requires a <= b
    ensures |a| <= |b|
  {
    assert b == a + (b - a);
  }

  /** Before a run that was fetched fewer than a whole batch can be due. */
  lemma FetchedHasRoom(db: Db, batch: seq<RunId>, k: nat)
    requires IsDueBatch(db, batch) && k < |batch|
    ensures |EarlierStuck(db, batch[k])| < BATCH
  {
    var ids := EarlierStuck(db, batch[k]) + {batch[k]};
    assert forall id :: IsDue(db, id) && id !in batch ==> DueTime(db, batch[k]) <= DueTime(db, id);
    assert forall id :: id in ids ==> id in batch;
    SubsetOfSeq(batch, ids);
    assert batch[k] !in EarlierStuck(db, batch[k]);
  }

  lemma CrowdedBatch(db: Db, batch: seq<RunId>)
    requires Crowded(db) && IsDueBatch(db, batch)
    ensures AllStuck(db, batch)
  {
    hide Stuck;
    forall k | 0 <= k < |batch| ensures Stuck(db, batch[k]) {
      FetchedHasRoom(db, batch, k);
      assert batch[k] in batch;
    }
  }

  /** The processable run that is due first, with everything due before it. */
  lemma FirstFree(db: Db) returns (q: RunId)
    requires !Crowded(db)
    ensures IsDue(db, q) && !Stuck(db, q) && |EarlierStuck(db, q)| < BATCH
    ensures forall id :: IsDue(db, id) && DueTime(db, id) < DueTime(db, q) ==> id in EarlierStuck(db, q)
  {
    var some :| IsDue(db, some) && !Stuck(db, some) && |EarlierStuck(db, some)| < BATCH;
    var free := set id | id in Due(db) && !Stuck(db, id);
    assert some in free;
    q := EarliestExists(db, free);
    SubsetSize(EarlierStuck(db, q), EarlierStuck(db, some));
    forall id | IsDue(db, id) && DueTime(db, id) < DueTime(db, q) ensures id in EarlierStuck(db, q) {
      assert id !in free;
    }
  }

  /** Everything due before q, then q, then the earliest of the rest, is an answer to the tick's query. */
  lemma BatchAround(db: Db, q: RunId, before: set<RunId>, first: seq<RunId>, last: seq<RunId>)
    requires IsDue(db, q) && q !in before && |before| < BATCH
    requires forall id :: id in before <==> IsDue(db, id) && DueTime(db, id) < DueTime(db, q)
    requires |first| == |before| && Distinct(first) && forall id :: id in first <==> id in before
    requires forall i, j :: 0 <= i < j < |first| ==> DueTime(db, first[i]) <= DueTime(db, first[j])
    requires |last| == Min(BATCH, |Due(db)|) - |before| - 1 && Distinct(last)
    requires forall id :: id in last ==> id in Due(db) - before - {q}
    requires forall i, j :: 0 <= i < j < |last| ==> DueTime(db, last[i]) <= DueTime(db, last[j])
    requires forall id, k :: id in Due(db) - before - {q} && id !in last && 0 <= k < |last| ==>
        DueTime(db, last[k]) <= DueTime(db, id)
    ensures IsDueBatch(db, first + [q] + last)
  {
    var batch := first + [q] + last;
    forall k | 0 <= k < |batch| ensures IsDue(db, batch[k]) { PartOf(first, q, last, k); }
    forall i, j | 0 <= i < j < |batch| ensures batch[i] != batch[j] && DueTime(db, batch[i]) <= DueTime(db, batch[j]) {
      PartOf(first, q, last, i);
      PartOf(first, q, last, j);
    }
    forall id, k | IsDue(db, id) && id !in batch && 0 <= k < |batch| ensures DueTime(db, batch[k]) <= DueTime(db, id) {
      PartOf(first, q, last, k);
      assert id !in first && id != q && id !in last by { NotPart(first, q, last, id); }
    }
  }

  lemma PartOf(first: seq<RunId>, q: RunId, last: seq<RunId>, k: nat)
    requires k < |first + [q] + last|
    ensures var x := (first + [q] + last)[k];
            if k < |first| then x == first[k] && x in first
            else if k == |first| then x == q
            else x == last[k - |first| - 1] && x in last
  {
  }

  lemma NotPart(first: seq<RunId>, q: RunId, last: seq<RunId>, id: RunId)
    requires id !in first + [q] + last
    ensures id !in first && id != q && id !in last
  {
    assert q in [q];
  }

  lemma {:induction false} WholeSet(s: seq<RunId>, ids: set<RunId>)
    requires Distinct(s) && |s| == |ids| && forall id :: id in s ==> id in ids
    ensures forall id :: id in ids ==> id in s
    decreases |s|
  {
    if s == [] {
      assert ids == {};
    } else {
      assert s[0] in s && s[0] !in s[1..];
      forall id | id in s[1..] ensures id in ids - {s[0]} { assert id in s; }
      WholeSet(s[1..], ids - {s[0]});
      forall id | id in ids ensures id in s { assert id == s[0] || id in ids - {s[0]}; }
    }
  }

  lemma BeforeFacts(db: Db, q: RunId)
    requires IsDue(db, q)
    ensures EarlierStuck(db, q) + {q} <= Due(db) && q !in EarlierStuck(db, q)
    ensures forall id :: id in EarlierStuck(db, q) ==> IsDue(db, id) && DueTime(db, id) < DueTime(db, q)
  {
  }

  lemma NotAllStuck(db: Db, batch: seq<RunId>, k: nat)
    requires k < |batch| && !Stuck(db, batch[k])
    ensures !AllStuck(db, batch)
  {
    assert batch[k] in batch;
  }

  lemma FreeBatchExists(db: Db) returns (batch: seq<RunId>)
    requires !Crowded(db)
    ensures IsDueBatch(db, batch) && !AllStuck(db, batch)
  {
    hide IsDueBatch, Crowded, AllStuck, Due, EarlierStuck;
    var q := FirstFree(db);
    var before := EarlierStuck(db, q);
    BeforeFacts(db, q);
    SubsetSize(before + {q}, Due(db));
    var first := EarliestFew(db, before, |before|);
    WholeSet(first, before);
    var others := Due(db) - before - {q};
    assert |others| == |Due(db)| - |before| - 1 by { assert Due(db) == others + (before + {q}); }
    var last := EarliestFew(db, others, Min(BATCH, |Due(db)|) - |before| - 1);
    BatchAround(db, q, before, first, last);
    batch := first + [q] + last;
    NotAllStuck(db, batch, |first|);
  }

  /** A tick is bound to fetch parked runs only if and only if the due runs are crowded out. */
  lemma OnlyStuckFetchedIff(db: Db)
    ensures Crowded(db) <==> forall batch :: IsDueBatch(db, batch) ==> AllStuck(db, batch)
  {
    if Crowded(db) {
      forall batch | IsDueBatch(db, batch) ensures AllStuck(db, batch) { CrowdedBatch(db, batch); }
    } else {
      var batch := FreeBatchExists(db);
    }
  }

  // ----- what such ticks do -----

  ghost predicate AllLetThrough(ps: seq<Processing>) { forall i :: 0 <= i < |ps| ==> LetsThrough(ps[i]) }

  lemma {:induction false} StuckChangeNothing(db: Db, xs: seq<Snapshot>, ps: seq<Processing>)
    requires DbOk(db) && CurrentAll(db, xs) && |ps| == |xs| && AllLetThrough(ps)
    requires forall i :: 0 <= i < |xs| ==> Stuck(db, xs[i].runId)
    ensures ProcessAll(db, xs, ps) == db
    decreases |xs|
  {
    hide DbOk;
    if xs != [] {
      CurrentIsOk(db, xs[0]);
      ProcessResult(db, xs[0], ps[0]);
      StuckChangeNothing(db, xs[1..], ps[1..]);
    }
  }

  lemma CrowdedTick(db: Db, tick: Tick, db': Db)
    requires DbOk(db) && Crowded(db) && IsTick(db, tick.batch, tick.processings, db') && AllLetThrough(tick.processings)
    ensures db' == db
  {
    hide DbOk, Stuck;
    CrowdedBatch(db, tick.batch);
    BatchIsCurrent(db, tick.batch);
    var xs := SnapshotsOf(db, tick.batch);
    forall i | 0 <= i < |xs| ensures Stuck(db, xs[i].runId) { assert tick.batch[i] in tick.batch; }
    StuckChangeNothing(db, xs, tick.processings);
  }

  // ----- for good -----

  /** Crowded, with a whole batch of parked runs whatever else is due. */
  ghost predicate Starving(db: Db) { Crowded(db) && |StuckRuns(db)| >= BATCH }

  /** Runs that become due later are due after all of today's parked runs. */
  lemma StarvingLater(db: Db, ms: nat)
    requires Starving(db)
    ensures Starving(db.(now := db.now + ms))
  {
    var later := db.(now := db.now + ms);
    assert forall id :: Stuck(db, id) ==> Stuck(later, id);
    forall q | IsDue(later, q) && !Stuck(later, q) ensures |EarlierStuck(later, q)| >= BATCH {
      if IsDue(db, q) {
        SubsetSize(EarlierStuck(db, q), EarlierStuck(later, q));
      } else {
        SubsetSize(StuckRuns(db), EarlierStuck(later, q));
      }
    }
    SubsetSize(StuckRuns(db), StuckRuns(later));
  }

  /** Waiting and ticking in turn. */
  ghost predicate IsTimedRun(dbs: seq<Db>, waits: seq<nat>, ticks: seq<Tick>) {
    && |dbs| == |ticks| + 1 && |waits| == |ticks|
    && forall i :: 0 <= i < |ticks| ==>
         IsTick(dbs[i].(now := dbs[i].now + waits[i]), ticks[i].batch, ticks[i].processings, dbs[i + 1])
  }

  /**
   * Once starving, the worker does nothing for good: however long it waits and however often it
   * ticks, no run advances and no message is sent, although runs that nothing ails are due.
   */
  lemma {:induction false} StarvedForever(dbs: seq<Db>, waits: seq<nat>, ticks: seq<Tick>, n: nat)
    requires IsTimedRun(dbs, waits, ticks) && DbOk(dbs[0]) && Starving(dbs[0]) && n < |dbs|
    requires forall i :: 0 <= i < |ticks| ==> AllLetThrough(ticks[i].processings)
    ensures dbs[n] == dbs[0].(now := dbs[n].now) && DbOk(dbs[n]) && Starving(dbs[n])
    decreases n
  {
    hide DbOk, Crowded, IsTick, AllLetThrough, StuckRuns;
    if n > 0 {
      StarvedForever(dbs, waits, ticks, n - 1);
      var db := dbs[n - 1];
      var later := db.(now := db.now + waits[n - 1]);
      assert IsTick(later, ticks[n - 1].batch, ticks[n - 1].processings, dbs[(n - 1) + 1]);
      TimeKeepsDb(db, waits[n - 1]);
      StarvingLater(db, waits[n - 1]);
      CrowdedTick(later, ticks[n - 1], dbs[n]);
    }
  }
}
