/**
 * What the history of transactions says about blobs and documents: which content is served (a blob
 * is stored once, keeps its content, and its first scan decides), and when a document goes.
 */
module StorageHistory {
  import opened Prelude
  import opened StorageModel
  import opened StorageChain

  const EMPTY_TABLES := Db(map[], map[], map[], map[])

  /** The tables after the first n transactions. */
  ghost function TablesAt(steps: seq<Step>, n: nat): Db
    requires n <= |steps|
  {
    if n == 0 then EMPTY_TABLES else Apply(TablesAt(steps, n - 1), steps[n - 1])
  }

  /** Transaction c stores blob b, with the content hash of its upload. */
  ghost predicate StoredAt(steps: seq<Step>, c: nat, b: BlobId) {
    && c < |steps| && (steps[c].DoConfirm? || steps[c].DoNewVersion?) && steps[c].ids.blob == b
    && b !in TablesAt(steps, c).blobs && b in TablesAt(steps, c + 1).blobs
  }

  predicate IsScan(step: Step, b: BlobId) { step.DoScan? && step.blob == b }

  /** The verdict of the first scan of b among transactions from..n. */
  function FirstVerdict(steps: seq<Step>, from: nat, n: nat, b: BlobId): Option<bool>
    requires from <= n <= |steps|
    decreases n - from
  {
    if from == n then None
    else if IsScan(steps[from], b) then Some(steps[from].isSafe)
    else FirstVerdict(steps, from + 1, n, b)
  }

  lemma {:induction false} FirstVerdictStep(steps: seq<Step>, from: nat, n: nat, b: BlobId)
    requires from <= n < |steps|
    ensures FirstVerdict(steps, from, n + 1, b) ==
            if FirstVerdict(steps, from, n, b).Some? then FirstVerdict(steps, from, n, b)
            else if IsScan(steps[n], b) then Some(steps[n].isSafe) else None
    decreases n - from
  {
    if from < n && !IsScan(steps[from], b) { FirstVerdictStep(steps, from + 1, n, b); }
  }

  /** The status a blob must have: served at once in development, otherwise only by its first verdict. */
  function StatusFor(dev: bool, verdict: Option<bool>): BlobStatus {
    if dev then SAFE
    else match verdict
      case None => QUARANTINED
      case Some(isSafe) => if isSafe then SAFE else REJECTED
  }

  /** One transaction stores at most the blob of its own upload, and only a scan touches a stored one. */
  lemma BlobAfterStep(db: Db, step: Step, b: BlobId)
    requires Inv(db)
    ensures b in db.blobs ==>
      b in Apply(db, step).blobs
      && Apply(db, step).blobs[b] ==
         if IsScan(step, b) && db.blobs[b].status == QUARANTINED
         then Blob(db.blobs[b].sha, if step.isSafe then SAFE else REJECTED) else db.blobs[b]
    ensures b !in db.blobs && b in Apply(db, step).blobs ==>
      (step.DoConfirm? || step.DoNewVersion?) && step.ids.blob == b
      && Apply(db, step).blobs[b] == Blob(step.sha, if step.dev then SAFE else QUARANTINED)
  {
    hide Inv, LastNumber, PlaceholderTaken, Demoted, Purgeable;
    if (step.DoConfirm? || step.DoNewVersion?) && step.ids.blob !in db.blobs {
      WithBlobKeeps(db, step.sha, step.ids.blob, step.dev);
    }
  }

  lemma {:induction false} TablesKeepInv(steps: seq<Step>, n: nat)
    requires n <= |steps|
    ensures Inv(TablesAt(steps, n))
    decreases n
  {
    if n > 0 {
      TablesKeepInv(steps, n - 1);
      StepKeepsInv(TablesAt(steps, n - 1), steps[n - 1]);
    }
  }

  /**
   * Over any run from empty tables a stored blob goes back to one upload, has its content, and has
   * the status its first scan since then gave it: without a scan it is quarantined, except that
   * development stores it as safe.
   */
  lemma {:induction false} StatusIsFirstVerdict(steps: seq<Step>, n: nat, b: BlobId) returns (c: nat)
    requires n <= |steps| && b in TablesAt(steps, n).blobs
    ensures c < n && StoredAt(steps, c, b)
    ensures TablesAt(steps, n).blobs[b]
            == Blob(steps[c].sha, StatusFor(steps[c].dev, FirstVerdict(steps, c + 1, n, b)))
    decreases n
  {
    hide Apply, Inv;
    TablesKeepInv(steps, n - 1);
    BlobAfterStep(TablesAt(steps, n - 1), steps[n - 1], b);
    if b in TablesAt(steps, n - 1).blobs {
      c := StatusIsFirstVerdict(steps, n - 1, b);
      FirstVerdictStep(steps, c + 1, n - 1, b);
    } else {
      c := n - 1;
    }
  }

  /**
   * In production (no upload of the run is a development one) a blob is safe if and only if it has
   * been scanned since it was stored and the first of these scans said so.
   */
  lemma SafeIffFirstScanSaysSo(steps: seq<Step>, n: nat, b: BlobId, c: nat)
    requires n <= |steps| && forall s :: s in steps && (s.DoConfirm? || s.DoNewVersion?) ==> !s.dev
    requires c < n && StoredAt(steps, c, b)
    ensures b in TablesAt(steps, n).blobs
    ensures TablesAt(steps, n).blobs[b].status == SAFE <==> FirstVerdict(steps, c + 1, n, b) == Some(true)
  {
    hide Apply;
    StaysStored(steps, c + 1, n, b);
    var c' := StatusIsFirstVerdict(steps, n, b);
    NotStoredYet(steps, Min(c, c' + 1), c, b);
    NotStoredYet(steps, Min(c', c + 1), c', b);
    assert steps[c] in steps;
  }

  lemma {:induction false} StaysStored(steps: seq<Step>, m: nat, n: nat, b: BlobId)
    requires m <= n <= |steps| && b in TablesAt(steps, m).blobs
    ensures b in TablesAt(steps, n).blobs
    decreases n
  {
    hide Apply, Inv;
    if m < n {
      StaysStored(steps, m, n - 1, b);
      TablesKeepInv(steps, n - 1);
      BlobAfterStep(TablesAt(steps, n - 1), steps[n - 1], b);
    }
  }

  lemma {:induction false} NotStoredYet(steps: seq<Step>, m: nat, n: nat, b: BlobId)
    requires m <= n <= |steps| && b !in TablesAt(steps, n).blobs
    ensures b !in TablesAt(steps, m).blobs
    decreases n - m
  {
    hide Apply, Inv;
    if m < n {
      NotStoredYet(steps, m + 1, n, b);
      TablesKeepInv(steps, m);
      BlobAfterStep(TablesAt(steps, m), steps[m], b);
    }
  }

  lemma {:induction false} TablesAreApplied(db: Db, steps: seq<Step>, n: nat, rest: seq<Step>)
    requires n <= |steps| && db == TablesAt(steps, n) && rest == steps[n..]
    ensures ApplyAll(db, rest) == TablesAt(steps, |steps|)
    decreases |rest|
  {
    if rest != [] {
      assert rest[1..] == steps[n + 1..];
      TablesAreApplied(Apply(db, rest[0]), steps, n + 1, rest[1..]);
    }
  }

  /**
   * What `download` serves of a document, its current version's blob if that is safe, is in
   * production always content some upload brought and the first scan after it found safe.
   */
  lemma ServedWasScanned(steps: seq<Step>, d: DocId, v: VersionId) returns (c: nat)
    requires forall s :: s in steps && (s.DoConfirm? || s.DoNewVersion?) ==> !s.dev
    requires var db := ApplyAll(EMPTY_TABLES, steps);
             IsHead(db, d, v) && db.blobs[db.versions[v].blob].status == SAFE
    ensures var db := ApplyAll(EMPTY_TABLES, steps); var b := db.versions[v].blob;
            StoredAt(steps, c, b) && FirstVerdict(steps, c + 1, |steps|, b) == Some(true)
  {
    hide Apply;
    assert steps[0..] == steps;
    TablesAreApplied(EMPTY_TABLES, steps, 0, steps);
    var b := ApplyAll(EMPTY_TABLES, steps).versions[v].blob;
    c := StatusIsFirstVerdict(steps, |steps|, b);
    assert steps[c] in steps;
  }

  // ----- documents -----

  const THIRTY_DAYS_MS: int := 2_592_000_000

  /** What one transaction can do to a document row. */
  lemma DocAfterStep(db: Db, step: Step, d: DocId)
    ensures d in db.docs && d in Apply(db, step).docs ==>
      Apply(db, step).docs[d] ==
      if step.DoSoftDelete? && step.doc == d && db.docs[d].status != DELETED then Doc(DELETED, step.now) else db.docs[d]
    ensures d in db.docs ==>
      (d !in Apply(db, step).docs <==>
         step.DoPurge? && db.docs[d].status == DELETED && db.docs[d].updatedAt < step.now - THIRTY_DAYS_MS)
    ensures d !in db.docs && d in Apply(db, step).docs ==>
      step.DoConfirm? && step.ids.doc == d && Apply(db, step).docs[d] == Doc(ACTIVE, step.now)
  {
    hide LastNumber, PlaceholderTaken, BlobOf;
  }

  /** Transaction k deletes document d, which is there and not deleted. */
  ghost predicate DeletedAt(steps: seq<Step>, k: nat, d: DocId) {
    && k < |steps| && steps[k].DoSoftDelete? && steps[k].doc == d
    && d in TablesAt(steps, k).docs && TablesAt(steps, k).docs[d].status != DELETED
  }

  ghost predicate StaysFrom(steps: seq<Step>, k: nat, n: nat, d: DocId)
    requires n <= |steps|
  {
    forall m: nat :: k <= m <= n ==> d in TablesAt(steps, m).docs
  }

  lemma {:induction false} DeletionRemembered(steps: seq<Step>, n: nat, d: DocId) returns (k: nat)
    requires n <= |steps| && d in TablesAt(steps, n).docs && TablesAt(steps, n).docs[d].status == DELETED
    ensures k < n && DeletedAt(steps, k, d) && StaysFrom(steps, k, n, d)
    ensures TablesAt(steps, n).docs[d].updatedAt == steps[k].now
    decreases n
  {
    hide Apply;
    DocAfterStep(TablesAt(steps, n - 1), steps[n - 1], d);
    k := n - 1;
    if !DeletedAt(steps, n - 1, d) { k := DeletionRemembered(steps, n - 1, d); }
  }

  lemma {:induction false} DeletionStays(steps: seq<Step>, k: nat, n: nat, d: DocId)
    requires k < n <= |steps| && DeletedAt(steps, k, d) && StaysFrom(steps, k, n, d)
    ensures TablesAt(steps, n).docs[d] == Doc(DELETED, steps[k].now)
    decreases n
  {
    hide Apply;
    DocAfterStep(TablesAt(steps, n - 1), steps[n - 1], d);
    if n > k + 1 { DeletionStays(steps, k, n - 1, d); }
  }

  /**
   * Over any run a document disappears exactly by a collection more than thirty days after the
   * deletion that it has been lying deleted since.
   */
  lemma GoneIffDeletedLongAgo(steps: seq<Step>, n: nat, d: DocId)
    requires n < |steps| && d in TablesAt(steps, n).docs
    ensures d !in TablesAt(steps, n + 1).docs <==>
      steps[n].DoPurge? && exists k: nat ::
        k < n && DeletedAt(steps, k, d) && StaysFrom(steps, k, n, d) && steps[k].now < steps[n].now - THIRTY_DAYS_MS
  {
    hide Apply, StaysFrom;
    DocAfterStep(TablesAt(steps, n), steps[n], d);
    if d !in TablesAt(steps, n + 1).docs {
      var k := DeletionRemembered(steps, n, d);
    } else if exists k: nat :: k < n && DeletedAt(steps, k, d) && StaysFrom(steps, k, n, d) {
      forall k: nat | k < n && DeletedAt(steps, k, d) && StaysFrom(steps, k, n, d)
        ensures TablesAt(steps, n).docs[d] == Doc(DELETED, steps[k].now)
      {
        DeletionStays(steps, k, n, d);
      }
    }
  }
}
