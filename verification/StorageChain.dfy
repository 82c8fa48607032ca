/**
 * What every transaction keeps, in any interleaving: version chains, live blob references and
 * one blob per content. A stale check before a commit does not matter here, because each
 * commit is a step of its own.
 */
module StorageChain {
  import opened Prelude
  import opened StorageModel

  datatype Step =
    | DoPresignInsert(id: SessionId, sizeBytes: int, now: int)
    | DoPresignKey(id: SessionId)
    | DoSetSession(id: SessionId, status: UploadStatus)
    | DoConfirm(id: SessionId, sha: string, ids: FreshIds, now: int, dev: bool)
    | DoNewVersion(doc: DocId, id: SessionId, sha: string, ids: FreshIds, dev: bool)
    | DoScan(blob: BlobId, isSafe: bool)
    | DoSoftDelete(doc: DocId, now: int)
    | DoExpire(now: int)
    | DoPurge(now: int)

  ghost function Apply(db: Db, step: Step): Db {
    match step
    case DoPresignInsert(id, sizeBytes, now) => PresignInsert(db, id, sizeBytes, now)
    case DoPresignKey(id) => PresignKey(db, id)
    case DoSetSession(id, status) => SetSession(db, id, status)
    case DoConfirm(id, sha, ids, now, dev) => CommitConfirm(db, id, sha, ids, now, dev)
    case DoNewVersion(doc, id, sha, ids, dev) => CommitNewVersion(db, doc, id, sha, ids, dev)
    case DoScan(blob, isSafe) => Scan(db, blob, isSafe)
    case DoSoftDelete(doc, now) => SoftDelete(db, doc, now)
    case DoExpire(now) => ExpireSessions(db, now)
    case DoPurge(now) => Purge(db, now)
  }

  ghost function ApplyAll(db: Db, steps: seq<Step>): Db
    decreases |steps|
  {
    if steps == [] then db else ApplyAll(Apply(db, steps[0]), steps[1..])
  }

  // ----- chains -----

  /** A chain depends on the document's version rows only. */
  lemma ChainCarries(db: Db, db': Db, d: DocId)
    requires Chained(db, d)
    requires forall v :: v in db.versions && db.versions[v].doc == d ==>
        v in db'.versions && db'.versions[v] == db.versions[v]
    requires forall v :: v in db'.versions && db'.versions[v].doc == d ==> v in db.versions && db.versions[v].doc == d
    ensures Chained(db', d)
  {
    var n: nat :| n >= 1 && Chain(db, d, n);
    forall k: nat | 1 <= k <= n ensures HasVersion(db', d, k) {
      assert HasVersion(db, d, k);
      var v :| v in db.versions && db.versions[v].doc == d && db.versions[v].number == k;
      assert v in db'.versions && db'.versions[v].number == k;
    }
    assert Chain(db', d, n);
  }

  lemma ChainLength(db: Db, d: DocId, n: nat)
    requires n >= 1 && Chain(db, d, n)
    ensures LastNumber(db, d) == n
  {
    var last := LastNumber(db, d);
    assert HasVersion(db, d, n);
    if last > 0 { assert HasVersion(db, d, last); }
  }

  lemma WithBlobKeeps(db: Db, sha: string, id: BlobId, dev: bool)
    requires Inv(db) && id !in db.blobs
    ensures var (db1, blob) := WithBlob(db, sha, id, dev);
      && Inv(db1) && blob in db1.blobs && db1.blobs[blob].sha == sha
      && db1.docs == db.docs && db1.versions == db.versions && db1.sessions == db.sessions
      && forall b :: b in db.blobs ==> b in db1.blobs && db1.blobs[b] == db.blobs[b]
  {
    hide Chained;
    var (db1, blob) := WithBlob(db, sha, id, dev);
    forall d | d in db1.docs ensures Chained(db1, d) { ChainCarries(db, db1, d); }
  }

  lemma FirstChain(db: Db, d: DocId, v1: VersionId, blob: BlobId)
    requires v1 in db.versions && db.versions[v1] == Version(d, 1, blob, true)
    requires forall v :: v in db.versions && db.versions[v].doc == d ==> v == v1
    ensures Chained(db, d)
  {
    assert HasVersion(db, d, 1);
    assert Chain(db, d, 1);
  }

  lemma ConfirmKeepsInv(db: Db, id: SessionId, sha: string, ids: FreshIds, now: int, dev: bool)
    requires Inv(db)
    ensures Inv(CommitConfirm(db, id, sha, ids, now, dev))
  {
    hide Chained, BlobOf;
    var after := CommitConfirm(db, id, sha, ids, now, dev);
    if IdsFree(db, ids) && id in db.sessions {
      WithBlobKeeps(db, sha, ids.blob, dev);
      var (_, blob) := WithBlob(db, sha, ids.blob, dev);
      forall d | d in after.docs ensures Chained(after, d) {
        if d == ids.doc { FirstChain(after, d, ids.version, blob); } else { ChainCarries(db, after, d); }
      }
    }
  }

  /** Appending version n + 1 and demoting the others turns a chain of n into a chain of n + 1. */
  lemma AppendExtends(db: Db, d: DocId, n: nat, after: Db, v1: VersionId, blob: BlobId)
    requires n >= 1 && Chain(db, d, n) && v1 !in db.versions
    requires after.versions == Demoted(db.versions, d)[v1 := Version(d, n + 1, blob, true)]
    ensures Chain(after, d, n + 1)
  {
    forall k: nat | 1 <= k <= n + 1 ensures HasVersion(after, d, k) {
      if k == n + 1 {
        assert after.versions[v1].number == k;
      } else {
        NumberSurvives(db, d, k, after, v1);
      }
    }
  }

  lemma NumberSurvives(db: Db, d: DocId, k: nat, after: Db, v1: VersionId)
    requires HasVersion(db, d, k) && v1 !in db.versions && v1 in after.versions
    requires after.versions == Demoted(db.versions, d)[v1 := after.versions[v1]]
    ensures HasVersion(after, d, k)
  {
    var v :| v in db.versions && db.versions[v].doc == d && db.versions[v].number == k;
    assert v in after.versions && after.versions[v].doc == d && after.versions[v].number == k;
  }

  /** The step of `newVersion` after its blob is found: demote, then insert the next number. */
  ghost function Appended(db: Db, d: DocId, v1: VersionId, blob: BlobId): Db {
    db.(versions := Demoted(db.versions, d)[v1 := Version(d, LastNumber(db, d) + 1, blob, true)])
  }

  lemma AppendedChain(db: Db, d: DocId, v1: VersionId, blob: BlobId)
    requires Chained(db, d) && v1 !in db.versions
    ensures Chained(Appended(db, d, v1, blob), d)
  {
    hide Demoted;
    var n: nat :| n >= 1 && Chain(db, d, n);
    ChainLength(db, d, n);
    AppendExtends(db, d, n, Appended(db, d, v1, blob), v1, blob);
  }

  lemma AppendedKeepsInv(db: Db, d: DocId, v1: VersionId, blob: BlobId)
    requires Inv(db) && d in db.docs && v1 !in db.versions && blob in db.blobs
    ensures Inv(Appended(db, d, v1, blob))
  {
    hide Chained, LastNumber, IsLast;
    var after := Appended(db, d, v1, blob);
    forall e | e in after.docs ensures Chained(after, e) {
      if e == d { AppendedChain(db, d, v1, blob); } else { ChainCarries(db, after, e); }
    }
  }

  lemma SetSessionKeepsInv(db: Db, id: SessionId, status: UploadStatus)
    requires Inv(db)
    ensures Inv(SetSession(db, id, status))
  {
    var after := SetSession(db, id, status);
    forall d | d in after.docs ensures Chained(after, d) { ChainCarries(db, after, d); }
  }

  lemma NewVersionKeepsInv(db: Db, d: DocId, id: SessionId, sha: string, ids: FreshIds, dev: bool)
    requires Inv(db)
    ensures Inv(CommitNewVersion(db, d, id, sha, ids, dev))
  {
    hide Inv, SetSession, LastNumber, Demoted;
    if IdsFree(db, ids) && id in db.sessions && d in db.docs {
      WithBlobKeeps(db, sha, ids.blob, dev);
      var (db1, blob) := WithBlob(db, sha, ids.blob, dev);
      AppendedKeepsInv(db1, d, ids.version, blob);
      SetSessionKeepsInv(Appended(db1, d, ids.version, blob), id, CONFIRMED);
    }
  }

  lemma PurgeKeepsInv(db: Db, now: int)
    requires Inv(db)
    ensures Inv(Purge(db, now))
  {
    forall d | d in Purge(db, now).docs ensures Chained(Purge(db, now), d) { ChainCarries(db, Purge(db, now), d); }
  }

  /** Steps that leave version rows alone and drop neither document nor blob. */
  lemma OtherStepKeepsInv(db: Db, after: Db)
    requires Inv(db) && after.versions == db.versions && after.docs.Keys == db.docs.Keys
    requires after.blobs.Keys == db.blobs.Keys && forall b :: b in db.blobs ==> after.blobs[b].sha == db.blobs[b].sha
    ensures Inv(after)
  {
    forall d | d in after.docs ensures Chained(after, d) { ChainCarries(db, after, d); }
  }

  lemma StepKeepsInv(db: Db, step: Step)
    requires Inv(db)
    ensures Inv(Apply(db, step))
  {
    hide CommitConfirm, CommitNewVersion, Purge, Inv, PlaceholderTaken;
    match step
    case DoConfirm(id, sha, ids, now, dev) => ConfirmKeepsInv(db, id, sha, ids, now, dev);
    case DoNewVersion(doc, id, sha, ids, dev) => NewVersionKeepsInv(db, doc, id, sha, ids, dev);
    case DoPurge(now) => PurgeKeepsInv(db, now);
    case _ => OtherStepKeepsInv(db, Apply(db, step));
  }

  /** Any interleaving of any number of callers keeps the invariant. */
  lemma {:induction false} RunKeepsInv(db: Db, steps: seq<Step>)
    requires Inv(db)
    ensures Inv(ApplyAll(db, steps))
    decreases |steps|
  {
    if steps != [] {
      StepKeepsInv(db, steps[0]);
      RunKeepsInv(Apply(db, steps[0]), steps[1..]);
    }
  }

  /** The document's only current row, which carries its highest number and points at a stored blob. */
  ghost predicate IsHead(db: Db, d: DocId, v: VersionId) {
    && v in db.versions && db.versions[v].doc == d && db.versions[v].isCurrent
    && db.versions[v].number == LastNumber(db, d) && db.versions[v].blob in db.blobs
    && (forall w :: w in db.versions && db.versions[w].doc == d && w != v ==>
          !db.versions[w].isCurrent && db.versions[w].number < db.versions[v].number)
    && (forall k: nat :: 1 <= k <= db.versions[v].number ==> HasVersion(db, d, k))
  }

  lemma HeadExists(db: Db, d: DocId) returns (v: VersionId)
    requires Inv(db) && d in db.docs
    ensures IsHead(db, d, v)
  {
    var n: nat :| n >= 1 && Chain(db, d, n);
    ChainLength(db, d, n);
    assert HasVersion(db, d, n);
    v :| v in db.versions && db.versions[v].doc == d && db.versions[v].number == n;
  }

  /** From empty tables: every document's versions are 1..n, one is current, it is n, and its blob exists. */
  lemma ReachableChains(steps: seq<Step>, d: DocId)
    requires d in ApplyAll(Db(map[], map[], map[], map[]), steps).docs
    ensures exists v :: IsHead(ApplyAll(Db(map[], map[], map[], map[]), steps), d, v)
  {
    hide LastNumber, HasVersion;
    var empty := Db(map[], map[], map[], map[]);
    assert Inv(empty);
    RunKeepsInv(empty, steps);
    hide *;
    var v := HeadExists(ApplyAll(empty, steps), d);
  }

  // ----- history -----

  /** A stored version keeps its document, number and blob. */
  ghost predicate SameVersion(db: Db, db': Db, v: VersionId)
    requires v in db.versions
  {
    v in db'.versions && db'.versions[v].(isCurrent := true) == db.versions[v].(isCurrent := true)
  }

  lemma StepKeepsVersion(db: Db, step: Step, v: VersionId)
    requires Inv(db) && v in db.versions
    ensures SameVersion(db, Apply(db, step), v)
            || (step.DoPurge? && Purgeable(db, db.versions[v].doc, step.now) && v !in Apply(db, step).versions)
  {
    hide Inv, LastNumber, PlaceholderTaken;
    match step
    case DoConfirm(id, sha, ids, now, dev) =>
      if IdsFree(db, ids) { WithBlobKeeps(db, sha, ids.blob, dev); }
    case DoNewVersion(doc, id, sha, ids, dev) =>
      if IdsFree(db, ids) { WithBlobKeeps(db, sha, ids.blob, dev); }
    case _ =>
  }

  /** Without a purge in the run no version is ever lost, renumbered or pointed at other content. */
  lemma {:induction false} HistoryKept(db: Db, steps: seq<Step>, v: VersionId)
    requires Inv(db) && v in db.versions && forall s :: s in steps ==> !s.DoPurge?
    ensures SameVersion(db, ApplyAll(db, steps), v)
    decreases |steps|
  {
    if steps != [] {
      assert steps[0] in steps;
      StepKeepsInv(db, steps[0]);
      StepKeepsVersion(db, steps[0], v);
      HistoryKept(Apply(db, steps[0]), steps[1..], v);
    }
  }

  // ----- presign -----

  /**
   * A presign that dies between its two transactions leaves the placeholder key behind, and then
   * no session is ever created again, whatever else happens.
   */
  lemma {:induction false} LostPresignBlocksAll(db: Db, steps: seq<Step>, id: SessionId)
    requires id in db.sessions && !db.sessions[id].keyed
    requires forall s :: s in steps ==> s != DoPresignKey(id)
    ensures ApplyAll(db, steps).sessions.Keys == db.sessions.Keys && PlaceholderTaken(ApplyAll(db, steps))
    decreases |steps|
  {
    if steps == [] {
      assert id in db.sessions && !db.sessions[id].keyed;
    } else {
      assert steps[0] in steps;
      hide LastNumber, WithBlob, Demoted;
      var next := Apply(db, steps[0]);
      assert next.sessions.Keys == db.sessions.Keys && !next.sessions[id].keyed;
      forall s | s in steps[1..] ensures s != DoPresignKey(id) { assert s in steps; }
      LostPresignBlocksAll(next, steps[1..], id);
    }
  }
}
