/**
 * Document storage of one organisation: upload sessions, content-addressed blobs, documents and
 * their version rows. A function here is one database transaction; timestamps are ms.
 */
module StorageModel {
  import opened Prelude

  type SessionId = string
  type BlobId = string
  type DocId = string
  type VersionId = string

  const PRESIGN_TTL_MS: int := 900 * 1000
  const RETENTION_MS: int := 30 * 24 * 60 * 60 * 1000

  datatype UploadStatus = PENDING | UPLOADED | CONFIRMED | ABORTED | EXPIRED
  datatype BlobStatus = QUARANTINED | SAFE | REJECTED
  datatype DocStatus = ACTIVE | ARCHIVED | DELETED

  /** `keyed` is false while `storageKey` still holds the placeholder written by the first half of presign. */
  datatype Session = Session(status: UploadStatus, expiresAt: int, sizeBytes: int, keyed: bool)
  datatype Blob = Blob(sha: string, status: BlobStatus)
  datatype Doc = Doc(status: DocStatus, updatedAt: int)
  datatype Version = Version(doc: DocId, number: nat, blob: BlobId, isCurrent: bool)

  datatype Db = Db(
    sessions: map<SessionId, Session>,
    blobs: map<BlobId, Blob>,
    docs: map<DocId, Doc>,
    versions: map<VersionId, Version>)

  /** What the object store says about an upload: its size if it is there, and whether its first bytes fit. */
  datatype Upload = Upload(size: Option<int>, signatureOk: bool)

  /** Primary keys a transaction would draw for the rows it may insert. */
  datatype FreshIds = FreshIds(blob: BlobId, doc: DocId, version: VersionId)

  datatype StorageError =
    | NOT_FOUND
    | VISIBILITY_NOT_SUPPORTED_YET
    | UPLOAD_EXPIRED
    | UPLOAD_ALREADY_CONFIRMED
    | UPLOAD_NOT_FOUND_IN_STORAGE
    | UPLOAD_SIZE_MISMATCH
    | FILE_SIGNATURE_MISMATCH
    | VALIDATION_ERROR
    | DOCUMENT_NOT_SAFE
    | ROLE_FORBIDDEN
    | CONSTRAINT_VIOLATION

  // ----- the invariant -----

  ghost predicate HasVersion(db: Db, d: DocId, k: nat) {
    exists v :: v in db.versions && db.versions[v].doc == d && db.versions[v].number == k
  }

  predicate SameNumber(a: Version, b: Version, d: DocId) { a.doc == d && b.doc == d && a.number == b.number }

  /** The document's rows are numbered 1..n, each number once, and exactly row n is current. */
  ghost predicate Chain(db: Db, d: DocId, n: nat) {
    && (forall k :: 1 <= k <= n ==> HasVersion(db, d, k))
    && (forall v :: v in db.versions && db.versions[v].doc == d ==>
          1 <= db.versions[v].number <= n && (db.versions[v].isCurrent <==> db.versions[v].number == n))
    && (forall v, w :: v in db.versions && w in db.versions && SameNumber(db.versions[v], db.versions[w], d) ==> v == w)
  }

  ghost predicate Chained(db: Db, d: DocId) { exists n: nat :: n >= 1 && Chain(db, d, n) }

  ghost predicate OneBlobPerContent(db: Db) {
    forall b, c :: b in db.blobs && c in db.blobs && db.blobs[b].sha == db.blobs[c].sha ==> b == c
  }

  ghost predicate Inv(db: Db) {
    && OneBlobPerContent(db)
    && (forall v :: v in db.versions ==> db.versions[v].doc in db.docs && db.versions[v].blob in db.blobs)
    && (forall d :: d in db.docs ==> Chained(db, d))
  }

  // ----- lookups -----

  /** `findFirst` on the content hash. */
  ghost function BlobOf(db: Db, sha: string): Option<BlobId> {
    if exists b :: b in db.blobs && db.blobs[b].sha == sha
    then var b :| b in db.blobs && db.blobs[b].sha == sha; Some(b)
    else None
  }

  ghost predicate IsLast(db: Db, d: DocId, n: nat) {
    && (n > 0 ==> HasVersion(db, d, n))
    && (forall v :: v in db.versions && db.versions[v].doc == d ==> db.versions[v].number <= n)
  }

  lemma {:induction false} HighestExists(db: Db, rows: set<VersionId>) returns (last: VersionId)
    requires rows <= db.versions.Keys && rows != {}
    ensures last in rows && forall v :: v in rows ==> db.versions[v].number <= db.versions[last].number
    decreases |rows|
  {
    last :| last in rows;
    if rows != {last} {
      var other := HighestExists(db, rows - {last});
      if db.versions[other].number > db.versions[last].number { last := other; }
    }
  }

  lemma LastExists(db: Db, d: DocId)
    ensures exists n: nat :: IsLast(db, d, n)
  {
    var rows := set v | v in db.versions && db.versions[v].doc == d;
    if rows == {} {
      assert forall v :: v in db.versions && db.versions[v].doc == d ==> v in rows;
      assert IsLast(db, d, 0);
    } else {
      var last := HighestExists(db, rows);
      assert forall v :: v in db.versions && db.versions[v].doc == d ==> v in rows;
      assert IsLast(db, d, db.versions[last].number);
    }
  }

  /** Highest version number of the document, 0 when it has no row. */
  ghost function LastNumber(db: Db, d: DocId): (n: nat)
    ensures IsLast(db, d, n)
  {
    LastExists(db, d);
    var n: nat :| IsLast(db, d, n);
    n
  }

  // ----- transactions -----

  /** First half of presign; the placeholder key is unique in the table. */
  predicate PlaceholderTaken(db: Db) { exists s :: s in db.sessions && !db.sessions[s].keyed }

  function PresignInsert(db: Db, id: SessionId, sizeBytes: int, now: int): Db {
    if id in db.sessions || PlaceholderTaken(db) then db
    else db.(sessions := db.sessions[id := Session(PENDING, now + PRESIGN_TTL_MS, sizeBytes, false)])
  }

  function PresignKey(db: Db, id: SessionId): Db {
    if id in db.sessions then db.(sessions := db.sessions[id := db.sessions[id].(keyed := true)]) else db
  }

  function SetSession(db: Db, id: SessionId, status: UploadStatus): Db {
    if id in db.sessions then db.(sessions := db.sessions[id := db.sessions[id].(status := status)]) else db
  }

  /** The checks before the main transaction; two of the refusals leave a mark on the session. */
  function CheckUpload(db: Db, id: SessionId, now: int, upload: Upload, refuseAborted: bool)
    : (Db, Result<(), StorageError>)
  {
    if id !in db.sessions then (db, Err(NOT_FOUND))
    else
      var s := db.sessions[id];
      if s.expiresAt < now then (SetSession(db, id, EXPIRED), Err(UPLOAD_EXPIRED))
      else if s.status == CONFIRMED then (db, Err(UPLOAD_ALREADY_CONFIRMED))
      else if refuseAborted && s.status == ABORTED then (db, Err(NOT_FOUND))
      else if upload.size.None? then (db, Err(UPLOAD_NOT_FOUND_IN_STORAGE))
      else if upload.size.value != s.sizeBytes then (db, Err(UPLOAD_SIZE_MISMATCH))
      else if !upload.signatureOk then (SetSession(db, id, ABORTED), Err(FILE_SIGNATURE_MISMATCH))
      else (db, Ok(()))
  }

  /** Find or create the blob of a content hash. */
  ghost function WithBlob(db: Db, sha: string, id: BlobId, dev: bool): (Db, BlobId) {
    match BlobOf(db, sha)
    case Some(b) => (db, b)
    case None => (db.(blobs := db.blobs[id := Blob(sha, if dev then SAFE else QUARANTINED)]), id)
  }

  predicate IdsFree(db: Db, ids: FreshIds) {
    ids.blob !in db.blobs && ids.doc !in db.docs && ids.version !in db.versions
  }

  /** Main transaction of `confirm`. */
  ghost function CommitConfirm(db: Db, id: SessionId, sha: string, ids: FreshIds, now: int, dev: bool): Db {
    if !IdsFree(db, ids) || id !in db.sessions then db
    else
      var (db1, blob) := WithBlob(db, sha, ids.blob, dev);
      SetSession(
        db1.(docs := db1.docs[ids.doc := Doc(ACTIVE, now)],
             versions := db1.versions[ids.version := Version(ids.doc, 1, blob, true)]),
        id, CONFIRMED)
  }

  function Demoted(versions: map<VersionId, Version>, d: DocId): map<VersionId, Version> {
    map v | v in versions :: if versions[v].doc == d then versions[v].(isCurrent := false) else versions[v]
  }

  /** Main transaction of `newVersion`; a document purged in the meantime breaks the foreign key. */
  ghost function CommitNewVersion(db: Db, d: DocId, id: SessionId, sha: string, ids: FreshIds, dev: bool): Db {
    if !IdsFree(db, ids) || id !in db.sessions || d !in db.docs then db
    else
      var (db1, blob) := WithBlob(db, sha, ids.blob, dev);
      var next := LastNumber(db1, d) + 1;
      SetSession(
        db1.(versions := Demoted(db1.versions, d)[ids.version := Version(d, next, blob, true)]),
        id, CONFIRMED)
  }

  /** The scanner's verdict; a blob that has one keeps it. */
  function Scan(db: Db, b: BlobId, isSafe: bool): Db {
    if b in db.blobs && db.blobs[b].status == QUARANTINED
    then db.(blobs := db.blobs[b := db.blobs[b].(status := if isSafe then SAFE else REJECTED)])
    else db
  }

  function SoftDelete(db: Db, d: DocId, now: int): Db {
    if d in db.docs && db.docs[d].status != DELETED then db.(docs := db.docs[d := Doc(DELETED, now)]) else db
  }

  predicate Purgeable(db: Db, d: DocId, now: int) {
    d in db.docs && db.docs[d].status == DELETED && db.docs[d].updatedAt < now - RETENTION_MS
  }

  /** Removes documents deleted more than thirty days ago, with their version rows. */
  function Purge(db: Db, now: int): Db {
    db.(docs := map d | d in db.docs && !Purgeable(db, d, now) :: db.docs[d],
        versions := map v | v in db.versions && !Purgeable(db, db.versions[v].doc, now) :: db.versions[v])
  }

  predicate Expirable(s: Session, now: int) { (s.status == PENDING || s.status == UPLOADED) && s.expiresAt < now }

  function ExpireSessions(db: Db, now: int): Db {
    db.(sessions := map s | s in db.sessions ::
          if Expirable(db.sessions[s], now) then db.sessions[s].(status := EXPIRED) else db.sessions[s])
  }

  // ----- whole calls, one at a time -----

  ghost function ConfirmCall(db: Db, id: SessionId, sha: string, now: int, upload: Upload,
                             isPublic: bool, kindOk: bool, ids: FreshIds, dev: bool): (Db, Result<(), StorageError>)
  {
    if isPublic then (db, Err(VISIBILITY_NOT_SUPPORTED_YET))
    else
      var (db1, checked) := CheckUpload(db, id, now, upload, true);
      if checked.Err? then (db1, checked)
      else if !kindOk then (db1, Err(VALIDATION_ERROR))
      else if !IdsFree(db1, ids) then (db1, Err(CONSTRAINT_VIOLATION))
      else (CommitConfirm(db1, id, sha, ids, now, dev), Ok(()))
  }

  ghost function NewVersionCall(db: Db, d: DocId, id: SessionId, sha: string, now: int, upload: Upload,
                                ids: FreshIds, dev: bool): (Db, Result<(), StorageError>)
  {
    if d !in db.docs || db.docs[d].status != ACTIVE then (db, Err(NOT_FOUND))
    else
      var (db1, checked) := CheckUpload(db, id, now, upload, false);
      if checked.Err? then (db1, checked)
      else if !IdsFree(db1, ids) then (db1, Err(CONSTRAINT_VIOLATION))
      else (CommitNewVersion(db1, d, id, sha, ids, dev), Ok(()))
  }
}
