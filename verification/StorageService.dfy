/** The storage service and the garbage collector as methods over the tables. */
module StorageService {
  import opened Prelude
  import opened StorageModel
  import opened StorageChain

  /** The tables without the given documents and their version rows. */
  function Without(db: Db, gone: set<DocId>): Db {
    db.(docs := db.docs - gone, versions := map v | v in db.versions && db.versions[v].doc !in gone :: db.versions[v])
  }

  lemma WithoutOneMore(db: Db, gone: set<DocId>, d: DocId)
    ensures Without(Without(db, gone), {d}) == Without(db, gone + {d})
  {
    assert Without(Without(db, gone), {d}).docs == Without(db, gone + {d}).docs;
    assert Without(Without(db, gone), {d}).versions == Without(db, gone + {d}).versions;
  }

  lemma WithoutNone(db: Db)
    ensures Without(db, {}) == db
  {
    assert Without(db, {}).versions == db.versions;
  }

  lemma PurgeIsWithout(db: Db, now: int, gone: set<DocId>)
    requires forall d :: d in gone <==> Purgeable(db, d, now)
    ensures Purge(db, now) == Without(db, gone)
  {
    assert Purge(db, now).docs == Without(db, gone).docs;
    assert Purge(db, now).versions == Without(db, gone).versions;
  }

  /** The tables with the given sessions marked EXPIRED. */
  function Expired(db: Db, ids: set<SessionId>): Db {
    db.(sessions := map s | s in db.sessions :: if s in ids then db.sessions[s].(status := EXPIRED) else db.sessions[s])
  }

  lemma ExpiredOneMore(db: Db, ids: set<SessionId>, id: SessionId)
    ensures SetSession(Expired(db, ids), id, EXPIRED) == Expired(db, ids + {id})
  {
    assert SetSession(Expired(db, ids), id, EXPIRED).sessions == Expired(db, ids + {id}).sessions;
  }

  lemma ExpiredFacts(db: Db, now: int, rows: set<SessionId>)
    requires rows == set s | s in db.sessions && Expirable(db.sessions[s], now)
    ensures Expired(db, rows) == ExpireSessions(db, now) && Expired(db, {}) == db
  {
    assert Expired(db, rows).sessions == ExpireSessions(db, now).sessions;
    assert Expired(db, {}).sessions == db.sessions;
  }

  class Storage {
    var db: Db
    const dev: bool

    constructor (dev: bool)
      ensures Inv(db) && db == Db(map[], map[], map[], map[]) && this.dev == dev
    {
      db := Db(map[], map[], map[], map[]);
      this.dev := dev;
    }

    /** `presign`; `dies` stands for a failure between its two transactions. */
    method Presign(id: SessionId, sizeBytes: int, now: int, dies: bool) returns (ok: bool)
      requires Inv(db)
      modifies this
      ensures Inv(db)
      ensures ok <==> !dies && id !in old(db).sessions && !PlaceholderTaken(old(db))
      ensures db == (if dies || !ok then PresignInsert(old(db), id, sizeBytes, now)
                     else PresignKey(PresignInsert(old(db), id, sizeBytes, now), id))
    {
      StepKeepsInv(db, DoPresignInsert(id, sizeBytes, now));
      if id in db.sessions || exists s :: s in db.sessions && !db.sessions[s].keyed { return false; }
      db := db.(sessions := db.sessions[id := Session(PENDING, now + PRESIGN_TTL_MS, sizeBytes, false)]);
      if dies { return false; }
      StepKeepsInv(db, DoPresignKey(id));
      db := db.(sessions := db.sessions[id := db.sessions[id].(keyed := true)]);
      return true;
    }

    /** Marks the session, outside any other transaction. */
    method Mark(id: SessionId, status: UploadStatus)
      requires Inv(db)
      modifies this
      ensures Inv(db) && db == SetSession(old(db), id, status)
    {
      StepKeepsInv(db, DoSetSession(id, status));
      if id in db.sessions { db := db.(sessions := db.sessions[id := db.sessions[id].(status := status)]); }
    }

    method Check(id: SessionId, now: int, upload: Upload, refuseAborted: bool) returns (r: Result<(), StorageError>)
      requires Inv(db)
      modifies this
      ensures Inv(db) && (db, r) == CheckUpload(old(db), id, now, upload, refuseAborted)
    {
      if id !in db.sessions { return Err(NOT_FOUND); }
      var session := db.sessions[id];
      if session.expiresAt < now {
        Mark(id, EXPIRED);
        return Err(UPLOAD_EXPIRED);
      }
      if session.status == CONFIRMED { return Err(UPLOAD_ALREADY_CONFIRMED); }
      if refuseAborted && session.status == ABORTED { return Err(NOT_FOUND); }
      if upload.size.None? { return Err(UPLOAD_NOT_FOUND_IN_STORAGE); }
      if upload.size.value != session.sizeBytes { return Err(UPLOAD_SIZE_MISMATCH); }
      if !upload.signatureOk {
        Mark(id, ABORTED);
        return Err(FILE_SIGNATURE_MISMATCH);
      }
      return Ok(());
    }

    /** Finds the blob of the content hash, or copies the upload into a new one. */
    method FindOrCreateBlob(sha: string, newId: BlobId) returns (blob: BlobId)
      requires Inv(db) && newId !in db.blobs
      modifies this
      ensures (db, blob) == WithBlob(old(db), sha, newId, dev)
      ensures Inv(db)
    {
      WithBlobKeeps(db, sha, newId, dev);
      if exists b :: b in db.blobs && db.blobs[b].sha == sha {
        blob :| blob in db.blobs && db.blobs[blob].sha == sha;
        return;
      }
      blob := newId;
      db := db.(blobs := db.blobs[blob := Blob(sha, if dev then SAFE else QUARANTINED)]);
    }

    /** `confirm`: a document with version 1. */
    method Confirm(id: SessionId, sha: string, now: int, upload: Upload, isPublic: bool, kindOk: bool, ids: FreshIds)
      returns (r: Result<(), StorageError>)
      requires Inv(db) && IdsFree(db, ids)
      modifies this
      ensures Inv(db) && (db, r) == ConfirmCall(old(db), id, sha, now, upload, isPublic, kindOk, ids, dev)
    {
      if isPublic { return Err(VISIBILITY_NOT_SUPPORTED_YET); }
      var checked := Check(id, now, upload, true);
      if checked.Err? { return checked; }
      if !kindOk { return Err(VALIDATION_ERROR); }
      ConfirmKeepsInv(db, id, sha, ids, now, dev);
      var blob := FindOrCreateBlob(sha, ids.blob);
      var docs := db.docs[ids.doc := Doc(ACTIVE, now)];
      var versions := db.versions[ids.version := Version(ids.doc, 1, blob, true)];
      var sessions := db.sessions[id := db.sessions[id].(status := CONFIRMED)];
      db := Db(sessions, db.blobs, docs, versions);
      return Ok(());
    }

    /** `newVersion`: demotes the current version and appends the next one. */
    method NewVersion(d: DocId, id: SessionId, sha: string, now: int, upload: Upload, ids: FreshIds)
      returns (r: Result<(), StorageError>)
      requires Inv(db) && IdsFree(db, ids)
      modifies this
      ensures Inv(db) && (db, r) == NewVersionCall(old(db), d, id, sha, now, upload, ids, dev)
    {
      if d !in db.docs || db.docs[d].status != ACTIVE { return Err(NOT_FOUND); }
      var checked := Check(id, now, upload, false);
      if checked.Err? { return checked; }
      Append(d, id, sha, ids);
      return Ok(());
    }

    /** Main transaction of `newVersion`. */
    method Append(d: DocId, id: SessionId, sha: string, ids: FreshIds)
      requires Inv(db) && IdsFree(db, ids) && d in db.docs && id in db.sessions
      modifies this
      ensures Inv(db) && db == CommitNewVersion(old(db), d, id, sha, ids, dev)
    {
      hide Inv, LastNumber, BlobOf;
      NewVersionKeepsInv(db, d, id, sha, ids, dev);
      WithBlobKeeps(db, sha, ids.blob, dev);
      var blob := FindOrCreateBlob(sha, ids.blob);
      var last := HighestVersion(d);
      var demoted := map v | v in db.versions ::
        if db.versions[v].doc == d && db.versions[v].isCurrent then db.versions[v].(isCurrent := false)
        else db.versions[v];
      assert demoted == Demoted(db.versions, d);
      var versions := demoted[ids.version := Version(d, last + 1, blob, true)];
      var sessions := db.sessions[id := db.sessions[id].(status := CONFIRMED)];
      db := db.(versions := versions, sessions := sessions);
    }

    /** `findFirst` by version, descending. */
    method HighestVersion(d: DocId) returns (n: nat)
      requires Inv(db) && d in db.docs
      ensures n == LastNumber(db, d)
    {
      ghost var head := HeadExists(db, d);
      var v :| v in db.versions && db.versions[v].doc == d
               && forall w :: w in db.versions && db.versions[w].doc == d ==>
                 db.versions[w].number <= db.versions[v].number;
      return db.versions[v].number;
    }

    /** The scan job: fails on an unknown blob and leaves one alone that has its verdict. */
    method ScanBlob(b: BlobId, isSafe: bool) returns (found: bool)
      requires Inv(db)
      modifies this
      ensures Inv(db) && db == Scan(old(db), b, isSafe)
      ensures found <==> b in old(db).blobs
      ensures found && old(db).blobs[b].status == QUARANTINED ==>
                db.blobs == old(db).blobs[b := Blob(old(db).blobs[b].sha, if isSafe then SAFE else REJECTED)]
      ensures !found || old(db).blobs[b].status != QUARANTINED ==> db == old(db)
    {
      if b !in db.blobs { return false; }
      if db.blobs[b].status == SAFE || db.blobs[b].status == REJECTED { return true; }
      StepKeepsInv(db, DoScan(b, isSafe));
      db := db.(blobs := db.blobs[b := db.blobs[b].(status := if isSafe then SAFE else REJECTED)]);
      return true;
    }

    /** `download` serves the blob of the document's highest version, and only a safe one of an active document. */
    method Download(d: DocId) returns (r: Result<BlobId, StorageError>)
      requires Inv(db)
      ensures r == Err(NOT_FOUND) <==> d !in db.docs || db.docs[d].status != ACTIVE
      ensures r.Ok? ==> r.value in db.blobs && db.blobs[r.value].status == SAFE
      ensures d in db.docs && db.docs[d].status == ACTIVE ==>
                exists v :: IsHead(db, d, v) && r == (if db.blobs[db.versions[v].blob].status == SAFE
                                                      then Ok(db.versions[v].blob) else Err(DOCUMENT_NOT_SAFE))
    {
      if d !in db.docs || db.docs[d].status != ACTIVE { return Err(NOT_FOUND); }
      ghost var head := HeadExists(db, d);
      var current :| current in db.versions && db.versions[current].doc == d && db.versions[current].isCurrent;
      assert current == head;
      var blob := db.versions[current].blob;
      if db.blobs[blob].status != SAFE { return Err(DOCUMENT_NOT_SAFE); }
      return Ok(blob);
    }

    /** `softDelete`; who may delete is decided by the caller's role and authorship. */
    method SoftDeleteDocument(d: DocId, now: int, allowed: bool) returns (r: Result<(), StorageError>)
      requires Inv(db)
      modifies this
      ensures Inv(db)
      ensures r.Ok? <==> d in old(db).docs && old(db).docs[d].status != DELETED && allowed
      ensures db == if r.Ok? then SoftDelete(old(db), d, now) else old(db)
      ensures r == Err(NOT_FOUND) <==> d !in old(db).docs || old(db).docs[d].status == DELETED
      ensures r.Err? ==> r.error in {NOT_FOUND, ROLE_FORBIDDEN}
    {
      if d !in db.docs || db.docs[d].status == DELETED { return Err(NOT_FOUND); }
      if !allowed { return Err(ROLE_FORBIDDEN); }
      StepKeepsInv(db, DoSoftDelete(d, now));
      db := db.(docs := db.docs[d := Doc(DELETED, now)]);
      return Ok(());
    }

    /** Light collection: expires the pending sessions past their end, one row at a time. */
    method CollectSessions(now: int) returns (expired: nat)
      requires Inv(db)
      modifies this
      ensures Inv(db) && db == ExpireSessions(old(db), now)
      ensures expired == |set s | s in old(db).sessions && Expirable(old(db).sessions[s], now)|
    {
      StepKeepsInv(db, DoExpire(now));
      hide Inv, ExpireSessions;
      var rows := set s | s in db.sessions && Expirable(db.sessions[s], now);
      ExpiredFacts(db, now, rows);
      var todo := rows;
      expired := 0;
      while todo != {}
        invariant todo <= rows && expired == |rows| - |todo| && db == Expired(old(db), rows - todo)
        decreases |todo|
      {
        var s :| s in todo;
        assert rows - (todo - {s}) == rows - todo + {s};
        ExpiredOneMore(old(db), rows - todo, s);
        db := SetSession(db, s, EXPIRED);
        todo := todo - {s};
        expired := expired + 1;
      }
      assert rows - todo == rows;
    }

    /** Full collection: removes the version rows of each purgeable document, then the document. */
    method PurgeDocuments(now: int)
      requires Inv(db)
      modifies this
      ensures Inv(db) && db == Purge(old(db), now)
    {
      PurgeKeepsInv(db, now);
      var doomed := set d | d in db.docs && Purgeable(db, d, now);
      PurgeIsWithout(db, now, doomed);
      PurgeEach(doomed);
    }

    method PurgeEach(doomed: set<DocId>)
      modifies this
      ensures db == Without(old(db), doomed)
    {
      WithoutNone(db);
      hide Without;
      var todo := doomed;
      assert doomed - todo == {};
      while todo != {}
        invariant todo <= doomed && db == Without(old(db), doomed - todo)
        decreases |todo|
      {
        var d :| d in todo;
        WithoutOneMore(old(db), doomed - todo, d);
        assert doomed - (todo - {d}) == doomed - todo + {d};
        PurgeOne(d);
        todo := todo - {d};
      }
      assert doomed - todo == doomed;
    }

    method PurgeOne(d: DocId)
      modifies this
      ensures db == Without(old(db), {d})
    {
      var versions := map v | v in db.versions && db.versions[v].doc != d :: db.versions[v];
      db := db.(versions := versions);
      db := db.(docs := db.docs - {d});
      assert versions == Without(old(db), {d}).versions;
    }
  }
}
