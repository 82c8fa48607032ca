/**
 * Upload sessions over runs of whole calls, one at a time with a clock that never goes back:
 * a session yields at most one version, although its status can be rewritten afterwards.
 */
module StorageSessions {
  import opened Prelude
  import opened StorageModel
  import opened StorageChain

  datatype Call =
    | Presign(id: SessionId, sizeBytes: int, now: int)
    | Confirm(id: SessionId, sha: string, now: int, upload: Upload, isPublic: bool, kindOk: bool,
              ids: FreshIds, dev: bool)
    | NewVersion(doc: DocId, id: SessionId, sha: string, now: int, upload: Upload, ids: FreshIds, dev: bool)
    | Gc(now: int, full: bool)
    | Delete(doc: DocId, now: int)

  ghost function After(db: Db, c: Call): Db {
    match c
    case Presign(id, sizeBytes, now) =>
      if id in db.sessions || PlaceholderTaken(db) then db else PresignKey(PresignInsert(db, id, sizeBytes, now), id)
    case Confirm(id, sha, now, upload, isPublic, kindOk, ids, dev) =>
      ConfirmCall(db, id, sha, now, upload, isPublic, kindOk, ids, dev).0
    case NewVersion(doc, id, sha, now, upload, ids, dev) => NewVersionCall(db, doc, id, sha, now, upload, ids, dev).0
    case Gc(now, full) => if full then Purge(ExpireSessions(db, now), now) else ExpireSessions(db, now)
    case Delete(doc, now) => SoftDelete(db, doc, now)
  }

  /** The call turns the upload session into a version. */
  ghost predicate Uses(db: Db, c: Call, id: SessionId) {
    match c
    case Confirm(i, sha, now, upload, isPublic, kindOk, ids, dev) =>
      i == id && ConfirmCall(db, i, sha, now, upload, isPublic, kindOk, ids, dev).1.Ok?
    case NewVersion(doc, i, sha, now, upload, ids, dev) =>
      i == id && NewVersionCall(db, doc, i, sha, now, upload, ids, dev).1.Ok?
    case _ => false
  }

  ghost function States(db: Db, calls: seq<Call>): (s: seq<Db>)
    ensures |s| == |calls| + 1 && s[0] == db
    decreases |calls|
  {
    if calls == [] then [db] else [db] + States(After(db, calls[0]), calls[1..])
  }

  lemma {:induction false} StatesFollow(db: Db, calls: seq<Call>, i: nat)
    requires i < |calls|
    ensures States(db, calls)[i + 1] == After(States(db, calls)[i], calls[i])
    decreases i
  {
    if i > 0 { StatesFollow(After(db, calls[0]), calls[1..], i - 1); }
  }

  /** From `now` on the session is turned away: confirmed, or past its end. */
  predicate Spent(db: Db, id: SessionId, now: int) {
    id in db.sessions && (db.sessions[id].status == CONFIRMED || db.sessions[id].expiresAt < now)
  }

  lemma CommitsTouchOneSession(db: Db, d: DocId, id: SessionId, sha: string, ids: FreshIds, now: int, dev: bool)
    ensures CommitConfirm(db, id, sha, ids, now, dev).sessions
            == if IdsFree(db, ids) && id in db.sessions then SetSession(db, id, CONFIRMED).sessions else db.sessions
    ensures CommitNewVersion(db, d, id, sha, ids, dev).sessions
            == if IdsFree(db, ids) && id in db.sessions && d in db.docs
              then SetSession(db, id, CONFIRMED).sessions else db.sessions
  {
  }

  lemma UseSpends(db: Db, c: Call, id: SessionId)
    requires Uses(db, c, id)
    ensures Spent(After(db, c), id, c.now) && !Spent(db, id, c.now)
  {
    hide CommitConfirm, CommitNewVersion;
    var d := if c.NewVersion? then c.doc else "";
    CommitsTouchOneSession(db, d, id, c.sha, c.ids, c.now, c.dev);
  }

  /** The same session row, or one relabelled after its end. */
  predicate RowStays(db: Db, db': Db, id: SessionId, now: int) {
    && id in db.sessions && id in db'.sessions
    && (db'.sessions[id] == db.sessions[id]
        || (db.sessions[id].expiresAt < now && db'.sessions[id] == db.sessions[id].(status := EXPIRED)))
  }

  /** A spent session is refused by the checks, and the checks leave every spent session spent. */
  lemma SpentIsRefused(db: Db, i: SessionId, now: int, upload: Upload, refuseAborted: bool, id: SessionId)
    requires Spent(db, id, now)
    ensures var (db1, r) := CheckUpload(db, i, now, upload, refuseAborted);
            RowStays(db, db1, id, now) && (i == id ==> r.Err?)
  {
  }

  lemma SpentStays(db: Db, c: Call, id: SessionId, now: int)
    requires Spent(db, id, now) && now <= c.now
    ensures RowStays(db, After(db, c), id, c.now) && Spent(After(db, c), id, c.now) && !Uses(db, c, id)
  {
    hide CommitConfirm, CommitNewVersion, CheckUpload, PlaceholderTaken, IdsFree, Purgeable;
    if c.Confirm? || c.NewVersion? {
      hide PresignInsert, PresignKey, ExpireSessions, Purge, SoftDelete;
      SpentIsRefused(db, c.id, c.now, c.upload, c.Confirm?, id);
      var d := if c.NewVersion? then c.doc else "";
      var db1 := CheckUpload(db, c.id, c.now, c.upload, c.Confirm?).0;
      CommitsTouchOneSession(db1, d, c.id, c.sha, c.ids, c.now, c.dev);
    }
  }

  ghost predicate InOrder(calls: seq<Call>) {
    forall i, j :: 0 <= i < j < |calls| ==> calls[i].now <= calls[j].now
  }

  lemma {:induction false} SpentAfterUse(db: Db, calls: seq<Call>, id: SessionId, i: nat, j: nat)
    requires InOrder(calls) && i < j < |calls| && Uses(States(db, calls)[i], calls[i], id)
    ensures Spent(States(db, calls)[j], id, calls[j].now)
    decreases j
  {
    hide After, Uses, States;
    StatesFollow(db, calls, j - 1);
    if j == i + 1 {
      UseSpends(States(db, calls)[i], calls[i], id);
    } else {
      SpentAfterUse(db, calls, id, i, j - 1);
      SpentStays(States(db, calls)[j - 1], calls[j - 1], id, calls[j - 1].now);
    }
  }

  /** Each upload session is used by at most one call of the run. */
  lemma SessionUsedOnce(db: Db, calls: seq<Call>, id: SessionId, i: nat, j: nat)
    requires InOrder(calls) && i < |calls| && j < |calls| && i != j
    requires Uses(States(db, calls)[i], calls[i], id)
    ensures !Uses(States(db, calls)[j], calls[j], id)
  {
    var first, second := if i < j then i else j, if i < j then j else i;
    if Uses(States(db, calls)[first], calls[first], id) {
      SpentAfterUse(db, calls, id, first, second);
      SpentStays(States(db, calls)[second], calls[second], id, calls[second].now);
    }
  }

  /** A used session can be rewritten to EXPIRED by a later attempt to use it again. */
  lemma ConfirmedCanBecomeExpired(db: Db, id: SessionId, sha: string, now: int, upload: Upload, ids: FreshIds,
                                  dev: bool)
    requires id in db.sessions && db.sessions[id].status == CONFIRMED
    ensures After(db, Confirm(id, sha, now, upload, false, true, ids, dev)).sessions[id].status
            == if db.sessions[id].expiresAt < now then EXPIRED else CONFIRMED
  {
  }

  /**
   * An aborted session inside its lifetime: `confirm` always turns it away, `newVersion` takes it
   * whenever the document is active and the upload looks right.
   */
  lemma AbortedSession(db: Db, d: DocId, id: SessionId, sha: string, now: int, upload: Upload, ids: FreshIds, dev: bool,
                       isPublic: bool, kindOk: bool)
    requires id in db.sessions && db.sessions[id].status == ABORTED && now <= db.sessions[id].expiresAt
    requires IdsFree(db, ids)
    ensures !Uses(db, Confirm(id, sha, now, upload, isPublic, kindOk, ids, dev), id)
    ensures Uses(db, NewVersion(d, id, sha, now, upload, ids, dev), id) <==>
              d in db.docs && db.docs[d].status == ACTIVE
              && upload == Upload(Some(db.sessions[id].sizeBytes), true)
  {
  }

  // ----- what one call answers and leaves -----

  /** Which answer the checks give, in the order in which they are made, and the mark a refusal leaves. */
  lemma CheckOutcome(db: Db, id: SessionId, now: int, upload: Upload, refuseAborted: bool)
    requires id in db.sessions
    ensures var (after, r) := CheckUpload(db, id, now, upload, refuseAborted); var row := db.sessions[id];
            var late := row.expiresAt < now;
            var open := !late && row.status != CONFIRMED && !(refuseAborted && row.status == ABORTED);
            var fits := upload.size == Some(row.sizeBytes);
      && (r == Err(UPLOAD_EXPIRED) <==> late)
      && (r == Err(UPLOAD_ALREADY_CONFIRMED) <==> !late && row.status == CONFIRMED)
      && (r == Err(NOT_FOUND) <==> !late && refuseAborted && row.status == ABORTED)
      && (r == Err(UPLOAD_NOT_FOUND_IN_STORAGE) <==> open && upload.size.None?)
      && (r == Err(UPLOAD_SIZE_MISMATCH) <==> open && upload.size.Some? && !fits)
      && (r == Err(FILE_SIGNATURE_MISMATCH) <==> open && fits && !upload.signatureOk)
      && (r.Ok? <==> open && fits && upload.signatureOk)
      && after == db.(sessions := db.sessions[id := row.(status := after.sessions[id].status)])
      && after.sessions[id].status
         == if late then EXPIRED else if open && fits && !upload.signatureOk then ABORTED else row.status
  {
    assert db.sessions == db.sessions[id := db.sessions[id]];
  }

  /**
   * `presign`: a session that ends in fifteen minutes, unless a placeholder key blocks it. After its
   * first transaction the session has such a key itself.
   */
  lemma PresignOutcome(db: Db, id: SessionId, sizeBytes: int, now: int)
    requires id !in db.sessions
    ensures var blocked := exists s :: s in db.sessions && !db.sessions[s].keyed;
            var session := Session(PENDING, now + 900_000, sizeBytes, true);
      && After(db, Presign(id, sizeBytes, now))
         == (if blocked then db else db.(sessions := db.sessions[id := session]))
      && PresignInsert(db, id, sizeBytes, now)
         == (if blocked then db else db.(sessions := db.sessions[id := session.(keyed := false)]))
  {
  }

  /** The collector relabels the open sessions past their end, and only those. */
  lemma CollectOutcome(db: Db, now: int)
    ensures var after := After(db, Gc(now, false));
      && after == db.(sessions := after.sessions) && after.sessions.Keys == db.sessions.Keys
      && forall s :: s in db.sessions ==>
           after.sessions[s] == if db.sessions[s].status in {PENDING, UPLOADED} && db.sessions[s].expiresAt < now
                                then db.sessions[s].(status := EXPIRED) else db.sessions[s]
  {
  }

  /** The blob a commit gives its version: the one of that content, or a new one that awaits its scan. */
  ghost predicate BlobGiven(db: Db, after: Db, sha: string, newId: BlobId, dev: bool, b: BlobId) {
    if exists x :: x in db.blobs && db.blobs[x].sha == sha
    then after.blobs == db.blobs && b in db.blobs && db.blobs[b].sha == sha
    else b == newId && after.blobs == db.blobs[newId := Blob(sha, if dev then SAFE else QUARANTINED)]
  }

  /** `confirm` that succeeds, and what it leaves: a document with its first version, and a used session. */
  lemma ConfirmOutcome(db: Db, id: SessionId, sha: string, now: int, upload: Upload, isPublic: bool, kindOk: bool,
                       ids: FreshIds, dev: bool)
    requires IdsFree(db, ids)
    ensures var (after, r) := ConfirmCall(db, id, sha, now, upload, isPublic, kindOk, ids, dev);
      && (r.Ok? <==>
            && !isPublic && kindOk && id in db.sessions && now <= db.sessions[id].expiresAt
            && db.sessions[id].status !in {CONFIRMED, ABORTED}
            && upload == Upload(Some(db.sessions[id].sizeBytes), true))
      && (r.Ok? ==>
            && ids.version in after.versions && var b := after.versions[ids.version].blob;
            && after.versions == db.versions[ids.version := Version(ids.doc, 1, b, true)]
            && after.docs == db.docs[ids.doc := Doc(ACTIVE, now)]
            && after.sessions == db.sessions[id := db.sessions[id].(status := CONFIRMED)]
            && BlobGiven(db, after, sha, ids.blob, dev, b))
      && (r.Err? ==> after == db.(sessions := after.sessions))
      && (isPublic ==> r == Err(VISIBILITY_NOT_SUPPORTED_YET) && after == db)
      && (!isPublic && id !in db.sessions ==> r == Err(NOT_FOUND) && after == db)
      && (r == Err(VALIDATION_ERROR) <==> !isPublic && !kindOk && CheckUpload(db, id, now, upload, true).1.Ok?)
  {
  }

  /** `newVersion` that succeeds, and what it leaves: the next version is current and no other one is. */
  lemma NewVersionOutcome(db: Db, d: DocId, id: SessionId, sha: string, now: int, upload: Upload, ids: FreshIds,
                          dev: bool)
    requires IdsFree(db, ids)
    ensures var (after, r) := NewVersionCall(db, d, id, sha, now, upload, ids, dev);
      && (r.Ok? <==>
            && d in db.docs && db.docs[d].status == ACTIVE
            && id in db.sessions && now <= db.sessions[id].expiresAt && db.sessions[id].status != CONFIRMED
            && upload == Upload(Some(db.sessions[id].sizeBytes), true))
      && (r.Ok? ==>
            && after.versions.Keys == db.versions.Keys + {ids.version} && var v := after.versions[ids.version];
            && v.doc == d && v.isCurrent && IsLast(db, d, v.number - 1)
            && (forall w :: w in db.versions ==>
                  after.versions[w] == if db.versions[w].doc == d then db.versions[w].(isCurrent := false)
                                       else db.versions[w])
            && after.docs == db.docs
            && after.sessions == db.sessions[id := db.sessions[id].(status := CONFIRMED)]
            && BlobGiven(db, after, sha, ids.blob, dev, v.blob))
      && (r.Err? ==> after == db.(sessions := after.sessions))
      && (d !in db.docs || db.docs[d].status != ACTIVE ==> r == Err(NOT_FOUND) && after == db)
  {
    hide LastNumber, IsLast;
    var (db1, _) := WithBlob(db, sha, ids.blob, dev);
    SameLast(db, db1, d);
  }

  lemma SameLast(db: Db, db1: Db, d: DocId)
    requires db1.versions == db.versions
    ensures LastNumber(db1, d) == LastNumber(db, d) && IsLast(db, d, LastNumber(db1, d))
  {
    var n, m := LastNumber(db, d), LastNumber(db1, d);
    if n > 0 { assert HasVersion(db, d, n); }
    if m > 0 { assert HasVersion(db1, d, m); }
  }

  /** After a commit the content has exactly one blob, and the new version points at it. */
  lemma ConfirmStoresBlob(db: Db, id: SessionId, sha: string, ids: FreshIds, now: int, dev: bool)
    requires Inv(db) && IdsFree(db, ids) && id in db.sessions
    ensures var after := CommitConfirm(db, id, sha, ids, now, dev);
            && Inv(after) && BlobOf(after, sha) == Some(after.versions[ids.version].blob)
            && after.docs == db.docs[ids.doc := Doc(ACTIVE, now)] && after.sessions.Keys == db.sessions.Keys
            && after.blobs.Keys <= db.blobs.Keys + {ids.blob} && after.versions.Keys == db.versions.Keys + {ids.version}
            && (BlobOf(db, sha).Some? ==> after.blobs == db.blobs && BlobOf(after, sha) == BlobOf(db, sha))
            && (forall v :: v in db.versions ==> after.versions[v] == db.versions[v])
  {
    ConfirmKeepsInv(db, id, sha, ids, now, dev);
    WithBlobKeeps(db, sha, ids.blob, dev);
    hide Chained;
    var after := CommitConfirm(db, id, sha, ids, now, dev);
    var blob := after.versions[ids.version].blob;
    assert blob in after.blobs && after.blobs[blob].sha == sha;
  }

  /**
   * The commit itself does not look at the session again: committing one session twice creates two
   * documents on one blob. `StorageOverlap` says when two calls come to that.
   */
  lemma CommittingTwiceUsesTwice(db: Db, id: SessionId, sha: string, now: int, a: FreshIds, b: FreshIds, dev: bool)
    requires Inv(db) && id in db.sessions
    requires IdsFree(db, a) && IdsFree(db, b) && a.doc != b.doc && a.version != b.version && a.blob != b.blob
    ensures var once := CommitConfirm(db, id, sha, a, now, dev);
            var twice := CommitConfirm(once, id, sha, b, now, dev);
            && once.docs == db.docs[a.doc := Doc(ACTIVE, now)]
            && twice.docs == once.docs[b.doc := Doc(ACTIVE, now)]
            && twice.blobs == once.blobs && twice.versions[a.version].blob == twice.versions[b.version].blob
  {
    hide CommitConfirm, Inv, BlobOf;
    var once := CommitConfirm(db, id, sha, a, now, dev);
    ConfirmStoresBlob(db, id, sha, a, now, dev);
    ConfirmStoresBlob(once, id, sha, b, now, dev);
  }
}
