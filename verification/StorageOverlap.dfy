/**
 * Confirm and new-version calls as they really run: each looks at the session, judges what it
 * saw, and commits later. Any number of callers, the collector and all other transactions come
 * in between. A run is any sequence of actions; an action that is not enabled changes nothing.
 */
module StorageOverlap {
  import opened Prelude
  import opened StorageModel
  import opened StorageChain

  type Tid = string

  /**
   * What a call makes of the upload: a new document, or the next version of one. That a new-version
   * call found its document active earlier still is not demanded: nothing below depends on it.
   */
  datatype Use = AsDocument | AsVersion(doc: DocId)

  /** `seen` is not a column: it says whether the session had been used when the caller looked. */
  datatype Thread =
    | Idle
    | Looked(use: Use, id: SessionId, row: Session, seen: bool, lookedAt: int)
    | Passed(use: Use, id: SessionId, row: Session, seen: bool, judgedAt: int)

  /** `used` is the history of the sessions some commit has turned into a version. */
  datatype World = World(db: Db, now: int, threads: map<Tid, Thread>, used: set<SessionId>)

  datatype Action =
    | Wait(ms: nat)
    | Look(t: Tid, use: Use, id: SessionId)
    | Judge(t: Tid, at: int, upload: Upload, kindOk: bool)
    | Commit(t: Tid, sha: string, ids: FreshIds, dev: bool)
    | Crash(t: Tid)
    | GcMark(id: SessionId)
    | Other(step: Step)

  function ThreadOf(w: World, t: Tid): Thread { if t in w.threads then w.threads[t] else Idle }

  function Put(w: World, t: Tid, db: Db, th: Thread): World { w.(db := db, threads := w.threads[t := th]) }

  /** The checks before the main transaction, on the row that was read. */
  predicate Accepts(row: Session, use: Use, at: int, upload: Upload, kindOk: bool) {
    && at <= row.expiresAt && row.status != CONFIRMED && (use.AsDocument? ==> row.status != ABORTED && kindOk)
    && upload == Upload(Some(row.sizeBytes), true)
  }

  /** The status a refusal leaves on the session, if any; written after, and regardless of, what others did. */
  function MarkOf(row: Session, use: Use, at: int, upload: Upload): Option<UploadStatus> {
    if row.expiresAt < at then Some(EXPIRED)
    else if row.status == CONFIRMED || (use.AsDocument? && row.status == ABORTED) then None
    else if upload.size == Some(row.sizeBytes) && !upload.signatureOk then Some(ABORTED)
    else None
  }

  predicate CanCommit(db: Db, use: Use, id: SessionId, ids: FreshIds) {
    IdsFree(db, ids) && id in db.sessions && (use.AsVersion? ==> use.doc in db.docs)
  }

  ghost function Committed(db: Db, use: Use, id: SessionId, sha: string, ids: FreshIds, now: int, dev: bool): Db {
    match use
    case AsDocument => CommitConfirm(db, id, sha, ids, now, dev)
    case AsVersion(doc) => CommitNewVersion(db, doc, id, sha, ids, dev)
  }

  predicate IsOther(step: Step) {
    step.DoPresignInsert? || step.DoPresignKey? || step.DoScan? || step.DoSoftDelete? || step.DoPurge?
  }

  predicate Enabled(w: World, a: Action) {
    match a
    case Wait(_) => true
    case Look(t, _, id) => ThreadOf(w, t).Idle? && id in w.db.sessions
    // the clock is read at some moment since the look; a mark reaches the table later still
    case Judge(t, at, _, _) => ThreadOf(w, t).Looked? && ThreadOf(w, t).lookedAt <= at <= w.now
    case Commit(t, _, _, _) => ThreadOf(w, t).Passed?
    case Crash(t) => t in w.threads
    // the collector found the session past its end, perhaps before somebody confirmed it
    case GcMark(id) => id in w.db.sessions && w.db.sessions[id].expiresAt < w.now
    case Other(step) => IsOther(step)
  }

  /** The commit turns the session into a version. */
  predicate Goes(w: World, a: Action, id: SessionId) {
    && a.Commit? && Enabled(w, a) && ThreadOf(w, a.t).id == id
    && CanCommit(w.db, ThreadOf(w, a.t).use, id, a.ids)
  }

  ghost function Next(w: World, a: Action): World {
    if !Enabled(w, a) then w else
    match a
    case Wait(ms) => w.(now := w.now + ms)
    case Look(t, use, id) => Put(w, t, w.db, Looked(use, id, w.db.sessions[id], id in w.used, w.now))
    case Judge(t, at, upload, kindOk) =>
      var th := ThreadOf(w, t);
      var mark := MarkOf(th.row, th.use, at, upload);
      Put(w, t, if mark.Some? then SetSession(w.db, th.id, mark.value) else w.db,
          if Accepts(th.row, th.use, at, upload, kindOk) then Passed(th.use, th.id, th.row, th.seen, at) else Idle)
    case Commit(t, sha, ids, dev) =>
      var th := ThreadOf(w, t);
      if CanCommit(w.db, th.use, th.id, ids)
      then Put(w, t, Committed(w.db, th.use, th.id, sha, ids, w.now, dev), Idle).(used := w.used + {th.id})
      else Put(w, t, w.db, Idle)
    case Crash(t) => Put(w, t, w.db, Idle)
    case GcMark(id) => w.(db := SetSession(w.db, id, EXPIRED))
    case Other(step) => w.(db := Apply(w.db, step))
  }

  /** The world after the first n actions. */
  ghost function At(w: World, actions: seq<Action>, n: nat): World
    requires n <= |actions|
  {
    if n == 0 then w else Next(At(w, actions, n - 1), actions[n - 1])
  }

  // ----- the steps are those of the services -----

  /** Judging the row as it stands is the check of `StorageModel`. */
  lemma JudgeIsCheck(db: Db, use: Use, id: SessionId, at: int, upload: Upload, kindOk: bool)
    requires id in db.sessions
    ensures var mark := MarkOf(db.sessions[id], use, at, upload);
            var (db1, checked) := CheckUpload(db, id, at, upload, use.AsDocument?);
      && db1 == (if mark.Some? then SetSession(db, id, mark.value) else db)
      && (Accepts(db.sessions[id], use, at, upload, kindOk) <==> checked.Ok? && (use.AsDocument? ==> kindOk))
  {
  }

  /** A caller nobody comes between does to the tables what the whole call does. */
  lemma LoneCaller(w: World, t: Tid, use: Use, id: SessionId, upload: Upload, kindOk: bool, sha: string,
                   ids: FreshIds, dev: bool)
    requires ThreadOf(w, t).Idle? && id in w.db.sessions && IdsFree(w.db, ids)
    requires use.AsVersion? ==> use.doc in w.db.docs && w.db.docs[use.doc].status == ACTIVE
    ensures var actions := [Look(t, use, id), Judge(t, w.now, upload, kindOk), Commit(t, sha, ids, dev)];
      At(w, actions, 3).db ==
      match use
      case AsDocument => ConfirmCall(w.db, id, sha, w.now, upload, false, kindOk, ids, dev).0
      case AsVersion(doc) => NewVersionCall(w.db, doc, id, sha, w.now, upload, ids, dev).0
  {
    hide CommitConfirm, CommitNewVersion;
    var actions := [Look(t, use, id), Judge(t, w.now, upload, kindOk), Commit(t, sha, ids, dev)];
    JudgeIsCheck(w.db, use, id, w.now, upload, kindOk);
    assert At(w, actions, 1) == Next(w, actions[0]);
    assert At(w, actions, 2) == Next(At(w, actions, 1), actions[1]);
    assert At(w, actions, 3) == Next(At(w, actions, 2), actions[2]);
  }

  /** What comes in between: time, the collector's mark, and every other transaction, each as it is. */
  lemma OthersOutcome(w: World, a: Action)
    requires Enabled(w, a)
    ensures a.Wait? ==> Next(w, a) == w.(now := w.now + a.ms)
    ensures a.GcMark? ==>
      Next(w, a) == w.(db := w.db.(sessions := w.db.sessions[a.id := w.db.sessions[a.id].(status := EXPIRED)]))
    ensures a.Other? ==> Next(w, a) == w.(db := Apply(w.db, a.step))
  {
    hide Apply;
  }

  // ----- what every interleaving keeps -----

  /** A used session is confirmed, marked aborted by a stale refusal, or past its end. */
  predicate UsedRow(row: Session, now: int) {
    row.status == CONFIRMED || row.status == ABORTED || row.expiresAt < now
  }

  predicate ThreadOk(w: World, th: Thread) {
    match th
    case Idle => true
    case Looked(_, id, row, seen, lookedAt) =>
      && id in w.db.sessions && row.expiresAt == w.db.sessions[id].expiresAt && lookedAt <= w.now
      && (seen ==> UsedRow(row, lookedAt))
    case Passed(use, id, row, seen, judgedAt) =>
      && id in w.db.sessions && row.expiresAt == w.db.sessions[id].expiresAt
      && (seen ==> use.AsVersion? && row.status == ABORTED)
  }

  ghost predicate UsedOk(w: World) {
    forall id :: id in w.used ==> id in w.db.sessions && UsedRow(w.db.sessions[id], w.now)
  }

  ghost predicate ThreadsOk(w: World) {
    forall t :: t in w.threads ==> ThreadOk(w, w.threads[t])
  }

  ghost predicate WorldOk(w: World) { Inv(w.db) && UsedOk(w) && ThreadsOk(w) }

  /** Sessions never disappear and never change their end. */
  ghost predicate EndsKept(db: Db, db': Db) {
    forall id :: id in db.sessions ==> id in db'.sessions && db'.sessions[id].expiresAt == db.sessions[id].expiresAt
  }

  lemma CommittedSessions(db: Db, use: Use, id: SessionId, sha: string, ids: FreshIds, now: int, dev: bool)
    requires CanCommit(db, use, id, ids)
    ensures Committed(db, use, id, sha, ids, now, dev).sessions == SetSession(db, id, CONFIRMED).sessions
  {
  }

  lemma CommittedKeepsInv(db: Db, use: Use, id: SessionId, sha: string, ids: FreshIds, now: int, dev: bool)
    requires Inv(db)
    ensures Inv(Committed(db, use, id, sha, ids, now, dev))
  {
    match use
    case AsDocument => ConfirmKeepsInv(db, id, sha, ids, now, dev);
    case AsVersion(doc) => NewVersionKeepsInv(db, doc, id, sha, ids, dev);
  }

  lemma NextKeepsDb(w: World, a: Action)
    requires WorldOk(w)
    ensures Inv(Next(w, a).db)
  {
    hide Inv, UsedOk, ThreadsOk, Committed, SetSession, Apply;
    match a
    case Judge(t, at, upload, _) =>
      if Enabled(w, a) {
        var th := ThreadOf(w, t);
        var mark := MarkOf(th.row, th.use, at, upload);
        if mark.Some? { SetSessionKeepsInv(w.db, th.id, mark.value); }
      }
    case Commit(t, sha, ids, dev) =>
      if Enabled(w, a) { CommittedKeepsInv(w.db, ThreadOf(w, t).use, ThreadOf(w, t).id, sha, ids, w.now, dev); }
    case GcMark(id) => SetSessionKeepsInv(w.db, id, EXPIRED);
    case Other(step) => StepKeepsInv(w.db, step);
    case _ =>
  }

  lemma OtherKeepsSessions(db: Db, step: Step)
    requires IsOther(step)
    ensures forall id :: id in db.sessions ==>
      id in Apply(db, step).sessions &&
        Apply(db, step).sessions[id] == db.sessions[id].(keyed := Apply(db, step).sessions[id].keyed)
  {
  }

  /** Every action keeps ends, and changes no session but by a mark or a commit. */
  lemma NextSessions(w: World, a: Action)
    requires WorldOk(w)
    ensures EndsKept(w.db, Next(w, a).db) && w.now <= Next(w, a).now && w.used <= Next(w, a).used
    ensures UsedOk(Next(w, a))
  {
    hide Inv, Committed, Apply;
    if Enabled(w, a) {
      match a
      case Commit(t, sha, ids, dev) =>
        var th := ThreadOf(w, t);
        if CanCommit(w.db, th.use, th.id, ids) { CommittedSessions(w.db, th.use, th.id, sha, ids, w.now, dev); }
      case Other(step) => OtherKeepsSessions(w.db, step);
      case _ =>
    }
  }

  lemma ThreadCarries(w: World, w': World, th: Thread)
    requires ThreadOk(w, th) && EndsKept(w.db, w'.db) && w.now <= w'.now
    ensures ThreadOk(w', th)
  {
  }

  /** The thread an action leaves at its caller. */
  lemma OwnThread(w: World, a: Action)
    requires WorldOk(w) && Enabled(w, a) && (a.Look? || a.Judge? || a.Commit? || a.Crash?)
    ensures a.t in Next(w, a).threads && Next(w, a).threads == w.threads[a.t := Next(w, a).threads[a.t]]
    ensures ThreadOk(Next(w, a), Next(w, a).threads[a.t])
  {
    hide Inv, Committed;
    NextSessions(w, a);
  }

  lemma NextKeeps(w: World, a: Action)
    requires WorldOk(w)
    ensures WorldOk(Next(w, a))
  {
    NextKeepsDb(w, a);
    NextSessions(w, a);
    hide Inv, UsedOk, EndsKept, ThreadOk, Committed, Apply, SetSession, MarkOf, Accepts, CanCommit;
    var w' := Next(w, a);
    if Enabled(w, a) && (a.Look? || a.Judge? || a.Commit? || a.Crash?) { OwnThread(w, a); }
    forall t | t in w.threads ensures ThreadOk(w', w.threads[t]) { ThreadCarries(w, w', w.threads[t]); }
  }

  lemma {:induction false} RunKeeps(w: World, actions: seq<Action>, n: nat)
    requires WorldOk(w) && n <= |actions|
    ensures WorldOk(At(w, actions, n))
    decreases n
  {
    if n > 0 {
      RunKeeps(w, actions, n - 1);
      NextKeeps(At(w, actions, n - 1), actions[n - 1]);
    }
  }

  lemma {:induction false} UsedStays(w: World, actions: seq<Action>, m: nat, n: nat)
    requires WorldOk(w) && m <= n <= |actions|
    ensures At(w, actions, m).used <= At(w, actions, n).used
    decreases n
  {
    if m < n {
      UsedStays(w, actions, m, n - 1);
      RunKeeps(w, actions, n - 1);
      NextSessions(At(w, actions, n - 1), actions[n - 1]);
    }
  }

  // ----- one call within a run -----

  predicate ActsFor(a: Action, t: Tid) { (a.Look? || a.Judge? || a.Commit? || a.Crash?) && a.t == t }

  /** Caller u looks at position l, judges at j and reaches its commit at c, and does nothing else in between. */
  ghost predicate IsCall(w: World, actions: seq<Action>, u: Tid, use: Use, id: SessionId, l: nat, j: nat, c: nat) {
    && l < j < c < |actions|
    && actions[l] == Look(u, use, id) && Enabled(At(w, actions, l), actions[l])
    && actions[j].Judge? && actions[j].t == u && At(w, actions, l).now <= actions[j].at <= At(w, actions, j).now
    && actions[c].Commit? && actions[c].t == u
    && (forall i :: l < i < c && i != j ==> !ActsFor(actions[i], u))
    && CanCommit(At(w, actions, c).db, use, id, actions[c].ids)
  }

  lemma {:induction false} ThreadRests(w: World, actions: seq<Action>, u: Tid, m: nat, n: nat)
    requires m <= n <= |actions| && forall i :: m <= i < n ==> !ActsFor(actions[i], u)
    ensures ThreadOf(At(w, actions, n), u) == ThreadOf(At(w, actions, m), u)
    decreases n
  {
    if m < n {
      hide Apply, Committed, SetSession, CanCommit;
      ThreadRests(w, actions, u, m, n - 1);
    }
  }

  /** The row the call looked at decides: its commit goes through if and only if it accepted that row. */
  lemma CallGoesIff(w: World, actions: seq<Action>, u: Tid, use: Use, id: SessionId, l: nat, j: nat, c: nat)
    requires IsCall(w, actions, u, use, id, l, j, c)
    ensures var row := At(w, actions, l).db.sessions[id];
            var ok := Accepts(row, use, actions[j].at, actions[j].upload, actions[j].kindOk);
      && (Goes(At(w, actions, c), actions[c], id) <==> ok)
      && (ok ==> ThreadOf(At(w, actions, c), u) == Passed(use, id, row, id in At(w, actions, l).used, actions[j].at))
  {
    hide Apply, Committed, SetSession, Accepts, MarkOf, CanCommit;
    assert At(w, actions, l + 1) == Next(At(w, actions, l), actions[l]);
    ThreadRests(w, actions, u, l + 1, j);
    assert At(w, actions, j + 1) == Next(At(w, actions, j), actions[j]);
    ThreadRests(w, actions, u, j + 1, c);
  }

  /**
   * After some commit has turned a session into a version, a call of either kind turns it into
   * another one if and only if its check passed, and it looked before that commit or is a
   * new-version call that found the session marked ABORTED since. Whatever else happens in between.
   */
  lemma SecondUseIff(w: World, actions: seq<Action>, first: nat, u: Tid, use: Use, id: SessionId, l: nat, j: nat,
                     c: nat)
    requires WorldOk(w) && IsCall(w, actions, u, use, id, l, j, c)
    requires first < c && Goes(At(w, actions, first), actions[first], id)
    ensures var row := At(w, actions, l).db.sessions[id];
      Goes(At(w, actions, c), actions[c], id) <==>
      && Accepts(row, use, actions[j].at, actions[j].upload, actions[j].kindOk)
      && (l < first || (use.AsVersion? && row.status == ABORTED))
  {
    hide Next, Inv, Accepts, CanCommit;
    CallGoesIff(w, actions, u, use, id, l, j, c);
    RunKeeps(w, actions, c);
    if first <= l {
      UseIsRecorded(w, actions, first, id);
      UsedStays(w, actions, first + 1, l + 1);
      LookChangesNoUse(w, actions, l);
    }
  }

  lemma UseIsRecorded(w: World, actions: seq<Action>, i: nat, id: SessionId)
    requires i < |actions| && Goes(At(w, actions, i), actions[i], id)
    ensures id in At(w, actions, i + 1).used
  {
  }

  lemma LookChangesNoUse(w: World, actions: seq<Action>, l: nat)
    requires l < |actions| && actions[l].Look?
    ensures At(w, actions, l + 1).used == At(w, actions, l).used
  {
  }

  // ----- where the mark comes from -----

  /** The action writes ABORTED over the session. */
  predicate MarksAborted(w: World, a: Action, id: SessionId) {
    && a.Judge? && Enabled(w, a) && ThreadOf(w, a.t).id == id
    && MarkOf(ThreadOf(w, a.t).row, ThreadOf(w, a.t).use, a.at, a.upload) == Some(ABORTED)
  }

  /** Over a used session only a caller can write it that looked before the use, or saw such a mark itself. */
  lemma MarkIsStale(w: World, a: Action, id: SessionId)
    requires WorldOk(w) && MarksAborted(w, a, id)
    ensures ThreadOf(w, a.t).seen ==> ThreadOf(w, a.t).row.status == ABORTED
  {
    hide Inv;
    assert ThreadOk(w, w.threads[a.t]);
  }

  lemma OnlyMarksAbort(w: World, a: Action, id: SessionId)
    requires WorldOk(w) && id in w.db.sessions && w.db.sessions[id].status != ABORTED && !MarksAborted(w, a, id)
    ensures id in Next(w, a).db.sessions && Next(w, a).db.sessions[id].status != ABORTED
  {
    hide Inv, Committed, Apply;
    if Enabled(w, a) {
      match a
      case Commit(t, sha, ids, dev) =>
        var th := ThreadOf(w, t);
        if CanCommit(w.db, th.use, th.id, ids) { CommittedSessions(w.db, th.use, th.id, sha, ids, w.now, dev); }
      case Other(step) => OtherKeepsSessions(w.db, step);
      case _ =>
    }
  }

  lemma {:induction false} NotAborted(w: World, actions: seq<Action>, first: nat, id: SessionId, n: nat)
    requires WorldOk(w) && first < n <= |actions| && Goes(At(w, actions, first), actions[first], id)
    requires forall i :: first < i < n ==> !MarksAborted(At(w, actions, i), actions[i], id)
    ensures id in At(w, actions, n).db.sessions && At(w, actions, n).db.sessions[id].status != ABORTED
    decreases n
  {
    if n == first + 1 {
      hide Inv, Committed;
      var v, a := At(w, actions, first), actions[first];
      CommittedSessions(v.db, ThreadOf(v, a.t).use, id, a.sha, a.ids, v.now, a.dev);
    } else {
      hide Next, Inv, MarksAborted, Goes;
      NotAborted(w, actions, first, id, n - 1);
      RunKeeps(w, actions, n - 1);
      OnlyMarksAbort(At(w, actions, n - 1), actions[n - 1], id);
    }
  }

  /**
   * So, unless a refused call marks the session ABORTED in between, two calls both turn one session
   * into versions if and only if both checks passed and the later one looked before the earlier
   * one's commit.
   */
  lemma BothUseIff(w: World, actions: seq<Action>, first: nat, u: Tid, use: Use, id: SessionId, l: nat, j: nat, c: nat)
    requires WorldOk(w) && IsCall(w, actions, u, use, id, l, j, c)
    requires first < c && Goes(At(w, actions, first), actions[first], id)
    requires forall i :: first < i < l ==> !MarksAborted(At(w, actions, i), actions[i], id)
    ensures Goes(At(w, actions, c), actions[c], id) <==>
      && Accepts(At(w, actions, l).db.sessions[id], use, actions[j].at, actions[j].upload, actions[j].kindOk)
      && l < first
  {
    assert first != l;
    hide Next, Inv, Accepts, CanCommit, MarksAborted, Goes;
    SecondUseIff(w, actions, first, u, use, id, l, j, c);
    if first < l { NotAborted(w, actions, first, id, l); }
  }

  // ----- what two uses leave -----

  lemma CommittedBlob(db: Db, use: Use, id: SessionId, sha: string, ids: FreshIds, now: int, dev: bool)
    requires Inv(db) && CanCommit(db, use, id, ids)
    ensures var after := Committed(db, use, id, sha, ids, now, dev);
      && ids.version in after.versions && var b := after.versions[ids.version].blob;
         && b in after.blobs && after.blobs[b].sha == sha
         && (forall x :: x in db.blobs ==> x in after.blobs && after.blobs[x] == db.blobs[x])
         && (forall x :: x in db.blobs && db.blobs[x].sha == sha ==> x == b)
  {
    WithBlobKeeps(db, sha, ids.blob, dev);
    hide Chained, LastNumber;
  }

  lemma BlobStays(w: World, a: Action, b: BlobId)
    requires WorldOk(w) && b in w.db.blobs
    ensures b in Next(w, a).db.blobs && Next(w, a).db.blobs[b].sha == w.db.blobs[b].sha
  {
    hide Inv, Committed, PlaceholderTaken, CommitConfirm, CommitNewVersion;
    if a.Commit? && Enabled(w, a) {
      var th := ThreadOf(w, a.t);
      if CanCommit(w.db, th.use, th.id, a.ids) { CommittedBlob(w.db, th.use, th.id, a.sha, a.ids, w.now, a.dev); }
    }
  }

  lemma {:induction false} BlobStaysOn(w: World, actions: seq<Action>, m: nat, n: nat, b: BlobId)
    requires WorldOk(w) && m <= n <= |actions| && b in At(w, actions, m).db.blobs
    ensures b in At(w, actions, n).db.blobs && At(w, actions, n).db.blobs[b].sha == At(w, actions, m).db.blobs[b].sha
    decreases n
  {
    if m < n {
      hide Next, WorldOk;
      BlobStaysOn(w, actions, m, n - 1, b);
      RunKeeps(w, actions, n - 1);
      BlobStays(At(w, actions, n - 1), actions[n - 1], b);
    }
  }

  lemma GoesTo(w: World, a: Action, id: SessionId)
    requires Goes(w, a, id)
    ensures Next(w, a).db == Committed(w.db, ThreadOf(w, a.t).use, id, a.sha, a.ids, w.now, a.dev)
    ensures Next(w, a).threads == w.threads[a.t := Idle] && Next(w, a).now == w.now
  {
  }

  /** Two commits of the same content, of one session or of two, however far apart, share one blob. */
  lemma UsesShareBlob(w: World, actions: seq<Action>, i: nat, j: nat, id: SessionId, id2: SessionId)
    requires WorldOk(w) && i < j < |actions| && Goes(At(w, actions, i), actions[i], id)
    requires Goes(At(w, actions, j), actions[j], id2)
    requires actions[i].sha == actions[j].sha
    ensures var first, second := At(w, actions, i + 1).db, At(w, actions, j + 1).db;
      && actions[i].ids.version in first.versions && actions[j].ids.version in second.versions
      && first.versions[actions[i].ids.version].blob == second.versions[actions[j].ids.version].blob
  {
    hide Next, Inv, Committed;
    var v, a := At(w, actions, i), actions[i];
    RunKeeps(w, actions, i);
    GoesTo(v, a, id);
    CommittedBlob(v.db, ThreadOf(v, a.t).use, id, a.sha, a.ids, v.now, a.dev);
    var b := At(w, actions, i + 1).db.versions[a.ids.version].blob;
    BlobStaysOn(w, actions, i + 1, j, b);
    var v2, a2 := At(w, actions, j), actions[j];
    RunKeeps(w, actions, j);
    GoesTo(v2, a2, id2);
    CommittedBlob(v2.db, ThreadOf(v2, a2.t).use, id2, a2.sha, a2.ids, v2.now, a2.dev);
  }

  // ----- a used session reopened -----

  const PENDING_SESSION := Session(PENDING, 100, 1, true)
  const ONE_SESSION := Db(map["s" := PENDING_SESSION], map[], map[], map[])
  const IDS := FreshIds("b", "d", "v")
  const LATER_IDS := FreshIds("b2", "d2", "v2")

  lemma FirstCommit()
    ensures CanCommit(ONE_SESSION, AsDocument, "s", IDS)
    ensures var db := Committed(ONE_SESSION, AsDocument, "s", "x", IDS, 0, true);
      db.sessions == SetSession(ONE_SESSION, "s", CONFIRMED).sessions && "d" in db.docs && IdsFree(db, LATER_IDS)
  {
    assert BlobOf(ONE_SESSION, "x") == None;
  }

  lemma LookTo(w: World, t: Tid, use: Use, id: SessionId)
    requires ThreadOf(w, t).Idle? && id in w.db.sessions
    ensures Next(w, Look(t, use, id)) == Put(w, t, w.db, Looked(use, id, w.db.sessions[id], id in w.used, w.now))
  {
  }

  lemma PassTo(w: World, t: Tid, upload: Upload)
    requires ThreadOf(w, t).Looked? && ThreadOf(w, t).lookedAt <= w.now
    requires Accepts(ThreadOf(w, t).row, ThreadOf(w, t).use, w.now, upload, true)
    ensures var th := ThreadOf(w, t);
      Next(w, Judge(t, w.now, upload, true)) == Put(w, t, w.db, Passed(th.use, th.id, th.row, th.seen, w.now))
  {
  }

  lemma RefuseTo(w: World, t: Tid, upload: Upload, mark: UploadStatus)
    requires ThreadOf(w, t).Looked? && ThreadOf(w, t).lookedAt <= w.now
    requires MarkOf(ThreadOf(w, t).row, ThreadOf(w, t).use, w.now, upload) == Some(mark)
    ensures Next(w, Judge(t, w.now, upload, true)) == Put(w, t, SetSession(w.db, ThreadOf(w, t).id, mark), Idle)
  {
  }

  /**
   * The mark does happen: caller c looks before a commits and, after that, finds the signature wrong.
   * Its mark overwrites CONFIRMED, and a new-version call that looks only then uses the session again.
   */
  lemma StaleMarkReopens()
    ensures var w0 := World(ONE_SESSION, 0, map[], {});
            var good, bad := Upload(Some(1), true), Upload(Some(1), false);
            var w2 := Next(Next(w0, Look("c", AsDocument, "s")), Look("a", AsDocument, "s"));
            var w3 := Next(w2, Judge("a", 0, good, true));
            var w4 := Next(w3, Commit("a", "x", IDS, true));
            var w6 := Next(Next(w4, Judge("c", 0, bad, true)), Look("u", AsVersion("d"), "s"));
            var w7 := Next(w6, Judge("u", 0, good, true));
            && WorldOk(w0)
            && Goes(w3, Commit("a", "x", IDS, true), "s") && Goes(w7, Commit("u", "x", LATER_IDS, true), "s")
  {
    var w0 := World(ONE_SESSION, 0, map[], {});
    assert WorldOk(w0);
    hide Next, Committed, WorldOk, CommitConfirm;
    FirstCommit();
    var good, bad := Upload(Some(1), true), Upload(Some(1), false);
    LookTo(w0, "c", AsDocument, "s");
    var w1 := Next(w0, Look("c", AsDocument, "s"));
    LookTo(w1, "a", AsDocument, "s");
    var w2 := Next(w1, Look("a", AsDocument, "s"));
    PassTo(w2, "a", good);
    var w3 := Next(w2, Judge("a", 0, good, true));
    GoesTo(w3, Commit("a", "x", IDS, true), "s");
    var w4 := Next(w3, Commit("a", "x", IDS, true));
    RefuseTo(w4, "c", bad, ABORTED);
    var w5 := Next(w4, Judge("c", 0, bad, true));
    LookTo(w5, "u", AsVersion("d"), "s");
    var w6 := Next(w5, Look("u", AsVersion("d"), "s"));
    PassTo(w6, "u", good);
  }
}
