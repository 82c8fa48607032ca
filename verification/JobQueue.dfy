/**
 * Background jobs: the lock and run tables, the statements of an enqueue, and the status a run
 * goes through while the worker handles it. Timestamps are ms. `JobProtocol` interleaves the
 * statements; here they also make up one undisturbed enqueue.
 */
module JobQueue {
  import opened Prelude

  type RunId = string
  type LockId = string

  datatype JobType =
    | AV_SCAN_DOCUMENT | IMAGE_DERIVATIVES | STORAGE_GC | NOTIFY_EMAIL | NOTIFY_WHATSAPP | ORG_TICK_TASKS
    | INBOUND_PROCESS_EVENT | OUTBOUND_PROCESS_JOB | INTEGRATION_HEALTHCHECK | INBOX_SLA_TICK
    | COMM_BACKFILL_THREAD | SEQUENCE_TICK | META_LEADGEN_BACKFILL

  datatype JobStatus = QUEUED | RUNNING | SUCCESS | FAILED | RETRYING | CANCELLED

  datatype LockKey = LockKey(org: Option<string>, key: string)

  datatype Lock = Lock(key: LockKey, expiresAt: int)

  /** `lockedAt` is not a column: it keeps the clock reading the run's lock was written with. */
  datatype JobRun = JobRun(kind: JobType, org: Option<string>, key: Option<string>, status: JobStatus,
                           attempts: nat, maxAttempts: nat, lockedAt: int, createdAt: int)

  /** `pending`: entries in the queue; `inHand`: runs a worker has started and not finished. */
  datatype State = State(locks: map<LockId, Lock>, runs: map<RunId, JobRun>, pending: set<RunId>, inHand: set<RunId>)

  const EMPTY := State(map[], map[], {}, {})

  datatype Request = Request(kind: JobType, org: Option<string>, key: Option<string>)

  /** The three clock readings of one enqueue: lock check, lock write, row insert. */
  datatype Clock = Clock(checkedAt: int, lockedAt: int, createdAt: int)

  datatype Answer = Answer(jobRunId: RunId, deduplicated: bool)

  datatype JobError = QUEUE_UNAVAILABLE

  const DAY_MS: int := 24 * 60 * 60 * 1000

  function Ttl(kind: JobType): int {
    match kind
    case IMAGE_DERIVATIVES => 7 * DAY_MS
    case ORG_TICK_TASKS => 5 * 60 * 1000
    case INTEGRATION_HEALTHCHECK => 5 * 60 * 1000
    case INBOX_SLA_TICK => 2 * 60 * 1000
    case SEQUENCE_TICK => 60 * 1000
    case _ => DAY_MS
  }

  function MaxAttempts(kind: JobType): nat {
    match kind
    case NOTIFY_EMAIL => 5
    case NOTIFY_WHATSAPP => 5
    case INBOUND_PROCESS_EVENT => 5
    case OUTBOUND_PROCESS_JOB => 5
    case AV_SCAN_DOCUMENT => 3
    case IMAGE_DERIVATIVES => 3
    case ORG_TICK_TASKS => 3
    case META_LEADGEN_BACKFILL => 3
    case _ => 2
  }

  /** The two tables, as milliseconds and counts. */
  lemma LimitsOfTypes(kind: JobType)
    ensures Ttl(kind) ==
      if kind == IMAGE_DERIVATIVES then 604_800_000
      else if kind == ORG_TICK_TASKS || kind == INTEGRATION_HEALTHCHECK then 300_000
      else if kind == INBOX_SLA_TICK then 120_000
      else if kind == SEQUENCE_TICK then 60_000
      else 86_400_000
    ensures MaxAttempts(kind) ==
      if kind in {NOTIFY_EMAIL, NOTIFY_WHATSAPP, INBOUND_PROCESS_EVENT, OUTBOUND_PROCESS_JOB} then 5
      else if kind in {AV_SCAN_DOCUMENT, IMAGE_DERIVATIVES, ORG_TICK_TASKS, META_LEADGEN_BACKFILL} then 3
      else 2
  {
  }

  predicate Live(r: JobRun) { r.status == QUEUED || r.status == RUNNING || r.status == SUCCESS }

  // ----- the statements of an enqueue -----

  /** An empty idempotency key is none: it takes no lock. */
  predicate IsKey(key: Option<string>) { key.Some? && key.value != "" }

  function KeyOf(q: Request): LockKey
    requires IsKey(q.key)
  {
    LockKey(q.org, q.key.value)
  }

  /** The runs a deduplicating enqueue may answer with. */
  predicate Matches(r: JobRun, q: Request) { r.kind == q.kind && r.org == q.org && r.key == q.key && Live(r) }

  predicate HasRun(s: State, q: Request) { exists id :: id in s.runs && Matches(s.runs[id], q) }

  predicate HasLock(s: State, k: LockKey) { exists l :: l in s.locks && s.locks[l].key == k }

  /** What `findFirst` on the lock table may return. */
  predicate IsLockFound(s: State, k: LockKey, found: Option<LockId>) {
    match found
    case Some(l) => l in s.locks && s.locks[l].key == k
    case None => !HasLock(s, k)
  }

  /** The unique index on (organization, key); rows without organization never collide. */
  predicate CreateRefused(s: State, k: LockKey) { k.org.Some? && HasLock(s, k) }

  /** Moves the lock that was found, or inserts one. */
  function LockWritten(s: State, k: LockKey, found: Option<LockId>, newLock: LockId, expiresAt: int): State {
    match found
    case Some(l) => if l in s.locks then s.(locks := s.locks[l := s.locks[l].(expiresAt := expiresAt)]) else s
    case None => s.(locks := s.locks[newLock := Lock(k, expiresAt)])
  }

  function NewRun(q: Request, lockedAt: int, createdAt: int): JobRun {
    JobRun(q.kind, q.org, q.key, QUEUED, 0, MaxAttempts(q.kind), lockedAt, createdAt)
  }

  function RunInserted(s: State, id: RunId, q: Request, lockedAt: int, createdAt: int): State {
    s.(runs := s.runs[id := NewRun(q, lockedAt, createdAt)])
  }

  function Pushed(s: State, id: RunId): State { s.(pending := s.pending + {id}) }

  // ----- an undisturbed enqueue -----

  /** The lock is held at the check and a live run of the job exists. */
  predicate Deduplicates(s: State, q: Request, found: Option<LockId>, checkedAt: int) {
    && IsKey(q.key) && found.Some? && found.value in s.locks && s.locks[found.value].expiresAt > checkedAt
    && HasRun(s, q)
  }

  function Created(s: State, found: Option<LockId>, newLock: LockId, id: RunId, q: Request, c: Clock, added: bool)
    : State
  {
    var s1 := if IsKey(q.key) then LockWritten(s, KeyOf(q), found, newLock, c.lockedAt + Ttl(q.kind)) else s;
    var s2 := RunInserted(s1, id, q, c.lockedAt, c.createdAt);
    if added then Pushed(s2, id) else s2
  }

  function Enqueued(s: State, found: Option<LockId>, newLock: LockId, id: RunId, q: Request, c: Clock, added: bool)
    : State
  {
    if Deduplicates(s, q, found, c.checkedAt) then s else Created(s, found, newLock, id, q, c, added)
  }

  /** A row of the run table that stands for the job and has not failed. */
  predicate StandsFor(r: JobRun, q: Request) {
    r.kind == q.kind && r.org == q.org && r.key == q.key && r.status in {QUEUED, RUNNING, SUCCESS}
  }

  /**
   * What an undisturbed enqueue leaves, on the rows. With a key: nothing new while the lock it found
   * is held and a run stands for the job; otherwise a run, and the key's lock held for the type's TTL
   * from the moment of its write. Without a key: always a run, and no lock.
   */
  lemma EnqueueOutcome(s: State, found: Option<LockId>, newLock: LockId, id: RunId, q: Request, c: Clock, added: bool)
    requires IsKey(q.key) ==> IsLockFound(s, KeyOf(q), found)
    requires id !in s.runs && newLock !in s.locks
    ensures var after := Enqueued(s, found, newLock, id, q, c, added); var keyed := q.key.Some? && q.key.value != "";
            var held := keyed && found.Some? && s.locks[found.value].expiresAt > c.checkedAt;
            var lock := if found.Some? then found.value else newLock;
      && (held && (exists r :: r in s.runs && StandsFor(s.runs[r], q)) ==> after == s)
      && (!held || (forall r :: r in s.runs ==> !StandsFor(s.runs[r], q)) ==>
            && after.runs == s.runs[id :=
                 JobRun(q.kind, q.org, q.key, QUEUED, 0, MaxAttempts(q.kind), c.lockedAt, c.createdAt)]
            && after.locks ==
               (if keyed then s.locks[lock := Lock(LockKey(q.org, q.key.value), c.lockedAt + Ttl(q.kind))] else s.locks)
            && after.pending == (if added then s.pending + {id} else s.pending) && after.inHand == s.inHand)
  {
    assert forall r :: r in s.runs ==> (StandsFor(s.runs[r], q) <==> Matches(s.runs[r], q));
  }

  // ----- the worker and the administrator -----

  /** The worker takes a queue entry. */
  function Started(s: State, id: RunId): State {
    if id !in s.pending || id !in s.runs then s
    else
      var r := s.runs[id];
      s.(runs := s.runs[id := r.(status := RUNNING, attempts := r.attempts + 1)],
         pending := s.pending - {id}, inHand := s.inHand + {id})
  }

  /** A worker that died over an entry: the queue finds it stalled and delivers it again. */
  function Redelivered(s: State, id: RunId): State {
    if id !in s.inHand then s else s.(pending := s.pending + {id}, inHand := s.inHand - {id})
  }

  function Finished(s: State, id: RunId, ok: bool): State {
    if id !in s.inHand || id !in s.runs then s
    else
      var r := s.runs[id];
      var status := if ok then SUCCESS else if r.attempts >= r.maxAttempts then FAILED else RETRYING;
      s.(runs := s.runs[id := r.(status := status)], inHand := s.inHand - {id})
  }

  /** The entry of a retry has the id of the first; `taken` says whether the queue accepts it again. */
  function Retried(s: State, id: RunId, taken: bool): State {
    if id !in s.runs || s.runs[id].status != FAILED then s
    else
      s.(runs := s.runs[id := s.runs[id].(status := QUEUED, attempts := 0)],
         pending := if taken then s.pending + {id} else s.pending)
  }

  // ----- the service and the worker -----

  class Jobs {
    var s: State

    constructor ()
      ensures s == EMPTY
    {
      s := EMPTY;
    }

    /** `findFirst` on the lock table. */
    method FindLock(k: LockKey) returns (found: Option<LockId>)
      ensures IsLockFound(s, k, found)
    {
      if exists l :: l in s.locks && s.locks[l].key == k {
        var l :| l in s.locks && s.locks[l].key == k;
        return Some(l);
      }
      return None;
    }

    /** `enqueue`; `found` is the lock row it read, `added` says whether the queue took the entry. */
    method Enqueue(id: RunId, newLock: LockId, q: Request, c: Clock, added: bool)
      returns (r: Result<Answer, JobError>, found: Option<LockId>)
      requires id !in s.runs && newLock !in s.locks && c.checkedAt <= c.lockedAt <= c.createdAt
      modifies this
      ensures IsKey(q.key) ==> IsLockFound(old(s), KeyOf(q), found)
      ensures s == Enqueued(old(s), found, newLock, id, q, c, added)
      ensures (r.Ok? && r.value.deduplicated) <==> Deduplicates(old(s), q, found, c.checkedAt)
      ensures r.Ok? && r.value.deduplicated ==> IsLatest(s, q, r.value.jobRunId)
      ensures !Deduplicates(old(s), q, found, c.checkedAt) ==>
                r == if added then Ok(Answer(id, false)) else Err(QUEUE_UNAVAILABLE)
    {
      hide Matches, Ttl, NewRun;
      found := None;
      if IsKey(q.key) {
        found := FindLock(KeyOf(q));
        if found.Some? && s.locks[found.value].expiresAt > c.checkedAt {
          var existing := LatestRun(q);
          if existing.Some? { return Ok(Answer(existing.value, true)), found; }
        }
        if found.Some? {
          s := s.(locks := s.locks[found.value := s.locks[found.value].(expiresAt := c.lockedAt + Ttl(q.kind))]);
        } else {
          s := s.(locks := s.locks[newLock := Lock(KeyOf(q), c.lockedAt + Ttl(q.kind))]);
        }
      }
      s := s.(runs := s.runs[id := NewRun(q, c.lockedAt, c.createdAt)]);
      if !added { return Err(QUEUE_UNAVAILABLE), found; }
      s := s.(pending := s.pending + {id});
      return Ok(Answer(id, false)), found;
    }

    /** `findFirst` of the matching live runs, newest first. */
    method LatestRun(q: Request) returns (r: Option<RunId>)
      ensures r.None? <==> !HasRun(s, q)
      ensures r.Some? ==> IsLatest(s, q, r.value)
    {
      r := None;
      var todo := s.runs.Keys;
      while todo != {}
        invariant todo <= s.runs.Keys
        invariant r.None? <==> forall id :: id in s.runs && id !in todo ==> !Matches(s.runs[id], q)
        invariant r.Some? ==> r.value in s.runs && Matches(s.runs[r.value], q)
        invariant r.Some? ==> forall id :: id in s.runs && id !in todo && Matches(s.runs[id], q) ==>
                                s.runs[id].createdAt <= s.runs[r.value].createdAt
        decreases |todo|
      {
        var id :| id in todo;
        todo := todo - {id};
        if Matches(s.runs[id], q) && (r.None? || s.runs[id].createdAt > s.runs[r.value].createdAt) { r := Some(id); }
      }
    }

    /** First half of `processJob`. */
    method Start(id: RunId)
      requires id in s.pending && id in s.runs
      modifies this
      ensures s == Started(old(s), id)
    {
      var r := s.runs[id];
      s := s.(pending := s.pending - {id}, inHand := s.inHand + {id});
      s := s.(runs := s.runs[id := r.(status := RUNNING, attempts := r.attempts + 1)]);
    }

    /** Second half of `processJob`: the handler returned or threw. */
    method Finish(id: RunId, ok: bool)
      requires id in s.inHand && id in s.runs
      modifies this
      ensures s == Finished(old(s), id, ok)
    {
      var r := s.runs[id];
      if ok {
        r := r.(status := SUCCESS);
      } else {
        var isFinal := r.attempts >= r.maxAttempts;
        r := r.(status := if isFinal then FAILED else RETRYING);
      }
      s := s.(runs := s.runs[id := r], inHand := s.inHand - {id});
    }

    /** `retry` by an administrator. */
    method Retry(id: RunId, taken: bool) returns (done: bool)
      modifies this
      ensures s == Retried(old(s), id, taken)
      ensures done <==> id in old(s).runs && old(s).runs[id].status == FAILED
    {
      if id !in s.runs || s.runs[id].status != FAILED { return false; }
      s := s.(runs := s.runs[id := s.runs[id].(status := QUEUED, attempts := 0)]);
      if taken { s := s.(pending := s.pending + {id}); }
      return true;
    }
  }

  /** A live run of the job none of whose like was created later. */
  predicate IsLatest(s: State, q: Request, id: RunId) {
    && id in s.runs && Matches(s.runs[id], q)
    && forall r :: r in s.runs && Matches(s.runs[r], q) ==> s.runs[r].createdAt <= s.runs[id].createdAt
  }
}
