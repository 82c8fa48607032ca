/**
 * Fixed-window rate limiter. The per-route guard deletes expired buckets now and then; the
 * global guard is the same counter without the deletion. Timestamps are ms.
 */
module RateLimit {
  import opened Prelude

  const CLEANUP_INTERVAL: int := 60000
  const GLOBAL_WINDOW_MS: nat := 5 * 60 * 1000

  datatype Bucket = Bucket(count: nat, resetAt: int)

  type Buckets = map<string, Bucket>

  /**
   * One guarded request. The guard reads the clock twice, once inside `cleanup` and once for the
   * decision.
   */
  datatype Request = Request(key: string, max: nat, windowMs: nat, cleanAt: int, now: int)

  /** What the caller observes: the decision, and the numbers in the response headers. */
  datatype Answer = Answer(admitted: bool, remaining: nat, resetAt: int, retryAfterSeconds: int)

  datatype State = State(store: Buckets, lastCleanup: int)

  // ----- specification -----

  predicate Expired(store: Buckets, key: string, now: int) { key !in store || store[key].resetAt < now }

  /** The bucket the request is counted in, with the request counted. */
  function Counted(store: Buckets, r: Request): Bucket {
    if Expired(store, r.key, r.now) then Bucket(1, r.now + r.windowMs)
    else Bucket(store[r.key].count + 1, store[r.key].resetAt)
  }

  /** Rounds milliseconds up to seconds; the dividend can be negative. */
  function CeilSeconds(ms: int): int { -((-ms) / 1000) }

  function AnswerOf(b: Bucket, r: Request): Answer {
    Answer(b.count <= r.max, Max(0, r.max - b.count), CeilSeconds(b.resetAt), CeilSeconds(b.resetAt - r.now))
  }

  /** The counter that never deletes. */
  function PlainStep(store: Buckets, r: Request): Buckets { store[r.key := Counted(store, r)] }

  function Swept(store: Buckets, now: int): Buckets {
    map k | k in store && store[k].resetAt >= now :: store[k]
  }

  function Cleaned(s: State, now: int): State {
    if now - s.lastCleanup < CLEANUP_INTERVAL then s else State(Swept(s.store, now), now)
  }

  function Step(s: State, r: Request): State {
    var c := Cleaned(s, r.cleanAt);
    c.(store := PlainStep(c.store, r))
  }

  function Answers(s: State, requests: seq<Request>): (a: seq<Answer>)
    ensures |a| == |requests|
    decreases |requests|
  {
    if requests == [] then []
    else
      [AnswerOf(Counted(Cleaned(s, requests[0].cleanAt).store, requests[0]), requests[0])]
      + Answers(Step(s, requests[0]), requests[1..])
  }

  function PlainAnswers(store: Buckets, requests: seq<Request>): (a: seq<Answer>)
    ensures |a| == |requests|
    decreases |requests|
  {
    if requests == [] then []
    else
      var answer := AnswerOf(Counted(store, requests[0]), requests[0]);
      [answer] + PlainAnswers(PlainStep(store, requests[0]), requests[1..])
  }

  /** The clock never goes back, within a request and between requests. */
  ghost predicate InOrder(requests: seq<Request>) {
    && (forall i :: 0 <= i < |requests| ==> requests[i].cleanAt <= requests[i].now)
    && (forall i, j :: 0 <= i < j < |requests| ==> requests[i].now <= requests[j].cleanAt)
  }

  // ----- the guards -----

  /** `Math.ceil(ms / 1000)` is the least whole number of seconds that covers the milliseconds. */
  lemma CeilSecondsIsLeast(ms: int, s: int)
    ensures s * 1000 >= ms <==> s >= CeilSeconds(ms)
  {
  }

  class Guards {
    var store: Buckets
    var lastCleanup: int
    var globalStore: Buckets

    constructor (now: int)
      ensures store == map[] && globalStore == map[] && lastCleanup == now
    {
      store, globalStore, lastCleanup := map[], map[], now;
    }

    method Cleanup(now: int)
      modifies this`store, this`lastCleanup
      ensures State(store, lastCleanup) == Cleaned(old(State(store, lastCleanup)), now)
      ensures now - old(lastCleanup) < 60_000 ==> store == old(store) && lastCleanup == old(lastCleanup)
      ensures now - old(lastCleanup) >= 60_000 ==>
                && lastCleanup == now
                && (forall k :: k in store <==> k in old(store) && old(store)[k].resetAt >= now)
                && (forall k :: k in store ==> store[k] == old(store)[k])
    {
      if now - lastCleanup < CLEANUP_INTERVAL { return; }
      lastCleanup := now;
      var todo := store.Keys;
      while todo != {}
        invariant todo <= store.Keys && lastCleanup == now
        invariant store == map k | k in old(store) && (k in todo || old(store)[k].resetAt >= now) :: old(store)[k]
        decreases |todo|
      {
        var k :| k in todo;
        if store[k].resetAt < now { store := store - {k}; }
        todo := todo - {k};
      }
    }

    /** `RateLimitGuard.canActivate` for a route with a policy. */
    method CanActivate(r: Request) returns (a: Answer)
      modifies this`store, this`lastCleanup
      ensures State(store, lastCleanup) == Step(old(State(store, lastCleanup)), r)
      ensures a == AnswerOf(store[r.key], r)
      ensures lastCleanup == if r.cleanAt - old(lastCleanup) < 60_000 then old(lastCleanup) else r.cleanAt
      ensures forall k :: k != r.key ==>
                && (k in store <==>
                      && k in old(store)
                      && (r.cleanAt - old(lastCleanup) >= 60_000 ==> old(store)[k].resetAt >= r.cleanAt))
                && (k in store ==> store[k] == old(store)[k])
      ensures [a] == Answers(old(State(store, lastCleanup)), [r])
    {
      Cleanup(r.cleanAt);
      var bucket;
      if r.key !in store || store[r.key].resetAt < r.now {
        bucket := Bucket(0, r.now + r.windowMs);
      } else {
        bucket := store[r.key];
      }
      bucket := bucket.(count := bucket.count + 1);
      store := store[r.key := bucket];
      a := AnswerOf(bucket, r);
    }

    /** `GlobalRateLimitGuard.canActivate`: 300 a window for a user, 500 for an address. */
    method GlobalCanActivate(userId: Option<string>, ip: string, now: int) returns (a: Answer)
      modifies this`globalStore
      ensures var r := GlobalRequest(userId, ip, now);
              globalStore == PlainStep(old(globalStore), r) && [a] == PlainAnswers(old(globalStore), [r])
    {
      var key := if userId.Some? then "grl:user:" + userId.value else "grl:ip:" + ip;
      var max: nat := if userId.Some? then 300 else 500;
      var bucket;
      if key !in globalStore || globalStore[key].resetAt < now {
        bucket := Bucket(0, now + GLOBAL_WINDOW_MS);
      } else {
        bucket := globalStore[key];
      }
      bucket := bucket.(count := bucket.count + 1);
      globalStore := globalStore[key := bucket];
      a := AnswerOf(bucket, Request(key, max, GLOBAL_WINDOW_MS, now, now));
    }
  }

  function GlobalRequest(userId: Option<string>, ip: string, now: int): Request {
    if userId.Some? then Request("grl:user:" + userId.value, 300, GLOBAL_WINDOW_MS, now, now)
    else Request("grl:ip:" + ip, 500, GLOBAL_WINDOW_MS, now, now)
  }

  /** Every user has a bucket of its own, apart from every address; 300 and 500 requests in five minutes. */
  lemma GlobalKeysApart(user: Option<string>, ip: string, now: int, user': Option<string>, ip': string, now': int)
    ensures var r, r' := GlobalRequest(user, ip, now), GlobalRequest(user', ip', now');
      && (r.key == r'.key <==> user == user' && (user.None? ==> ip == ip'))
      && r.max == (if user.Some? then 300 else 500) && r.windowMs == 300_000 && r.now == now
  {
    var r, r' := GlobalRequest(user, ip, now), GlobalRequest(user', ip', now');
    assert r.key[4] == if user.Some? then 'u' else 'i';
    assert r'.key[4] == if user'.Some? then 'u' else 'i';
    if r.key == r'.key {
      if user.Some? {
        assert user.value == r.key[9..] && user'.value == r'.key[9..];
      } else {
        assert ip == r.key[7..] && ip' == r'.key[7..];
      }
    }
  }

  // ----- lazy deletion changes nothing -----

  /** The two stores differ only in buckets that are over by time t. */
  ghost predicate SameUpTo(store: Buckets, plain: Buckets, t: int) {
    && (forall k :: k in store ==> k in plain && plain[k] == store[k])
    && (forall k :: k in plain && k !in store ==> plain[k].resetAt < t)
  }

  /** On every sequence of requests, for all keys and policies, both limiters answer alike. */
  lemma {:induction false} CleanupIsInvisible(s: State, plain: Buckets, requests: seq<Request>, t: int)
    requires SameUpTo(s.store, plain, t) && InOrder(requests)
    requires forall i :: 0 <= i < |requests| ==> t <= requests[i].cleanAt
    ensures Answers(s, requests) == PlainAnswers(plain, requests)
    decreases |requests|
  {
    if requests != [] {
      var r := requests[0];
      assert SameUpTo(Cleaned(s, r.cleanAt).store, plain, r.now);
      assert SameUpTo(Step(s, r).store, PlainStep(plain, r), r.now);
      CleanupIsInvisible(Step(s, r), PlainStep(plain, r), requests[1..], r.now);
    }
  }

  // ----- how many requests get through -----

  predicate Admits(store: Buckets, r: Request) { Counted(store, r).count <= r.max }

  predicate Inside(r: Request, key: string, from: int, to: int) { r.key == key && from <= r.now <= to }

  /** Requests of the key admitted inside the closed interval. */
  function Admitted(store: Buckets, requests: seq<Request>, key: string, from: int, to: int): nat
    decreases |requests|
  {
    if requests == [] then 0
    else
      (if Inside(requests[0], key, from, to) && Admits(store, requests[0]) then 1 else 0)
      + Admitted(PlainStep(store, requests[0]), requests[1..], key, from, to)
  }

  /** The same count, read off the answers a limiter gave. */
  function PositiveAnswers(requests: seq<Request>, answers: seq<Answer>, key: string, from: int, to: int): nat
    requires |answers| == |requests|
  {
    if requests == [] then 0
    else
      (if Inside(requests[0], key, from, to) && answers[0].admitted then 1 else 0)
      + PositiveAnswers(requests[1..], answers[1..], key, from, to)
  }

  lemma {:induction false} AdmittedCountsAnswers(store: Buckets, requests: seq<Request>, key: string, from: int,
                                                 to: int)
    ensures Admitted(store, requests, key, from, to)
            == PositiveAnswers(requests, PlainAnswers(store, requests), key, from, to)
    decreases |requests|
  {
    if requests != [] {
      AdmittedCountsAnswers(PlainStep(store, requests[0]), requests[1..], key, from, to);
      assert PlainAnswers(store, requests)[1..] == PlainAnswers(PlainStep(store, requests[0]), requests[1..]);
    }
  }

  /** One window length for the key, and at most `max` per window. */
  ghost predicate Uniform(requests: seq<Request>, key: string, max: nat, windowMs: nat) {
    forall r :: r in requests && r.key == key ==> r.windowMs == windowMs && r.max <= max
  }

  lemma {:induction false} NoneAfter(store: Buckets, requests: seq<Request>, key: string, from: int, to: int)
    requires forall r :: r in requests ==> r.now > to
    ensures Admitted(store, requests, key, from, to) == 0
    decreases |requests|
  {
    if requests != [] { NoneAfter(PlainStep(store, requests[0]), requests[1..], key, from, to); }
  }

  function Times(n: nat, x: nat): nat { n * x }

  lemma TimesStep(n: nat, x: nat)
    ensures Times(0, x) == 0 && (n > 0 ==> Times(n, x) == Times(n - 1, x) + x)
  {
    if n > 0 { assert n * x == (n - 1) * x + x; }
  }

  /** A bucket with `count` requests admits the rest of its window, then `max` for each of j more. */
  lemma {:induction false} FromBucket(store: Buckets, requests: seq<Request>, key: string, max: nat, windowMs: nat,
                                      from: int, to: int, j: nat)
    requires InOrder(requests) && Uniform(requests, key, max, windowMs)
    requires key in store && to <= store[key].resetAt + Times(j, windowMs)
    ensures Admitted(store, requests, key, from, to) <= max - Min(store[key].count, max) + Times(j, max)
    decreases |requests|
  {
    hide Times;
    TimesStep(j, windowMs);
    TimesStep(j, max);
    if requests != [] {
      var r := requests[0];
      assert r in requests;
      if r.now > to {
        forall q | q in requests ensures q.now > to {
          var i :| 0 <= i < |requests| && requests[i] == q;
          assert i > 0 ==> requests[0].now <= requests[i].cleanAt;
        }
        NoneAfter(store, requests, key, from, to);
      } else if r.key != key || r.now <= store[key].resetAt {
        FromBucket(PlainStep(store, r), requests[1..], key, max, windowMs, from, to, j);
      } else {
        FromBucket(PlainStep(store, r), requests[1..], key, max, windowMs, from, to, j - 1);
      }
    }
  }

  /** Most requests one key can get through in a closed interval of k windows. */
  function Cap(k: nat, max: nat): nat {
    if max == 0 then 0 else if k == 0 then max else (k + 1) * max - 1
  }

  lemma CapCovers(k: nat, max: nat, count: nat)
    requires count >= 1
    ensures max - Min(count, max) + Times(k, max) <= Cap(k, max)
    ensures if k == 0 then Cap(k, max) == max else Times(k, max) <= Cap(k, max)
  {
    assert (k + 1) * max == k * max + max;
  }

  lemma {:induction false} IntervalFrom(store: Buckets, requests: seq<Request>, key: string, max: nat, windowMs: nat,
                                        from: int, k: nat)
    requires InOrder(requests) && Uniform(requests, key, max, windowMs)
    requires key in store ==> store[key].count >= 1
    ensures Admitted(store, requests, key, from, from + Times(k, windowMs)) <= Cap(k, max)
    decreases |requests|
  {
    hide Times, Cap;
    TimesStep(k, windowMs);
    TimesStep(k, max);
    CapCovers(k, max, if key in store then store[key].count else 1);
    if requests != [] {
      var r := requests[0];
      assert r in requests;
      var to := from + Times(k, windowMs);
      if r.key != key || r.now < from {
        IntervalFrom(PlainStep(store, r), requests[1..], key, max, windowMs, from, k);
      } else if !Expired(store, key, r.now) {
        FromBucket(store, requests, key, max, windowMs, from, to, k);
      } else {
        FromBucket(PlainStep(store, r), requests[1..], key, max, windowMs, from, to, if k == 0 then 0 else k - 1);
      }
    }
  }

  /**
   * In any closed interval of k windows, whatever other keys and policies do, the limiter with
   * lazy deletion admits at most (k + 1) * max - 1 requests of one key (max of them when k is 0).
   */
  lemma AtMostCap(requests: seq<Request>, key: string, max: nat, windowMs: nat, from: int, k: nat, start: int)
    requires InOrder(requests) && Uniform(requests, key, max, windowMs)
    requires forall i :: 0 <= i < |requests| ==> start <= requests[i].cleanAt
    ensures PositiveAnswers(requests, Answers(State(map[], start), requests), key, from, from + Times(k, windowMs))
            <= Cap(k, max)
  {
    hide Cap, Inside, PlainAnswers, Answers, Admitted, PositiveAnswers;
    CleanupIsInvisible(State(map[], start), map[], requests, start);
    AdmittedCountsAnswers(map[], requests, key, from, from + Times(k, windowMs));
    IntervalFrom(map[], requests, key, max, windowMs, from, k);
  }

  /** The global guard keeps the same bound, and a key always carries the same limit. */
  lemma GlobalAtMostCap(calls: seq<(Option<string>, string, int)>, key: string, from: int, k: nat)
    requires forall i, j :: 0 <= i < j < |calls| ==> calls[i].2 <= calls[j].2
    ensures var requests := seq(|calls|, i requires 0 <= i < |calls| =>
              GlobalRequest(calls[i].0, calls[i].1, calls[i].2));
            Admitted(map[], requests, key, from, from + Times(k, GLOBAL_WINDOW_MS))
              <= Cap(k, if |key| > 4 && key[4] == 'u' then 300 else 500)
  {
    var requests := seq(|calls|, i requires 0 <= i < |calls| => GlobalRequest(calls[i].0, calls[i].1, calls[i].2));
    IntervalFrom(map[], requests, key, if |key| > 4 && key[4] == 'u' then 300 else 500, GLOBAL_WINDOW_MS, from, k);
  }

  // ----- the bound is reached -----

  /** n equal requests at one instant. */
  function Burst(key: string, max: nat, windowMs: nat, now: int, n: nat): seq<Request> {
    seq(n, _ => Request(key, max, windowMs, now, now))
  }

  lemma {:induction false} BurstAdmits(store: Buckets, key: string, max: nat, windowMs: nat, now: int, n: nat,
                                       tail: seq<Request>, from: int, to: int)
    requires from <= now <= to && key in store && store[key].resetAt >= now && store[key].count + n <= max
    ensures Admitted(store, Burst(key, max, windowMs, now, n) + tail, key, from, to)
            == n + Admitted(store[key := Bucket(store[key].count + n, store[key].resetAt)], tail, key, from, to)
    decreases n
  {
    var all := Burst(key, max, windowMs, now, n) + tail;
    if n == 0 {
      assert all == tail && store[key := Bucket(store[key].count, store[key].resetAt)] == store;
    } else {
      var r := Request(key, max, windowMs, now, now);
      assert all[0] == r && all[1..] == Burst(key, max, windowMs, now, n - 1) + tail;
      BurstAdmits(PlainStep(store, r), key, max, windowMs, now, n - 1, tail, from, to);
      assert PlainStep(store, r)[key := Bucket(store[key].count + n, store[key].resetAt)]
          == store[key := Bucket(store[key].count + n, store[key].resetAt)];
    }
  }

  /** A whole window's worth at the instant that opens it. */
  lemma FullBurst(store: Buckets, key: string, max: nat, windowMs: nat, now: int, tail: seq<Request>, from: int,
                  to: int)
    requires max >= 1 && from <= now <= to && Expired(store, key, now)
    ensures Admitted(store, Burst(key, max, windowMs, now, max) + tail, key, from, to)
            == max + Admitted(store[key := Bucket(max, now + windowMs)], tail, key, from, to)
  {
    var r := Request(key, max, windowMs, now, now);
    var all := Burst(key, max, windowMs, now, max) + tail;
    assert all[0] == r && all[1..] == Burst(key, max, windowMs, now, max - 1) + tail;
    BurstAdmits(PlainStep(store, r), key, max, windowMs, now, max - 1, tail, from, to);
    assert PlainStep(store, r)[key := Bucket(max, now + windowMs)] == store[key := Bucket(max, now + windowMs)];
  }

  /** n windows, each used up at the instant after the one before is over. */
  function Windows(key: string, max: nat, windowMs: nat, start: int, n: nat): seq<Request>
    decreases n
  {
    if n == 0 then []
    else Burst(key, max, windowMs, start, max) + Windows(key, max, windowMs, start + windowMs + 1, n - 1)
  }

  lemma {:induction false} WindowsAdmit(store: Buckets, key: string, max: nat, windowMs: nat, start: int, n: nat,
                                        from: int, to: int)
    requires max >= 1 && from <= start && Expired(store, key, start)
    requires n > 0 ==> start + Times(n - 1, windowMs + 1) <= to
    ensures Admitted(store, Windows(key, max, windowMs, start, n), key, from, to) == Times(n, max)
    decreases n
  {
    hide Times;
    TimesStep(n, max);
    if n > 0 {
      TimesStep(n - 1, windowMs + 1);
      TimesIsNat(n - 1, windowMs + 1);
      FullBurst(store, key, max, windowMs, start, Windows(key, max, windowMs, start + windowMs + 1, n - 1), from, to);
      WindowsAdmit(store[key := Bucket(max, start + windowMs)], key, max, windowMs, start + windowMs + 1, n - 1,
        from, to);
    }
  }

  lemma TimesIsNat(n: nat, x: nat)
    ensures Times(n, x) >= 0
  {
  }

  /** One early request, the rest of its window at the window's last instant, then k windows used up at once. */
  function WorstCase(key: string, max: nat, windowMs: nat, k: nat): seq<Request>
    requires max >= 1
  {
    [Request(key, max, windowMs, 0, 0)]
    + (Burst(key, max, windowMs, windowMs, max - 1) + Windows(key, max, windowMs, windowMs + 1, k))
  }

  predicate Within(requests: seq<Request>, key: string, max: nat, windowMs: nat, from: int) {
    forall r :: r in requests ==> r == Request(key, max, windowMs, r.now, r.now) && r.now >= from
  }

  lemma InOrderConcat(a: seq<Request>, b: seq<Request>, mid: int)
    requires InOrder(a) && InOrder(b)
    requires (forall r :: r in a ==> r.now <= mid) && (forall r :: r in b ==> mid <= r.cleanAt)
    ensures InOrder(a + b)
  {
    forall i, j | 0 <= i < j < |a + b| ensures (a + b)[i].now <= (a + b)[j].cleanAt {
      if i < |a| <= j { assert a[i] in a && b[j - |a|] in b; }
    }
  }

  lemma {:induction false} WindowsAreARun(key: string, max: nat, windowMs: nat, start: int, n: nat)
    ensures InOrder(Windows(key, max, windowMs, start, n))
    ensures Within(Windows(key, max, windowMs, start, n), key, max, windowMs, start)
    decreases n
  {
    if n > 0 {
      WindowsAreARun(key, max, windowMs, start + windowMs + 1, n - 1);
      InOrderConcat(Burst(key, max, windowMs, start, max), Windows(key, max, windowMs, start + windowMs + 1, n - 1),
        start);
    }
  }

  lemma WorstCaseIsARun(key: string, max: nat, windowMs: nat, k: nat)
    requires max >= 1
    ensures InOrder(WorstCase(key, max, windowMs, k)) && Uniform(WorstCase(key, max, windowMs, k), key, max, windowMs)
  {
    var burst, rest := Burst(key, max, windowMs, windowMs, max - 1), Windows(key, max, windowMs, windowMs + 1, k);
    WindowsAreARun(key, max, windowMs, windowMs + 1, k);
    InOrderConcat(burst, rest, windowMs);
    InOrderConcat([Request(key, max, windowMs, 0, 0)], burst + rest, 0);
  }

  /** For every k up to the window's length in ms some run reaches the bound of k windows. */
  lemma CapIsReached(key: string, max: nat, windowMs: nat, k: nat)
    requires max >= 1 && 1 <= k <= windowMs
    ensures Admitted(map[], WorstCase(key, max, windowMs, k), key, k, k + Times(k, windowMs)) == Cap(k, max)
  {
    var first := Request(key, max, windowMs, 0, 0);
    var burst, rest := Burst(key, max, windowMs, windowMs, max - 1), Windows(key, max, windowMs, windowMs + 1, k);
    var to := k + Times(k, windowMs);
    assert WorstCase(key, max, windowMs, k)[1..] == burst + rest;
    LastOpening(k, windowMs);
    CapExact(k, max);
    hide Times, Cap, Windows;
    BurstAdmits(PlainStep(map[], first), key, max, windowMs, windowMs, max - 1, rest, k, to);
    WindowsAdmit(PlainStep(map[], first)[key := Bucket(max, windowMs)], key, max, windowMs, windowMs + 1, k, k, to);
  }

  lemma LastOpening(k: nat, windowMs: nat)
    requires k >= 1
    ensures windowMs + 1 + Times(k - 1, windowMs + 1) == k + Times(k, windowMs) && Times(k, windowMs) >= windowMs
  {
    assert (k - 1) * (windowMs + 1) == k * windowMs + k - windowMs - 1;
    assert k * windowMs == (k - 1) * windowMs + windowMs;
  }

  lemma CapExact(k: nat, max: nat)
    requires max >= 1 && k >= 1
    ensures Cap(k, max) == max - 1 + Times(k, max)
  {
    assert (k + 1) * max == k * max + max;
  }

  // ----- what the headers promise -----

  /** While the window lasts, the next request is admitted exactly when `remaining` is not 0. */
  lemma RemainingIsHonest(store: Buckets, r: Request, next: Request)
    requires next.key == r.key && next.max == r.max && next.now <= Counted(store, r).resetAt
    ensures Admits(PlainStep(store, r), next) <==> AnswerOf(Counted(store, r), r).remaining > 0
  {
  }

  /**
   * A refused client that waits exactly the seconds of `Retry-After` is admitted if and only if the
   * rest of its window was not a whole number of seconds: at the reset instant itself the old
   * bucket still counts.
   */
  lemma RetryAfterIff(store: Buckets, r: Request, next: Request)
    requires !Admits(store, r) && r.max >= 1 && next.key == r.key && next.max == r.max
    requires next.now == r.now + 1000 * AnswerOf(Counted(store, r), r).retryAfterSeconds
    ensures Admits(PlainStep(store, r), next) <==> (Counted(store, r).resetAt - r.now) % 1000 != 0
  {
    var rest := Counted(store, r).resetAt - r.now;
    CeilSecondsIsLeast(rest, CeilSeconds(rest));
    CeilSecondsIsLeast(rest, CeilSeconds(rest) - 1);
  }

  // ----- who gets refused -----

  /** Requests of the key inside the closed interval, admitted or not. */
  function Sent(requests: seq<Request>, key: string, from: int, to: int): nat {
    if requests == [] then 0
    else
      var last := if Inside(requests[|requests| - 1], key, from, to) then 1 else 0;
      Sent(requests[..|requests| - 1], key, from, to) + last
  }

  function StoreAfter(requests: seq<Request>): Buckets {
    if requests == [] then map[] else PlainStep(StoreAfter(requests[..|requests| - 1]), requests[|requests| - 1])
  }

  lemma {:induction false} SentWider(requests: seq<Request>, key: string, from: int, to: int, to': int)
    requires to <= to'
    ensures Sent(requests, key, from, to) <= Sent(requests, key, from, to')
    decreases |requests|
  {
    if requests != [] { SentWider(requests[..|requests| - 1], key, from, to, to'); }
  }

  /** A bucket counts no more than was sent since it was opened, one window before it resets. */
  lemma {:induction false} BucketCounts(requests: seq<Request>, key: string, max: nat, windowMs: nat)
    requires InOrder(requests) && Uniform(requests, key, max, windowMs) && requests != []
    requires key in StoreAfter(requests)
    ensures var b := StoreAfter(requests)[key];
            b.count <= Sent(requests, key, b.resetAt - windowMs, requests[|requests| - 1].now)
            && b.resetAt - windowMs <= requests[|requests| - 1].now
    decreases |requests|
  {
    var n := |requests| - 1;
    var before, last := requests[..n], requests[n];
    assert last in requests;
    if key in StoreAfter(before) && before != [] {
      forall r | r in before ensures r in requests { }
      BucketCounts(before, key, max, windowMs);
      SentWider(before, key, StoreAfter(before)[key].resetAt - windowMs, before[n - 1].now, last.now);
    }
  }

  /**
   * Only a sender of more than `max` requests within one window length is ever refused: a refused
   * request is at least the (max + 1)-th of its key in the closed window that ends with it.
   */
  lemma RefusedOnlyAboveMax(requests: seq<Request>, r: Request, windowMs: nat)
    requires InOrder(requests + [r]) && Uniform(requests + [r], r.key, r.max, windowMs)
    requires !Admits(StoreAfter(requests), r)
    ensures Sent(requests + [r], r.key, r.now - windowMs, r.now) > r.max
  {
    var all := requests + [r];
    assert r in all && all[..|requests|] == requests;
    var b := Counted(StoreAfter(requests), r);
    assert StoreAfter(all) == PlainStep(StoreAfter(requests), r);
    BucketCounts(all, r.key, r.max, windowMs);
    if b.resetAt >= r.now { SentLater(all, r.key, b.resetAt - windowMs, r.now - windowMs, r.now); }
  }

  lemma {:induction false} SentLater(requests: seq<Request>, key: string, from: int, from': int, to: int)
    requires from' <= from
    ensures Sent(requests, key, from, to) <= Sent(requests, key, from', to)
    decreases |requests|
  {
    if requests != [] { SentLater(requests[..|requests| - 1], key, from, from', to); }
  }
}
