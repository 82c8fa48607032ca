/**
 * The in-memory store of seen webhook events, with lazy clean-up. Timestamps are ms.
 */
module ReplayStore {
  import opened Prelude

  const REPLAY_WINDOW_MS: int := 5 * 60 * 1000
  const CLEANUP_INTERVAL_MS: int := 60 * 1000

  /** One check. The clock is read inside the clean-up and again when the event is stored. */
  datatype Call = Call(channel: string, eventId: string, cleanAt: int, now: int)

  datatype State = State(events: map<string, int>, lastCleanup: int)

  function Key(c: Call): string { c.channel + ":" + c.eventId }

  function Cleaned(s: State, now: int): State {
    if now - s.lastCleanup < CLEANUP_INTERVAL_MS then s
    else State(map k | k in s.events && s.events[k] >= now - REPLAY_WINDOW_MS :: s.events[k], now)
  }

  predicate IsReplay(s: State, c: Call) { Key(c) in Cleaned(s, c.cleanAt).events }

  function Step(s: State, c: Call): State {
    var s1 := Cleaned(s, c.cleanAt);
    if Key(c) in s1.events then s1 else s1.(events := s1.events[Key(c) := c.now])
  }

  class Replays {
    var processedEvents: map<string, int>
    var lastCleanup: int

    constructor (now: int)
      ensures State(processedEvents, lastCleanup) == State(map[], now)
    {
      processedEvents, lastCleanup := map[], now;
    }

    method CleanupReplayStore(now: int)
      modifies this
      ensures State(processedEvents, lastCleanup) == Cleaned(old(State(processedEvents, lastCleanup)), now)
      ensures now - old(lastCleanup) < 60_000 ==>
                processedEvents == old(processedEvents) && lastCleanup == old(lastCleanup)
      ensures now - old(lastCleanup) >= 60_000 ==>
                && lastCleanup == now
                && (forall k :: k in processedEvents <==>
                      k in old(processedEvents) && old(processedEvents)[k] >= now - 300_000)
                && (forall k :: k in processedEvents ==> processedEvents[k] == old(processedEvents)[k])
    {
      if now - lastCleanup < CLEANUP_INTERVAL_MS { return; }
      lastCleanup := now;
      var cutoff := now - REPLAY_WINDOW_MS;
      var todo := processedEvents.Keys;
      while todo != {}
        invariant todo <= processedEvents.Keys && lastCleanup == now
        invariant processedEvents ==
          map k | k in old(processedEvents) && (k in todo || old(processedEvents)[k] >= cutoff) ::
            old(processedEvents)[k]
        decreases |todo|
      {
        var k :| k in todo;
        if processedEvents[k] < cutoff { processedEvents := processedEvents - {k}; }
        todo := todo - {k};
      }
    }

    method IsReplayAttack(c: Call) returns (replay: bool)
      modifies this
      ensures replay == IsReplay(old(State(processedEvents, lastCleanup)), c)
      ensures State(processedEvents, lastCleanup) == Step(old(State(processedEvents, lastCleanup)), c)
    {
      CleanupReplayStore(c.cleanAt);
      var key := c.channel + ":" + c.eventId;
      if key in processedEvents { return true; }
      processedEvents := processedEvents[key := c.now];
      return false;
    }
  }

  // ----- runs -----

  function After(start: int, calls: seq<Call>): State {
    if calls == [] then State(map[], start) else Step(After(start, calls[..|calls| - 1]), calls[|calls| - 1])
  }

  /** Call i of the run is let through. */
  predicate Accepted(start: int, calls: seq<Call>, i: nat)
    requires i < |calls|
  {
    !IsReplay(After(start, calls[..i]), calls[i])
  }

  ghost predicate InOrder(start: int, calls: seq<Call>) {
    && (forall i :: 0 <= i < |calls| ==> start <= calls[i].cleanAt <= calls[i].now)
    && (forall i, j :: 0 <= i < j < |calls| ==> calls[i].now <= calls[j].cleanAt)
  }

  /** When the key was last let through in the run. */
  function LastAccepted(start: int, calls: seq<Call>, key: string): Option<int> {
    if calls == [] then None
    else
      var n := |calls| - 1;
      if Key(calls[n]) == key && Accepted(start, calls, n) then Some(calls[n].now)
      else LastAccepted(start, calls[..n], key)
  }

  lemma PrefixInOrder(start: int, calls: seq<Call>, n: nat)
    requires InOrder(start, calls) && n <= |calls|
    ensures InOrder(start, calls[..n])
  {
  }

  /** Nothing in the store, and no clean-up, is from later than the end of the run. */
  lemma {:induction false} StoreIsPast(start: int, calls: seq<Call>, t: int)
    requires InOrder(start, calls) && start <= t && forall i :: 0 <= i < |calls| ==> calls[i].now <= t
    ensures After(start, calls).lastCleanup <= t
    ensures forall k :: k in After(start, calls).events ==> After(start, calls).events[k] <= t
    decreases |calls|
  {
    if calls != [] {
      PrefixInOrder(start, calls, |calls| - 1);
      StoreIsPast(start, calls[..|calls| - 1], t);
    }
  }

  /**
   * The lazily cleaned store holds exactly what an unlimited log would, minus what the last
   * clean-up found older than the window.
   */
  lemma {:induction false} StoreIsRecentLog(start: int, calls: seq<Call>, key: string)
    requires InOrder(start, calls)
    ensures var s := After(start, calls);
            var last := LastAccepted(start, calls, key);
            && (key in s.events <==> last.Some? && last.value >= s.lastCleanup - REPLAY_WINDOW_MS)
            && (key in s.events ==> last == Some(s.events[key]))
    decreases |calls|
  {
    if calls != [] {
      var n := |calls| - 1;
      var before, c := calls[..n], calls[n];
      PrefixInOrder(start, calls, n);
      StoreIsPast(start, before, c.cleanAt);
      StoreIsRecentLog(start, before, key);
    }
  }

  /** A check is a replay exactly when the key's last accepted time survives the latest clean-up. */
  lemma ReplayIff(start: int, calls: seq<Call>, c: Call)
    requires InOrder(start, calls + [c])
    ensures var last := LastAccepted(start, calls, Key(c));
            var s := After(start, calls);
            IsReplay(s, c) <==> last.Some? && last.value >= Cleaned(s, c.cleanAt).lastCleanup - REPLAY_WINDOW_MS
  {
    assert (calls + [c])[..|calls|] == calls;
    PrefixInOrder(start, calls + [c], |calls|);
    forall i | 0 <= i < |calls| ensures calls[i].now <= c.cleanAt {
      assert (calls + [c])[i] == calls[i] && (calls + [c])[|calls|] == c;
    }
    assert (calls + [c])[|calls|] == c;
    StoreIsPast(start, calls, c.cleanAt);
    StoreIsRecentLog(start, calls, Key(c));
  }

  /**
   * An event never let through before is accepted. Up to five minutes after its last acceptance it
   * is a replay; from six minutes on it never is.
   */
  lemma ReplayWindow(start: int, calls: seq<Call>, c: Call)
    requires InOrder(start, calls + [c])
    ensures LastAccepted(start, calls, Key(c)).None? ==> !IsReplay(After(start, calls), c)
    ensures LastAccepted(start, calls, Key(c)).Some? ==>
      var age := c.cleanAt - LastAccepted(start, calls, Key(c)).value;
      && (age <= REPLAY_WINDOW_MS ==> IsReplay(After(start, calls), c))
      && (age >= REPLAY_WINDOW_MS + CLEANUP_INTERVAL_MS ==> !IsReplay(After(start, calls), c))
  {
    ReplayIff(start, calls, c);
    assert (calls + [c])[..|calls|] == calls && (calls + [c])[|calls|] == c;
    PrefixInOrder(start, calls + [c], |calls|);
    forall i | 0 <= i < |calls| ensures calls[i].now <= c.cleanAt { assert (calls + [c])[i] == calls[i]; }
    StoreIsPast(start, calls, c.cleanAt);
  }

  /** After every check nothing in the store is six minutes old. */
  lemma NothingOld(start: int, calls: seq<Call>, key: string)
    requires InOrder(start, calls) && calls != []
    requires key in After(start, calls).events
    ensures calls[|calls| - 1].cleanAt - After(start, calls).events[key] < REPLAY_WINDOW_MS + CLEANUP_INTERVAL_MS
  {
    StoreIsRecentLog(start, calls, key);
  }

  lemma {:induction false} LastAcceptedIsLatest(start: int, calls: seq<Call>, i: nat)
    requires InOrder(start, calls) && i < |calls| && Accepted(start, calls, i)
    ensures LastAccepted(start, calls, Key(calls[i])).Some?
            && LastAccepted(start, calls, Key(calls[i])).value >= calls[i].now
    decreases |calls|
  {
    var n := |calls| - 1;
    if i < n {
      PrefixInOrder(start, calls, n);
      assert calls[..n][..i] == calls[..i];
      LastAcceptedIsLatest(start, calls[..n], i);
    }
  }

  /** One event is never let through twice within five minutes, on any run. */
  lemma AcceptedFarApart(start: int, calls: seq<Call>, i: nat, j: nat)
    requires InOrder(start, calls) && i < j < |calls| && Key(calls[i]) == Key(calls[j])
    requires Accepted(start, calls, i) && Accepted(start, calls, j)
    ensures calls[j].cleanAt - calls[i].now > REPLAY_WINDOW_MS
  {
    PrefixInOrder(start, calls, j);
    assert calls[..j][..i] == calls[..i];
    LastAcceptedIsLatest(start, calls[..j], i);
    assert calls[..j] + [calls[j]] == calls[..j + 1];
    PrefixInOrder(start, calls, j + 1);
    ReplayWindow(start, calls[..j], calls[j]);
  }

  /** The two channels in use keep their events apart. */
  lemma KeysAreApart(c: Call, d: Call)
    requires ':' !in c.channel && ':' !in d.channel
    ensures Key(c) == Key(d) <==> c.channel == d.channel && c.eventId == d.eventId
  {
    if Key(c) == Key(d) {
      ColonFirst(c.channel, c.eventId, d.channel, d.eventId);
    }
  }

  lemma FirstColon(a: string, x: string, i: nat)
    requires ':' !in a && i < |a + ":" + x| && (a + ":" + x)[i] == ':'
    ensures i >= |a|
  {
  }

  lemma ColonFirst(a: string, x: string, b: string, y: string)
    requires ':' !in a && ':' !in b && a + ":" + x == b + ":" + y
    ensures a == b && x == y
  {
    var left, right := a + ":" + x, b + ":" + y;
    FirstColon(a, x, |b|);
    FirstColon(b, y, |a|);
    assert a == left[..|a|] && b == right[..|b|] && x == left[|a| + 1..] && y == right[|b| + 1..];
  }
}
