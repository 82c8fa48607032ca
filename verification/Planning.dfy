/**
 * The calendar: events of at most eight hours, allocated per assignee with an overlap check
 * before the write. Calls run one at a time; timestamps are ms.
 */
module Planning {
  import opened Prelude

  type EventId = string
  type UserId = string

  const MAX_DURATION_MS: int := 8 * 60 * 60 * 1000

  datatype EventStatus = SCHEDULED | COMPLETED | NO_SHOW | CANCELED

  datatype Event = Event(assignee: UserId, startAt: int, endAt: int, status: EventStatus, deleted: bool)

  type Calendar = map<EventId, Event>

  datatype PlanningError =
    | EVENT_INVALID_RANGE
    | EVENT_DURATION_TOO_LONG
    | ASSIGNEE_NOT_MEMBER
    | LEAD_NOT_FOUND
    | EVENT_TIME_CONFLICT(with: EventId)
    | EVENT_NOT_FOUND
    | EVENT_ALREADY_CANCELED
    | EVENT_ALREADY_COMPLETED

  /** What an update sends; an absent field is left alone. */
  datatype Change = Change(startAt: Option<int>, endAt: Option<int>, assignee: Option<UserId>)

  // ----- the rules -----

  predicate Live(e: Event) { !e.deleted && e.status != CANCELED }

  predicate Intersects(e: Event, startAt: int, endAt: int) { e.startAt < endAt && e.endAt > startAt }

  predicate RangeOk(startAt: int, endAt: int) { startAt < endAt && endAt - startAt <= MAX_DURATION_MS }

  /** The row `checkOverlap` looks for. */
  predicate ConflictsWith(events: Calendar, id: EventId, assignee: UserId, startAt: int, endAt: int) {
    id in events && events[id].assignee == assignee && Live(events[id]) && Intersects(events[id], startAt, endAt)
  }

  predicate HasConflict(events: Calendar, assignee: UserId, startAt: int, endAt: int, exclude: Option<EventId>) {
    exists id :: id in events && exclude != Some(id) && ConflictsWith(events, id, assignee, startAt, endAt)
  }

  ghost predicate NoDoubleBooking(events: Calendar) {
    forall i, j ::
      && i in events && j in events && i != j && Live(events[i]) && Live(events[j])
      && events[i].assignee == events[j].assignee
      ==> !Intersects(events[i], events[j].startAt, events[j].endAt)
  }

  ghost predicate DurationsOk(events: Calendar) {
    forall i :: i in events ==> RangeOk(events[i].startAt, events[i].endAt)
  }

  ghost predicate Valid(events: Calendar) {
    NoDoubleBooking(events) && DurationsOk(events)
  }

  function Changed(e: Event, c: Change): Event {
    e.(startAt := if c.startAt.Some? then c.startAt.value else e.startAt,
       endAt := if c.endAt.Some? then c.endAt.value else e.endAt,
       assignee := if c.assignee.Some? then c.assignee.value else e.assignee)
  }

  predicate SendsDate(c: Change) { c.startAt.Some? || c.endAt.Some? }

  /** The checks `update` makes on the new row; only a sent date triggers them. */
  predicate UpdateAllowed(events: Calendar, id: EventId, c: Change)
    requires id in events
  {
    var e := Changed(events[id], c);
    SendsDate(c) ==> RangeOk(e.startAt, e.endAt) && !HasConflict(events, e.assignee, e.startAt, e.endAt, Some(id))
  }

  // ----- the same rules, spelled out on the rows -----

  /** The event stands in nobody's way between the two times: other assignee, gone, or over and done by then. */
  predicate LeavesFree(e: Event, assignee: UserId, startAt: int, endAt: int) {
    e.assignee != assignee || e.deleted || e.status == CANCELED || e.endAt <= startAt || endAt <= e.startAt
  }

  /** More than nothing and at most eight hours. */
  predicate FitsDay(startAt: int, endAt: int) { startAt < endAt <= startAt + 28_800_000 }

  // ----- the service -----

  class PlanningService {
    var events: Calendar

    constructor ()
      ensures events == map[]
    {
      events := map[];
    }

    /** `checkOverlap`. */
    method FindConflict(assignee: UserId, startAt: int, endAt: int, exclude: Option<EventId>)
      returns (r: Option<EventId>)
      ensures r.Some? <==> HasConflict(events, assignee, startAt, endAt, exclude)
      ensures r.Some? ==> exclude != r && ConflictsWith(events, r.value, assignee, startAt, endAt)
    {
      if exists id :: id in events && exclude != Some(id) && ConflictsWith(events, id, assignee, startAt, endAt) {
        var id :| id in events && exclude != Some(id) && ConflictsWith(events, id, assignee, startAt, endAt);
        return Some(id);
      }
      return None;
    }

    /** `create`: range, membership, lead and overlap checks in that order, then the insert. */
    method Create(id: EventId, assignee: UserId, startAt: int, endAt: int, isMember: bool, leadOk: bool)
      returns (r: Result<EventId, PlanningError>)
      requires id !in events
      modifies this
      ensures r.Ok? <==>
          isMember && leadOk && PassesChecks(old(events), Event(assignee, startAt, endAt, SCHEDULED, false))
      ensures r.Ok? ==> r.value == id && events == old(events)[id := Event(assignee, startAt, endAt, SCHEDULED, false)]
      ensures r.Err? ==> events == old(events)
      ensures r.Err? && r.error.EVENT_TIME_CONFLICT? ==> ConflictsWith(events, r.error.with, assignee, startAt, endAt)
      ensures r == Err(EVENT_INVALID_RANGE) <==> startAt >= endAt
      ensures r.Ok? ==> events == After(old(events), DoCreate(id, assignee, startAt, endAt))
      ensures r == Err(EVENT_DURATION_TOO_LONG) <==> endAt - startAt > MAX_DURATION_MS
      ensures r == Err(ASSIGNEE_NOT_MEMBER) <==> FitsDay(startAt, endAt) && !isMember
      ensures r == Err(LEAD_NOT_FOUND) <==> FitsDay(startAt, endAt) && isMember && !leadOk
      ensures FitsDay(startAt, endAt) && isMember && leadOk && r.Err? ==> r.error.EVENT_TIME_CONFLICT?
    {
      if startAt >= endAt { return Err(EVENT_INVALID_RANGE); }
      if endAt - startAt > MAX_DURATION_MS { return Err(EVENT_DURATION_TOO_LONG); }
      if !isMember { return Err(ASSIGNEE_NOT_MEMBER); }
      if !leadOk { return Err(LEAD_NOT_FOUND); }
      var conflict := FindConflict(assignee, startAt, endAt, None);
      if conflict.Some? { return Err(EVENT_TIME_CONFLICT(conflict.value)); }
      events := events[id := Event(assignee, startAt, endAt, SCHEDULED, false)];
      return Ok(id);
    }

    /** `update`: the overlap check runs only when a date is sent. */
    method Update(id: EventId, c: Change, isMember: bool) returns (r: Result<(), PlanningError>)
      modifies this
      ensures r.Ok? <==>
        && id in old(events) && !old(events)[id].deleted
        && (c.assignee.Some? && c.assignee.value != old(events)[id].assignee ==> isMember)
        && UpdateAllowed(old(events), id, c)
      ensures events == if r.Ok? then old(events)[id := Changed(old(events)[id], c)] else old(events)
      ensures r.Ok? ==> events == After(old(events), DoUpdate(id, c))
      ensures r == Err(EVENT_NOT_FOUND) <==> id !in old(events) || old(events)[id].deleted
      ensures id in old(events) && !old(events)[id].deleted ==>
                var e := Changed(old(events)[id], c);
                var foreign := e.assignee != old(events)[id].assignee && !isMember;
                && (r == Err(ASSIGNEE_NOT_MEMBER) <==> foreign)
                && (r == Err(EVENT_INVALID_RANGE) <==> !foreign && SendsDate(c) && e.startAt >= e.endAt)
                && (r == Err(EVENT_DURATION_TOO_LONG) <==>
                      !foreign && SendsDate(c) && e.endAt - e.startAt > MAX_DURATION_MS)
                && (r.Err? && !foreign && FitsDay(e.startAt, e.endAt) ==>
                      r.error.EVENT_TIME_CONFLICT? && r.error.with != id
                      && ConflictsWith(events, r.error.with, e.assignee, e.startAt, e.endAt))
    {
      if id !in events || events[id].deleted { return Err(EVENT_NOT_FOUND); }
      var event := events[id];
      if c.assignee.Some? && c.assignee.value != event.assignee && !isMember { return Err(ASSIGNEE_NOT_MEMBER); }
      var startAt := if c.startAt.Some? then c.startAt.value else event.startAt;
      var endAt := if c.endAt.Some? then c.endAt.value else event.endAt;
      var assignee := if c.assignee.Some? then c.assignee.value else event.assignee;
      if c.startAt.Some? || c.endAt.Some? {
        if startAt >= endAt { return Err(EVENT_INVALID_RANGE); }
        if endAt - startAt > MAX_DURATION_MS { return Err(EVENT_DURATION_TOO_LONG); }
        var conflict := FindConflict(assignee, startAt, endAt, Some(id));
        if conflict.Some? { return Err(EVENT_TIME_CONFLICT(conflict.value)); }
      }
      events := events[id := event.(startAt := startAt, endAt := endAt, assignee := assignee)];
      return Ok(());
    }

    method Cancel(id: EventId) returns (r: Result<(), PlanningError>)
      modifies this
      ensures r.Ok? <==> id in old(events) && Live(old(events)[id])
      ensures events == if r.Ok? then old(events)[id := old(events)[id].(status := CANCELED)] else old(events)
      ensures r.Ok? ==> events == After(old(events), DoCancel(id))
      ensures r == Err(EVENT_NOT_FOUND) <==> id !in old(events) || old(events)[id].deleted
      ensures r.Err? ==> r.error in {EVENT_NOT_FOUND, EVENT_ALREADY_CANCELED}
    {
      if id !in events || events[id].deleted { return Err(EVENT_NOT_FOUND); }
      if events[id].status == CANCELED { return Err(EVENT_ALREADY_CANCELED); }
      events := events[id := events[id].(status := CANCELED)];
      return Ok(());
    }

    method Complete(id: EventId, noShow: bool) returns (r: Result<(), PlanningError>)
      modifies this
      ensures r.Ok? <==> id in old(events) && !old(events)[id].deleted && old(events)[id].status == SCHEDULED
      ensures var status := if noShow then NO_SHOW else COMPLETED;
        events == if r.Ok? then old(events)[id := old(events)[id].(status := status)] else old(events)
      ensures r.Ok? ==> events == After(old(events), DoComplete(id, noShow))
      ensures r == Err(EVENT_ALREADY_CANCELED) <==>
                id in old(events) && !old(events)[id].deleted && old(events)[id].status == CANCELED
      ensures r == Err(EVENT_NOT_FOUND) <==> id !in old(events) || old(events)[id].deleted
      ensures r.Err? ==> r.error in {EVENT_NOT_FOUND, EVENT_ALREADY_CANCELED, EVENT_ALREADY_COMPLETED}
    {
      if id !in events || events[id].deleted { return Err(EVENT_NOT_FOUND); }
      if events[id].status == COMPLETED || events[id].status == NO_SHOW { return Err(EVENT_ALREADY_COMPLETED); }
      if events[id].status == CANCELED { return Err(EVENT_ALREADY_CANCELED); }
      events := events[id := events[id].(status := if noShow then NO_SHOW else COMPLETED)];
      return Ok(());
    }

    method Remove(id: EventId) returns (r: Result<(), PlanningError>)
      modifies this
      ensures r.Ok? <==> id in old(events) && !old(events)[id].deleted
      ensures r.Err? ==> r.error == EVENT_NOT_FOUND
      ensures events == if r.Ok? then old(events)[id := old(events)[id].(deleted := true)] else old(events)
      ensures r.Ok? ==> events == After(old(events), DoRemove(id))
    {
      if id !in events || events[id].deleted { return Err(EVENT_NOT_FOUND); }
      events := events[id := events[id].(deleted := true)];
      return Ok(());
    }
  }

  // ----- what accepted calls keep -----

  lemma CreateKeepsValid(events: Calendar, id: EventId, e: Event)
    requires Valid(events) && id !in events && RangeOk(e.startAt, e.endAt)
    requires !HasConflict(events, e.assignee, e.startAt, e.endAt, None)
    ensures Valid(events[id := e])
  {
    forall j | j in events && Live(events[j]) && events[j].assignee == e.assignee
      ensures !Intersects(events[j], e.startAt, e.endAt)
    {
      assert !ConflictsWith(events, j, e.assignee, e.startAt, e.endAt);
    }
  }

  /** Rewriting one event keeps the rule exactly when the new row does not clash with the others. */
  lemma RewriteKeepsIff(events: Calendar, id: EventId, e: Event)
    requires Valid(events) && id in events
    ensures NoDoubleBooking(events[id := e]) <==>
            !Live(e) || !HasConflict(events, e.assignee, e.startAt, e.endAt, Some(id))
  {
    var events' := events[id := e];
    if Live(e) && HasConflict(events, e.assignee, e.startAt, e.endAt, Some(id)) {
      var j :| j in events && Some(id) != Some(j) && ConflictsWith(events, j, e.assignee, e.startAt, e.endAt);
      assert j in events' && id in events' && Intersects(events'[j], events'[id].startAt, events'[id].endAt);
    } else {
      forall j | j in events && j != id && Live(e) && Live(events[j]) && events[j].assignee == e.assignee
        ensures !Intersects(events[j], e.startAt, e.endAt)
      {
        assert !ConflictsWith(events, j, e.assignee, e.startAt, e.endAt);
      }
    }
  }

  /**
   * `update` keeps the calendar free of double bookings if and only if a date was sent, or the
   * event is canceled, or nothing of the resulting assignee meets the event's interval.
   */
  lemma UpdateKeepsIff(events: Calendar, id: EventId, c: Change)
    requires Valid(events) && id in events && !events[id].deleted && UpdateAllowed(events, id, c)
    ensures var e := Changed(events[id], c);
      && DurationsOk(events[id := e])
      && (NoDoubleBooking(events[id := e]) <==>
            SendsDate(c) || !Live(e) || !HasConflict(events, e.assignee, e.startAt, e.endAt, Some(id)))
  {
    RewriteKeepsIff(events, id, Changed(events[id], c));
  }

  /** Keeping the assignee is always safe. */
  lemma UnmovedUpdateKeeps(events: Calendar, id: EventId, c: Change)
    requires Valid(events) && id in events && !events[id].deleted && UpdateAllowed(events, id, c)
    requires c.assignee.None? || c.assignee.value == events[id].assignee
    ensures Valid(events[id := Changed(events[id], c)])
  {
    UpdateKeepsIff(events, id, c);
    var e := Changed(events[id], c);
    if !SendsDate(c) && Live(e) {
      forall j | j in events && Some(id) != Some(j) ensures !ConflictsWith(events, j, e.assignee, e.startAt, e.endAt) {
        assert Live(events[j]) && events[j].assignee == e.assignee ==>
                 !Intersects(events[j], events[id].startAt, events[id].endAt);
      }
    }
  }

  /** Reassigning without a date can double-book: user u gets user v's event at the same hour. */
  lemma ReassignCanDoubleBook()
    ensures var events := map["e" := Event("u", 0, 10, SCHEDULED, false), "f" := Event("v", 5, 15, SCHEDULED, false)];
            var c := Change(None, None, Some("u"));
            Valid(events) && UpdateAllowed(events, "f", c) && !NoDoubleBooking(events["f" := Changed(events["f"], c)])
  {
    var events := map["e" := Event("u", 0, 10, SCHEDULED, false), "f" := Event("v", 5, 15, SCHEDULED, false)];
    var after := events["f" := Changed(events["f"], Change(None, None, Some("u")))];
    assert Intersects(after["e"], after["f"].startAt, after["f"].endAt);
  }

  // ----- creates that overlap: every check runs before any of the inserts -----

  /** The checks of `create`, read on the calendar of that moment. */
  predicate PassesChecks(events: Calendar, e: Event) {
    RangeOk(e.startAt, e.endAt) && !HasConflict(events, e.assignee, e.startAt, e.endAt, None)
  }

  /** The inserts, in the order in which the calls get to them. */
  function Inserted(events: Calendar, batch: map<EventId, Event>, order: seq<EventId>): Calendar
    requires forall id :: id in order ==> id in batch
    decreases |order|
  {
    if order == [] then events
    else
      assert forall id :: id in order[1..] ==> id in order;
      Inserted(events[order[0] := batch[order[0]]], batch, order[1..])
  }

  ghost predicate PairwiseApart(batch: map<EventId, Event>) {
    forall i, j :: i in batch && j in batch && i != j && batch[i].assignee == batch[j].assignee ==>
      !Intersects(batch[i], batch[j].startAt, batch[j].endAt)
  }

  lemma {:induction false} InsertedAt(events: Calendar, batch: map<EventId, Event>, order: seq<EventId>)
    requires forall id :: id in order ==> id in batch
    ensures forall id :: id in Inserted(events, batch, order) <==> id in events || id in order
    ensures forall id :: id in Inserted(events, batch, order) ==>
      Inserted(events, batch, order)[id] == if id in order then batch[id] else events[id]
    decreases |order|
  {
    if order != [] {
      assert forall id :: id in order <==> id == order[0] || id in order[1..];
      InsertedAt(events[order[0] := batch[order[0]]], batch, order[1..]);
    }
  }

  /**
   * Any number of creates whose checks all passed on one valid calendar, inserted in any order:
   * the calendar stays valid if and only if no two of them are for one assignee and intersect.
   */
  lemma OverlappingCreatesIff(events: Calendar, batch: map<EventId, Event>, order: seq<EventId>)
    requires Valid(events) && events.Keys !! batch.Keys && forall id :: id in order <==> id in batch
    requires forall id :: id in batch ==> PassesChecks(events, batch[id]) && Live(batch[id])
    ensures Valid(Inserted(events, batch, order)) <==> PairwiseApart(batch)
  {
    var after := Inserted(events, batch, order);
    InsertedAt(events, batch, order);
    if PairwiseApart(batch) {
      forall i, j | i in after && j in after && i != j && Live(after[i]) && Live(after[j]) &&
        after[i].assignee == after[j].assignee
        ensures !Intersects(after[i], after[j].startAt, after[j].endAt)
      {
        PairApart(events, batch, i, j);
      }
    } else {
      var i, j :| i in batch && j in batch && i != j && batch[i].assignee == batch[j].assignee
                  && Intersects(batch[i], batch[j].startAt, batch[j].endAt);
      assert Intersects(after[i], after[j].startAt, after[j].endAt);
    }
  }

  /** Two events of the result: both old, both new, or one that the other's check has seen. */
  lemma PairApart(events: Calendar, batch: map<EventId, Event>, i: EventId, j: EventId)
    requires Valid(events) && PairwiseApart(batch) && events.Keys !! batch.Keys && i != j
    requires forall id :: id in batch ==> PassesChecks(events, batch[id])
    requires i in events.Keys + batch.Keys && j in events.Keys + batch.Keys
    requires var a, b := if i in batch then batch[i] else events[i], if j in batch then batch[j] else events[j];
             Live(a) && Live(b) && a.assignee == b.assignee
    ensures var a, b := if i in batch then batch[i] else events[i], if j in batch then batch[j] else events[j];
            !Intersects(a, b.startAt, b.endAt)
  {
    if i in events && j in batch {
      assert !ConflictsWith(events, i, batch[j].assignee, batch[j].startAt, batch[j].endAt);
    } else if i in batch && j in events {
      assert !ConflictsWith(events, j, batch[i].assignee, batch[i].startAt, batch[i].endAt);
    }
  }

  // ----- whole runs -----

  datatype Call =
    | DoCreate(id: EventId, assignee: UserId, startAt: int, endAt: int)
    | DoUpdate(id: EventId, change: Change)
    | DoCancel(id: EventId)
    | DoComplete(id: EventId, noShow: bool)
    | DoRemove(id: EventId)

  /** The calendar after a call; refused calls change nothing. */
  function After(events: Calendar, call: Call): Calendar {
    match call
    case DoCreate(id, assignee, startAt, endAt) =>
      if id !in events && RangeOk(startAt, endAt) && !HasConflict(events, assignee, startAt, endAt, None)
      then events[id := Event(assignee, startAt, endAt, SCHEDULED, false)] else events
    case DoUpdate(id, c) =>
      if id in events && !events[id].deleted && UpdateAllowed(events, id, c)
      then events[id := Changed(events[id], c)] else events
    case DoCancel(id) =>
      if id in events && Live(events[id]) then events[id := events[id].(status := CANCELED)] else events
    case DoComplete(id, noShow) =>
      if id in events && !events[id].deleted && events[id].status == SCHEDULED
      then events[id := events[id].(status := if noShow then NO_SHOW else COMPLETED)] else events
    case DoRemove(id) =>
      if id in events && !events[id].deleted then events[id := events[id].(deleted := true)] else events
  }

  // ----- outcomes spelled out on the rows -----

  /** What the runs below keep: bounded events, and of two live ones of an assignee one ends before the other starts. */
  lemma ValidMeans(events: Calendar)
    ensures Valid(events) <==>
      && (forall i :: i in events ==> FitsDay(events[i].startAt, events[i].endAt))
      && (forall i, j :: i in events && j in events && i != j && !events[j].deleted && events[j].status != CANCELED ==>
            LeavesFree(events[i], events[j].assignee, events[j].startAt, events[j].endAt))
  {
    if Valid(events) {
      forall i, j | i in events && j in events && i != j && !events[j].deleted && events[j].status != CANCELED
        ensures LeavesFree(events[i], events[j].assignee, events[j].startAt, events[j].endAt)
      {
        assert Live(events[i]) ==> events[i].assignee == events[j].assignee ==>
            !Intersects(events[i], events[j].startAt, events[j].endAt);
      }
    } else if forall i :: i in events ==> FitsDay(events[i].startAt, events[i].endAt) {
      var i, j :| i in events && j in events && i != j && Live(events[i]) && Live(events[j])
                  && events[i].assignee == events[j].assignee
                  && Intersects(events[i], events[j].startAt, events[j].endAt);
      assert !LeavesFree(events[i], events[j].assignee, events[j].startAt, events[j].endAt);
    }
  }

  lemma ConflictMeans(events: Calendar, assignee: UserId, startAt: int, endAt: int, exclude: Option<EventId>)
    ensures HasConflict(events, assignee, startAt, endAt, exclude) <==>
            exists j :: j in events && exclude != Some(j) && !LeavesFree(events[j], assignee, startAt, endAt)
  {
    forall j | j in events
      ensures ConflictsWith(events, j, assignee, startAt, endAt) <==> !LeavesFree(events[j], assignee, startAt, endAt)
    {
    }
  }

  /** A create goes through exactly in free time; ending when another starts, or starting when it ends, is free. */
  lemma CreateOutcome(events: Calendar, id: EventId, assignee: UserId, startAt: int, endAt: int)
    requires id !in events
    ensures After(events, DoCreate(id, assignee, startAt, endAt)) ==
      if FitsDay(startAt, endAt) && forall j :: j in events ==> LeavesFree(events[j], assignee, startAt, endAt)
      then events[id := Event(assignee, startAt, endAt, SCHEDULED, false)] else events
  {
    ConflictMeans(events, assignee, startAt, endAt, None);
  }

  /** An update: which fields it writes, and when it may. */
  lemma UpdateOutcome(events: Calendar, id: EventId, c: Change)
    requires id in events
    ensures var was := events[id]; var after := After(events, DoUpdate(id, c));
            var startAt := if c.startAt.Some? then c.startAt.value else was.startAt;
            var endAt := if c.endAt.Some? then c.endAt.value else was.endAt;
            var assignee := if c.assignee.Some? then c.assignee.value else was.assignee;
      after ==
      if !was.deleted
         && (c.startAt.Some? || c.endAt.Some? ==>
               FitsDay(startAt, endAt)
               && forall j :: j in events && j != id ==> LeavesFree(events[j], assignee, startAt, endAt))
      then events[id := Event(assignee, startAt, endAt, was.status, false)] else events
  {
    var e := Changed(events[id], c);
    ConflictMeans(events, e.assignee, e.startAt, e.endAt, Some(id));
  }

  /** Cancelling, completing and removing write one field of an event they may act on, and nothing else. */
  lemma ClosingOutcome(events: Calendar, id: EventId, noShow: bool)
    requires id in events
    ensures var e := events[id];
      && After(events, DoCancel(id))
         == events[id := if e.deleted then e else Event(e.assignee, e.startAt, e.endAt, CANCELED, false)]
      && After(events, DoComplete(id, noShow))
         == events[id := if e.deleted || e.status != SCHEDULED then e
                         else Event(e.assignee, e.startAt, e.endAt, if noShow then NO_SHOW else COMPLETED, false)]
      && After(events, DoRemove(id)) == events[id := Event(e.assignee, e.startAt, e.endAt, e.status, true)]
  {
    assert events == events[id := events[id]];
  }

  function AfterAll(events: Calendar, calls: seq<Call>): Calendar
    decreases |calls|
  {
    if calls == [] then events else AfterAll(After(events, calls[0]), calls[1..])
  }

  /** The caller's discipline: changing the assignee also sends a date. */
  predicate SendsDateWithAssignee(call: Call) {
    call.DoUpdate? && call.change.assignee.Some? ==> SendsDate(call.change)
  }

  lemma CallKeepsValid(events: Calendar, call: Call)
    requires Valid(events) && SendsDateWithAssignee(call)
    ensures Valid(After(events, call))
  {
    match call
    case DoCreate(id, assignee, startAt, endAt) =>
      if After(events, call) != events {
        CreateKeepsValid(events, id, Event(assignee, startAt, endAt, SCHEDULED, false));
      }
    case DoUpdate(id, c) =>
      if After(events, call) != events {
        if c.assignee.Some? { UpdateKeepsIff(events, id, c); } else { UnmovedUpdateKeeps(events, id, c); }
      }
    case _ =>
  }

  /** From the empty calendar, any disciplined run of calls never double-books. */
  lemma {:induction false} RunKeepsValid(events: Calendar, calls: seq<Call>)
    requires Valid(events) && forall c :: c in calls ==> SendsDateWithAssignee(c)
    ensures Valid(AfterAll(events, calls))
    decreases |calls|
  {
    if calls != [] {
      assert calls[0] in calls;
      CallKeepsValid(events, calls[0]);
      RunKeepsValid(After(events, calls[0]), calls[1..]);
    }
  }

  // ----- booked time -----

  function Clip(e: Event, from: int, to: int): nat {
    Max(0, Min(e.endAt, to) - Max(e.startAt, from))
  }

  function LiveOf(events: Calendar, assignee: UserId): set<EventId> {
    set id | id in events && Live(events[id]) && events[id].assignee == assignee
  }

  function Clips(events: Calendar, ids: set<EventId>, from: int, to: int): map<EventId, nat>
    requires ids <= events.Keys
  {
    map id | id in ids :: Clip(events[id], from, to)
  }

  /** Time of the given events that falls inside the window. */
  ghost function Booked(events: Calendar, ids: set<EventId>, from: int, to: int): nat
    requires ids <= events.Keys
  {
    MapSum(Clips(events, ids, from, to))
  }

  lemma {:induction false} LatestExists(events: Calendar, ids: set<EventId>) returns (last: EventId)
    requires ids <= events.Keys && ids != {}
    ensures last in ids && forall id :: id in ids ==> events[id].startAt <= events[last].startAt
    decreases |ids|
  {
    last :| last in ids;
    if ids != {last} {
      var other := LatestExists(events, ids - {last});
      if events[other].startAt > events[last].startAt { last := other; }
    }
  }

  lemma BookedSplits(events: Calendar, ids: set<EventId>, id: EventId, from: int, to: int)
    requires ids <= events.Keys && id in ids
    ensures Booked(events, ids, from, to) == Clip(events[id], from, to) + Booked(events, ids - {id}, from, to)
  {
    MapSumRemove(Clips(events, ids, from, to), id);
    assert Clips(events, ids, from, to) - {id} == Clips(events, ids - {id}, from, to);
  }

  lemma {:induction false} BookedSame(events: Calendar, ids: set<EventId>, from: int, to: int, mid: int)
    requires ids <= events.Keys
    requires forall id :: id in ids ==> Clip(events[id], from, to) == Clip(events[id], from, mid)
    ensures Booked(events, ids, from, to) == Booked(events, ids, from, mid)
  {
    assert Clips(events, ids, from, to) == Clips(events, ids, from, mid);
  }

  lemma {:induction false} BookedFits(events: Calendar, assignee: UserId, ids: set<EventId>, from: int, to: int)
    requires Valid(events) && ids <= LiveOf(events, assignee) && from <= to
    ensures Booked(events, ids, from, to) <= to - from
    decreases |ids|
  {
    if ids == {} {
      assert Clips(events, ids, from, to) == map[];
    } else {
      var last := LatestExists(events, ids);
      var mid := Max(from, Min(to, events[last].startAt));
      forall id | id in ids - {last} ensures Clip(events[id], from, to) == Clip(events[id], from, mid) {
        assert !Intersects(events[id], events[last].startAt, events[last].endAt);
        assert events[id].endAt <= events[last].startAt;
      }
      BookedSplits(events, ids, last, from, to);
      BookedSame(events, ids - {last}, from, to, mid);
      BookedFits(events, assignee, ids - {last}, from, mid);
    }
  }

  /** Inside any window an assignee is never booked for longer than the window lasts. */
  lemma BookedAtMostWindow(calls: seq<Call>, assignee: UserId, from: int, to: int)
    requires from <= to && forall c :: c in calls ==> SendsDateWithAssignee(c)
    ensures var events := AfterAll(map[], calls); Booked(events, LiveOf(events, assignee), from, to) <= to - from
  {
    RunKeepsValid(map[], calls);
    BookedFits(AfterAll(map[], calls), assignee, LiveOf(AfterAll(map[], calls), assignee), from, to);
  }
}
