/**
 * Keyset pagination of leads, activities, notifications and tasks: `limit + 1` rows below
 * a (timestamp, id) cursor, newest first. The row filter is an arbitrary predicate.
 */
module Keyset {
  import opened Prelude

  /** The sort key: `createdAt` (or `updatedAt`, for tasks) in ms, then the row id. */
  datatype Key = Key(at: int, id: int)

  datatype Row = Row(key: Key, tag: int)

  type Table = set<Row>
  type Filter = Row -> bool

  predicate Precedes(a: Key, b: Key) {
    a.at > b.at || (a.at == b.at && a.id > b.id)
  }

  /** The cursor filter: everything when there is no cursor. */
  predicate Below(cursor: Option<Key>, k: Key) {
    cursor.Some? ==> Precedes(cursor.value, k)
  }

  ghost predicate Descending(s: seq<Row>) {
    forall i, j :: 0 <= i < j < |s| ==> Precedes(s[i].key, s[j].key)
  }

  /** Row ids are unique in a table. */
  ghost predicate IdsUnique(t: Table) {
    forall a, b :: a in t && b in t && a.key.id == b.key.id ==> a == b
  }

  /** The whole ordered answer of the query, before `take`. */
  ghost predicate IsListing(t: Table, p: Filter, cursor: Option<Key>, s: seq<Row>) {
    && Descending(s)
    && forall r :: r in s <==> r in t && p(r) && Below(cursor, r.key)
  }

  datatype Page = Page(items: seq<Row>, nextCursor: Option<Key>, hasMore: bool)

  /** What the services do with the rows: `take: limit + 1`, slice, cursor of the last item. */
  function MakePage(listing: seq<Row>, limit: nat): Page {
    var rows := if |listing| > limit + 1 then listing[..limit + 1] else listing;
    var hasMore := |rows| > limit;
    var items := if hasMore then rows[..limit] else rows;
    var nextCursor := if hasMore && |items| > 0 then Some(items[|items| - 1].key) else None;
    Page(items, nextCursor, hasMore)
  }

  ghost predicate IsPage(t: Table, p: Filter, cursor: Option<Key>, limit: nat, page: Page) {
    exists listing :: IsListing(t, p, cursor, listing) && page == MakePage(listing, limit)
  }

  // ----- the limits the four services use -----

  function LeadLimit(requested: Option<int>): int {
    Min(100, Max(1, if requested.Some? then requested.value else 20))
  }

  /** Activities and tasks. */
  function ListLimit(requested: Option<int>): int {
    Min(50, Max(1, if requested.Some? then requested.value else 20))
  }

  /** Notifications clamp only from above; request validation rejects values below 1. */
  function NotificationLimit(requested: Option<int>): int {
    Min(if requested.Some? then requested.value else 20, 50)
  }

  // ----- the query has exactly one answer -----

  lemma NewestExists(rows: set<Row>) returns (top: Row)
    requires rows != {} && IdsUnique(rows)
    ensures top in rows && forall r :: r in rows && r != top ==> Precedes(top.key, r.key)
  {
    top :| top in rows;
    if rows != {top} {
      var other := NewestExists(rows - {top});
      if Precedes(other.key, top.key) { top := other; }
    }
  }

  lemma {:induction false} SortExists(rows: set<Row>) returns (s: seq<Row>)
    requires IdsUnique(rows)
    ensures Descending(s) && forall r :: r in s <==> r in rows
    decreases |rows|
  {
    if rows == {} {
      s := [];
    } else {
      var top := NewestExists(rows);
      var rest := SortExists(rows - {top});
      s := [top] + rest;
      forall i, j | 0 <= i < j < |s| ensures Precedes(s[i].key, s[j].key) {
        assert s[j] == rest[j - 1] && rest[j - 1] in rest;
        if i > 0 { assert s[i] == rest[i - 1]; }
      }
    }
  }

  lemma ListingExists(t: Table, p: Filter, cursor: Option<Key>) returns (s: seq<Row>)
    requires IdsUnique(t)
    ensures IsListing(t, p, cursor, s)
  {
    s := SortExists(set r | r in t && p(r) && Below(cursor, r.key));
  }

  lemma {:induction false} ListingUnique(s: seq<Row>, u: seq<Row>)
    requires Descending(s) && Descending(u) && forall r :: r in s <==> r in u
    ensures s == u
    decreases |s|
  {
    if s == [] {
      assert |u| == 0 by { assert forall i :: 0 <= i < |u| ==> u[i] in s; }
    } else {
      assert s[0] in u && u != [];
      assert u[0] in s;
      assert s[0] == u[0];
      forall r ensures r in s[1..] <==> r in u[1..] {
        if r in s[1..] { InTail(s, u, r); }
        if r in u[1..] { InTail(u, s, r); }
      }
      ListingUnique(s[1..], u[1..]);
    }
  }

  lemma InTail(s: seq<Row>, u: seq<Row>, r: Row)
    requires Descending(s) && s != [] && u != [] && s[0] == u[0] && r in s[1..] && r in u
    ensures r in u[1..]
  {
    var i :| 0 <= i < |s[1..]| && s[1..][i] == r;
    assert Precedes(s[0].key, s[i + 1].key);
    var j :| 0 <= j < |u| && u[j] == r;
    assert j != 0;
    assert u[1..][j - 1] == r;
  }

  // ----- following nextCursor while the table changes -----

  /** The cursor the i-th request sends. */
  function CursorAt(pages: seq<Page>, i: nat): Option<Key>
    requires i <= |pages|
  {
    if i == 0 then None else pages[i - 1].nextCursor
  }

  /**
   * A complete walk: the i-th page is answered by the i-th state of the table, every page
   * but the last hands on a cursor, the last one does not.
   */
  ghost predicate IsWalk(ts: seq<Table>, p: Filter, limit: nat, pages: seq<Page>) {
    && |ts| == |pages| > 0
    && (forall i :: 0 <= i < |pages| ==> AnswersRequest(ts, p, limit, pages, i))
  }

  ghost predicate AnswersRequest(ts: seq<Table>, p: Filter, limit: nat, pages: seq<Page>, i: nat)
    requires i < |pages| == |ts|
  {
    && IsPage(ts[i], p, CursorAt(pages, i), limit, pages[i])
    && (pages[i].nextCursor.Some? <==> i < |pages| - 1)
  }

  function AllItems(pages: seq<Page>): seq<Row> {
    if pages == [] then [] else pages[0].items + AllItems(pages[1..])
  }

  /** One page: descending, below its cursor, within its table, and exhaustive down to the next cursor. */
  lemma PageFacts(t: Table, p: Filter, cursor: Option<Key>, limit: nat, page: Page)
    requires IsPage(t, p, cursor, limit, page) && limit > 0
    ensures Descending(page.items) && |page.items| <= limit
    ensures forall r :: r in page.items ==> r in t && p(r) && Below(cursor, r.key)
    ensures page.nextCursor.Some? ==> |page.items| == limit && page.nextCursor == Some(page.items[limit - 1].key)
    ensures forall r :: r in t && p(r) && Below(cursor, r.key) && r !in page.items ==>
              page.nextCursor.Some? && Precedes(page.nextCursor.value, r.key)
  {
    var listing :| IsListing(t, p, cursor, listing) && page == MakePage(listing, limit);
    forall r | r in t && p(r) && Below(cursor, r.key) && r !in page.items
      ensures page.nextCursor.Some? && Precedes(page.nextCursor.value, r.key)
    {
      assert r in listing;
      var k :| 0 <= k < |listing| && listing[k] == r;
      assert forall m :: 0 <= m < |page.items| ==> page.items[m] == listing[m];
    }
    forall r | r in page.items ensures r in listing { }
  }

  lemma WalkFacts(ts: seq<Table>, p: Filter, limit: nat, pages: seq<Page>, i: nat)
    requires IsWalk(ts, p, limit, pages) && limit > 0 && i < |pages|
    ensures Descending(pages[i].items)
    ensures forall r :: r in pages[i].items ==> r in ts[i] && p(r) && Below(CursorAt(pages, i), r.key)
    ensures i < |pages| - 1 ==> |pages[i].items| == limit && pages[i].nextCursor == Some(pages[i].items[limit - 1].key)
    ensures forall r :: r in ts[i] && p(r) && Below(CursorAt(pages, i), r.key) && r !in pages[i].items ==>
              pages[i].nextCursor.Some? && Precedes(pages[i].nextCursor.value, r.key)
  {
    assert AnswersRequest(ts, p, limit, pages, i);
    PageFacts(ts[i], p, CursorAt(pages, i), limit, pages[i]);
  }

  /** What the cursors alone guarantee about a walk. */
  ghost predicate CursorsOk(pages: seq<Page>, limit: nat) {
    forall i :: 0 <= i < |pages| ==> PageOkAt(pages, i, limit)
  }

  ghost predicate PageOkAt(pages: seq<Page>, i: nat, limit: nat)
    requires i < |pages|
  {
    PageBelow(CursorAt(pages, i), pages[i], i < |pages| - 1, limit)
  }

  ghost predicate PageBelow(cursor: Option<Key>, page: Page, more: bool, limit: nat) {
    && Descending(page.items)
    && (forall r :: r in page.items ==> Below(cursor, r.key))
    && (more ==> 0 < |page.items| == limit && page.nextCursor == Some(page.items[limit - 1].key))
  }

  lemma WalkCursors(ts: seq<Table>, p: Filter, limit: nat, pages: seq<Page>)
    requires IsWalk(ts, p, limit, pages) && limit > 0
    ensures CursorsOk(pages, limit)
  {
    forall i | 0 <= i < |pages| ensures PageOkAt(pages, i, limit) {
      WalkFacts(ts, p, limit, pages, i);
    }
  }

  /** Cursors only move down. */
  lemma {:induction false} CursorsDescend(pages: seq<Page>, limit: nat, i: nat, j: nat, k: Key)
    requires CursorsOk(pages, limit) && i <= j < |pages|
    requires Below(CursorAt(pages, j), k)
    ensures Below(CursorAt(pages, i), k)
    decreases j - i
  {
    if i < j {
      var page := pages[j - 1];
      assert PageOkAt(pages, j - 1, limit);
      assert page.items[limit - 1] in page.items;
      CursorsDescend(pages, limit, i, j - 1, k);
    }
  }

  lemma LaterPagesBelow(pages: seq<Page>, limit: nat, i: nat, j: nat, a: Row, b: Row)
    requires CursorsOk(pages, limit) && i < j < |pages|
    requires a in pages[i].items && b in pages[j].items
    ensures Precedes(a.key, b.key)
  {
    assert PageOkAt(pages, i, limit);
    assert PageOkAt(pages, j, limit);
    CursorsDescend(pages, limit, i + 1, j, b.key);
    var k :| 0 <= k < |pages[i].items| && pages[i].items[k] == a;
    assert k == limit - 1 || Precedes(a.key, pages[i].items[limit - 1].key);
  }

  lemma {:induction false} ItemComesFromPage(pages: seq<Page>, r: Row)
    ensures r in AllItems(pages) <==> exists i :: 0 <= i < |pages| && r in pages[i].items
  {
    if pages != [] {
      ItemComesFromPage(pages[1..], r);
      if r in AllItems(pages[1..]) {
        var i :| 0 <= i < |pages[1..]| && r in pages[1..][i].items;
        assert r in pages[i + 1].items;
      }
      if exists i :: 0 <= i < |pages| && r in pages[i].items {
        var i :| 0 <= i < |pages| && r in pages[i].items;
        if i > 0 { assert r in pages[1..][i - 1].items; }
      }
    }
  }

  lemma {:induction false} ItemsDescend(pages: seq<Page>, limit: nat, from: nat)
    requires CursorsOk(pages, limit) && from <= |pages|
    ensures Descending(AllItems(pages[from..]))
    decreases |pages| - from
  {
    if from < |pages| {
      ItemsDescend(pages, limit, from + 1);
      assert PageOkAt(pages, from, limit);
      var here, rest := pages[from].items, AllItems(pages[from + 1..]);
      assert pages[from..][1..] == pages[from + 1..];
      forall i, j | 0 <= i < |here| && 0 <= j < |rest| ensures Precedes(here[i].key, rest[j].key) {
        ItemComesFromPage(pages[from + 1..], rest[j]);
        var k :| 0 <= k < |pages[from + 1..]| && rest[j] in pages[from + 1..][k].items;
        LaterPagesBelow(pages, limit, from, from + 1 + k, here[i], rest[j]);
      }
    }
  }

  /** Whatever happens to the table between requests: strictly newest-first, so no key comes twice. */
  lemma WalkIsDescending(ts: seq<Table>, p: Filter, limit: nat, pages: seq<Page>)
    requires IsWalk(ts, p, limit, pages) && limit > 0
    ensures Descending(AllItems(pages))
    ensures forall i, j :: 0 <= i < j < |AllItems(pages)| ==> AllItems(pages)[i].key != AllItems(pages)[j].key
  {
    WalkCursors(ts, p, limit, pages);
    ItemsDescend(pages, limit, 0);
    assert pages[0..] == pages;
  }

  // ----- which rows are returned -----

  ghost predicate HasMatch(t: Table, p: Filter, k: Key) {
    exists r :: r in t && p(r) && r.key == k
  }

  ghost predicate KeyOnPage(page: Page, k: Key) {
    exists r :: r in page.items && r.key == k
  }

  /** `keys[i]` is the key one row has when page i is read; it matches the filter throughout. */
  ghost predicate Follows(ts: seq<Table>, p: Filter, keys: seq<Key>) {
    && |keys| == |ts|
    && (forall i :: 0 <= i < |ts| ==> HasMatch(ts[i], p, keys[i]))
    && (forall i, j :: 0 <= i < j < |ts| ==> keys[i].id == keys[j].id)
  }

  /** The row's timestamp never decreases, as `createdAt` and `updatedAt` do not. */
  ghost predicate OnlyMovesUp(keys: seq<Key>) {
    forall i, j :: 0 <= i < j < |keys| ==> keys[i].at <= keys[j].at
  }

  ghost predicate ReturnedBefore(pages: seq<Page>, keys: seq<Key>, n: nat)
    requires |keys| == |pages| && n <= |pages|
  {
    exists i :: 0 <= i < n && KeyOnPage(pages[i], keys[i])
  }

  lemma RowOnPage(ts: seq<Table>, p: Filter, limit: nat, pages: seq<Page>, keys: seq<Key>, i: nat)
    requires IsWalk(ts, p, limit, pages) && limit > 0 && Follows(ts, p, keys) && i < |pages|
    ensures KeyOnPage(pages[i], keys[i]) ==> Below(CursorAt(pages, i), keys[i])
    ensures Below(CursorAt(pages, i), keys[i]) && !KeyOnPage(pages[i], keys[i]) ==>
              pages[i].nextCursor.Some? && Precedes(pages[i].nextCursor.value, keys[i])
  {
    WalkFacts(ts, p, limit, pages, i);
    var r :| r in ts[i] && p(r) && r.key == keys[i];
  }

  /**
   * A row that matches throughout is returned exactly when, at every request made before it
   * was returned, it still stands below the cursor. The caller sees this from cursor and row.
   */
  lemma ReturnedIff(ts: seq<Table>, p: Filter, limit: nat, pages: seq<Page>, keys: seq<Key>)
    requires IsWalk(ts, p, limit, pages) && limit > 0 && Follows(ts, p, keys) && OnlyMovesUp(keys)
    ensures ReturnedBefore(pages, keys, |pages|) <==>
            forall i :: 0 <= i < |pages| && !ReturnedBefore(pages, keys, i) ==> Below(CursorAt(pages, i), keys[i])
  {
    if ReturnedBefore(pages, keys, |pages|) {
      var j :| 0 <= j < |pages| && KeyOnPage(pages[j], keys[j]);
      WalkCursors(ts, p, limit, pages);
      forall i | 0 <= i < |pages| && !ReturnedBefore(pages, keys, i) ensures Below(CursorAt(pages, i), keys[i]) {
        assert i <= j;
        RowOnPage(ts, p, limit, pages, keys, j);
        CursorsDescend(pages, limit, i, j, keys[j]);
        assert i == j || keys[i] == keys[j] || Precedes(keys[j], keys[i]);
      }
    } else {
      assert AnswersRequest(ts, p, limit, pages, |pages| - 1);
      RowOnPage(ts, p, limit, pages, keys, |pages| - 1);
      assert !ReturnedBefore(pages, keys, |pages| - 1);
    }
  }

  lemma {:induction false} SteadyRowStaysBelow(
      ts: seq<Table>, p: Filter, limit: nat, pages: seq<Page>, keys: seq<Key>, i: nat)
    requires IsWalk(ts, p, limit, pages) && limit > 0 && Follows(ts, p, keys) && i < |pages|
    requires forall m, n :: 0 <= m < n < |keys| ==> keys[m] == keys[n]
    requires !ReturnedBefore(pages, keys, i)
    ensures Below(CursorAt(pages, i), keys[i])
  {
    if i > 0 {
      SteadyRowStaysBelow(ts, p, limit, pages, keys, i - 1);
      RowOnPage(ts, p, limit, pages, keys, i - 1);
    }
  }

  /** A row present throughout with an unchanged key is returned exactly once, whatever else changes. */
  lemma SteadyRowReturnedOnce(ts: seq<Table>, p: Filter, limit: nat, pages: seq<Page>, k: Key)
    requires IsWalk(ts, p, limit, pages) && limit > 0
    requires forall i :: 0 <= i < |ts| ==> HasMatch(ts[i], p, k)
    ensures exists i :: 0 <= i < |AllItems(pages)| && AllItems(pages)[i].key == k
    ensures forall i, j :: 0 <= i < j < |AllItems(pages)| ==>
              AllItems(pages)[i].key != k || AllItems(pages)[j].key != k
  {
    var keys := seq(|pages|, i => k);
    SteadyRowReturned(ts, p, limit, pages, keys);
    var i :| 0 <= i < |pages| && KeyOnPage(pages[i], keys[i]);
    var r :| r in pages[i].items && r.key == k;
    ItemComesFromPage(pages, r);
    WalkIsDescending(ts, p, limit, pages);
  }

  lemma SteadyRowReturned(ts: seq<Table>, p: Filter, limit: nat, pages: seq<Page>, keys: seq<Key>)
    requires IsWalk(ts, p, limit, pages) && limit > 0 && Follows(ts, p, keys)
    requires forall m, n :: 0 <= m < n < |keys| ==> keys[m] == keys[n]
    ensures ReturnedBefore(pages, keys, |pages|)
  {
    forall i | 0 <= i < |pages| && !ReturnedBefore(pages, keys, i) ensures Below(CursorAt(pages, i), keys[i]) {
      SteadyRowStaysBelow(ts, p, limit, pages, keys, i);
    }
    ReturnedIff(ts, p, limit, pages, keys);
  }

  /** Even a row whose timestamp moves up between requests (a task) never comes back twice. */
  lemma MovedRowNeverTwice(ts: seq<Table>, p: Filter, limit: nat, pages: seq<Page>, keys: seq<Key>, i: nat, j: nat)
    requires IsWalk(ts, p, limit, pages) && limit > 0 && Follows(ts, p, keys) && OnlyMovesUp(keys)
    requires i < j < |pages| && KeyOnPage(pages[i], keys[i])
    ensures !KeyOnPage(pages[j], keys[j])
  {
    if KeyOnPage(pages[j], keys[j]) {
      var a :| a in pages[i].items && a.key == keys[i];
      var b :| b in pages[j].items && b.key == keys[j];
      WalkCursors(ts, p, limit, pages);
      LaterPagesBelow(pages, limit, i, j, a, b);
      assert false;
    }
  }

  /**
   * But it can be missed: task 1 is touched between two requests of size 1, matches the
   * filter at both, and is on neither page.
   */
  lemma TouchedTaskIsMissed()
    ensures var all := (r: Row) => true;
            var t0, t1 := {Row(Key(30, 3), 0), Row(Key(20, 2), 0), Row(Key(10, 1), 0)},
                          {Row(Key(30, 3), 0), Row(Key(20, 2), 0), Row(Key(40, 1), 0)};
            var pages := [Page([Row(Key(30, 3), 0)], Some(Key(30, 3)), true), Page([Row(Key(20, 2), 0)], None, false)];
            && IsWalk([t0, t1], all, 1, pages)
            && Follows([t0, t1], all, [Key(10, 1), Key(40, 1)])
            && !ReturnedBefore(pages, [Key(10, 1), Key(40, 1)], 2)
  {
    var all := (r: Row) => true;
    var t0, t1 := {Row(Key(30, 3), 0), Row(Key(20, 2), 0), Row(Key(10, 1), 0)},
                  {Row(Key(30, 3), 0), Row(Key(20, 2), 0), Row(Key(40, 1), 0)};
    assert IsListing(t0, all, None, [Row(Key(30, 3), 0), Row(Key(20, 2), 0), Row(Key(10, 1), 0)]);
    assert IsListing(t1, all, Some(Key(30, 3)), [Row(Key(20, 2), 0)]);
    assert Row(Key(10, 1), 0) in t0 && Row(Key(40, 1), 0) in t1;
    var pages := [Page([Row(Key(30, 3), 0)], Some(Key(30, 3)), true), Page([Row(Key(20, 2), 0)], None, false)];
    assert AnswersRequest([t0, t1], all, 1, pages, 0);
    assert AnswersRequest([t0, t1], all, 1, pages, 1);
  }

  // ----- a table that does not change -----

  lemma ListingBelow(t: Table, p: Filter, cursor: Option<Key>, listing: seq<Row>, n: nat)
    requires IsListing(t, p, cursor, listing) && 0 < n < |listing|
    ensures IsListing(t, p, Some(listing[n - 1].key), listing[n..])
  {
    var next := Some(listing[n - 1].key);
    forall r ensures r in listing[n..] <==> r in t && p(r) && Below(next, r.key) {
      if r in listing[n..] {
        var j :| 0 <= j < |listing[n..]| && listing[n..][j] == r;
        assert r == listing[n + j];
      }
      if r in t && p(r) && Below(next, r.key) {
        assert Below(cursor, r.key) by { assert listing[n - 1] in listing; }
        assert r in listing;
        var j :| 0 <= j < |listing| && listing[j] == r;
        assert j >= n;
        assert listing[n..][j - n] == r;
      }
    }
  }

  /** m is max(1, ceil(n / limit)), said without division. */
  ghost predicate IsPageCount(m: int, n: nat, limit: nat) {
    m >= 1 && n <= m * limit && (m > 1 ==> (m - 1) * limit < n)
  }

  lemma OnePageOnly(n: nat, limit: nat)
    requires n <= limit
    ensures IsPageCount(1, n, limit)
  {
    assert 1 * limit == limit;
  }

  lemma OnePageMore(m: int, n: nat, limit: nat)
    requires 0 < limit < n && IsPageCount(m, n - limit, limit)
    ensures IsPageCount(m + 1, n, limit)
  {
    assert (m + 1) * limit == m * limit + limit;
    assert m * limit == (m - 1) * limit + limit;
    if m == 1 { assert (m - 1) * limit == 0; }
  }

  lemma FixedPage(t: Table, p: Filter, cursor: Option<Key>, limit: nat, page: Page, listing: seq<Row>)
    requires IsPage(t, p, cursor, limit, page) && IsListing(t, p, cursor, listing)
    ensures page == MakePage(listing, limit)
  {
    var same :| IsListing(t, p, cursor, same) && page == MakePage(same, limit);
    ListingUnique(same, listing);
  }

  /** The rest of a walk over one unchanged table, from a cursor on. */
  ghost predicate FixedFrom(t: Table, p: Filter, limit: nat, cursor: Option<Key>, pages: seq<Page>)
    decreases |pages|
  {
    && pages != [] && IsPage(t, p, cursor, limit, pages[0])
    && if |pages| == 1 then pages[0].nextCursor.None?
       else pages[0].nextCursor.Some? && FixedFrom(t, p, limit, pages[0].nextCursor, pages[1..])
  }

  lemma {:induction false} WalkIsFixedFrom(t: Table, p: Filter, limit: nat, pages: seq<Page>, from: nat)
    requires IsWalk(seq(|pages|, i => t), p, limit, pages) && from < |pages|
    ensures FixedFrom(t, p, limit, CursorAt(pages, from), pages[from..])
    decreases |pages| - from
  {
    assert AnswersRequest(seq(|pages|, i => t), p, limit, pages, from);
    if from + 1 < |pages| {
      WalkIsFixedFrom(t, p, limit, pages, from + 1);
      assert pages[from..][1..] == pages[from + 1..];
    }
  }

  lemma FixedPageShape(t: Table, p: Filter, cursor: Option<Key>, limit: nat, page: Page, listing: seq<Row>)
    requires limit > 0 && IsPage(t, p, cursor, limit, page) && IsListing(t, p, cursor, listing)
    ensures if |listing| > limit
            then page.items == listing[..limit] && page.nextCursor == Some(listing[limit - 1].key)
                 && IsListing(t, p, page.nextCursor, listing[limit..])
            else page.items == listing && page.nextCursor == None
  {
    FixedPage(t, p, cursor, limit, page, listing);
    if |listing| > limit { ListingBelow(t, p, cursor, listing, limit); }
  }

  lemma {:induction false} FixedFromCollects(t: Table, p: Filter, limit: nat, cursor: Option<Key>, pages: seq<Page>,
                                             listing: seq<Row>)
    requires limit > 0 && FixedFrom(t, p, limit, cursor, pages) && IsListing(t, p, cursor, listing)
    ensures AllItems(pages) == listing
    decreases |pages|
  {
    hide IsListing, IsPage, MakePage;
    FixedPageShape(t, p, cursor, limit, pages[0], listing);
    if |listing| > limit {
      FixedFromCollects(t, p, limit, pages[0].nextCursor, pages[1..], listing[limit..]);
      assert listing == listing[..limit] + listing[limit..];
    } else {
      assert AllItems(pages[1..]) == [];
    }
  }

  lemma {:induction false} FixedFromCounts(t: Table, p: Filter, limit: nat, cursor: Option<Key>, pages: seq<Page>,
                                           listing: seq<Row>)
    requires limit > 0 && FixedFrom(t, p, limit, cursor, pages) && IsListing(t, p, cursor, listing)
    ensures IsPageCount(|pages|, |listing|, limit)
    decreases |pages|
  {
    hide IsListing, IsPage, IsPageCount, MakePage;
    FixedPageShape(t, p, cursor, limit, pages[0], listing);
    if |listing| > limit {
      FixedFromCounts(t, p, limit, pages[0].nextCursor, pages[1..], listing[limit..]);
      OnePageMore(|pages[1..]|, |listing|, limit);
      assert |pages[1..]| + 1 == |pages|;
    } else {
      assert |pages| == 1;
      OnePageOnly(|listing|, limit);
    }
  }

  lemma {:induction false} FixedFromExists(t: Table, p: Filter, limit: nat, cursor: Option<Key>, listing: seq<Row>)
    returns (pages: seq<Page>)
    requires limit > 0 && IsListing(t, p, cursor, listing)
    ensures FixedFrom(t, p, limit, cursor, pages)
    decreases |listing|
  {
    var page := MakePage(listing, limit);
    assert IsPage(t, p, cursor, limit, page);
    FixedPageShape(t, p, cursor, limit, page, listing);
    if |listing| > limit {
      var rest := FixedFromExists(t, p, limit, page.nextCursor, listing[limit..]);
      pages := [page] + rest;
      assert pages[1..] == rest;
    } else {
      pages := [page];
    }
  }

  lemma {:induction false} FixedFromAt(t: Table, p: Filter, limit: nat, cursor: Option<Key>, pages: seq<Page>, i: nat)
    requires FixedFrom(t, p, limit, cursor, pages) && i < |pages|
    ensures IsPage(t, p, if i == 0 then cursor else pages[i - 1].nextCursor, limit, pages[i])
    ensures pages[i].nextCursor.Some? <==> i < |pages| - 1
    decreases i
  {
    if i > 0 { FixedFromAt(t, p, limit, pages[0].nextCursor, pages[1..], i - 1); }
  }

  /** On a fixed table following `nextCursor` does come to an end: a complete walk exists. */
  lemma FixedWalkExists(t: Table, p: Filter, limit: nat) returns (pages: seq<Page>)
    requires limit > 0 && IdsUnique(t)
    ensures IsWalk(seq(|pages|, i => t), p, limit, pages)
  {
    var listing := ListingExists(t, p, None);
    pages := FixedFromExists(t, p, limit, None, listing);
    var ts := seq(|pages|, i => t);
    forall i | 0 <= i < |pages| ensures AnswersRequest(ts, p, limit, pages, i) {
      FixedFromAt(t, p, limit, None, pages, i);
    }
  }

  /** On a fixed table the pages are the sorted filtered list, in max(1, ceil(n / limit)) requests. */
  lemma FixedTableWalk(t: Table, p: Filter, limit: nat, pages: seq<Page>, listing: seq<Row>)
    requires limit > 0 && IsWalk(seq(|pages|, i => t), p, limit, pages) && IsListing(t, p, None, listing)
    ensures AllItems(pages) == listing && IsPageCount(|pages|, |listing|, limit)
  {
    WalkIsFixedFrom(t, p, limit, pages, 0);
    assert pages[0..] == pages;
    FixedFromCollects(t, p, limit, None, pages, listing);
    FixedFromCounts(t, p, limit, None, pages, listing);
  }

  /** Every service walks with a positive limit, so the results above apply to all four lists. */
  lemma LimitsArePositive(requested: Option<int>)
    ensures 1 <= LeadLimit(requested) <= 100
    ensures 1 <= ListLimit(requested) <= 50
    ensures NotificationLimit(requested) <= 50
    ensures NotificationLimit(requested) >= 1 <==> requested.None? || requested.value >= 1
  {
  }
}
