/**
 * Pages of the audit log: rows of a filter in descending order of time and identifier, each page one
 * query bounded by the last row of the page before it.
 */
module AuditPages {
  import opened Wrappers

  const DEFAULT_LIMIT := 25
  const MAX_CURSOR_ID := 256
  const MAX_SAFE_INTEGER := 9_007_199_254_740_991

  datatype Row = Row(
    id: string, actorId: string, action: string, resourceType: string, documentType: Option<string>,
    occurredAt: int, callerChannel: string, toolName: Option<string>)

  datatype Filter = Filter(
    actorId: Option<string>, action: Option<string>, resourceType: Option<string>, documentType: Option<string>,
    occurredFrom: Option<int>, occurredTo: Option<int>, callerChannel: Option<string>, toolName: Option<string>)

  /** A decoded cursor; the scope is a digest of the filter it was issued for. */
  datatype Cursor = Cursor(scope: Filter, occurredAt: int, id: string)

  datatype Page = Page(items: seq<Row>, next: Option<Cursor>)

  datatype Error = InvalidRequest

  /** Text order: by the first differing character, a prefix before what it begins. */
  predicate Less(a: string, b: string) {
    if b == "" then false else if a == "" then true
    else if a[0] != b[0] then a[0] < b[0] else Less(a[1..], b[1..])
  }

  /** `a` is listed before `b`: later, or at the same time with the greater identifier. */
  predicate Before(a: Row, b: Row) {
    b.occurredAt < a.occurredAt || (b.occurredAt == a.occurredAt && Less(b.id, a.id))
  }

  predicate Matches(f: Filter, r: Row) {
    && (f.actorId.Some? ==> r.actorId == f.actorId.value) && (f.action.Some? ==> r.action == f.action.value)
    && (f.resourceType.Some? ==> r.resourceType == f.resourceType.value)
    && (f.documentType.Some? ==> r.documentType == f.documentType)
    && (f.occurredFrom.Some? ==> f.occurredFrom.value <= r.occurredAt) && (f.occurredTo.Some? ==> r.occurredAt < f.occurredTo.value)
    && (f.callerChannel.Some? ==> r.callerChannel == f.callerChannel.value) && (f.toolName.Some? ==> r.toolName == f.toolName)
  }

  predicate Past(c: Option<Cursor>, r: Row) {
    c.Some? ==> r.occurredAt < c.value.occurredAt || (r.occurredAt == c.value.occurredAt && Less(r.id, c.value.id))
  }

  predicate Accepted(f: Filter, c: Cursor) {
    c.scope == f && 0 <= c.occurredAt <= MAX_SAFE_INTEGER && 0 < |c.id| <= MAX_CURSOR_ID
  }

  function Candidates(table: map<string, Row>, f: Filter, c: Option<Cursor>): set<Row> {
    set id | id in table && Matches(f, table[id]) && Past(c, table[id]) :: table[id]
  }

  ghost predicate Descending(rows: seq<Row>) {
    forall i, j :: 0 <= i < j < |rows| ==> Before(rows[i], rows[j])
  }

  /** The first `n` of the candidates in listing order, or all of them. */
  ghost predicate IsTop(candidates: set<Row>, n: nat, rows: seq<Row>) {
    && Descending(rows) && |rows| <= n && (forall r :: r in rows ==> r in candidates)
    && (|rows| < n ==> forall r :: r in candidates ==> r in rows)
    && (forall r, i :: r in candidates && r !in rows && 0 <= i < |rows| ==> Before(rows[i], r))
  }

  /** What one query answers, with one row more than the page to see whether another page follows. */
  ghost predicate Answers(table: map<string, Row>, f: Filter, c: Option<Cursor>, limit: nat, page: Page) {
    exists rows :: IsTop(Candidates(table, f, c), limit + 1, rows) && page == PageOf(rows, f, limit)
  }

  function PageOf(rows: seq<Row>, f: Filter, limit: nat): Page {
    var items := if |rows| > limit then rows[..limit] else rows;
    Page(items, if |rows| > limit && |items| > 0
                then Some(Cursor(f, items[|items| - 1].occurredAt, items[|items| - 1].id)) else None)
  }

  // ---------------------------------------------------------------- the order is total

  lemma {:induction false} LessTotal(a: string, b: string)
    ensures (a != b <==> Less(a, b) || Less(b, a)) && !(Less(a, b) && Less(b, a))
  {
    if a != "" && b != "" {
      LessTotal(a[1..], b[1..]);
      assert a == [a[0]] + a[1..] && b == [b[0]] + b[1..];
    }
  }

  lemma {:induction false} LessTransitive(a: string, b: string, c: string)
    requires Less(a, b) && Less(b, c)
    ensures Less(a, c)
  {
    if a != "" && a[0] == b[0] == c[0] {
      LessTransitive(a[1..], b[1..], c[1..]);
    }
  }

  lemma BeforeTransitive(a: Row, b: Row, c: Row)
    requires Before(a, b) && Before(b, c)
    ensures Before(a, c)
  {
    if a.occurredAt == b.occurredAt == c.occurredAt {
      LessTransitive(c.id, b.id, a.id);
    }
  }

  lemma BeforeTotal(a: Row, b: Row)
    ensures a.id != b.id ==> Before(a, b) || Before(b, a)
    ensures !(Before(a, b) && Before(b, a)) && (a.id == b.id && a.occurredAt == b.occurredAt ==> !Before(a, b))
  {
    LessTotal(a.id, b.id);
  }

  // ---------------------------------------------------------------- the query

  ghost predicate Keyed(table: map<string, Row>) {
    forall id :: id in table ==> table[id].id == id && 0 < |id| <= MAX_CURSOR_ID && 0 <= table[id].occurredAt <= MAX_SAFE_INTEGER
  }

  /** The first candidate in listing order. */
  method First(candidates: set<Row>) returns (first: Row)
    requires candidates != {}
    requires forall a, b :: a in candidates && b in candidates && a.id == b.id ==> a == b
    ensures first in candidates && forall r :: r in candidates && r != first ==> Before(first, r)
  {
    first := Pick(candidates);
    var rest := candidates - {first};
    while rest != {}
      invariant rest <= candidates && first in candidates && first !in rest
      invariant forall r :: r in candidates && r !in rest && r != first ==> Before(first, r)
      decreases rest
    {
      var r := Pick(rest);
      BeforeTotal(first, r);
      if Before(r, first) {
        forall other | other in candidates && other !in rest && other != first ensures Before(r, other) {
          BeforeTransitive(r, first, other);
        }
        first := r;
      }
      rest := rest - {r};
    }
  }

  method SelectTop(candidates: set<Row>, n: nat) returns (rows: seq<Row>)
    requires forall a, b :: a in candidates && b in candidates && a.id == b.id ==> a == b
    ensures IsTop(candidates, n, rows)
  {
    rows := [];
    var rest := candidates;
    while |rows| < n && rest != {}
      invariant rest <= candidates && |rows| <= n && Descending(rows)
      invariant forall r :: r in candidates <==> r in rows || r in rest
      invariant forall r, i :: r in rest && 0 <= i < |rows| ==> Before(rows[i], r)
      decreases rest
    {
      var first := First(rest);
      rows := rows + [first];
      rest := rest - {first};
    }
  }

  method List(table: map<string, Row>, f: Filter, cursor: Option<Cursor>, limit: Option<nat>) returns (r: Result<Page, Error>)
    requires Keyed(table)
    ensures r.Failure? <==> cursor.Some? && !Accepted(f, cursor.value)
    ensures r.Success? ==> Answers(table, f, cursor, if limit.Some? then limit.value else DEFAULT_LIMIT, r.value)
  {
    var n := if limit.Some? then limit.value else DEFAULT_LIMIT;
    if cursor.Some? && !Accepted(f, cursor.value) { return Failure(InvalidRequest); }
    var rows := SelectTop(Candidates(table, f, cursor), n + 1);
    return Success(PageOf(rows, f, n));
  }

  // ---------------------------------------------------------------- following cursors

  ghost predicate Grown(before: map<string, Row>, after: map<string, Row>) {
    forall id :: id in before ==> id in after && after[id] == before[id]
  }

  /** Page k answers from table k and from the cursor of page k - 1, which has one. */
  ghost predicate Turned(tables: seq<map<string, Row>>, f: Filter, limit: nat, pages: seq<Page>, k: nat)
    requires k < |pages| == |tables|
  {
    && Keyed(tables[k]) && (k > 0 ==> Grown(tables[k - 1], tables[k]) && pages[k - 1].next.Some?)
    && Answers(tables[k], f, CursorOf(pages, k), limit, pages[k])
  }

  /** A listing over tables that only grow; only its last page may lack a cursor. */
  ghost predicate Listing(tables: seq<map<string, Row>>, f: Filter, limit: nat, pages: seq<Page>) {
    |pages| == |tables| > 0 && limit > 0 && forall k :: 0 <= k < |pages| ==> Turned(tables, f, limit, pages, k)
  }

  function CursorOf(pages: seq<Page>, k: nat): Option<Cursor>
    requires k <= |pages|
  {
    if k == 0 then None else pages[k - 1].next
  }

  function Flat(pages: seq<Page>): seq<Row> {
    if pages == [] then [] else Flat(pages[..|pages| - 1]) + pages[|pages| - 1].items
  }

  /** Rows of a page come after its cursor, and the cursor it hands on is its last row. */
  lemma PageShape(table: map<string, Row>, f: Filter, c: Option<Cursor>, limit: nat, page: Page)
    requires Answers(table, f, c, limit, page) && Keyed(table)
    ensures Descending(page.items)
    ensures forall r :: r in page.items ==> r.id in table && table[r.id] == r && Matches(f, r) && Past(c, r)
    ensures page.next.Some? ==>
      && |page.items| == limit > 0 && Accepted(f, page.next.value)
      && page.next.value == Cursor(f, page.items[limit - 1].occurredAt, page.items[limit - 1].id)
    ensures limit > 0 ==> forall id :: id in table && Matches(f, table[id]) && Past(c, table[id]) && table[id] !in page.items ==>
              page.next.Some? && Past(page.next, table[id])
  {
    var rows :| IsTop(Candidates(table, f, c), limit + 1, rows) && page == PageOf(rows, f, limit);
    forall r | r in page.items ensures r.id in table && table[r.id] == r && Matches(f, r) && Past(c, r) {
      assert r in rows && r in Candidates(table, f, c);
    }
    forall id | id in table && Matches(f, table[id]) && Past(c, table[id]) && table[id] !in page.items && limit > 0
      ensures page.next.Some? && Past(page.next, table[id])
    {
      assert table[id] in Candidates(table, f, c);
      if table[id] in rows {
        var k :| 0 <= k < |rows| && rows[k] == table[id];
        assert Before(rows[limit - 1], rows[k]);
      } else {
        assert Before(rows[limit - 1], table[id]);
      }
    }
  }

  /** A page hands on a cursor exactly if a matching row follows it, and then it is full; only then can the next page have rows. */
  lemma PagesTellMore(table: map<string, Row>, f: Filter, c: Option<Cursor>, limit: nat, page: Page)
    requires Answers(table, f, c, limit, page) && Keyed(table) && limit > 0
    ensures page.next.Some? <==> exists id :: id in table && Matches(f, table[id]) && Past(c, table[id]) && table[id] !in page.items
    ensures |page.items| <= limit && (page.next.Some? ==> |page.items| == limit)
  {
    PageShape(table, f, c, limit, page);
    var rows :| IsTop(Candidates(table, f, c), limit + 1, rows) && page == PageOf(rows, f, limit);
    if page.next.Some? {
      var r := rows[limit];
      assert r in rows && r in Candidates(table, f, c);
      forall k | 0 <= k < limit ensures rows[k] != r {
        BeforeTotal(rows[k], r);
        assert Before(rows[k], r);
      }
    }
  }

  /** Each part of a filter narrows it by its own field, the times from the first inclusive to the last exclusive; without parts it matches all. */
  lemma FiltersMean(f: Filter, r: Row)
    ensures Matches(Filter(None, None, None, None, None, None, None, None), r)
    ensures f.actorId.Some? ==> (Matches(f, r) <==> Matches(f.(actorId := None), r) && f.actorId.value == r.actorId)
    ensures f.action.Some? ==> (Matches(f, r) <==> Matches(f.(action := None), r) && f.action.value == r.action)
    ensures f.resourceType.Some? ==> (Matches(f, r) <==> Matches(f.(resourceType := None), r) && f.resourceType.value == r.resourceType)
    ensures f.documentType.Some? ==> (Matches(f, r) <==> Matches(f.(documentType := None), r) && f.documentType == r.documentType)
    ensures f.occurredFrom.Some? ==> (Matches(f, r) <==> Matches(f.(occurredFrom := None), r) && r.occurredAt >= f.occurredFrom.value)
    ensures f.occurredTo.Some? ==> (Matches(f, r) <==> Matches(f.(occurredTo := None), r) && f.occurredTo.value > r.occurredAt)
    ensures f.callerChannel.Some? ==> (Matches(f, r) <==> Matches(f.(callerChannel := None), r) && f.callerChannel.value == r.callerChannel)
    ensures f.toolName.Some? ==> (Matches(f, r) <==> Matches(f.(toolName := None), r) && f.toolName == r.toolName)
  {
  }

  /** A cursor is accepted exactly for the filter it was issued for, with a time and an identifier a row can have. */
  lemma CursorsAreChecked(f: Filter, scope: Filter, occurredAt: int, id: string)
    ensures Accepted(f, Cursor(scope, occurredAt, id)) <==>
      scope == f && id != "" && |id| <= 256 && occurredAt >= 0 && occurredAt < MAX_SAFE_INTEGER + 1
  {
  }

  /** Everything past this cursor is listed after all of these rows. */
  ghost predicate EndsAt(rows: seq<Row>, c: Option<Cursor>) {
    c.Some? ==> forall i, r :: 0 <= i < |rows| && Past(c, r) ==> Before(rows[i], r)
  }

  lemma {:induction false} PageEndsAtItsCursor(items: seq<Row>, c: Cursor)
    requires Descending(items) && items != []
    requires c.occurredAt == items[|items| - 1].occurredAt && c.id == items[|items| - 1].id
    ensures EndsAt(items, Some(c))
  {
    var last := items[|items| - 1];
    forall i, r | 0 <= i < |items| && Past(Some(c), r) ensures Before(items[i], r) {
      assert Before(last, r);
      if i < |items| - 1 {
        BeforeTransitive(items[i], last, r);
      }
    }
  }

  lemma {:induction false} MorePages(earlier: seq<Row>, c: Option<Cursor>, items: seq<Row>, next: Option<Cursor>)
    requires Descending(earlier) && Descending(items) && EndsAt(earlier, c) && EndsAt(items, next)
    requires earlier != [] ==> c.Some?
    requires forall r :: r in items ==> Past(c, r)
    requires next.Some? ==> items != []
    ensures Descending(earlier + items) && EndsAt(earlier + items, next)
  {
    forall i, j | 0 <= i < j < |earlier + items| ensures Before((earlier + items)[i], (earlier + items)[j]) {
      if i < |earlier| <= j {
        assert items[j - |earlier|] in items;
      }
    }
    forall i, r | 0 <= i < |earlier| && next.Some? && Past(next, r) ensures Before(earlier[i], r) {
      assert items[0] in items;
      BeforeTransitive(earlier[i], items[0], r);
    }
  }

  lemma {:induction false} OnePageMore(pages: seq<Page>, k: nat)
    requires k < |pages|
    ensures Flat(pages[..k + 1]) == Flat(pages[..k]) + pages[k].items
  {
    assert pages[..k + 1][..k] == pages[..k];
  }

  /** A page in its listing: in order, past the cursor before it, and ending at the one after it. */
  ghost predicate InPlace(pages: seq<Page>, k: nat)
    requires k < |pages|
  {
    var items, next := pages[k].items, pages[k].next;
    && Descending(items) && (forall r :: r in items ==> Past(CursorOf(pages, k), r))
    && (next.Some? ==> items != [] && next.value.occurredAt == items[|items| - 1].occurredAt && next.value.id == items[|items| - 1].id)
    && (k < |pages| - 1 ==> next.Some?)
  }

  /** What has been listed so far: in descending order, up to and including the row the next cursor names. */
  lemma {:induction false} ListedSoFar(pages: seq<Page>, k: nat)
    requires k <= |pages| && forall j :: 0 <= j < |pages| ==> InPlace(pages, j)
    ensures Descending(Flat(pages[..k])) && EndsAt(Flat(pages[..k]), CursorOf(pages, k))
  {
    if k > 0 {
      ListedSoFar(pages, k - 1);
      assert InPlace(pages, k - 1);
      OnePageMore(pages, k - 1);
      var page := pages[k - 1];
      if page.next.Some? {
        PageEndsAtItsCursor(page.items, page.next.value);
      }
      assert k > 1 ==> InPlace(pages, k - 2);
      MorePages(Flat(pages[..k - 1]), CursorOf(pages, k - 1), page.items, page.next);
    }
  }

  lemma {:induction false} ListingsAreInPlace(tables: seq<map<string, Row>>, f: Filter, limit: nat, pages: seq<Page>)
    requires Listing(tables, f, limit, pages)
    ensures forall k :: 0 <= k < |pages| ==> InPlace(pages, k)
  {
    forall k | 0 <= k < |pages| ensures InPlace(pages, k) {
      assert Turned(tables, f, limit, pages, k) && (k < |pages| - 1 ==> Turned(tables, f, limit, pages, k + 1));
      PageShape(tables[k], f, CursorOf(pages, k), limit, pages[k]);
    }
  }

  lemma {:induction false} FullPages(pages: seq<Page>, limit: nat, k: nat)
    requires k <= |pages| && forall j :: 0 <= j < k ==> |pages[j].items| == limit
    ensures |Flat(pages[..k])| == k * limit
  {
    if k > 0 {
      FullPages(pages, limit, k - 1);
      OnePageMore(pages, k - 1);
    }
  }

  lemma {:induction false} FromSomePage(pages: seq<Page>, k: nat, r: Row)
    requires k <= |pages| && r in Flat(pages[..k])
    ensures exists j :: 0 <= j < k && r in pages[j].items
  {
    if k > 0 {
      OnePageMore(pages, k - 1);
      if r !in pages[k - 1].items {
        FromSomePage(pages, k - 1, r);
      }
    }
  }

  /** A matching row of the first table that was not listed yet still lies past the next cursor. */
  lemma {:induction false} NothingIsSkipped(tables: seq<map<string, Row>>, f: Filter, limit: nat, pages: seq<Page>, k: nat, id: string)
    requires Listing(tables, f, limit, pages) && k <= |pages| && id in tables[0] && Matches(f, tables[0][id])
    ensures tables[0][id] in Flat(pages[..k]) || (Past(CursorOf(pages, k), tables[0][id]) && (k == |pages| ==> CursorOf(pages, k).Some?))
  {
    if k > 0 {
      NothingIsSkipped(tables, f, limit, pages, k - 1, id);
      StillThere(tables, f, limit, pages, k - 1, id);
      assert Turned(tables, f, limit, pages, k - 1) && (k < |pages| ==> Turned(tables, f, limit, pages, k));
      PageShape(tables[k - 1], f, CursorOf(pages, k - 1), limit, pages[k - 1]);
      OnePageMore(pages, k - 1);
    }
  }

  lemma {:induction false} StillThere(tables: seq<map<string, Row>>, f: Filter, limit: nat, pages: seq<Page>, k: nat, id: string)
    requires Listing(tables, f, limit, pages) && k < |tables| && id in tables[0]
    ensures id in tables[k] && tables[k][id] == tables[0][id]
  {
    if k > 0 {
      StillThere(tables, f, limit, pages, k - 1, id);
      assert Turned(tables, f, limit, pages, k);
    }
  }

  // ---------------------------------------------------------------- theorems

  /** While rows are inserted between pages, no row is listed twice, and the cursors handed out are accepted. */
  lemma {:induction false} NoRowTwice(tables: seq<map<string, Row>>, f: Filter, limit: nat, pages: seq<Page>)
    requires Listing(tables, f, limit, pages)
    ensures Descending(Flat(pages))
    ensures forall i, j :: 0 <= i < j < |Flat(pages)| ==> Flat(pages)[i] != Flat(pages)[j]
    ensures forall k :: 0 <= k < |pages| && pages[k].next.Some? ==> Accepted(f, pages[k].next.value)
  {
    assert pages[..|pages|] == pages;
    ListingsAreInPlace(tables, f, limit, pages);
    ListedSoFar(pages, |pages|);
    forall i, j | 0 <= i < j < |Flat(pages)| ensures Flat(pages)[i] != Flat(pages)[j] {
      BeforeTotal(Flat(pages)[i], Flat(pages)[j]);
    }
    forall k | 0 <= k < |pages| && pages[k].next.Some? ensures Accepted(f, pages[k].next.value) {
      assert Turned(tables, f, limit, pages, k);
      PageShape(tables[k], f, CursorOf(pages, k), limit, pages[k]);
    }
  }

  /** Once a listing has ended, every matching row that was there when it began has appeared. */
  lemma {:induction false} NoRowMissed(tables: seq<map<string, Row>>, f: Filter, limit: nat, pages: seq<Page>, id: string)
    requires Listing(tables, f, limit, pages) && pages[|pages| - 1].next.None?
    requires id in tables[0] && Matches(f, tables[0][id])
    ensures tables[0][id] in Flat(pages)
  {
    assert pages[..|pages|] == pages;
    NothingIsSkipped(tables, f, limit, pages, |pages|, id);
  }

  /** Rows of the first `k` pages are matching rows of the table. */
  lemma {:induction false} ListedRowsMatch(table: map<string, Row>, tables: seq<map<string, Row>>, f: Filter, limit: nat,
                                           pages: seq<Page>, k: nat, r: Row)
    requires Listing(tables, f, limit, pages) && k <= |pages| && r in Flat(pages[..k])
    requires forall j :: 0 <= j < |tables| ==> tables[j] == table
    ensures r.id in table && table[r.id] == r && Matches(f, r)
  {
    FromSomePage(pages, k, r);
    var j :| 0 <= j < k && r in pages[j].items;
    assert Turned(tables, f, limit, pages, j);
    PageShape(tables[j], f, CursorOf(pages, j), limit, pages[j]);
  }

  lemma {:induction false} PagesFitTheTable(table: map<string, Row>, tables: seq<map<string, Row>>, f: Filter, limit: nat, pages: seq<Page>)
    requires Listing(tables, f, limit, pages) && forall k :: 0 <= k < |tables| ==> tables[k] == table
    ensures (|pages| - 1) * limit <= |table|
  {
    var n := |pages| - 1;
    forall j | 0 <= j < n ensures |pages[j].items| == limit {
      assert Turned(tables, f, limit, pages, j) && Turned(tables, f, limit, pages, j + 1);
      PageShape(tables[j], f, CursorOf(pages, j), limit, pages[j]);
    }
    FullPages(pages, limit, n);
    forall r | r in Flat(pages[..n]) ensures r.id in table && table[r.id] == r {
      ListedRowsMatch(table, tables, f, limit, pages, n, r);
    }
    ListingsAreInPlace(tables, f, limit, pages);
    ListedSoFar(pages, n);
    DistinctRowsFit(table, Flat(pages[..n]));
  }

  /** Over a table that does not change, an ended listing is exactly the matching rows, and it needs few pages. */
  lemma {:induction false} FixedTableListing(table: map<string, Row>, tables: seq<map<string, Row>>, f: Filter, limit: nat, pages: seq<Page>, r: Row)
    requires Listing(tables, f, limit, pages) && forall k :: 0 <= k < |tables| ==> tables[k] == table
    ensures (|pages| - 1) * limit <= |table|
    ensures pages[|pages| - 1].next.None? ==> (r in Flat(pages) <==> r.id in table && table[r.id] == r && Matches(f, r))
  {
    PagesFitTheTable(table, tables, f, limit, pages);
    assert pages[..|pages|] == pages;
    if r in Flat(pages) {
      ListedRowsMatch(table, tables, f, limit, pages, |pages|, r);
    } else if r.id in table && table[r.id] == r && Matches(f, r) && pages[|pages| - 1].next.None? {
      NoRowMissed(tables, f, limit, pages, r.id);
    }
  }

  // ---------------------------------------------------------------- listings there are

  ghost predicate KeyedSet(candidates: set<Row>) {
    forall a, b :: a in candidates && b in candidates && a.id == b.id ==> a == b
  }

  lemma FirstOf(candidates: set<Row>) returns (first: Row)
    requires candidates != {} && KeyedSet(candidates)
    ensures first in candidates && forall r :: r in candidates && r != first ==> Before(first, r)
  {
    first :| first in candidates;
    if candidates != {first} {
      var second := FirstOf(candidates - {first});
      BeforeTotal(first, second);
      if Before(second, first) {
        first := second;
      } else {
        forall r | r in candidates && r != first ensures Before(first, r) {
          if r != second { BeforeTransitive(first, second, r); }
        }
      }
    }
  }

  lemma TopOf(candidates: set<Row>, n: nat) returns (rows: seq<Row>)
    requires KeyedSet(candidates)
    ensures IsTop(candidates, n, rows)
  {
    rows := [];
    if n > 0 && candidates != {} {
      var first := FirstOf(candidates);
      var rest := TopOf(candidates - {first}, n - 1);
      rows := [first] + rest;
    }
  }

  lemma {:induction false} OneMorePage(tables: seq<map<string, Row>>, f: Filter, limit: nat, pages: seq<Page>, table: map<string, Row>, page: Page)
    requires Listing(tables, f, limit, pages) && pages[|pages| - 1].next.Some?
    requires Keyed(table) && Grown(tables[|tables| - 1], table) && Answers(table, f, CursorOf(pages, |pages|), limit, page)
    ensures Listing(tables + [table], f, limit, pages + [page])
  {
    var tables', pages' := tables + [table], pages + [page];
    forall k | 0 <= k < |pages'| ensures Turned(tables', f, limit, pages', k) {
      assert k < |pages| ==> Turned(tables, f, limit, pages, k);
    }
  }

  lemma PageOver(table: map<string, Row>, f: Filter, c: Option<Cursor>, limit: nat) returns (page: Page)
    requires Keyed(table)
    ensures Answers(table, f, c, limit, page)
  {
    var rows := TopOf(Candidates(table, f, c), limit + 1);
    page := PageOf(rows, f, limit);
  }

  /** A listing that has not ended has a next page, whatever was inserted meanwhile. */
  lemma {:induction false} ListingGoesOn(tables: seq<map<string, Row>>, f: Filter, limit: nat, pages: seq<Page>, table: map<string, Row>)
      returns (page: Page)
    requires Listing(tables, f, limit, pages) && pages[|pages| - 1].next.Some?
    requires Keyed(table) && Grown(tables[|tables| - 1], table)
    ensures Listing(tables + [table], f, limit, pages + [page])
  {
    page := PageOver(table, f, CursorOf(pages, |pages|), limit);
    OneMorePage(tables, f, limit, pages, table, page);
  }

  lemma ListingBegins(table: map<string, Row>, f: Filter, limit: nat) returns (page: Page)
    requires Keyed(table) && limit > 0
    ensures Listing([table], f, limit, [page])
  {
    page := PageOver(table, f, None, limit);
  }

  lemma Multiple(n: nat, limit: nat)
    requires limit > 0
    ensures n <= n * limit
  {
  }

  lemma {:induction false} FewPages(table: map<string, Row>, tables: seq<map<string, Row>>, f: Filter, limit: nat, pages: seq<Page>)
    requires Listing(tables, f, limit, pages) && forall k :: 0 <= k < |tables| ==> tables[k] == table
    ensures |pages| - 1 <= |table|
  {
    PagesFitTheTable(table, tables, f, limit, pages);
    Multiple(|pages| - 1, limit);
  }

  lemma {:induction false} LastPage(table: map<string, Row>, tables: seq<map<string, Row>>, f: Filter, limit: nat, pages: seq<Page>)
      returns (more: seq<map<string, Row>>, all: seq<Page>)
    requires Listing(tables, f, limit, pages) && forall k :: 0 <= k < |tables| ==> tables[k] == table
    ensures Listing(more, f, limit, all) && all[|all| - 1].next.None? && forall k :: 0 <= k < |more| ==> more[k] == table
    decreases |table| + 1 - |pages|
  {
    FewPages(table, tables, f, limit, pages);
    if pages[|pages| - 1].next.None? {
      more, all := tables, pages;
    } else {
      assert Turned(tables, f, limit, pages, 0);
      var page := ListingGoesOn(tables, f, limit, pages, table);
      more, all := LastPage(table, tables + [table], f, limit, pages + [page]);
    }
  }

  /** Over a table that does not change, following cursors from the first page comes to an end. */
  lemma {:induction false} ListingEnds(table: map<string, Row>, f: Filter, limit: nat)
      returns (tables: seq<map<string, Row>>, pages: seq<Page>)
    requires Keyed(table) && limit > 0
    ensures Listing(tables, f, limit, pages) && pages[|pages| - 1].next.None? && forall k :: 0 <= k < |tables| ==> tables[k] == table
  {
    var page := ListingBegins(table, f, limit);
    tables, pages := LastPage(table, [table], f, limit, [page]);
  }

  lemma {:induction false} DistinctRowsFit(table: map<string, Row>, rows: seq<Row>)
    requires Descending(rows) && forall r :: r in rows ==> r.id in table && table[r.id] == r
    ensures |rows| <= |table|
    decreases |rows|
  {
    if rows != [] {
      var last := rows[|rows| - 1];
      var smaller := table - {last.id};
      forall r | r in rows[..|rows| - 1] ensures r.id in smaller && smaller[r.id] == r {
        BeforeTotal(r, last);
      }
      DistinctRowsFit(smaller, rows[..|rows| - 1]);
      assert table.Keys == smaller.Keys + {last.id};
    }
  }
}
