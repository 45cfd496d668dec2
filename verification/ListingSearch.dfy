/**
 Keyset paging of the listing search: one query per page, seeking past the last row of the page before.
 A cursor is modelled by the value and id it encodes; an undecodable one is no cursor.
 */
module ListingSearch {
  import opened Options

  datatype Direction = ASC | DESC

  /** A matching listing: its id and the value of the chosen sort column. */
  datatype Row = Row(id: int, value: int)

  type Cursor = Row

  /** ORDER BY value <direction>, id ASC. */
  predicate Before(a: Row, b: Row, dir: Direction) {
    if a.value == b.value then a.id < b.id
    else if dir == ASC then a.value < b.value else a.value > b.value
  }

  /** The rows in the order the query returns them; ids are unique, so the order is strict. */
  predicate Ordered(rows: seq<Row>, dir: Direction) {
    forall i, j :: 0 <= i < j < |rows| ==> Before(rows[i], rows[j], dir)
  }

  /** The row comparison `(value, id) > (cursor)` for ASC and `(value, id) < (cursor)` for DESC. */
  predicate Past(r: Row, cursor: Cursor, dir: Direction) {
    if dir == ASC then r.value > cursor.value || (r.value == cursor.value && r.id > cursor.id)
    else r.value < cursor.value || (r.value == cursor.value && r.id < cursor.id)
  }

  predicate Sought(r: Row, cursor: Option<Cursor>, dir: Direction) {
    cursor.Some? ==> Past(r, cursor.value, dir)
  }

  function Select(rows: seq<Row>, keep: Row -> bool): (kept: seq<Row>)
    ensures |kept| <= |rows|
    ensures forall r :: r in kept <==> r in rows && keep(r)
  {
    if rows == [] then []
    else if keep(rows[0]) then [rows[0]] + Select(rows[1..], keep) else Select(rows[1..], keep)
  }

  function Remaining(rows: seq<Row>, cursor: Option<Cursor>, dir: Direction): seq<Row> {
    Select(rows, (r: Row) => Sought(r, cursor, dir))
  }

  datatype Page = Page(rows: seq<Row>, nextCursor: Option<Cursor>, hasMore: bool)

  /** One page of the rows past the cursor, as a specification. */
  function PageAt(rows: seq<Row>, cursor: Option<Cursor>, dir: Direction, pageSize: nat): Page {
    var rest := Remaining(rows, cursor, dir);
    if rest == [] || pageSize == 0 then Page([], None, false)
    else if |rest| > pageSize then Page(rest[..pageSize], Some(rest[pageSize - 1]), true)
    else Page(rest, None, false)
  }

  // ---------- searchListings ----------

  predicate Meets(r: Row, conditions: seq<Row -> bool>) {
    forall i :: 0 <= i < |conditions| ==> conditions[i](r)
  }

  function Take(rows: seq<Row>, limit: nat): seq<Row> {
    if |rows| <= limit then rows else rows[..limit]
  }

  /**
   The two-step search over a table in query order: collect the conditions, fetch one row more than a
   page, and keep from the page what is still visible when its rows are loaded.
   */
  method SearchListings(table: seq<Row>, filters: seq<Row -> bool>, cursor: Option<Cursor>, dir: Direction,
                        pageSize: nat, visible: Row -> bool)
    returns (items: seq<Row>, nextCursor: Option<Cursor>, hasMore: bool)
    ensures
      var page := PageAt(Select(table, (r: Row) => Meets(r, filters)), cursor, dir, pageSize);
      items == Select(page.rows, visible) && nextCursor == page.nextCursor && hasMore == page.hasMore
  {
    var conditions := filters;
    if cursor.Some? {
      conditions := conditions + [(r: Row) => Past(r, cursor.value, dir)];
    }
    ConditionsCompose(table, filters, conditions, cursor, dir);
    var rows := Take(Select(table, (r: Row) => Meets(r, conditions)), pageSize + 1);
    hasMore := |rows| > pageSize;
    var pageRows := if hasMore then rows[..pageSize] else rows;
    if pageRows == [] {
      return [], None, false;
    }
    ghost var rest := Select(table, (r: Row) => Meets(r, conditions));
    if hasMore {
      assert rest[..pageSize + 1][..pageSize] == rest[..pageSize];
    }
    items := Select(pageRows, visible);
    nextCursor := if hasMore then Some(pageRows[|pageRows| - 1]) else None;
  }

  lemma {:induction false} ConditionsCompose(table: seq<Row>, filters: seq<Row -> bool>, conditions: seq<Row -> bool>,
                                             cursor: Option<Cursor>, dir: Direction)
    requires conditions == if cursor.Some? then filters + [(r: Row) => Past(r, cursor.value, dir)] else filters
    ensures Select(table, (r: Row) => Meets(r, conditions))
            == Remaining(Select(table, (r: Row) => Meets(r, filters)), cursor, dir)
    decreases |table|
  {
    if table != [] {
      ConditionsCompose(table[1..], filters, conditions, cursor, dir);
      var r := table[0];
      assert Meets(r, conditions) <==> Meets(r, filters) && Sought(r, cursor, dir) by {
        if Meets(r, conditions) {
          forall i | 0 <= i < |filters| ensures filters[i](r) {
            assert conditions[i](r);
          }
          if cursor.Some? {
            assert conditions[|filters|](r);
          }
        }
      }
    }
  }

  // ---------- Following nextCursor ----------

  /** The cursor key strictly moves, so every page leaves fewer rows to come. */
  lemma NextPageIsShorter(rows: seq<Row>, cursor: Option<Cursor>, dir: Direction, pageSize: nat)
    requires PageAt(rows, cursor, dir, pageSize).nextCursor.Some?
    ensures |Remaining(rows, PageAt(rows, cursor, dir, pageSize).nextCursor, dir)| < |Remaining(rows, cursor, dir)|
  {
    var next := PageAt(rows, cursor, dir, pageSize).nextCursor;
    var last := next.value;
    assert last in Remaining(rows, cursor, dir);
    FewerSelected(rows, cursor, last, dir);
  }

  lemma {:induction false} FewerSelected(rows: seq<Row>, cursor: Option<Cursor>, last: Row, dir: Direction)
    requires Sought(last, cursor, dir)
    ensures |Remaining(rows, Some(last), dir)| <= |Remaining(rows, cursor, dir)|
    ensures last in rows ==> |Remaining(rows, Some(last), dir)| < |Remaining(rows, cursor, dir)|
    decreases |rows|
  {
    if rows != [] {
      FewerSelected(rows[1..], cursor, last, dir);
    }
  }

  /** All pages from a cursor on, one after the other. That this function is accepted is the proof that a walk ends. */
  function Walk(rows: seq<Row>, cursor: Option<Cursor>, dir: Direction, pageSize: nat): seq<Row>
    decreases |Remaining(rows, cursor, dir)|
  {
    var page := PageAt(rows, cursor, dir, pageSize);
    if page.nextCursor.None? then page.rows
    else
      NextPageIsShorter(rows, cursor, dir, pageSize);
      page.rows + Walk(rows, page.nextCursor, dir, pageSize)
  }

  /** A page boundary in the full list: the row before it is the cursor. */
  predicate Boundary(rows: seq<Row>, k: nat, pageSize: nat) {
    0 < k < |rows| && WholePages(k, pageSize)
  }

  predicate WholePages(k: nat, pageSize: nat) {
    k == 0 || (0 < pageSize <= k && WholePages(k - pageSize, pageSize))
  }

  /** No other match has this row's sort value. */
  predicate UniqueValue(rows: seq<Row>, k: nat)
    requires k < |rows|
  {
    forall j :: 0 <= j < |rows| && j != k ==> rows[j].value != rows[k].value
  }

  /** The cursor row can be sought past without skipping or repeating: always for ASC, for DESC if it has no ties. */
  predicate Clean(rows: seq<Row>, k: nat, dir: Direction)
    requires k < |rows|
  {
    dir == ASC || UniqueValue(rows, k)
  }

  lemma {:induction false} SelectAll(rows: seq<Row>, keep: Row -> bool)
    requires forall r :: r in rows ==> keep(r)
    ensures Select(rows, keep) == rows
    decreases |rows|
  {
    if rows != [] {
      SelectAll(rows[1..], keep);
    }
  }

  lemma {:induction false} SelectNone(rows: seq<Row>, keep: Row -> bool)
    requires forall r :: r in rows ==> !keep(r)
    ensures Select(rows, keep) == []
    decreases |rows|
  {
    if rows != [] {
      SelectNone(rows[1..], keep);
    }
  }

  lemma {:induction false} SelectConcat(a: seq<Row>, b: seq<Row>, keep: Row -> bool)
    ensures Select(a + b, keep) == Select(a, keep) + Select(b, keep)
    decreases |a|
  {
    if a == [] {
      assert a + b == b;
    } else {
      assert (a + b)[1..] == a[1..] + b;
      SelectConcat(a[1..], b, keep);
    }
  }

  /** A clean cursor lies between the rows before it, itself included, and the rows after it. */
  lemma CleanCursorDivides(rows: seq<Row>, k: nat, dir: Direction, i: nat)
    requires Ordered(rows, dir) && 0 < k <= |rows| && Clean(rows, k - 1, dir) && i < |rows|
    ensures Past(rows[i], rows[k - 1], dir) <==> k <= i
  {
    if i < k - 1 {
      assert Before(rows[i], rows[k - 1], dir);
    } else if k - 1 < i {
      assert Before(rows[k - 1], rows[i], dir);
    }
  }

  /** Past a clean cursor lies exactly the rest of the list. */
  lemma CleanCursorLeavesTheRest(rows: seq<Row>, k: nat, dir: Direction)
    requires Ordered(rows, dir) && 0 < k <= |rows| && Clean(rows, k - 1, dir)
    ensures Remaining(rows, Some(rows[k - 1]), dir) == rows[k..]
  {
    forall i: nat | i < |rows|
      ensures Sought(rows[i], Some(rows[k - 1]), dir) <==> k <= i
    {
      CleanCursorDivides(rows, k, dir, i);
    }
    SelectTail(rows, (r: Row) => Sought(r, Some(rows[k - 1]), dir), k);
  }

  lemma SelectTail(rows: seq<Row>, keep: Row -> bool, k: nat)
    requires k <= |rows| && forall i: nat :: i < |rows| ==> (keep(rows[i]) <==> k <= i)
    ensures Select(rows, keep) == rows[k..]
  {
    assert rows == rows[..k] + rows[k..];
    SelectConcat(rows[..k], rows[k..], keep);
    SelectNone(rows[..k], keep);
    SelectAll(rows[k..], keep);
  }

  /** Everything a walk returns lies past its cursor. */
  lemma {:induction false} WalkStaysPast(rows: seq<Row>, cursor: Option<Cursor>, dir: Direction, pageSize: nat, r: Row)
    requires r in Walk(rows, cursor, dir, pageSize)
    ensures r in rows && Sought(r, cursor, dir)
    decreases |Remaining(rows, cursor, dir)|
  {
    var page := PageAt(rows, cursor, dir, pageSize);
    if r in page.rows {
      assert r in Remaining(rows, cursor, dir);
    } else {
      NextPageIsShorter(rows, cursor, dir, pageSize);
      WalkStaysPast(rows, page.nextCursor, dir, pageSize, r);
      assert page.nextCursor.value in Remaining(rows, cursor, dir);
    }
  }

  lemma WalkStartsWithTheFirst(rows: seq<Row>, cursor: Option<Cursor>, dir: Direction, pageSize: nat)
    requires pageSize > 0 && Remaining(rows, cursor, dir) != []
    ensures Walk(rows, cursor, dir, pageSize) != []
    ensures Walk(rows, cursor, dir, pageSize)[0] == Remaining(rows, cursor, dir)[0]
  {
  }

  lemma {:induction false} FirstSelected(rows: seq<Row>, keep: Row -> bool, j: nat) returns (i: nat)
    requires j < |rows| && keep(rows[j])
    ensures i <= j && Select(rows, keep) != [] && Select(rows, keep)[0] == rows[i]
    decreases |rows|
  {
    if keep(rows[0]) {
      i := 0;
    } else {
      i := FirstSelected(rows[1..], keep, j - 1);
      i := i + 1;
    }
  }

  /** Following the cursor of row k - 1 returns exactly the rest of the list. */
  predicate RightFrom(rows: seq<Row>, k: nat, dir: Direction, pageSize: nat)
    requires 0 < k <= |rows|
  {
    Walk(rows, Some(rows[k - 1]), dir, pageSize) == rows[k..]
  }

  /** A tied cursor breaks the walk: a later tie is skipped, an earlier one comes again. */
  lemma TiedCursorBreaks(rows: seq<Row>, k: nat, pageSize: nat)
    requires Ordered(rows, DESC) && 0 < k < |rows| && pageSize > 0 && !UniqueValue(rows, k - 1)
    ensures !RightFrom(rows, k, DESC, pageSize)
  {
    var cursor := Some(rows[k - 1]);
    var j :| 0 <= j < |rows| && j != k - 1 && rows[j].value == rows[k - 1].value;
    if j < k - 1 {
      assert Before(rows[j], rows[k - 1], DESC);
      var i := FirstSelected(rows, (r: Row) => Sought(r, cursor, DESC), j);
      WalkStartsWithTheFirst(rows, cursor, DESC, pageSize);
      assert Before(rows[i], rows[k], DESC);
    } else {
      assert Before(rows[k - 1], rows[k], DESC) && (k < j ==> Before(rows[k], rows[j], DESC));
      assert rows[k..][0] == rows[k];
      if rows[k] in Walk(rows, cursor, DESC, pageSize) {
        WalkStaysPast(rows, cursor, DESC, pageSize, rows[k]);
      }
    }
  }

  /** No page from boundary k on starts after a tied row. */
  ghost predicate CleanFrom(rows: seq<Row>, k: nat, dir: Direction, pageSize: nat) {
    forall b: nat :: k <= b && Boundary(rows, b, pageSize) ==> Clean(rows, b - 1, dir)
  }

  lemma {:induction false} BoundariesAreApart(k: nat, b: nat, pageSize: nat)
    requires WholePages(k, pageSize) && WholePages(b, pageSize) && k <= b
    ensures b == k || k + pageSize <= b
  {
    if k > 0 {
      BoundariesAreApart(k - pageSize, b - pageSize, pageSize);
    }
  }

  lemma CleanFromNext(rows: seq<Row>, k: nat, dir: Direction, pageSize: nat)
    requires Boundary(rows, k, pageSize) && pageSize > 0
    ensures CleanFrom(rows, k, dir, pageSize) <==>
              Clean(rows, k - 1, dir) && CleanFrom(rows, k + pageSize, dir, pageSize)
  {
    forall b: nat | k <= b && Boundary(rows, b, pageSize)
      ensures b == k || k + pageSize <= b
    {
      BoundariesAreApart(k, b, pageSize);
    }
  }

  /** The page after a clean cursor is the next piece of the list, so all depends on the page after it. */
  lemma CleanPage(rows: seq<Row>, k: nat, dir: Direction, pageSize: nat)
    requires Ordered(rows, dir) && 0 < k < |rows| && pageSize > 0 && Clean(rows, k - 1, dir)
    ensures RightFrom(rows, k, dir, pageSize) <==>
              (k + pageSize < |rows| ==> RightFrom(rows, k + pageSize, dir, pageSize))
  {
    CleanCursorLeavesTheRest(rows, k, dir);
    if k + pageSize < |rows| {
      assert rows[k..][..pageSize] == rows[k..k + pageSize];
      assert rows[k..][pageSize - 1] == rows[k + pageSize - 1];
      SameTail(rows[k..k + pageSize], Walk(rows, Some(rows[k + pageSize - 1]), dir, pageSize), rows[k + pageSize..]);
      assert rows[k..] == rows[k..k + pageSize] + rows[k + pageSize..];
    }
  }

  lemma SameTail(head: seq<Row>, a: seq<Row>, b: seq<Row>)
    ensures head + a == head + b <==> a == b
  {
    assert (head + a)[|head|..] == a && (head + b)[|head|..] == b;
  }

  /** From boundary k on, the walk is right exactly when this and every later boundary is clean. */
  lemma {:induction false} WalkFromBoundary(rows: seq<Row>, k: nat, dir: Direction, pageSize: nat)
    requires Ordered(rows, dir) && pageSize > 0 && Boundary(rows, k, pageSize)
    ensures RightFrom(rows, k, dir, pageSize) <==> CleanFrom(rows, k, dir, pageSize)
    decreases |rows| - k
  {
    CleanFromNext(rows, k, dir, pageSize);
    if !Clean(rows, k - 1, dir) {
      TiedCursorBreaks(rows, k, pageSize);
    } else {
      CleanPage(rows, k, dir, pageSize);
      assert WholePages(k + pageSize, pageSize);
      if k + pageSize < |rows| {
        WalkFromBoundary(rows, k + pageSize, dir, pageSize);
      }
    }
  }

  /** Without a cursor the first page is the beginning of the list, so all depends on the page after it. */
  lemma FirstPage(rows: seq<Row>, dir: Direction, pageSize: nat)
    requires pageSize > 0
    ensures Walk(rows, None, dir, pageSize) == rows <==>
              (pageSize < |rows| ==> RightFrom(rows, pageSize, dir, pageSize))
  {
    SelectAll(rows, (r: Row) => Sought(r, None, dir));
    if pageSize < |rows| {
      SameTail(rows[..pageSize], Walk(rows, Some(rows[pageSize - 1]), dir, pageSize), rows[pageSize..]);
      assert rows == rows[..pageSize] + rows[pageSize..];
    }
  }

  /**
   Following nextCursor from the start returns the full ordered list, each row exactly once, exactly
   when no page ends on a row whose sort value another match shares, or the sort is ascending.
   */
  lemma WalkIsComplete(rows: seq<Row>, dir: Direction, pageSize: nat)
    requires Ordered(rows, dir) && pageSize > 0
    ensures Walk(rows, None, dir, pageSize) == rows
            <==> (dir == ASC || forall b: nat :: Boundary(rows, b, pageSize) ==> UniqueValue(rows, b - 1))
  {
    FirstPage(rows, dir, pageSize);
    AllBoundaries(rows, dir, pageSize);
    if pageSize < |rows| {
      WalkFromBoundary(rows, pageSize, dir, pageSize);
    }
  }

  lemma AllBoundaries(rows: seq<Row>, dir: Direction, pageSize: nat)
    requires pageSize > 0
    ensures CleanFrom(rows, pageSize, dir, pageSize)
            <==> (dir == ASC || forall b: nat :: Boundary(rows, b, pageSize) ==> UniqueValue(rows, b - 1))
    ensures pageSize < |rows| ==> Boundary(rows, pageSize, pageSize)
    ensures pageSize >= |rows| ==> CleanFrom(rows, pageSize, dir, pageSize)
  {
    assert WholePages(0, pageSize);
    forall b: nat | Boundary(rows, b, pageSize)
      ensures pageSize <= b
    {
      BoundariesAreApart(0, b, pageSize);
    }
  }
}
