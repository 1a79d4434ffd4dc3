/**
 * Keyset pagination: lists ordered by a timestamp and then by id, in either
 * direction, read a page at a time from a cursor while rows come and go.
 */
module KeysetPaging {
  import opened Wrappers

  /** A row: creation time in microseconds, and the id that breaks ties. */
  datatype Row = Row(createdAt: int, id: int)

  datatype Cursor = Cursor(k: int, id: int)

  /** `grain` is in microseconds: events and knowledge bases list newest first by 1000, messages oldest first by 1. */
  datatype Scheme = Scheme(ascending: bool, grain: int)

  predicate Good(s: Scheme) { s.grain > 0 }

  function CursorOf(s: Scheme, r: Row): Cursor
    requires Good(s)
  {
    Cursor(r.createdAt / s.grain, r.id)
  }

  predicate Less(a: Cursor, b: Cursor) { a.k < b.k || (a.k == b.k && a.id < b.id) }

  /** `a` is listed before `b`. */
  predicate Precedes(s: Scheme, a: Cursor, b: Cursor) { if s.ascending then Less(a, b) else Less(b, a) }

  predicate After(s: Scheme, cursor: Option<Cursor>, r: Row)
    requires Good(s)
  {
    cursor.None? || Precedes(s, cursor.value, CursorOf(s, r))
  }

  // ----- one page

  /** The requested limit, clamped to 1..100; 20 when none is given. */
  function Clamp(limit: Option<int>): (r: nat)
    ensures 1 <= r <= 100
  {
    var n := if limit.Some? then limit.value else 20;
    if n < 1 then 1 else if n > 100 then 100 else n
  }

  /** The rows past the cursor. */
  function Filtered(s: Scheme, table: seq<Row>, cursor: Option<Cursor>): (r: seq<Row>)
    requires Good(s)
    ensures forall x :: x in r <==> x in table && After(s, cursor, x)
  {
    if table == [] then []
    else if After(s, cursor, table[0]) then [table[0]] + Filtered(s, table[1..], cursor)
    else Filtered(s, table[1..], cursor)
  }

  function Insert(s: Scheme, x: Row, rows: seq<Row>): (r: seq<Row>)
    requires Good(s)
    ensures forall y :: y in r <==> y == x || y in rows
    ensures |r| == |rows| + 1
  {
    if rows == [] then [x]
    else if Precedes(s, CursorOf(s, x), CursorOf(s, rows[0])) then [x] + rows
    else [rows[0]] + Insert(s, x, rows[1..])
  }

  function Sorted(s: Scheme, rows: seq<Row>): (r: seq<Row>)
    requires Good(s)
    ensures forall y :: y in r <==> y in rows
    ensures |r| == |rows|
  {
    if rows == [] then [] else Insert(s, rows[0], Sorted(s, rows[1..]))
  }

  datatype Page = Page(items: seq<Row>, next: Option<Cursor>)

  /** One more row than the limit is asked for, to know whether there is a next page. */
  function PageOf(s: Scheme, table: seq<Row>, cursor: Option<Cursor>, limit: Option<int>): Page
    requires Good(s)
  {
    var n := Clamp(limit);
    var rows := Sorted(s, Filtered(s, table, cursor));
    if |rows| > n then Page(rows[..n], Some(CursorOf(s, rows[n - 1]))) else Page(rows, None)
  }

  // ----- a walk: each page from the table as it is then

  datatype Look = Look(table: seq<Row>, limit: Option<int>)

  function Walk(s: Scheme, looks: seq<Look>, cursor: Option<Cursor>): seq<Row>
    requires Good(s)
  {
    if looks == [] then []
    else
      var page := PageOf(s, looks[0].table, cursor, looks[0].limit);
      if page.next.None? then page.items else page.items + Walk(s, looks[1..], page.next)
  }

  /** The walk reached a page without a next cursor. */
  predicate Ends(s: Scheme, looks: seq<Look>, cursor: Option<Cursor>)
    requires Good(s)
  {
    looks != []
    && var page := PageOf(s, looks[0].table, cursor, looks[0].limit);
       page.next.None? || Ends(s, looks[1..], page.next)
  }

  /** Ids are unique in a table. */
  ghost predicate UniqueIds(table: seq<Row>) { forall i, j :: 0 <= i < j < |table| ==> table[i].id != table[j].id }

  ghost predicate InOrder(s: Scheme, rows: seq<Row>)
    requires Good(s)
  {
    forall i, j :: 0 <= i < j < |rows| ==> Precedes(s, CursorOf(s, rows[i]), CursorOf(s, rows[j]))
  }

  // ----- sorting

  lemma {:induction false} InsertInOrder(s: Scheme, x: Row, rows: seq<Row>)
    requires Good(s) && InOrder(s, rows) && forall y :: y in rows ==> y.id != x.id
    ensures InOrder(s, Insert(s, x, rows))
  {
    if rows != [] && !Precedes(s, CursorOf(s, x), CursorOf(s, rows[0])) {
      assert rows[0] in rows;
      forall y | y in rows[1..] ensures Precedes(s, CursorOf(s, rows[0]), CursorOf(s, y)) && y in rows {
        var i :| 0 <= i < |rows[1..]| && rows[1..][i] == y;
        assert rows[i + 1] == y;
      }
      InsertInOrder(s, x, rows[1..]);
      ConsInOrder(s, rows[0], Insert(s, x, rows[1..]));
    }
  }

  lemma {:induction false} ConsInOrder(s: Scheme, x: Row, rows: seq<Row>)
    requires Good(s) && InOrder(s, rows) && forall y :: y in rows ==> Precedes(s, CursorOf(s, x), CursorOf(s, y))
    ensures InOrder(s, [x] + rows)
  {
    assert forall i :: 0 <= i < |rows| ==> rows[i] in rows;
  }

  lemma {:induction false} SortedInOrder(s: Scheme, rows: seq<Row>)
    requires Good(s) && UniqueIds(rows)
    ensures InOrder(s, Sorted(s, rows))
  {
    if rows != [] {
      SortedInOrder(s, rows[1..]);
      assert forall y :: y in rows[1..] ==> y.id != rows[0].id;
      InsertInOrder(s, rows[0], Sorted(s, rows[1..]));
    }
  }

  lemma {:induction false} FilteredUnique(s: Scheme, table: seq<Row>, cursor: Option<Cursor>)
    requires Good(s) && UniqueIds(table)
    ensures UniqueIds(Filtered(s, table, cursor))
  {
    if table != [] {
      FilteredUnique(s, table[1..], cursor);
      assert forall y :: y in table[1..] ==> y.id != table[0].id;
      var rest := Filtered(s, table[1..], cursor);
      assert forall i :: 0 <= i < |rest| ==> rest[i] in table[1..];
    }
  }

  // ----- pages

  lemma {:induction false} InPrefix(rows: seq<Row>, n: nat, i: nat)
    requires n <= |rows| && i < |rows|
    ensures i < n ==> rows[i] in rows[..n]
  {
    if i < n { assert rows[..n][i] == rows[i]; }
  }

  lemma {:induction false} PageShape(s: Scheme, table: seq<Row>, cursor: Option<Cursor>, limit: Option<int>)
    requires Good(s) && UniqueIds(table)
    ensures var page := PageOf(s, table, cursor, limit);
      && InOrder(s, page.items) && |page.items| <= Clamp(limit)
      && (forall x :: x in page.items ==> x in table && After(s, cursor, x))
      && (page.next.Some? ==> page.items != [] && page.next.value == CursorOf(s, page.items[|page.items| - 1]))
      && (forall x :: x in table && After(s, cursor, x) && x !in page.items ==>
           page.next.Some? && After(s, page.next, x))
  {
    var n, rows := Clamp(limit), Sorted(s, Filtered(s, table, cursor));
    FilteredUnique(s, table, cursor);
    SortedInOrder(s, Filtered(s, table, cursor));
    forall x | x in table && After(s, cursor, x) && |rows| > n && x !in rows[..n]
      ensures Precedes(s, CursorOf(s, rows[n - 1]), CursorOf(s, x))
    {
      assert x in rows;
      var i :| 0 <= i < |rows| && rows[i] == x;
      InPrefix(rows, n, i);
    }
  }

  lemma {:induction false} PrecedesTransitive(s: Scheme, a: Cursor, b: Cursor, c: Cursor)
    requires Precedes(s, a, b) && Precedes(s, b, c)
    ensures Precedes(s, a, c)
  {
  }

  lemma {:induction false} JoinInOrder(s: Scheme, first: seq<Row>, rest: seq<Row>)
    requires Good(s) && InOrder(s, first) && InOrder(s, rest) && first != []
    requires forall y :: y in rest ==> Precedes(s, CursorOf(s, first[|first| - 1]), CursorOf(s, y))
    ensures InOrder(s, first + rest)
  {
    var all, m := first + rest, |first| - 1;
    forall i, j | 0 <= i < j < |all| ensures Precedes(s, CursorOf(s, all[i]), CursorOf(s, all[j])) {
      if i <= m < j {
        assert all[j] in rest;
        if i < m { PrecedesTransitive(s, CursorOf(s, all[i]), CursorOf(s, first[m]), CursorOf(s, all[j])); }
      } else if m < i {
        assert all[i] == rest[i - m - 1] && all[j] == rest[j - m - 1];
      }
    }
  }

  lemma {:induction false} WalkShape(s: Scheme, looks: seq<Look>, cursor: Option<Cursor>)
    requires Good(s) && forall i :: 0 <= i < |looks| ==> UniqueIds(looks[i].table)
    ensures InOrder(s, Walk(s, looks, cursor))
    ensures forall x :: x in Walk(s, looks, cursor) ==>
      After(s, cursor, x) && exists i :: 0 <= i < |looks| && x in looks[i].table
    decreases |looks|
  {
    if looks != [] {
      var page := PageOf(s, looks[0].table, cursor, looks[0].limit);
      PageShape(s, looks[0].table, cursor, looks[0].limit);
      if page.next.Some? {
        WalkShape(s, looks[1..], page.next);
        JoinInOrder(s, page.items, Walk(s, looks[1..], page.next));
        forall x | x in Walk(s, looks[1..], page.next)
          ensures After(s, cursor, x) && exists i :: 0 <= i < |looks| && x in looks[i].table
        {
          var i :| 0 <= i < |looks[1..]| && x in looks[1..][i].table;
          assert x in looks[i + 1].table;
          assert page.items[|page.items| - 1] in page.items;
          if cursor.Some? { PrecedesTransitive(s, cursor.value, page.next.value, CursorOf(s, x)); }
        }
      }
    }
  }

  lemma {:induction false} WalkFinds(s: Scheme, looks: seq<Look>, cursor: Option<Cursor>, r: Row)
    requires Good(s) && Ends(s, looks, cursor) && After(s, cursor, r)
    requires forall i :: 0 <= i < |looks| ==> UniqueIds(looks[i].table) && r in looks[i].table
    ensures r in Walk(s, looks, cursor)
    decreases |looks|
  {
    var page := PageOf(s, looks[0].table, cursor, looks[0].limit);
    PageShape(s, looks[0].table, cursor, looks[0].limit);
    if r !in page.items { WalkFinds(s, looks[1..], page.next, r); }
  }

  /**
   * Following the cursors to the end, whatever the page sizes and whatever is
   * inserted or removed in between: the rows come in list order, none twice,
   * none that was in no table read, and every row that stayed throughout.
   */
  lemma {:induction false} WalkListsEachOnce(s: Scheme, looks: seq<Look>)
    requires Good(s) && Ends(s, looks, None) && forall i :: 0 <= i < |looks| ==> UniqueIds(looks[i].table)
    ensures InOrder(s, Walk(s, looks, None))
    ensures forall r :: r in Walk(s, looks, None) ==> exists i :: 0 <= i < |looks| && r in looks[i].table
    ensures forall r :: (forall i :: 0 <= i < |looks| ==> r in looks[i].table) ==> r in Walk(s, looks, None)
    ensures forall i, j :: 0 <= i < j < |Walk(s, looks, None)| ==> Walk(s, looks, None)[i] != Walk(s, looks, None)[j]
  {
    WalkShape(s, looks, None);
    forall r | forall i :: 0 <= i < |looks| ==> r in looks[i].table ensures r in Walk(s, looks, None) {
      WalkFinds(s, looks, None, r);
    }
    var w := Walk(s, looks, None);
    forall i, j | 0 <= i < j < |w| ensures w[i] != w[j] { assert Precedes(s, CursorOf(s, w[i]), CursorOf(s, w[j])); }
  }

  // ----- the end is reached

  lemma {:induction false} FewerLeft(s: Scheme, table: seq<Row>, from: Option<Cursor>, to: Cursor, x: Row)
    requires Good(s) && x in table && After(s, from, x) && CursorOf(s, x) == to
    ensures |Filtered(s, table, Some(to))| < |Filtered(s, table, from)|
  {
    NoMoreLeft(s, table, from, to, x);
    var i :| 0 <= i < |table| && table[i] == x;
    if i > 0 { FewerLeft(s, table[1..], from, to, x); } else { NoMoreLeft(s, table[1..], from, to, x); }
  }

  lemma {:induction false} NoMoreLeft(s: Scheme, table: seq<Row>, from: Option<Cursor>, to: Cursor, x: Row)
    requires Good(s) && After(s, from, x) && CursorOf(s, x) == to
    ensures |Filtered(s, table, Some(to))| <= |Filtered(s, table, from)|
  {
    if table != [] {
      NoMoreLeft(s, table[1..], from, to, x);
      if from.Some? && After(s, Some(to), table[0]) {
        PrecedesTransitive(s, from.value, to, CursorOf(s, table[0]));
      }
    }
  }

  /** On a table left alone, as many looks as there are rows past the cursor, and one, suffice. */
  lemma {:induction false} WalkEnds(s: Scheme, looks: seq<Look>, table: seq<Row>, cursor: Option<Cursor>)
    requires Good(s) && UniqueIds(table) && forall i :: 0 <= i < |looks| ==> looks[i].table == table
    requires |looks| > |Filtered(s, table, cursor)|
    ensures Ends(s, looks, cursor)
    decreases |looks|
  {
    var page := PageOf(s, table, cursor, looks[0].limit);
    PageShape(s, table, cursor, looks[0].limit);
    if page.next.Some? {
      var last := page.items[|page.items| - 1];
      assert last in page.items;
      FewerLeft(s, table, cursor, page.next.value, last);
      WalkEnds(s, looks[1..], table, page.next);
    }
  }
}
