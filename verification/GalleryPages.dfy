/** Keyset pagination of the public gallery. */
module GalleryPages {
  import opened Records

  type Id = string
  type Key = string

  datatype Sort = ByUpload | ByCapture

  datatype Order = Ascending | Descending

  datatype Item = Item(uploadedAt: Key, capturedAt: Option<Key>, visible: bool)

  type Table = map<Id, Item>

  /** A cursor, and the sort position of a returned row. */
  datatype Row = Row(key: Key, id: Id)

  function SortKey(item: Item, sort: Sort): Key {
    if sort == ByCapture && item.capturedAt.Some? then item.capturedAt.value else item.uploadedAt
  }

  // ---- the order of strings and rows ----

  predicate Less(a: string, b: string) {
    |b| > 0 && (|a| == 0 || a[0] < b[0] || (a[0] == b[0] && Less(a[1..], b[1..])))
  }

  lemma {:induction false} LessIsStrict(a: string, b: string)
    ensures !(Less(a, b) && Less(b, a))
    ensures a != b ==> Less(a, b) || Less(b, a)
  {
    if |a| == 0 || |b| == 0 || a[0] != b[0] {
    } else {
      LessIsStrict(a[1..], b[1..]);
      if a[1..] == b[1..] {
        assert a == [a[0]] + a[1..] && b == [b[0]] + b[1..];
      }
    }
  }

  lemma {:induction false} LessIsTransitive(a: string, b: string, c: string)
    requires Less(a, b) && Less(b, c)
    ensures Less(a, c)
  {
    if |a| == 0 || a[0] != b[0] || b[0] != c[0] {
    } else {
      LessIsTransitive(a[1..], b[1..], c[1..]);
    }
  }

  predicate Precedes(a: Row, b: Row) {
    Less(a.key, b.key) || (a.key == b.key && Less(a.id, b.id))
  }

  /** `b` comes later in the feed than `a`. */
  predicate Follows(order: Order, a: Row, b: Row) {
    if order == Ascending then Precedes(a, b) else Precedes(b, a)
  }

  lemma FollowsIsStrict(order: Order, a: Row, b: Row)
    ensures !(Follows(order, a, b) && Follows(order, b, a)) && !Follows(order, a, a)
    ensures a != b ==> Follows(order, a, b) || Follows(order, b, a)
  {
    LessIsStrict(a.key, b.key);
    LessIsStrict(a.id, b.id);
    LessIsStrict(a.key, a.key);
    LessIsStrict(a.id, a.id);
  }

  lemma PrecedesIsTransitive(a: Row, b: Row, c: Row)
    requires Precedes(a, b) && Precedes(b, c)
    ensures Precedes(a, c)
  {
    if Less(a.key, b.key) && Less(b.key, c.key) { LessIsTransitive(a.key, b.key, c.key); }
    if Less(a.id, b.id) && Less(b.id, c.id) { LessIsTransitive(a.id, b.id, c.id); }
  }

  lemma FollowsIsTransitive(order: Order, a: Row, b: Row, c: Row)
    requires Follows(order, a, b) && Follows(order, b, c)
    ensures Follows(order, a, c)
  {
    if order == Ascending { PrecedesIsTransitive(a, b, c); } else { PrecedesIsTransitive(c, b, a); }
  }

  ghost predicate Ordered(order: Order, rows: seq<Row>) {
    forall i, k | 0 <= i < k < |rows| :: Follows(order, rows[i], rows[k])
  }

  // ---- one page ----

  datatype Query = Query(sort: Sort, order: Order, cursor: Option<Row>)

  /** The WHERE clause. */
  predicate Matches(t: Table, q: Query, row: Row) {
    && row.id in t && t[row.id].visible && row.key == SortKey(t[row.id], q.sort)
    && (q.cursor.Some? ==> Follows(q.order, q.cursor.value, row))
  }

  /** The first rows of the feed after the cursor, and a cursor exactly when there are more. */
  ghost predicate IsPage(t: Table, q: Query, limit: nat, items: seq<Row>, next: Option<Row>) {
    && Ordered(q.order, items)
    && (forall row | row in items :: Matches(t, q, row))
    && (next == None ==> |items| <= limit && forall row | Matches(t, q, row) :: row in items)
    && (next.Some? ==>
          && |items| == limit > 0 && next.value == items[limit - 1]
          && (exists row :: Matches(t, q, row) && row !in items)
          && forall row | Matches(t, q, row) :: row in items || Follows(q.order, next.value, row))
  }

  /** The least row of the feed among the candidates. */
  method FirstOf(t: Table, q: Query, ids: set<Id>) returns (first: Row)
    requires ids != {} && forall id | id in ids :: id in t
    ensures first.id in ids && first.key == SortKey(t[first.id], q.sort)
    ensures forall id | id in ids && id != first.id :: Follows(q.order, first, Row(SortKey(t[id], q.sort), id))
  {
    var id :| id in ids;
    first := Row(SortKey(t[id], q.sort), id);
    var left := ids - {id};
    while left != {}
      invariant left < ids && first.id in ids && first.id !in left && first.key == SortKey(t[first.id], q.sort)
      invariant forall k | k in ids && k !in left && k != first.id ::
                  Follows(q.order, first, Row(SortKey(t[k], q.sort), k))
      decreases |left|
    {
      var k :| k in left;
      left := left - {k};
      var row := Row(SortKey(t[k], q.sort), k);
      FollowsIsStrict(q.order, first, row);
      if Follows(q.order, row, first) {
        forall j | j in ids && j !in left && j != k ensures Follows(q.order, row, Row(SortKey(t[j], q.sort), j)) {
          if j != first.id { FollowsIsTransitive(q.order, row, first, Row(SortKey(t[j], q.sort), j)); }
        }
        first := row;
      }
    }
  }

  /** SELECT ... WHERE ... ORDER BY ... LIMIT n. */
  method Select(t: Table, q: Query, n: nat) returns (rows: seq<Row>)
    ensures Ordered(q.order, rows) && |rows| <= n
    ensures forall row | row in rows :: Matches(t, q, row)
    ensures forall row | Matches(t, q, row) && row !in rows ::
              |rows| == n && forall k | 0 <= k < n :: Follows(q.order, rows[k], row)
  {
    var left := set id | id in t && Matches(t, q, Row(SortKey(t[id], q.sort), id));
    rows := [];
    while left != {} && |rows| < n
      invariant Ordered(q.order, rows) && |rows| <= n
      invariant forall id | id in left :: id in t && Matches(t, q, Row(SortKey(t[id], q.sort), id))
      invariant forall row | row in rows :: Matches(t, q, row)
      invariant forall row | Matches(t, q, row) :: row in rows || row.id in left
      invariant forall k, id | 0 <= k < |rows| && id in left ::
                  Follows(q.order, rows[k], Row(SortKey(t[id], q.sort), id))
      decreases |left|
    {
      var first := FirstOf(t, q, left);
      rows := rows + [first];
      left := left - {first.id};
    }
  }

  method ListGallery(t: Table, q: Query, limit: nat) returns (items: seq<Row>, next: Option<Row>)
    requires limit >= 1
    ensures IsPage(t, q, limit, items, next)
  {
    items := Select(t, q, limit + 1);
    next := None;
    if |items| > limit {
      ghost var extra := items[limit];
      ghost var all := items;
      items := items[..limit];
      next := Some(items[|items| - 1]);
      assert extra in all && extra !in items by {
        forall k | 0 <= k < limit ensures items[k] != extra { FollowsIsStrict(q.order, all[k], extra); }
      }
      forall row | Matches(t, q, row) ensures row in items || Follows(q.order, next.value, row) {
        if row in all && row !in items { assert row == all[limit]; }
      }
    }
  }

  // ---- a walk through changing tables ----

  datatype Page = Page(table: Table, items: seq<Row>, next: Option<Row>)

  function CursorAt(pages: seq<Page>, k: nat): Option<Row>
    requires k <= |pages|
  {
    if k == 0 then None else pages[k - 1].next
  }

  /** Each request carries the previous page's cursor; the table may have changed in any way in between. */
  ghost predicate IsWalk(sort: Sort, order: Order, limit: nat, pages: seq<Page>) {
    && (forall k | 0 <= k < |pages| ::
          IsPage(pages[k].table, Query(sort, order, CursorAt(pages, k)), limit, pages[k].items, pages[k].next))
    && (forall k | 0 <= k < |pages| - 1 :: pages[k].next.Some?)
  }

  ghost predicate Finished(pages: seq<Page>) {
    |pages| > 0 && pages[|pages| - 1].next == None
  }

  function Feed(pages: seq<Page>): seq<Row> {
    if pages == [] then [] else Feed(pages[..|pages| - 1]) + pages[|pages| - 1].items
  }

  lemma PrefixIsWalk(sort: Sort, order: Order, limit: nat, pages: seq<Page>)
    requires IsWalk(sort, order, limit, pages) && pages != []
    ensures IsWalk(sort, order, limit, pages[..|pages| - 1])
  {
    var p := pages[..|pages| - 1];
    assert forall k | 0 <= k < |p| :: CursorAt(p, k) == CursorAt(pages, k);
  }

  /** Everything returned so far is in order, and not after the next cursor. */
  lemma {:induction false} WalkIsOrdered(sort: Sort, order: Order, limit: nat, pages: seq<Page>)
    requires IsWalk(sort, order, limit, pages)
    ensures Ordered(order, Feed(pages))
    ensures pages != [] && pages[|pages| - 1].next.Some? ==> UpTo(order, Feed(pages), pages[|pages| - 1].next.value)
  {
    hide IsWalk, IsPage, Follows, Ordered, UpTo;
    if pages == [] {
      OrderedNothing(order);
    } else {
      var n := |pages| - 1;
      var p := pages[..n];
      var q := Query(sort, order, CursorAt(pages, n));
      LastIsPage(sort, order, limit, pages);
      PageFacts(pages[n].table, q, limit, pages[n].items, pages[n].next);
      if n == 0 {
        assert p == [] && Feed(pages) == pages[n].items;
      } else {
        PrefixIsWalk(sort, order, limit, pages);
        WalkIsOrdered(sort, order, limit, p);
        assert p[n - 1] == pages[n - 1] && q.cursor.Some?;
        OrderedAcross(order, Feed(p), q.cursor.value, pages[n].items);
        if pages[n].next.Some? { LatestAcross(order, Feed(p), q.cursor.value, pages[n].items, pages[n].next.value); }
      }
    }
  }

  lemma OrderedNothing(order: Order)
    ensures Ordered(order, [])
  {}

  lemma LastIsPage(sort: Sort, order: Order, limit: nat, pages: seq<Page>)
    requires IsWalk(sort, order, limit, pages) && pages != []
    ensures var n := |pages| - 1;
      IsPage(pages[n].table, Query(sort, order, CursorAt(pages, n)), limit, pages[n].items, pages[n].next)
      && (n > 0 ==> CursorAt(pages, n).Some?)
  {
    hide IsPage;
  }

  /** No row of `rows` comes after `c`. */
  ghost predicate UpTo(order: Order, rows: seq<Row>, c: Row) {
    forall row | row in rows :: row == c || Follows(order, row, c)
  }

  lemma PageFacts(t: Table, q: Query, limit: nat, items: seq<Row>, next: Option<Row>)
    requires IsPage(t, q, limit, items, next)
    ensures Ordered(q.order, items)
    ensures q.cursor.Some? ==> forall row | row in items :: Follows(q.order, q.cursor.value, row)
    ensures next.Some? ==> next.value in items && UpTo(q.order, items, next.value)
  {
    hide Follows;
  }

  lemma OrderedAcross(order: Order, a: seq<Row>, c: Row, b: seq<Row>)
    requires Ordered(order, a) && Ordered(order, b) && UpTo(order, a, c)
    requires forall row | row in b :: Follows(order, c, row)
    ensures Ordered(order, a + b)
  {
    hide Follows;
    forall x, y | x in a && y in b ensures Follows(order, x, y) {
      if x != c { FollowsIsTransitive(order, x, c, y); }
    }
  }

  lemma LatestAcross(order: Order, a: seq<Row>, c: Row, b: seq<Row>, d: Row)
    requires UpTo(order, a, c) && UpTo(order, b, d) && d in b
    requires forall row | row in b :: Follows(order, c, row)
    ensures UpTo(order, a + b, d)
  {
    hide Follows;
    forall x | x in a ensures Follows(order, x, d) {
      if x != c { FollowsIsTransitive(order, x, c, d); }
    }
  }

  /** The row was visible under the same key at every request. */
  ghost predicate Unchanged(sort: Sort, pages: seq<Page>, row: Row) {
    forall k | 0 <= k < |pages| ::
      row.id in pages[k].table && pages[k].table[row.id].visible && SortKey(pages[k].table[row.id], sort) == row.key
  }

  /** No page skips it: either it has been returned, or it is still ahead of the cursor. */
  lemma {:induction false} NothingIsSkipped(sort: Sort, order: Order, limit: nat, pages: seq<Page>, row: Row)
    requires IsWalk(sort, order, limit, pages) && Unchanged(sort, pages, row)
    ensures row in Feed(pages) || (pages == [] || (pages[|pages| - 1].next.Some? && Follows(order, pages[|pages| - 1].next.value, row)))
  {
    if pages == [] {
    } else {
      var n := |pages| - 1;
      PrefixIsWalk(sort, order, limit, pages);
      NothingIsSkipped(sort, order, limit, pages[..n], row);
      if row !in Feed(pages[..n]) {
        assert n > 0 ==> pages[..n][n - 1] == pages[n - 1];
        assert Matches(pages[n].table, Query(sort, order, CursorAt(pages, n)), row);
      }
    }
  }

  lemma OrderedHasNoRepeats(order: Order, rows: seq<Row>, row: Row)
    requires Ordered(order, rows)
    ensures multiset(rows)[row] <= 1
    decreases |rows|
  {
    if rows == [] {
    } else {
      var n := |rows| - 1;
      OrderedHasNoRepeats(order, rows[..n], row);
      assert rows == rows[..n] + [rows[n]];
      if row == rows[n] && row in rows[..n] {
        var k :| 0 <= k < n && rows[k] == row;
        FollowsIsStrict(order, rows[k], rows[n]);
      }
    }
  }

  lemma {:induction false} ReturnedRowsWereVisible(sort: Sort, order: Order, limit: nat, pages: seq<Page>, row: Row)
    requires IsWalk(sort, order, limit, pages) && row in Feed(pages)
    ensures exists k :: 0 <= k < |pages| && row in pages[k].items
              && row.id in pages[k].table && pages[k].table[row.id].visible
              && SortKey(pages[k].table[row.id], sort) == row.key
  {
    var n := |pages| - 1;
    if row in pages[n].items {
      assert Matches(pages[n].table, Query(sort, order, CursorAt(pages, n)), row);
    } else {
      PrefixIsWalk(sort, order, limit, pages);
      ReturnedRowsWereVisible(sort, order, limit, pages[..n], row);
      var k :| 0 <= k < n && row in pages[..n][k].items && row.id in pages[..n][k].table
        && pages[..n][k].table[row.id].visible && SortKey(pages[..n][k].table[row.id], sort) == row.key;
      assert pages[..n][k] == pages[k];
    }
  }

  /**
    In a finished walk, whatever is inserted, removed or changed between pages, an
    item that stays visible and unchanged is returned exactly once, and the feed is
    in order from end to end.
    */
  lemma WalkIsExact(sort: Sort, order: Order, limit: nat, pages: seq<Page>, row: Row)
    requires IsWalk(sort, order, limit, pages) && Finished(pages) && Unchanged(sort, pages, row)
    ensures multiset(Feed(pages))[row] == 1
    ensures Ordered(order, Feed(pages))
  {
    WalkIsOrdered(sort, order, limit, pages);
    NothingIsSkipped(sort, order, limit, pages, row);
    OrderedHasNoRepeats(order, Feed(pages), row);
  }
}
