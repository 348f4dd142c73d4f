/** Keyset paging over a customer's bookings while new bookings keep being inserted. */
module BookingPaging {
  import opened Prelude
  import opened Bookings
  import opened BookingLifecycle
  import opened BookingInvariants
  import opened BookingTheorems
  import opened BookingAccounts

  /** What the listing trail of a booking: its place is fixed by (createdAt, id). */
  datatype Row = Row(id: Uuid, createdAt: int, owner: Owner)

  /** ORDER BY created_at DESC, id DESC */
  predicate Newer(a: Row, b: Row) { a.createdAt > b.createdAt || (a.createdAt == b.createdAt && a.id > b.id) }

  predicate After(cursor: Option<Row>, r: Row) { cursor == None || Newer(cursor.value, r) }

  function Wanted(customerId: Uuid, cursor: Option<Row>): Row -> bool {
    (r: Row) => r.owner == Owner(CUSTOMER, customerId) && After(cursor, r)
  }

  predicate UniqueIds(table: seq<Row>) { forall i, j :: 0 <= i < j < |table| ==> table[i].id != table[j].id }

  predicate Descending(rows: seq<Row>) { forall i, j :: 0 <= i < j < |rows| ==> Newer(rows[i], rows[j]) }

  function NewestFirst(r: Row): int { 0 - r.createdAt }

  function LargestIdFirst(r: Row): int { 0 - (r.id as int) }

  /** The WHERE and ORDER BY of the query, before its LIMIT. */
  function Query(table: seq<Row>, customerId: Uuid, cursor: Option<Row>): seq<Row> {
    SortBy(SortBy(Filter(table, Wanted(customerId, cursor)), LargestIdFirst), NewestFirst)
  }

  function ByIdDescending(): (Row, Row) -> bool { (a: Row, b: Row) => a.id >= b.id }

  function IdOf(r: Row): Uuid { r.id }

  lemma {:induction false} FilterKeepsUnique(table: seq<Row>, keep: Row -> bool)
    requires UniqueIds(table)
    ensures UniqueIds(Filter(table, keep))
  {
    if table != [] {
      var init, last := table[..|table| - 1], table[|table| - 1];
      FilterKeepsUnique(init, keep);
      forall i | 0 <= i < |Filter(init, keep)| ensures Filter(init, keep)[i].id != last.id {
        FilterMember(init, Filter(init, keep)[i], keep);
      }
    }
  }

  lemma {:induction false} SortKeepsUnique(a: seq<Row>, b: seq<Row>)
    requires UniqueIds(a) && multiset(a) == multiset(b)
    ensures UniqueIds(b)
  {
    MapOfPermutation(a, b, IdOf);
    DistinctReordered(Map(a, IdOf), Map(b, IdOf));
    forall i, j | 0 <= i < j < |b| ensures b[i].id != b[j].id {
      assert Map(b, IdOf)[i] != Map(b, IdOf)[j];
    }
  }

  lemma QueryRows(table: seq<Row>, customerId: Uuid, cursor: Option<Row>)
    ensures multiset(Query(table, customerId, cursor)) == multiset(Filter(table, Wanted(customerId, cursor)))
  {
    var found := Filter(table, Wanted(customerId, cursor));
    SortByRows(found, LargestIdFirst);
    SortByRows(SortBy(found, LargestIdFirst), NewestFirst);
  }

  lemma QueryOrder(table: seq<Row>, customerId: Uuid, cursor: Option<Row>)
    ensures Ordered(Query(table, customerId, cursor), Then(NewestFirst, ByIdDescending()))
  {
    var found := Filter(table, Wanted(customerId, cursor));
    var byId := SortBy(found, LargestIdFirst);
    SortBySorted(found, LargestIdFirst);
    hide SortBy, Filter;
    SortIsStable(byId, NewestFirst, ByIdDescending());
  }

  lemma StrictlyOrdered(rows: seq<Row>)
    requires UniqueIds(rows) && Ordered(rows, Then(NewestFirst, ByIdDescending()))
    ensures Descending(rows)
  {
    forall i, j | 0 <= i < j < |rows| ensures Newer(rows[i], rows[j]) {
      var a, b := rows[i], rows[j];
      assert a.id != b.id;
      assert Then(NewestFirst, ByIdDescending())(a, b);
      assert NewestFirst(a) < NewestFirst(b) || (NewestFirst(a) == NewestFirst(b) && ByIdDescending()(a, b));
    }
  }

  lemma QueryIs(table: seq<Row>, customerId: Uuid, cursor: Option<Row>)
    requires UniqueIds(table)
    ensures var rows := Query(table, customerId, cursor);
      && Descending(rows)
      && (forall r :: r in rows <==> r in table && Wanted(customerId, cursor)(r))
  {
    var found, rows := Filter(table, Wanted(customerId, cursor)), Query(table, customerId, cursor);
    QueryRows(table, customerId, cursor);
    QueryOrder(table, customerId, cursor);
    FilterKeepsUnique(table, Wanted(customerId, cursor));
    SortKeepsUnique(found, rows);
    StrictlyOrdered(rows);
    hide Query, Filter, Descending, UniqueIds, Ordered, Wanted;
    forall r ensures r in rows <==> r in table && Wanted(customerId, cursor)(r) {
      assert r in rows <==> r in multiset(rows);
      assert r in found <==> r in multiset(found);
      FilterMember(table, r, Wanted(customerId, cursor));
    }
  }

  // ---------------------------------------------------------------- one page

  datatype Page = Page(rows: seq<Row>, next: Option<Row>)

  /** A page takes the newest rows after the cursor; it has a successor only if rows remain, after its last one. */
  predicate IsPage(table: seq<Row>, customerId: Uuid, size: nat, cursor: Option<Row>, page: Page) {
    && |page.rows| <= size && Descending(page.rows)
    && (forall r :: r in page.rows ==> r in table && Wanted(customerId, cursor)(r))
    && (page.next.Some? ==> page.rows != [] && page.next.value == page.rows[|page.rows| - 1])
    && (forall r :: r in table && Wanted(customerId, cursor)(r) && (page.next == None || !After(page.next, r)) ==>
      r in page.rows)
    && (page.next.Some? ==> exists r :: r in table && Wanted(customerId, page.next)(r))
  }

  /** `listCustomerBookings` */
  method ListCustomerBookings(table: seq<Row>, customerId: Uuid, pageSize: nat, cursor: Option<Row>)
    returns (page: Page)
    requires UniqueIds(table) && pageSize > 0
    ensures IsPage(table, customerId, pageSize, cursor, page)
    ensures page.next.Some? ==> |page.rows| == pageSize
  {
    var all := Query(table, customerId, cursor);
    QueryIs(table, customerId, cursor);
    hide Query, IsPage;
    var result := if |all| > pageSize + 1 then all[..pageSize + 1] else all;   // LIMIT pageSize + 1
    var hasNextPage := |result| > pageSize;
    var rows := if |result| > pageSize then result[..pageSize] else result;
    page := Page(rows, if hasNextPage then Some(rows[|rows| - 1]) else None);
    assert hasNextPage ==> rows == all[..pageSize];
    CutIsPage(table, customerId, pageSize, cursor, all, page);
  }

  lemma {:induction false} CutIsPage(table: seq<Row>, customerId: Uuid, size: nat, cursor: Option<Row>,
                                     all: seq<Row>, page: Page)
    requires Descending(all) && (forall r :: r in all <==> r in table && Wanted(customerId, cursor)(r)) && size > 0
    requires if |all| > size then page == Page(all[..size], Some(all[size - 1])) else page == Page(all, None)
    ensures IsPage(table, customerId, size, cursor, page)
  {
    if |all| > size {
      assert all[size] in all && all[size - 1] in all;
      forall r | r in table && Wanted(customerId, cursor)(r) && !After(page.next, r) ensures r in page.rows {
        assert r in all;
        var k :| 0 <= k < |all| && all[k] == r;
        assert page.rows[k] == r;
      }
      assert Wanted(customerId, page.next)(all[size]);
    }
  }

  // ---------------------------------------------------------------- following the cursors

  /** One request of a client: the table it met and the page it got. */
  datatype Read = Read(table: seq<Row>, page: Page)

  function CursorOf(trail: seq<Read>, i: nat): Option<Row>
    requires i <= |trail|
  {
    if i == 0 then None else trail[i - 1].page.next
  }

  /** A client follows every cursor to the end; rows are only ever inserted in between. */
  predicate Follows(trail: seq<Read>, customerId: Uuid, size: nat) {
    && trail != []
    && (forall i :: 0 <= i < |trail| ==> IsPage(trail[i].table, customerId, size, CursorOf(trail, i), trail[i].page))
    && (forall i :: 0 <= i < |trail| - 1 ==> trail[i].page.next.Some?)
    && trail[|trail| - 1].page.next == None
    && forall i, r :: 0 <= i < |trail| && r in trail[0].table ==> r in trail[i].table
  }

  function Rows(trail: seq<Read>): seq<Row> {
    if trail == [] then [] else Rows(trail[..|trail| - 1]) + trail[|trail| - 1].page.rows
  }

  /** The rows listed up to a cursor: in order, the customer's own, and none missing at or before the cursor. */
  predicate ListedSoFar(rows: seq<Row>, cursor: Option<Row>, started: bool, table: seq<Row>, customerId: Uuid) {
    && Descending(rows)
    && (forall r :: r in rows ==> r.owner == Owner(CUSTOMER, customerId))
    && (started && cursor.Some? ==> rows != [] && rows[|rows| - 1] == cursor.value)
    && (if started then AllListed(table, customerId, cursor, rows) else rows == [] && cursor == None)
  }

  /** Every booking of the customer that is not after the cursor has been listed. */
  predicate AllListed(table: seq<Row>, customerId: Uuid, cursor: Option<Row>, rows: seq<Row>) {
    forall r :: r in table && r.owner == Owner(CUSTOMER, customerId) && (cursor == None || !After(cursor, r)) ==>
      r in rows
  }

  lemma {:induction false} Joined(a: seq<Row>, b: seq<Row>)
    requires Descending(a) && Descending(b) && (a != [] ==> forall r :: r in b ==> Newer(a[|a| - 1], r))
    ensures Descending(a + b)
  {
    forall i, j | 0 <= i < j < |a + b| ensures Newer((a + b)[i], (a + b)[j]) {
      if i < |a| <= j { assert b[j - |a|] in b; }
    }
  }

  lemma {:induction false} PagesListed(trail: seq<Read>, n: nat, customerId: Uuid, size: nat)
    requires Follows(trail, customerId, size) && n <= |trail|
    ensures ListedSoFar(Rows(trail[..n]), CursorOf(trail, n), n > 0, trail[0].table, customerId)
  {
    if n > 0 {
      var m, before := n - 1, Rows(trail[..n - 1]);
      PagesListed(trail, m, customerId, size);
      RowsOfNext(trail, m);
      FirstRowsRemain(trail, m, customerId, size);
      assert IsPage(trail[m].table, customerId, size, CursorOf(trail, m), trail[m].page);
      assert m > 0 ==> trail[m - 1].page.next.Some?;
      hide Follows, IsPage, ListedSoFar, Rows;
      OneMorePage(before, trail[0].table, trail[m].table, m > 0, customerId, size, CursorOf(trail, m), trail[m].page);
    }
  }

  lemma {:induction false} RowsOfNext(trail: seq<Read>, n: nat)
    requires n < |trail|
    ensures Rows(trail[..n + 1]) == Rows(trail[..n]) + trail[n].page.rows
  {
    assert trail[..n + 1][..n] == trail[..n];
  }

  lemma {:induction false} FirstRowsRemain(trail: seq<Read>, n: nat, customerId: Uuid, size: nat)
    requires Follows(trail, customerId, size) && n < |trail|
    ensures forall r :: r in trail[0].table ==> r in trail[n].table
  {
    hide IsPage;
  }

  lemma {:induction false} OneMorePage(before: seq<Row>, first: seq<Row>, table: seq<Row>, started: bool,
                                       customerId: Uuid, size: nat, cursor: Option<Row>, page: Page)
    requires IsPage(table, customerId, size, cursor, page) && forall r :: r in first ==> r in table
    requires ListedSoFar(before, cursor, started, first, customerId) && (started ==> cursor.Some?)
    ensures ListedSoFar(before + page.rows, page.next, true, first, customerId)
  {
    Joined(before, page.rows);
    forall r | r in first && r.owner == Owner(CUSTOMER, customerId) && (page.next == None || !After(page.next, r))
      ensures r in before + page.rows
    {
      if After(cursor, r) {
        assert Wanted(customerId, cursor)(r);
        assert r in page.rows;
      } else {
        assert r in before;
      }
    }
  }

  /**
   For every page size and whatever is inserted between the pages, following the cursors to the
   end lists every booking that existed at the first page exactly once, newest first.
   */
  lemma {:induction false} PagingListsEverythingOnce(trail: seq<Read>, customerId: Uuid, size: nat)
    requires Follows(trail, customerId, size)
    ensures
      var rows := Rows(trail);
      && Descending(rows) && Distinct(rows)
      && (forall r :: r in rows ==> r.owner == Owner(CUSTOMER, customerId))
      && forall r :: r in trail[0].table && r.owner == Owner(CUSTOMER, customerId) ==> r in rows
  {
    PagesListed(trail, |trail|, customerId, size);
    assert trail[..|trail|] == trail;
  }

  lemma {:induction false} SameOrder(a: seq<Row>, b: seq<Row>)
    requires Descending(a) && Descending(b) && forall r :: r in a <==> r in b
    ensures a == b
    decreases |a|
  {
    assert (a != [] ==> a[0] in a) && (b != [] ==> b[0] in b);
    if a != [] && b != [] {
      assert a[0] == b[0];
      forall r ensures r in a[1..] <==> r in b[1..] {
        assert r in a <==> r == a[0] || r in a[1..];
        assert r in b <==> r == b[0] || r in b[1..];
      }
      SameOrder(a[1..], b[1..]);
      assert a == [a[0]] + a[1..] && b == [b[0]] + b[1..];
    }
  }

  lemma {:induction false} RowsAreFromTables(trail: seq<Read>, n: nat, customerId: Uuid, size: nat, r: Row)
    requires Follows(trail, customerId, size) && n <= |trail| && r in Rows(trail[..n])
    ensures exists i :: 0 <= i < n && r in trail[i].table
  {
    if n > 0 {
      RowsOfNext(trail, n - 1);
      hide Rows, Descending;
      if r in trail[n - 1].page.rows {
        assert IsPage(trail[n - 1].table, customerId, size, CursorOf(trail, n - 1), trail[n - 1].page);
        assert r in trail[n - 1].table;
      } else {
        RowsAreFromTables(trail, n - 1, customerId, size, r);
      }
    }
  }

  /** On a table that does not change, the pages together are the whole sorted list. */
  lemma {:induction false} PagingAFixedTable(trail: seq<Read>, customerId: Uuid, size: nat)
    requires Follows(trail, customerId, size) && UniqueIds(trail[0].table)
    requires forall i :: 0 <= i < |trail| ==> trail[i].table == trail[0].table
    ensures Rows(trail) == Query(trail[0].table, customerId, None)
  {
    PagingListsEverythingOnce(trail, customerId, size);
    QueryIs(trail[0].table, customerId, None);
    var all := Query(trail[0].table, customerId, None);
    hide Query, Follows;
    forall r ensures r in Rows(trail) <==> r in all {
      if r in Rows(trail) {
        assert trail[..|trail|] == trail;
        RowsAreFromTables(trail, |trail|, customerId, size, r);
      }
    }
    SameOrder(Rows(trail), all);
  }

  // ---------------------------------------------------------------- over runs of the booking service

  function RowOf(b: Booking): Row { Row(b.facts.id, b.facts.createdAt, b.facts.owner) }

  /** The rows of the bookings table, in whatever order the scan finds them. */
  predicate TableOf(db: Db, table: seq<Row>) {
    && UniqueIds(table)
    && (forall r :: r in table ==> r.id in db.bookings && r == RowOf(db.bookings[r.id]))
    && forall id :: id in db.bookings ==> RowOf(db.bookings[id]) in table
  }

  lemma OkHasId(db: Db, id: Uuid)
    requires AllOk(db) && id in db.bookings
    ensures db.bookings[id].facts.id == id
  {
    assert OkFor(db, id);
  }

  lemma {:induction false} TableExists(db: Db, ids: set<Uuid>) returns (table: seq<Row>)
    requires AllOk(db) && ids <= db.bookings.Keys
    ensures UniqueIds(table)
    ensures forall r :: r in table ==> r.id in ids && r == RowOf(db.bookings[r.id])
    ensures forall id :: id in ids ==> RowOf(db.bookings[id]) in table
    ensures ids == db.bookings.Keys ==> TableOf(db, table)
  {
    hide OkFor;
    if ids == {} { return []; }
    var id := Member(ids);
    var rest := TableExists(db, ids - {id});
    assert db.bookings[id].facts.id == id by { OkHasId(db, id); }
    table := rest + [RowOf(db.bookings[id])];
  }

  /** Every booking of `before` is still there, with its owner and its place in the list. */
  predicate KeepsRows(before: Db, after: Db) {
    forall id :: id in before.bookings ==>
      id in after.bookings && RowOf(after.bookings[id]) == RowOf(before.bookings[id])
  }

  lemma {:induction false} RunKeepsRows(db: Db, steps: seq<Step>)
    requires AllOk(db)
    ensures AllOk(Run(db, steps)) && KeepsRows(db, Run(db, steps))
  {
    hide Next, OkFor;
    if steps != [] {
      var init, last := Run(db, steps[..|steps| - 1]), steps[|steps| - 1];
      RunKeepsRows(db, steps[..|steps| - 1]);
      FactsOfNext(init, last);
      RunKeepsFrom(db, steps);
    }
  }

  /** Each request met the state that some more transactions had led to since the one before. */
  predicate Served(dbs: seq<Db>, runs: seq<seq<Step>>) {
    && |runs| == |dbs|
    && forall i :: 0 <= i < |dbs| ==> dbs[i] == Run(if i == 0 then EMPTY_DB else dbs[i - 1], runs[i])
  }

  lemma ServedNext(dbs: seq<Db>, runs: seq<seq<Step>>, j: nat)
    requires Served(dbs, runs) && j < |dbs|
    ensures dbs[j] == Run(if j == 0 then EMPTY_DB else dbs[j - 1], runs[j])
  {
  }

  lemma {:induction false} ServedKeepsRows(dbs: seq<Db>, runs: seq<seq<Step>>, i: nat, j: nat)
    requires Served(dbs, runs) && i <= j < |dbs|
    ensures AllOk(dbs[j]) && KeepsRows(dbs[i], dbs[j])
  {
    ServedNext(dbs, runs, j);
    hide Run, OkFor, Served;
    if j == 0 {
      RunKeeps(runs[0]);
    } else {
      ServedKeepsRows(dbs, runs, if i < j then i else j - 1, j - 1);
      RunKeepsRows(dbs[j - 1], runs[j]);
    }
  }

  /** A client follows every cursor to the end while the booking service keeps working. */
  predicate Browses(trail: seq<Read>, dbs: seq<Db>, customerId: Uuid, size: nat) {
    && trail != [] && |trail| == |dbs|
    && (forall i :: 0 <= i < |trail| ==>
          && TableOf(dbs[i], trail[i].table)
          && IsPage(trail[i].table, customerId, size, CursorOf(trail, i), trail[i].page))
    && (forall i :: 0 <= i < |trail| - 1 ==> trail[i].page.next.Some?)
    && trail[|trail| - 1].page.next == None
  }

  lemma BrowsingFollows(trail: seq<Read>, dbs: seq<Db>, runs: seq<seq<Step>>, customerId: Uuid, size: nat)
    requires Browses(trail, dbs, customerId, size) && Served(dbs, runs)
    ensures Follows(trail, customerId, size)
  {
    hide IsPage, Served, UniqueIds;
    forall i, r | 0 <= i < |trail| && r in trail[0].table ensures r in trail[i].table {
      ServedKeepsRows(dbs, runs, 0, i);
      assert TableOf(dbs[0], trail[0].table) && TableOf(dbs[i], trail[i].table);
    }
  }

  lemma NewestFirstMeans(rows: seq<Row>)
    ensures Descending(rows) <==> forall i, j :: 0 <= i < j < |rows| ==>
      rows[i].createdAt > rows[j].createdAt || (rows[i].createdAt == rows[j].createdAt && rows[i].id > rows[j].id)
  {
  }

  lemma ListedAreBookings(trail: seq<Read>, dbs: seq<Db>, runs: seq<seq<Step>>, customerId: Uuid, size: nat, r: Row)
    requires Browses(trail, dbs, customerId, size) && Served(dbs, runs) && r in Rows(trail)
    ensures var last := dbs[|dbs| - 1].bookings; r.id in last && r == RowOf(last[r.id])
  {
    BrowsingFollows(trail, dbs, runs, customerId, size);
    hide IsPage, Served, TableOf, KeepsRows, Rows, Follows, CursorOf;
    assert trail[..|trail|] == trail;
    RowsAreFromTables(trail, |trail|, customerId, size, r);
    var i :| 0 <= i < |trail| && r in trail[i].table;
    assert TableOf(dbs[i], trail[i].table);
    ServedKeepsRows(dbs, runs, i, |dbs| - 1);
    RowRemains(dbs[i], dbs[|dbs| - 1], trail[i].table, r);
  }

  lemma RowRemains(before: Db, after: Db, table: seq<Row>, r: Row)
    requires TableOf(before, table) && KeepsRows(before, after) && r in table
    ensures r.id in after.bookings && r == RowOf(after.bookings[r.id])
  {
  }

  /**
   Whatever transactions run between the requests, following the cursors to the end lists every
   booking the customer had when the first page was read exactly once, newest first, and
   nothing but bookings of that customer.
   */
  lemma PagingOverARun(trail: seq<Read>, dbs: seq<Db>, runs: seq<seq<Step>>, customerId: Uuid, size: nat)
    requires Browses(trail, dbs, customerId, size) && Served(dbs, runs)
    ensures
      var rows, first, last := Rows(trail), dbs[0].bookings, dbs[|dbs| - 1].bookings;
      && Distinct(rows)
      && (forall i, j :: 0 <= i < j < |rows| ==>
            rows[i].createdAt > rows[j].createdAt
            || (rows[i].createdAt == rows[j].createdAt && rows[i].id > rows[j].id))
      && (forall r :: r in rows ==> r.id in last && r == RowOf(last[r.id]) && r.owner == Owner(CUSTOMER, customerId))
      && forall id :: id in first && first[id].facts.owner == Owner(CUSTOMER, customerId) ==> RowOf(first[id]) in rows
  {
    BrowsingFollows(trail, dbs, runs, customerId, size);
    PagingListsEverythingOnce(trail, customerId, size);
    assert TableOf(dbs[0], trail[0].table);
    NewestFirstMeans(Rows(trail));
    hide Follows, Rows, Descending, Distinct, IsPage, Browses, Served;
    forall r | r in Rows(trail) ensures var last := dbs[|dbs| - 1].bookings; r.id in last && r == RowOf(last[r.id]) {
      ListedAreBookings(trail, dbs, runs, customerId, size, r);
    }
  }
}
