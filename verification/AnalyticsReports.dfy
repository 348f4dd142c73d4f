/** The analytics reports over the projection, and why they agree with each other. */
module AnalyticsReports {
  import opened Prelude
  import opened Bookings
  import opened Analytics

  // ---------------------------------------------------------------- partitions of a sum

  function InGroup(keep: PaidFact -> bool, group: PaidFact -> int, k: int): PaidFact -> bool {
    (f: PaidFact) => keep(f) && group(f) == k
  }

  /** `SUM(value) ... WHERE keep GROUP BY group`, over a set of groups. */
  ghost function GroupTotals(facts: map<Uuid, PaidFact>, keys: set<int>, group: PaidFact -> int, keep: PaidFact -> bool,
                             value: PaidFact -> int): map<int, int> {
    map k | k in keys :: Sum(facts, InGroup(keep, group, k), value)
  }

  lemma OneMoreInGroup(facts: map<Uuid, PaidFact>, id: Uuid, fact: PaidFact, k: int, group: PaidFact -> int,
                       keep: PaidFact -> bool, value: PaidFact -> int)
    requires id !in facts
    ensures Sum(facts[id := fact], InGroup(keep, group, k), value) ==
      Sum(facts, InGroup(keep, group, k), value) + if keep(fact) && group(fact) == k then value(fact) else 0
  {
    SumOfOneMore(facts, id, fact, InGroup(keep, group, k), value);
    hide Sum;
    assert InGroup(keep, group, k)(fact) == (keep(fact) && group(fact) == k);
  }

  lemma OneMoreInGroups(facts: map<Uuid, PaidFact>, id: Uuid, fact: PaidFact, keys: set<int>, group: PaidFact -> int,
                        keep: PaidFact -> bool, value: PaidFact -> int)
    requires id !in facts && (keep(fact) ==> group(fact) in keys)
    ensures
      Total(GroupTotals(facts[id := fact], keys, group, keep, value)) ==
      Total(GroupTotals(facts, keys, group, keep, value)) + if keep(fact) then value(fact) else 0
  {
    hide Sum, InGroup;
    var before := GroupTotals(facts, keys, group, keep, value);
    var after := GroupTotals(facts[id := fact], keys, group, keep, value);
    var kept, g, v := keep(fact), group(fact), value(fact);
    forall k | k in keys ensures after[k] == before[k] + if kept && g == k then v else 0 {
      OneMoreInGroup(facts, id, fact, k, group, keep, value);
    }
    assert after.Keys == keys == before.Keys;
    hide GroupTotals;
    TotalOfUpdate(before, after, kept, g, v);
  }

  lemma NoFacts(keep: PaidFact -> bool, value: PaidFact -> int)
    ensures Sum(map[], keep, value) == 0
  {
    TotalZero(Values(map[], keep, value));
  }

  lemma NoGroups(keys: set<int>, group: PaidFact -> int, keep: PaidFact -> bool, value: PaidFact -> int)
    ensures Total(GroupTotals(map[], keys, group, keep, value)) == 0 == Sum(map[], keep, value)
  {
    hide Sum;
    NoFacts(keep, value);
    forall k | k in keys ensures Sum(map[], InGroup(keep, group, k), value) == 0 {
      NoFacts(InGroup(keep, group, k), value);
    }
    TotalZero(GroupTotals(map[], keys, group, keep, value));
  }

  lemma GroupsOfOneMore(facts: map<Uuid, PaidFact>, id: Uuid, fact: PaidFact, keys: set<int>, group: PaidFact -> int,
                        keep: PaidFact -> bool, value: PaidFact -> int)
    requires id !in facts && (keep(fact) ==> group(fact) in keys)
    requires Total(GroupTotals(facts, keys, group, keep, value)) == Sum(facts, keep, value)
    ensures Total(GroupTotals(facts[id := fact], keys, group, keep, value)) == Sum(facts[id := fact], keep, value)
  {
    OneMoreInGroups(facts, id, fact, keys, group, keep, value);
    SumOfOneMore(facts, id, fact, keep, value);
    hide Sum, GroupTotals;
  }

  lemma TotalOfUpdate(before: map<int, int>, after: map<int, int>, changed: bool, k: int, v: int)
    requires after.Keys == before.Keys && (changed ==> k in before)
    requires forall x {:trigger before[x]} {:trigger after[x]} :: x in before ==>
      after[x] == before[x] + if changed && k == x then v else 0
    ensures Total(after) == Total(before) + if changed then v else 0
  {
    var expected := if changed then before[k := before[k] + v] else before;
    assert expected.Keys == before.Keys;
    forall x | x in after ensures after[x] == expected[x] {
      assert x in before;
    }
    assert after == expected;
    if changed { TotalUpdate(before, k, before[k] + v); }
  }

  /** However the kept facts are grouped, the group totals add up to the whole. */
  lemma {:induction false} GroupsPartition(facts: map<Uuid, PaidFact>, keys: set<int>, group: PaidFact -> int,
                                           keep: PaidFact -> bool, value: PaidFact -> int)
    requires forall id :: id in facts && keep(facts[id]) ==> group(facts[id]) in keys
    ensures Total(GroupTotals(facts, keys, group, keep, value)) == Sum(facts, keep, value)
    decreases |facts|
  {
    hide Sum, GroupTotals;
    if facts == map[] {
      NoGroups(keys, group, keep, value);
    } else {
      var id :| id in facts;
      var rest := facts - {id};
      Shrinks(facts, id);
      assert facts == rest[id := facts[id]];
      GroupsPartition(rest, keys, group, keep, value);
      GroupsOfOneMore(rest, id, facts[id], keys, group, keep, value);
    }
  }

  // ---------------------------------------------------------------- the two reports

  function InRange(from: LocalDate, to: LocalDate): PaidFact -> bool { (f: PaidFact) => from <= f.localDate <= to }

  function DateOf(f: PaidFact): int { f.localDate }

  function RouteOf(f: PaidFact): int { f.routeId }

  /** One column of the days in a date range. */
  function ColumnByDay(daily: map<LocalDate, Day>, from: LocalDate, to: LocalDate, column: Day -> int): map<int, int> {
    map d | d in daily && from <= d <= to :: column(daily[d])
  }

  function RevenueColumn(d: Day): int { d.revenueVnd }

  function BookingsColumn(d: Day): int { d.paidBookings }

  function TicketsColumn(d: Day): int { d.tickets }

  /** A total of `getRevenueSummary`. */
  ghost function ColumnSummary(s: Projection, from: LocalDate, to: LocalDate, column: Day -> int): int {
    Total(ColumnByDay(s.daily, from, to, column))
  }

  /** `totalRevenueVnd` of `getRevenueSummary`. */
  ghost function RevenueSummary(s: Projection, from: LocalDate, to: LocalDate): int {
    ColumnSummary(s, from, to, RevenueColumn)
  }

  function RoutesIn(facts: map<Uuid, PaidFact>, from: LocalDate, to: LocalDate): set<Uuid> {
    set id | id in facts && InRange(from, to)(facts[id]) :: facts[id].routeId
  }

  /** One row of `getTicketSalesByRoute`. */
  datatype RouteSales = RouteSales(routeId: Uuid, paidBookings: int, tickets: int, revenueVnd: int)

  ghost function SalesOf(facts: map<Uuid, PaidFact>, from: LocalDate, to: LocalDate, route: Uuid): RouteSales {
    var keep := InGroup(InRange(from, to), RouteOf, route);
    RouteSales(route, Sum(facts, keep, One), Sum(facts, keep, TicketsOfFact), Sum(facts, keep, RevenueOfFact))
  }

  /** ORDER BY sum(tickets) DESC, sum(revenue) DESC, route_id */
  predicate RanksBefore(a: RouteSales, b: RouteSales) {
    || a.tickets > b.tickets
    || (a.tickets == b.tickets
        && (a.revenueVnd > b.revenueVnd || (a.revenueVnd == b.revenueVnd && a.routeId < b.routeId)))
  }

  predicate Lists(rows: seq<RouteSales>, route: Uuid) { exists i :: 0 <= i < |rows| && rows[i].routeId == route }

  /** The rows `getTicketSalesByRoute` returns: the best `limit` routes of the range, best first. */
  ghost predicate TicketSales(facts: map<Uuid, PaidFact>, from: LocalDate, to: LocalDate, limit: nat,
                              rows: seq<RouteSales>) {
    var routes := RoutesIn(facts, from, to);
    && |rows| == (if |routes| < limit then |routes| else limit)
    && (forall i :: 0 <= i < |rows| ==>
      rows[i].routeId in routes && rows[i] == SalesOf(facts, from, to, rows[i].routeId))
    && (forall i, j :: 0 <= i < j < |rows| ==> RanksBefore(rows[i], rows[j]))
    && forall i, r :: 0 <= i < |rows| && r in routes && !Lists(rows, r) ==>
         RanksBefore(rows[i], SalesOf(facts, from, to, r))
  }

  function RevenueOfRow(r: RouteSales): int { r.revenueVnd }

  /** What the reports add up. */
  datatype Measure = REVENUE | BOOKINGS | TICKETS

  function ColumnOf(m: Measure): Day -> int {
    match m case REVENUE => RevenueColumn case BOOKINGS => BookingsColumn case TICKETS => TicketsColumn
  }

  function ValueOf(m: Measure): PaidFact -> int {
    match m case REVENUE => RevenueOfFact case BOOKINGS => One case TICKETS => TicketsOfFact
  }

  lemma DayIsGroup(facts: map<Uuid, PaidFact>, from: LocalDate, to: LocalDate, d: LocalDate, m: Measure)
    requires from <= d <= to
    ensures Sum(facts, InGroup(InRange(from, to), DateOf, d), ValueOf(m)) == ColumnOf(m)(DayOf(facts, d))
  {
    hide Sum;
    forall f: PaidFact ensures InGroup(InRange(from, to), DateOf, d)(f) == OnDay(d)(f) {
      assert InGroup(InRange(from, to), DateOf, d)(f) == (InRange(from, to)(f) && DateOf(f) == d);
      assert InRange(from, to)(f) == (from <= f.localDate <= to);
      assert OnDay(d)(f) == (f.localDate == d);
    }
    SameFacts(facts, InGroup(InRange(from, to), DateOf, d), OnDay(d), ValueOf(m));
  }

  lemma DaysCover(facts: map<Uuid, PaidFact>, from: LocalDate, to: LocalDate, id: Uuid, m: Measure)
    requires id in facts && InRange(from, to)(facts[id])
    ensures DateOf(facts[id]) in ColumnByDay(GroupByDate(facts), from, to, ColumnOf(m))
  {
    hide DayOf;
    assert facts[id].localDate in Dates(facts);
  }

  /** The totals of `getRevenueSummary` are those of the paid facts in its range. */
  lemma DaysAddUp(s: Projection, from: LocalDate, to: LocalDate, m: Measure)
    requires s.daily == GroupByDate(s.facts)
    ensures ColumnSummary(s, from, to, ColumnOf(m)) == Sum(s.facts, InRange(from, to), ValueOf(m))
  {
    hide Sum, DayOf, Dates, ColumnOf, ValueOf;
    var byDay := ColumnByDay(s.daily, from, to, ColumnOf(m));
    var totals := GroupTotals(s.facts, byDay.Keys, DateOf, InRange(from, to), ValueOf(m));
    forall id | id in s.facts && InRange(from, to)(s.facts[id]) ensures DateOf(s.facts[id]) in byDay.Keys {
      DaysCover(s.facts, from, to, id, m);
    }
    GroupsPartition(s.facts, byDay.Keys, DateOf, InRange(from, to), ValueOf(m));
    forall d | d in byDay ensures totals[d] == byDay[d] { DayIsGroup(s.facts, from, to, d, m); }
    assert totals == byDay;
  }

  lemma SameFacts(facts: map<Uuid, PaidFact>, keep: PaidFact -> bool, keep2: PaidFact -> bool, value: PaidFact -> int)
    requires forall f :: keep(f) == keep2(f)
    ensures Sum(facts, keep, value) == Sum(facts, keep2, value)
  {
    assert Values(facts, keep, value) == Values(facts, keep2, value);
  }

  /** Picking distinct keys out of a map takes their values out of its total. */
  lemma {:induction false} RowsOfTotal(totals: map<int, int>, rows: seq<RouteSales>)
    requires forall i :: 0 <= i < |rows| ==> rows[i].routeId in totals && rows[i].revenueVnd == totals[rows[i].routeId]
    requires forall i, j :: 0 <= i < j < |rows| ==> rows[i].routeId != rows[j].routeId
    ensures SumBy(rows, RevenueOfRow) + Total(totals - Picked(rows)) == Total(totals)
    ensures |Picked(rows)| == |rows|
  {
    if rows == [] {
      assert totals - Picked(rows) == totals;
    } else {
      var init, last := rows[..|rows| - 1], rows[|rows| - 1];
      RowsOfTotal(totals, init);
      PickedMore(init, last);
      assert rows == init + [last];
      var rest := totals - Picked(init);
      TotalRemove(rest, last.routeId);
      assert rest - {last.routeId} == totals - Picked(rows);
      hide Picked;
    }
  }

  lemma PickedMore(init: seq<RouteSales>, last: RouteSales)
    requires forall i :: 0 <= i < |init| ==> init[i].routeId != last.routeId
    ensures Picked(init + [last]) == Picked(init) + {last.routeId} && last.routeId !in Picked(init)
  {
    assert (init + [last])[|init|] == last;
    forall i | 0 <= i < |init| ensures (init + [last])[i] == init[i] {}
  }

  function Picked(rows: seq<RouteSales>): set<int> { set i | 0 <= i < |rows| :: rows[i].routeId }

  lemma SumNotNegative(facts: map<Uuid, PaidFact>, keep: PaidFact -> bool, value: PaidFact -> int)
    requires forall id :: id in facts ==> value(facts[id]) >= 0
    ensures Sum(facts, keep, value) >= 0
  {
    forall id | id in facts ensures Values(facts, keep, value)[id] >= 0 {
      assert value(facts[id]) >= 0;
    }
    TotalNotNegative(Values(facts, keep, value));
  }

  /**
   For every date range, the revenue of the listed routes is at most the revenue summary of the
   same range, and is all of it when the limit does not cut routes off.
   */
  lemma SalesMatchRevenue(events: seq<Incoming>, from: LocalDate, to: LocalDate, limit: nat, rows: seq<RouteSales>)
    requires IdFixesContent(events)
    requires forall e :: e in events && IsPaid(e) ==> e.event.payload.totalPriceVnd >= 0
    requires TicketSales(ApplyAll(BLANK, events).facts, from, to, limit, rows)
    ensures
      var s := ApplyAll(BLANK, events);
      && SumBy(rows, RevenueOfRow) <= RevenueSummary(s, from, to)
      && (limit >= |RoutesIn(s.facts, from, to)| ==> SumBy(rows, RevenueOfRow) == RevenueSummary(s, from, to))
  {
    var s := ApplyAll(BLANK, events);
    ProjectionIsAggregate(events);
    SeenIs(events);
    assert s.facts == FactsOf(Seen(events));
    assert forall id :: id in s.facts ==> RevenueOfFact(s.facts[id]) >= 0;
    hide ApplyAll, Seen, Aggregate, GroupByDate;
    RowsMatchRevenue(s, from, to, limit, rows);
  }

  lemma RowsMatchRevenue(s: Projection, from: LocalDate, to: LocalDate, limit: nat, rows: seq<RouteSales>)
    requires s.daily == GroupByDate(s.facts) && TicketSales(s.facts, from, to, limit, rows)
    requires forall id :: id in s.facts ==> RevenueOfFact(s.facts[id]) >= 0
    ensures SumBy(rows, RevenueOfRow) <= RevenueSummary(s, from, to)
    ensures limit >= |RoutesIn(s.facts, from, to)| ==> SumBy(rows, RevenueOfRow) == RevenueSummary(s, from, to)
  {
    hide Sum, GroupByDate, ColumnSummary;
    var routes := RoutesIn(s.facts, from, to);
    DaysAddUp(s, from, to, REVENUE);
    GroupsPartition(s.facts, routes, RouteOf, InRange(from, to), RevenueOfFact);
    var totals := GroupTotals(s.facts, routes, RouteOf, InRange(from, to), RevenueOfFact);
    RowsOfTotal(totals, rows);
    forall k | k in totals ensures totals[k] >= 0 {
      SumNotNegative(s.facts, InGroup(InRange(from, to), RouteOf, k), RevenueOfFact);
    }
    TotalNotNegative(totals - Picked(rows));
    if limit >= |routes| {
      assert Picked(rows) <= routes && |Picked(rows)| == |routes|;
      AllPicked(Picked(rows), routes);
      assert totals - Picked(rows) == map[];
    }
  }

  lemma AllPicked(some: set<int>, all: set<int>)
    requires some <= all && |some| == |all|
    ensures some == all
  {
    var rest := all - some;
    assert |rest| == 0;
    assert all == some + rest;
  }

  // ---------------------------------------------------------------- the ranked list

  lemma Best(facts: map<Uuid, PaidFact>, from: LocalDate, to: LocalDate, routes: set<Uuid>) returns (best: Uuid)
    requires routes != {}
    ensures best in routes
    ensures forall r :: r in routes && r != best ==>
      RanksBefore(SalesOf(facts, from, to, best), SalesOf(facts, from, to, r))
    decreases |routes|
  {
    hide Sum;
    var some := Member(routes);
    best := some;
    if routes != {some} {
      assert routes - {some} != {};
      var other := Best(facts, from, to, routes - {some});
      if RanksBefore(SalesOf(facts, from, to, other), SalesOf(facts, from, to, some)) { best := other; }
      forall r | r in routes && r != best
        ensures RanksBefore(SalesOf(facts, from, to, best), SalesOf(facts, from, to, r))
      {
        assert r == some || r in routes - {some};
      }
    }
  }

  /** All routes of a set, best first. */
  ghost predicate Ranked(facts: map<Uuid, PaidFact>, from: LocalDate, to: LocalDate, routes: set<Uuid>,
                         rows: seq<RouteSales>) {
    && |rows| == |routes|
    && (forall i :: 0 <= i < |rows| ==>
          rows[i].routeId in routes && rows[i] == SalesOf(facts, from, to, rows[i].routeId))
    && (forall i, j :: 0 <= i < j < |rows| ==> RanksBefore(rows[i], rows[j]))
    && forall r :: r in routes ==> Lists(rows, r)
  }

  lemma RankAll(facts: map<Uuid, PaidFact>, from: LocalDate, to: LocalDate, routes: set<Uuid>)
    returns (rows: seq<RouteSales>)
    ensures Ranked(facts, from, to, routes, rows)
    decreases |routes|
  {
    rows := [];
    if routes != {} {
      var best := Best(facts, from, to, routes);
      var rest := RankAll(facts, from, to, routes - {best});
      rows := [SalesOf(facts, from, to, best)] + rest;
      hide SalesOf;
      RankedFirst(facts, from, to, routes, best, rest);
    }
  }

  lemma RankedFirst(facts: map<Uuid, PaidFact>, from: LocalDate, to: LocalDate, routes: set<Uuid>, best: Uuid,
                    rest: seq<RouteSales>)
    requires best in routes && Ranked(facts, from, to, routes - {best}, rest)
    requires forall r :: r in routes && r != best ==>
      RanksBefore(SalesOf(facts, from, to, best), SalesOf(facts, from, to, r))
    ensures Ranked(facts, from, to, routes, [SalesOf(facts, from, to, best)] + rest)
  {
    var first := SalesOf(facts, from, to, best);
    var rows := [first] + rest;
    assert first.routeId == best;
    hide RanksBefore, SalesOf;
    forall r | r in routes ensures Lists(rows, r) {
      if r != best { ListsLater(first, rest, r); } else { assert rows[0].routeId == best; }
    }
    hide Lists;
  }

  lemma ListsLater(first: RouteSales, rest: seq<RouteSales>, r: Uuid)
    requires Lists(rest, r)
    ensures Lists([first] + rest, r)
  {
    var i :| 0 <= i < |rest| && rest[i].routeId == r;
    assert ([first] + rest)[i + 1].routeId == r;
  }

  /** For every range and limit there is such a list: the front of the ranking of all routes. */
  lemma TicketSalesExist(facts: map<Uuid, PaidFact>, from: LocalDate, to: LocalDate, limit: nat)
    returns (rows: seq<RouteSales>)
    ensures TicketSales(facts, from, to, limit, rows)
    ensures forall i, j :: 0 <= i < j < |rows| ==>
      var a, b := rows[i], rows[j];
      a.tickets > b.tickets || (a.tickets == b.tickets &&
        (a.revenueVnd > b.revenueVnd || (a.revenueVnd == b.revenueVnd && a.routeId < b.routeId)))
  {
    var all := RankAll(facts, from, to, RoutesIn(facts, from, to));
    rows := if |all| < limit then all else all[..limit];
    hide RanksBefore, SalesOf, RoutesIn, Lists;
    forall i, r | 0 <= i < |rows| && r in RoutesIn(facts, from, to) && !Lists(rows, r)
      ensures RanksBefore(rows[i], SalesOf(facts, from, to, r))
    {
      var j := PlaceOf(all, rows, r);
    }
  }

  /** A route cut off by the limit stands further down. */
  lemma PlaceOf(all: seq<RouteSales>, rows: seq<RouteSales>, r: Uuid) returns (j: nat)
    requires Lists(all, r) && !Lists(rows, r) && |rows| <= |all| && rows == all[..|rows|]
    ensures |rows| <= j < |all| && all[j].routeId == r
  {
    j :| 0 <= j < |all| && all[j].routeId == r;
    if j < |rows| { FrontLists(all, rows, j); }
  }

  lemma FrontLists(all: seq<RouteSales>, rows: seq<RouteSales>, j: nat)
    requires j < |rows| <= |all| && rows == all[..|rows|]
    ensures Lists(rows, all[j].routeId)
  {
    assert rows[j].routeId == all[j].routeId;
  }
}
