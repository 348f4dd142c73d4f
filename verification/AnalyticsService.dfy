/** The analytics service as it runs: counters and fact tables updated in place, one event at a time. */
module AnalyticsService {
  import opened Prelude
  import opened Bookings
  import opened Analytics
  import opened AnalyticsReports

  datatype DayRow = DayRow(localDate: LocalDate, day: Day)

  class Service {
    var processed: set<Uuid>
    var daily: map<LocalDate, Day>
    var facts: map<Uuid, PaidFact>
    var payments: map<Uuid, PaymentFact>
    var searches: map<Uuid, SearchFact>

    constructor ()
      ensures State() == BLANK
    {
      processed, daily, facts, payments, searches := {}, map[], map[], map[], map[];
    }

    function State(): Projection
      reads this
    {
      Projection(processed, daily, facts, payments, searches)
    }

    method ApplyBooking(e: Event) returns (isNewEvent: bool)
      modifies this
      ensures State() == ApplyBookingEvent(old(State()), e)
      ensures isNewEvent <==> e.eventId !in old(processed)
    {
      isNewEvent := e.eventId !in processed;
      processed := processed + {e.eventId};
      if e.eventType != BookingPaidV1 { return; }
      var fact := FactOf(e);
      if isNewEvent {
        var before := if fact.localDate in daily then daily[fact.localDate] else NO_SALES;
        daily := daily[fact.localDate := Day(before.revenueVnd + fact.revenueVnd, before.paidBookings + 1,
                                             before.tickets + fact.tickets)];
      }
      if e.eventId in facts {
        facts := facts[e.eventId := fact.(bookingId := facts[e.eventId].bookingId)];
      } else {
        facts := facts[e.eventId := fact];
      }
    }

    method ApplyPayment(e: Incoming) returns (isNewEvent: bool)
      requires e.PaymentEvent?
      modifies this
      ensures State() == ApplyPaymentEvent(old(State()), e)
      ensures isNewEvent <==> e.eventId !in old(processed)
    {
      isNewEvent := e.eventId !in processed;
      processed := processed + {e.eventId};
      if e.eventId !in payments {
        payments := payments[e.eventId := PaymentFactOf(e)];
      }
    }

    method ApplySearch(e: Incoming) returns (isNewEvent: bool)
      requires e.SearchEvent?
      modifies this
      ensures State() == ApplySearchEvent(old(State()), e)
      ensures isNewEvent <==> e.eventId !in old(processed)
    {
      isNewEvent := e.eventId !in processed;
      if !isNewEvent { return; }
      processed := processed + {e.eventId};
      var routes: map<Uuid, string> := map[];
      for i := 0 to |e.matchedRoutes|
        invariant routes == Labels(e.matchedRoutes[..i])
      {
        assert e.matchedRoutes[..i + 1][..i] == e.matchedRoutes[..i];
        var match_ := e.matchedRoutes[i];
        if match_.routeId !in routes {
          routes := routes[match_.routeId := match_.caption];
        }
      }
      assert e.matchedRoutes[..|e.matchedRoutes|] == e.matchedRoutes;
      searches := searches[e.eventId := SearchFact(VietnamLocalDate(e.occurredAt), e.sessionId, e.resultCount, routes)];
    }

    /** Every delivery, in whatever order and however often, leaves the aggregate of the distinct events. */
    method ApplyDelivered(events: seq<Incoming>)
      requires State() == BLANK && IdFixesContent(events)
      modifies this
      ensures State() == Aggregate(Seen(events))
    {
      for i := 0 to |events|
        invariant State() == ApplyAll(BLANK, events[..i])
      {
        assert events[..i + 1][..i] == events[..i];
        match events[i] {
          case BookingEvent(event) => var _ := ApplyBooking(event);
          case PaymentEvent(_, _, _, _, _, _) => var _ := ApplyPayment(events[i]);
          case SearchEvent(_, _, _, _, _) => var _ := ApplySearch(events[i]);
        }
      }
      assert events[..|events|] == events;
      ProjectionIsAggregate(events);
    }

    /** `getRevenueSummary`: exactly the days of the range that have sales, in order, and their totals. */
    method GetRevenueSummary(from: LocalDate, to: LocalDate)
      returns (days: seq<DayRow>, totalRevenueVnd: int, paidBookingCount: int, ticketCount: int)
      ensures totalRevenueVnd == RevenueSummary(State(), from, to)
      ensures paidBookingCount == ColumnSummary(State(), from, to, BookingsColumn)
      ensures ticketCount == ColumnSummary(State(), from, to, TicketsColumn)
      ensures forall i, j :: 0 <= i < j < |days| ==> days[i].localDate < days[j].localDate
      ensures forall row :: row in days <==>
        row.localDate in daily && from <= row.localDate <= to && row.day == daily[row.localDate]
    {
      days, totalRevenueVnd, paidBookingCount, ticketCount := Summarise(daily, from, to);
    }
  }

  method Summarise(table: map<LocalDate, Day>, from: LocalDate, to: LocalDate)
    returns (days: seq<DayRow>, totalRevenueVnd: int, paidBookingCount: int, ticketCount: int)
    ensures totalRevenueVnd == Total(ColumnByDay(table, from, to, RevenueColumn))
    ensures paidBookingCount == Total(ColumnByDay(table, from, to, BookingsColumn))
    ensures ticketCount == Total(ColumnByDay(table, from, to, TicketsColumn))
    ensures forall i, j :: 0 <= i < j < |days| ==> days[i].localDate < days[j].localDate
    ensures forall row :: row in days <==>
      row.localDate in table && from <= row.localDate <= to && row.day == table[row.localDate]
  {
    ghost var dates;
    days, dates := DaysInRange(table, from, to);
    totalRevenueVnd := Reduce(days, RevenueColumn);
    paidBookingCount := Reduce(days, BookingsColumn);
    ticketCount := Reduce(days, TicketsColumn);
    RangeTotal(table, dates, days, from, to, RevenueColumn);
    RangeTotal(table, dates, days, from, to, BookingsColumn);
    RangeTotal(table, dates, days, from, to, TicketsColumn);
    AllRows(table, dates, days, from, to);
    hide Listed, RowsOfDates, OfRow, ColumnByDay, RevenueColumn, BookingsColumn, TicketsColumn, SumBy;
  }

  /** The rows of the ordered query. */
  method DaysInRange(table: map<LocalDate, Day>, from: LocalDate, to: LocalDate)
    returns (days: seq<DayRow>, ghost dates: seq<LocalDate>)
    ensures RowsOfDates(table, dates, days) && Listed(dates) == set d | d in table && from <= d <= to
  {
    var ordered := InOrder(set d | d in table && from <= d <= to);
    assert forall i :: 0 <= i < |ordered| ==> ordered[i] in Listed(ordered);
    days, dates := [], ordered;
    for i := 0 to |ordered|
      invariant |days| == i
      invariant forall k :: 0 <= k < i ==> days[k] == DayRow(ordered[k], table[ordered[k]])
    {
      days := days + [DayRow(ordered[i], table[ordered[i]])];
    }
  }

  function OfRow(column: Day -> int): DayRow -> int { (row: DayRow) => column(row.day) }

  /** `days.reduce((total, day) => total + column(day), 0)` */
  method Reduce(days: seq<DayRow>, column: Day -> int) returns (total: int)
    ensures total == SumBy(days, OfRow(column))
  {
    total := 0;
    for i := 0 to |days|
      invariant total == SumBy(days[..i], OfRow(column))
    {
      assert days[..i + 1][..i] == days[..i];
      total := total + column(days[i].day);
    }
    assert days[..|days|] == days;
  }

  /** What the ordered dates of a range and their rows have to do with each other. */
  predicate RowsOfDates(table: map<LocalDate, Day>, dates: seq<LocalDate>, days: seq<DayRow>) {
    && |days| == |dates|
    && (forall i :: 0 <= i < |dates| ==> dates[i] in table && days[i] == DayRow(dates[i], table[dates[i]]))
    && forall i, j :: 0 <= i < j < |dates| ==> dates[i] < dates[j]
  }

  predicate IsColumn(table: map<LocalDate, Day>, totals: map<int, int>, column: Day -> int) {
    forall d :: d in totals ==> d in table && totals[d] == column(table[d])
  }

  /** Without the last row, the rest belongs to the rest of the range. */
  lemma WithoutLast(table: map<LocalDate, Day>, dates: seq<LocalDate>, days: seq<DayRow>, totals: map<int, int>,
                    column: Day -> int)
    requires RowsOfDates(table, dates, days) && dates != [] && Listed(dates) == totals.Keys
    requires IsColumn(table, totals, column)
    ensures
      var n := |dates| - 1;
      && RowsOfDates(table, dates[..n], days[..n]) && Listed(dates[..n]) == (totals - {dates[n]}).Keys
      && IsColumn(table, totals - {dates[n]}, column)
      && dates[n] in totals && OfRow(column)(days[n]) == totals[dates[n]]
  {
    var n := |dates| - 1;
    assert dates == dates[..n] + [dates[n]];
    OneMoreListed(dates[..n], dates[n]);
    assert dates[n] !in dates[..n];
    assert dates[n] in Listed(dates);
  }

  /** Adding up a column over the rows gives the total of that column over the range. */
  lemma {:induction false} DaysTotal(table: map<LocalDate, Day>, dates: seq<LocalDate>, days: seq<DayRow>,
                                     totals: map<int, int>, column: Day -> int)
    requires RowsOfDates(table, dates, days) && |days| == |dates| && Listed(dates) == totals.Keys
    requires IsColumn(table, totals, column)
    ensures SumBy(days, OfRow(column)) == Total(totals)
    decreases |dates|
  {
    if dates == [] {
      assert totals == map[];
    } else {
      var n := |dates| - 1;
      WithoutLast(table, dates, days, totals, column);
      hide RowsOfDates, IsColumn, Listed, OfRow;
      DaysTotal(table, dates[..n], days[..n], totals - {dates[n]}, column);
      TotalRemove(totals, dates[n]);
    }
  }

  lemma {:induction false} RangeTotal(table: map<LocalDate, Day>, dates: seq<LocalDate>, days: seq<DayRow>,
                                      from: LocalDate, to: LocalDate, column: Day -> int)
    requires RowsOfDates(table, dates, days) && Listed(dates) == set d | d in table && from <= d <= to
    ensures SumBy(days, OfRow(column)) == Total(ColumnByDay(table, from, to, column))
  {
    hide Listed, OfRow;
    assert ColumnByDay(table, from, to, column).Keys == set d | d in table && from <= d <= to;
    DaysTotal(table, dates, days, ColumnByDay(table, from, to, column), column);
  }

  lemma AllRows(table: map<LocalDate, Day>, dates: seq<LocalDate>, days: seq<DayRow>, from: LocalDate, to: LocalDate)
    requires RowsOfDates(table, dates, days) && Listed(dates) == set d | d in table && from <= d <= to
    ensures forall row :: row in days <==>
      row.localDate in table && from <= row.localDate <= to && row.day == table[row.localDate]
    ensures forall i, j :: 0 <= i < j < |days| ==> days[i].localDate < days[j].localDate
  {
    forall row ensures row in days <==>
      row.localDate in table && from <= row.localDate <= to && row.day == table[row.localDate]
    {
      if row in days {
        var i :| 0 <= i < |days| && days[i] == row;
        assert dates[i] in Listed(dates);
      }
      if row.localDate in table && from <= row.localDate <= to && row.day == table[row.localDate] {
        assert row.localDate in Listed(dates);
        var i :| 0 <= i < |dates| && dates[i] == row.localDate;
        assert days[i] == row;
      }
    }
  }

  function Listed(dates: seq<LocalDate>): set<LocalDate> { set d | d in dates }

  lemma OneMoreListed(list: seq<LocalDate>, d: LocalDate)
    ensures Listed(list + [d]) == Listed(list) + {d}
  {
  }

  lemma Earliest(dates: set<LocalDate>) returns (first: LocalDate)
    requires dates != {}
    ensures first in dates && forall d :: d in dates ==> first <= d
    decreases |dates|
  {
    var some := Member(dates);
    first := some;
    if dates != {some} {
      assert dates - {some} != {};
      var other := Earliest(dates - {some});
      if other < some { first := other; }
      forall d | d in dates ensures first <= d {
        assert d == some || d in dates - {some};
      }
    }
  }

  predicate Front(dates: set<LocalDate>, list: seq<LocalDate>, rest: set<LocalDate>) {
    && rest <= dates && Listed(list) == dates - rest
    && (forall i, j :: 0 <= i < j < |list| ==> list[i] < list[j])
    && forall i, d :: 0 <= i < |list| && d in rest ==> list[i] < d
  }

  lemma NextInOrder(dates: set<LocalDate>, list: seq<LocalDate>, rest: set<LocalDate>, d: LocalDate)
    requires Front(dates, list, rest) && d in rest && forall other :: other in rest ==> d <= other
    ensures Front(dates, list + [d], rest - {d})
  {
    OneMoreListed(list, d);
    hide Listed;
  }

  /** ORDER BY local_date */
  method InOrder(dates: set<LocalDate>) returns (list: seq<LocalDate>)
    ensures Front(dates, list, {})
  {
    list := [];
    var rest := dates;
    assert Front(dates, list, rest);
    hide Front;
    while rest != {}
      invariant Front(dates, list, rest)
      decreases |rest|
    {
      ghost var least := Earliest(rest);
      var d :| d in rest && forall other :: other in rest ==> d <= other;
      NextInOrder(dates, list, rest, d);
      list, rest := list + [d], rest - {d};
    }
  }
}
