/** The reports of analytics against the bookings they are about: passengers and prices by day and by route. */
module SalesAccounts {
  import opened Prelude
  import opened Bookings
  import opened BookingLifecycle
  import opened BookingInvariants
  import opened BookingTheorems
  import opened BookingAccounts
  import opened BookingRecords
  import opened Analytics
  import opened AnalyticsReports
  import opened EndToEnd

  // ---------------------------------------------------------------- sums over the bookings ever paid

  /** Which bookings count: those paid on a local day of the range, on one route or on any. */
  predicate Counts(b: Booking, from: LocalDate, to: LocalDate, route: Option<Uuid>) {
    && b.paidAt.Some? && from <= VietnamLocalDate(b.paidAt.value) <= to
    && (route == None || route == Some(b.facts.routeId))
  }

  /** What one booking adds to a report: its price, itself, or its passengers. */
  function Adds(db: Db, id: Uuid, m: Measure): int
    requires id in db.bookings
  {
    match m
    case REVENUE => db.bookings[id].facts.totalPriceVnd
    case BOOKINGS => 1
    case TICKETS => |PassengersOf(db, id)|
  }

  function PaidValues(db: Db, from: LocalDate, to: LocalDate, route: Option<Uuid>, m: Measure): map<Uuid, int> {
    map id | id in db.bookings && db.bookings[id].paidAt.Some? ::
      if Counts(db.bookings[id], from, to, route) then Adds(db, id, m) else 0
  }

  /** The sum over the bookings ever paid, whether cancelled later or not. */
  ghost function EverPaidTotal(db: Db, from: LocalDate, to: LocalDate, route: Option<Uuid>, m: Measure): int {
    Total(PaidValues(db, from, to, route, m))
  }

  // ---------------------------------------------------------------- one paid fact per paid booking

  /** Two maps whose entries pair off have one total. */
  lemma {:induction false} TotalOfPairs(a: map<Uuid, int>, b: map<Uuid, int>, other: map<Uuid, Uuid>)
    requires other.Keys == a.Keys
    requires forall k :: k in a ==> other[k] in b && b[other[k]] == a[k]
    requires forall j, k :: j in a && k in a && other[j] == other[k] ==> j == k
    requires forall j :: j in b ==> exists k :: k in a && other[k] == j
    ensures Total(a) == Total(b)
    decreases |a|
  {
    hide Total;
    if a == map[] {
      assert b == map[];
    } else {
      var k :| k in a;
      var j := other[k];
      PairsLeft(a, b, other, k);
      TotalOfPairs(a - {k}, b - {j}, other - {k});
      TotalRemove(a, k);
      TotalRemove(b, j);
    }
  }

  lemma PairsLeft(a: map<Uuid, int>, b: map<Uuid, int>, other: map<Uuid, Uuid>, k: Uuid)
    requires other.Keys == a.Keys && k in a
    requires forall j :: j in b ==> exists l :: l in a && other[l] == j
    ensures |a - {k}| < |a|
    ensures forall j :: j in b - {other[k]} ==> exists l :: l in a - {k} && (other - {k})[l] == j
  {
    assert a.Keys == (a - {k}).Keys + {k};
    forall j | j in b - {other[k]} ensures exists l :: l in a - {k} && (other - {k})[l] == j {
      var l :| l in a && other[l] == j;
      assert l in a - {k};
    }
  }

  lemma OnlyPayment(events: seq<Event>, status: Status)
    requires HasTypes(events, EventTypes(status)) && status !in {DRAFT, COMPLETED}
    ensures EverPaid(status) ==> |events| > 1 && events[1] in events && events[1].eventType == BookingPaidV1
    ensures forall e :: e in events && e.eventType == BookingPaidV1 ==> EverPaid(status) && e == events[1]
  {
  }

  /** The paid event of a booking, in every reachable state: one if it was ever paid, none otherwise. */
  lemma PaidEventOf(steps: seq<Step>, id: Uuid) returns (e: Option<Event>)
    requires id in Run(EMPTY_DB, steps).bookings
    ensures
      var db := Run(EMPTY_DB, steps);
      && (e.Some? <==> db.bookings[id].paidAt.Some?)
      && (e.Some? ==> IsPaidEventOf(db, e.value, id))
      && forall f :: IsPaidEventOf(db, f, id) ==> e == Some(f)
  {
    var db := Run(EMPTY_DB, steps);
    RunKeeps(steps);
    hide Run;
    assert OkFor(db, id);
    ColumnsHold(db, id);
    var events := EventsOf(RowsOf(db, id).outbox);
    assert HasTypes(events, EventTypes(db.bookings[id].status)) by { hide Chain; }
    OnlyPayment(events, db.bookings[id].status);
    BookingLog(db.outbox, id);
    hide EventsOf, OkFor, BookingOk, HasTypes, EverPaid, Filter;
    e := if db.bookings[id].paidAt.Some? then Some(events[1]) else None;
  }

  predicate IsPaidEventOf(db: Db, e: Event, id: Uuid) {
    e in EventsOf(db.outbox) && e.aggregateId == id && e.eventType == BookingPaidV1
  }

  /** The log of one booking is its part of the whole log. */
  lemma {:induction false} BookingLog(outbox: seq<OutboxRow>, id: Uuid)
    ensures forall e :: e in EventsOf(Filter(outbox, OutboxOf(id))) <==> e in EventsOf(outbox) && e.aggregateId == id
  {
    if outbox != [] {
      var init, last := outbox[..|outbox| - 1], outbox[|outbox| - 1];
      BookingLog(init, id);
      assert outbox == init + [last];
      FilterAppend(init, last, OutboxOf(id));
      EventsOfAppend(init, last);
      if OutboxOf(id)(last) {
        EventsOfAppend(Filter(init, OutboxOf(id)), last);
      } else {
        AppendNothing(Filter(init, OutboxOf(id)));
      }
      hide EventsOf, Filter;
    }
  }

  /** A fact the reports keep: of a day in the range, and of the route if one is asked for. */
  function Keeps(from: LocalDate, to: LocalDate, route: Option<Uuid>): PaidFact -> bool {
    (f: PaidFact) => from <= f.localDate <= to && (route == None || route == Some(f.routeId))
  }

  /** A paid event's fact counts as its booking does, and adds the same. */
  lemma FactIsBooking(steps: seq<Step>, e: Event, from: LocalDate, to: LocalDate, route: Option<Uuid>, m: Measure)
    requires e in EventsOf(Run(EMPTY_DB, steps).outbox) && e.eventType == BookingPaidV1
    ensures
      var db, id := Run(EMPTY_DB, steps), e.aggregateId;
      && id in db.bookings && db.bookings[id].paidAt.Some?
      && (Keeps(from, to, route)(FactOf(e)) <==> Counts(db.bookings[id], from, to, route))
      && ValueOf(m)(FactOf(e)) == Adds(db, id, m)
  {
    EventsComeFromRows(Run(EMPTY_DB, steps).outbox, e);
    var o :| o in Run(EMPTY_DB, steps).outbox && o.event == e;
    RowOfBooking(steps, o);
    hide Run, DeliveryRows, VietnamLocalDate, SeatsIn, EventsOf;
  }

  lemma {:induction false} LogTotals(steps: seq<Step>, from: LocalDate, to: LocalDate, route: Option<Uuid>, m: Measure)
    ensures
      var db := Run(EMPTY_DB, steps);
      Sum(LoggedFacts(EventsOf(db.outbox)), Keeps(from, to, route), ValueOf(m)) ==
      EverPaidTotal(db, from, to, route, m)
  {
    var db := Run(EMPTY_DB, steps);
    var log := EventsOf(db.outbox);
    var facts := LoggedFacts(log);
    EventIdsNeverRepeat(steps);
    LoggedIds(log);
    var values, paid := Values(facts, Keeps(from, to, route), ValueOf(m)), PaidValues(db, from, to, route, m);
    var booking := map k | k in facts :: facts[k].bookingId;
    hide Run, EventsOf, LoggedFacts, FactOf, Keeps, ValueOf, Adds, Counts;
    forall k | k in values
      ensures booking[k] in paid && paid[booking[k]] == values[k]
    {
      var e := LoggedEvent(steps, k);
      FactIsBooking(steps, e, from, to, route, m);
    }
    forall j, k | j in values && k in values && booking[j] == booking[k] ensures j == k {
      var e := LoggedEvent(steps, j);
      var f := LoggedEvent(steps, k);
      FactIsBooking(steps, e, from, to, route, m);
      var only := PaidEventOf(steps, booking[j]);
    }
    forall id | id in paid ensures exists k :: k in values && booking[k] == id {
      var e := PaidEventOf(steps, id);
      var k := e.value.eventId;
      assert FactOf(e.value).bookingId == id by { BookingOfFact(steps, e.value); }
      assert k in values && booking[k] == id;
    }
    TotalOfPairs(values, paid, booking);
  }

  lemma BookingOfFact(steps: seq<Step>, e: Event)
    requires e in EventsOf(Run(EMPTY_DB, steps).outbox)
    ensures FactOf(e).bookingId == e.aggregateId
  {
    EventsComeFromRows(Run(EMPTY_DB, steps).outbox, e);
    var o :| o in Run(EMPTY_DB, steps).outbox && o.event == e;
    RowOfBooking(steps, o);
    hide Run, DeliveryRows, VietnamLocalDate, SeatsIn, EventsOf;
  }

  lemma LoggedEvent(steps: seq<Step>, k: Uuid) returns (e: Event)
    requires k in LoggedFacts(EventsOf(Run(EMPTY_DB, steps).outbox))
    ensures
      var db := Run(EMPTY_DB, steps);
      && e.eventId == k && LoggedFacts(EventsOf(db.outbox))[k] == FactOf(e)
      && IsPaidEventOf(db, e, FactOf(e).bookingId)
  {
    var log := EventsOf(Run(EMPTY_DB, steps).outbox);
    EventIdsNeverRepeat(steps);
    LoggedIds(log);
    hide LoggedFacts;
    e :| e in log && e.eventId == k && e.eventType == BookingPaidV1;
    BookingOfFact(steps, e);
  }

  // ---------------------------------------------------------------- the reports

  /**
   Once every paid event has been applied, in any order and any number of times, each report is
   about the bookings themselves. For every range of local days, the summary's revenue, bookings
   and tickets are the prices, the number and the passengers of the bookings paid on those days;
   and the row of a route is the same three figures for the bookings of that route.
   */
  lemma SalesAcrossServices(steps: seq<Step>, feed: seq<Incoming>, from: LocalDate, to: LocalDate, route: Uuid)
    requires IdFixesContent(feed) && Delivers(feed, EventsOf(Run(EMPTY_DB, steps).outbox))
    ensures
      var db, s := Run(EMPTY_DB, steps), ApplyAll(BLANK, feed);
      && RevenueSummary(s, from, to) == EverPaidTotal(db, from, to, None, REVENUE)
      && ColumnSummary(s, from, to, BookingsColumn) == EverPaidTotal(db, from, to, None, BOOKINGS)
      && ColumnSummary(s, from, to, TicketsColumn) == EverPaidTotal(db, from, to, None, TICKETS)
      && SalesOf(s.facts, from, to, route) == RouteSales(
           route, EverPaidTotal(db, from, to, Some(route), BOOKINGS),
           EverPaidTotal(db, from, to, Some(route), TICKETS),
           EverPaidTotal(db, from, to, Some(route), REVENUE))
  {
    var db, s := Run(EMPTY_DB, steps), ApplyAll(BLANK, feed);
    AppliedFacts(steps, feed);
    hide Run, ApplyAll, GroupByDate, EverPaidTotal, SalesOf, ColumnSummary, RevenueSummary, LoggedFacts, EventsOf;
    hide Delivers, IdFixesContent;
    ThreeSummaries(steps, s, from, to);
    RouteRows(steps, s.facts, from, to, route);
  }

  lemma ThreeSummaries(steps: seq<Step>, s: Projection, from: LocalDate, to: LocalDate)
    requires s.daily == GroupByDate(s.facts) && s.facts == LoggedFacts(EventsOf(Run(EMPTY_DB, steps).outbox))
    ensures
      var db := Run(EMPTY_DB, steps);
      && RevenueSummary(s, from, to) == EverPaidTotal(db, from, to, None, REVENUE)
      && ColumnSummary(s, from, to, BookingsColumn) == EverPaidTotal(db, from, to, None, BOOKINGS)
      && ColumnSummary(s, from, to, TicketsColumn) == EverPaidTotal(db, from, to, None, TICKETS)
  {
    hide Run, GroupByDate, EverPaidTotal, ColumnSummary, LoggedFacts, EventsOf;
    Summaries(steps, s, from, to, REVENUE);
    Summaries(steps, s, from, to, BOOKINGS);
    Summaries(steps, s, from, to, TICKETS);
  }

  /** What analytics has stored is what the log says was paid. */
  lemma AppliedFacts(steps: seq<Step>, feed: seq<Incoming>)
    requires IdFixesContent(feed) && Delivers(feed, EventsOf(Run(EMPTY_DB, steps).outbox))
    ensures var s := ApplyAll(BLANK, feed);
      s.daily == GroupByDate(s.facts) && s.facts == LoggedFacts(EventsOf(Run(EMPTY_DB, steps).outbox))
  {
    EventIdsNeverRepeat(steps);
    ProjectionIsAggregate(feed);
    FeedHoldsTheLog(feed, EventsOf(Run(EMPTY_DB, steps).outbox));
    hide Run, ApplyAll, GroupByDate, LoggedFacts, EventsOf, Delivers, FactsOf, Seen;
  }

  lemma RouteRows(steps: seq<Step>, facts: map<Uuid, PaidFact>, from: LocalDate, to: LocalDate, route: Uuid)
    requires facts == LoggedFacts(EventsOf(Run(EMPTY_DB, steps).outbox))
    ensures var db := Run(EMPTY_DB, steps);
      SalesOf(facts, from, to, route) == RouteSales(
        route, EverPaidTotal(db, from, to, Some(route), BOOKINGS), EverPaidTotal(db, from, to, Some(route), TICKETS),
        EverPaidTotal(db, from, to, Some(route), REVENUE))
  {
    hide Run, EverPaidTotal, Sum, LoggedFacts, EventsOf, InGroup, InRange;
    RouteRow(steps, facts, from, to, route, REVENUE);
    RouteRow(steps, facts, from, to, route, BOOKINGS);
    RouteRow(steps, facts, from, to, route, TICKETS);
  }

  lemma Summaries(steps: seq<Step>, s: Projection, from: LocalDate, to: LocalDate, m: Measure)
    requires s.daily == GroupByDate(s.facts) && s.facts == LoggedFacts(EventsOf(Run(EMPTY_DB, steps).outbox))
    ensures ColumnSummary(s, from, to, ColumnOf(m)) == EverPaidTotal(Run(EMPTY_DB, steps), from, to, None, m)
  {
    LogTotals(steps, from, to, None, m);
    DaysAddUp(s, from, to, m);
    hide Run, GroupByDate, EverPaidTotal, Sum, LoggedFacts, EventsOf;
    SameFacts(s.facts, InRange(from, to), Keeps(from, to, None), ValueOf(m));
  }

  lemma RouteRow(steps: seq<Step>, facts: map<Uuid, PaidFact>, from: LocalDate, to: LocalDate, route: Uuid, m: Measure)
    requires facts == LoggedFacts(EventsOf(Run(EMPTY_DB, steps).outbox))
    ensures Sum(facts, InGroup(InRange(from, to), RouteOf, route), ValueOf(m)) ==
      EverPaidTotal(Run(EMPTY_DB, steps), from, to, Some(route), m)
  {
    LogTotals(steps, from, to, Some(route), m);
    hide Run, EverPaidTotal, Sum, LoggedFacts, EventsOf;
    forall f: PaidFact
      ensures InGroup(InRange(from, to), RouteOf, route)(f) == Keeps(from, to, Some(route))(f)
    {
      assert InGroup(InRange(from, to), RouteOf, route)(f) == (InRange(from, to)(f) && RouteOf(f) == route);
      assert InRange(from, to)(f) == (from <= f.localDate <= to);
    }
    SameFacts(facts, InGroup(InRange(from, to), RouteOf, route), Keeps(from, to, Some(route)), ValueOf(m));
  }
}
