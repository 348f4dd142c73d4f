/**
 The analytics projection: incremental counters fed by at-least-once event delivery, and the
 claim that they always equal the aggregate of the distinct events.
 */
module Analytics {
  import opened Prelude
  import opened Bookings

  datatype RouteMatch = RouteMatch(routeId: Uuid, caption: string)

  datatype Incoming =
    | BookingEvent(event: Event)
    | PaymentEvent(eventId: Uuid, occurredAt: int, attemptId: Uuid, bookingId: Uuid, succeeded: bool, amountVnd: int)
    | SearchEvent(eventId: Uuid, occurredAt: int, sessionId: Uuid, resultCount: nat, matchedRoutes: seq<RouteMatch>)

  function IdOf(e: Incoming): Uuid { if e.BookingEvent? then e.event.eventId else e.eventId }

  predicate IsPaid(e: Incoming) { e.BookingEvent? && e.event.eventType == BookingPaidV1 }

  datatype Day = Day(revenueVnd: int, paidBookings: int, tickets: int)

  datatype PaidFact =
    PaidFact(localDate: LocalDate, bookingId: Uuid, routeId: Uuid, routeCode: string, tickets: nat, revenueVnd: int)

  datatype PaymentFact = PaymentFact(localDate: LocalDate, attemptId: Uuid, bookingId: Uuid, succeeded: bool,
                                     amountVnd: int)

  /** A search with its route matches, which are keyed by the search and the route. */
  datatype SearchFact =
    SearchFact(localDate: LocalDate, sessionId: Uuid, resultCount: nat, routes: map<Uuid, string>)

  datatype Projection = Projection(
    processed: set<Uuid>,
    daily: map<LocalDate, Day>,
    facts: map<Uuid, PaidFact>,
    payments: map<Uuid, PaymentFact>,
    searches: map<Uuid, SearchFact>)

  const BLANK := Projection({}, map[], map[], map[], map[])

  // ---------------------------------------------------------------- one event

  function FactOf(e: Event): PaidFact {
    PaidFact(VietnamLocalDate(e.occurredAt), e.payload.bookingId, e.payload.routeId, e.payload.routeCode,
             e.payload.passengerCount, e.payload.totalPriceVnd)
  }

  function PaymentFactOf(e: Incoming): PaymentFact
    requires e.PaymentEvent?
  {
    PaymentFact(VietnamLocalDate(e.occurredAt), e.attemptId, e.bookingId, e.succeeded, e.amountVnd)
  }

  /** The first label given for a route wins: ON CONFLICT DO NOTHING. */
  function Labels(routes: seq<RouteMatch>): map<Uuid, string> {
    if routes == [] then map[]
    else
      var before, last := Labels(routes[..|routes| - 1]), routes[|routes| - 1];
      if last.routeId in before then before else before[last.routeId := last.caption]
  }

  function SearchFactOf(e: Incoming): SearchFact
    requires e.SearchEvent?
  {
    SearchFact(VietnamLocalDate(e.occurredAt), e.sessionId, e.resultCount, Labels(e.matchedRoutes))
  }

  function Plus(a: Day, b: Day): Day {
    Day(a.revenueVnd + b.revenueVnd, a.paidBookings + b.paidBookings, a.tickets + b.tickets)
  }

  const NO_SALES := Day(0, 0, 0)

  function Sale(fact: PaidFact): Day { Day(fact.revenueVnd, 1, fact.tickets) }

  /** The upsert of a day's counters. */
  function AddDay(daily: map<LocalDate, Day>, fact: PaidFact): map<LocalDate, Day> {
    var d := fact.localDate;
    daily[d := if d in daily then Plus(daily[d], Sale(fact)) else Sale(fact)]
  }

  /** The booking id of a fact is written once; a replay refreshes the other columns. */
  function UpsertFact(facts: map<Uuid, PaidFact>, id: Uuid, fact: PaidFact): map<Uuid, PaidFact> {
    facts[id := if id in facts then fact.(bookingId := facts[id].bookingId) else fact]
  }

  function ApplyBookingEvent(s: Projection, e: Event): Projection {
    var isNew, fact := e.eventId !in s.processed, FactOf(e);
    var s2 := s.(processed := s.processed + {e.eventId});
    if e.eventType != BookingPaidV1 then s2
    else s2.(daily := if isNew then AddDay(s.daily, fact) else s.daily,
             facts := UpsertFact(s.facts, e.eventId, fact))
  }

  function ApplyPaymentEvent(s: Projection, e: Incoming): Projection
    requires e.PaymentEvent?
  {
    s.(processed := s.processed + {e.eventId},
       payments := if e.eventId in s.payments then s.payments else s.payments[e.eventId := PaymentFactOf(e)])
  }

  function ApplySearchEvent(s: Projection, e: Incoming): Projection
    requires e.SearchEvent?
  {
    if e.eventId in s.processed then s
    else s.(processed := s.processed + {e.eventId}, searches := s.searches[e.eventId := SearchFactOf(e)])
  }

  function Apply(s: Projection, e: Incoming): Projection {
    match e
    case BookingEvent(event) => ApplyBookingEvent(s, event)
    case PaymentEvent(_, _, _, _, _, _) => ApplyPaymentEvent(s, e)
    case SearchEvent(_, _, _, _, _) => ApplySearchEvent(s, e)
  }

  function ApplyAll(s: Projection, events: seq<Incoming>): Projection {
    if events == [] then s else Apply(ApplyAll(s, events[..|events| - 1]), events[|events| - 1])
  }

  // ---------------------------------------------------------------- sums over facts

  function Values(facts: map<Uuid, PaidFact>, keep: PaidFact -> bool, value: PaidFact -> int): map<Uuid, int> {
    map id | id in facts :: if keep(facts[id]) then value(facts[id]) else 0
  }

  /** `SUM(value) ... WHERE keep` over the paid facts. */
  ghost function Sum(facts: map<Uuid, PaidFact>, keep: PaidFact -> bool, value: PaidFact -> int): int {
    Total(Values(facts, keep, value))
  }

  lemma SumOfOneMore(facts: map<Uuid, PaidFact>, id: Uuid, fact: PaidFact, keep: PaidFact -> bool,
                     value: PaidFact -> int)
    requires id !in facts
    ensures Sum(facts[id := fact], keep, value) == Sum(facts, keep, value) + if keep(fact) then value(fact) else 0
  {
    var v := if keep(fact) then value(fact) else 0;
    TotalUpdate(Values(facts, keep, value), id, v);
    assert Values(facts[id := fact], keep, value) == Values(facts, keep, value)[id := v];
  }

  function OnDay(d: LocalDate): PaidFact -> bool { (f: PaidFact) => f.localDate == d }

  function RevenueOfFact(f: PaidFact): int { f.revenueVnd }

  function TicketsOfFact(f: PaidFact): int { f.tickets }

  function One(f: PaidFact): int { 1 }

  function Dates(facts: map<Uuid, PaidFact>): set<LocalDate> { set id | id in facts :: facts[id].localDate }

  ghost function DayOf(facts: map<Uuid, PaidFact>, d: LocalDate): Day {
    Day(Sum(facts, OnDay(d), RevenueOfFact), Sum(facts, OnDay(d), One), Sum(facts, OnDay(d), TicketsOfFact))
  }

  /** `daily_revenue` as a query: the facts grouped by date. */
  ghost function GroupByDate(facts: map<Uuid, PaidFact>): map<LocalDate, Day> {
    map d | d in Dates(facts) :: DayOf(facts, d)
  }

  lemma NothingOnDay(facts: map<Uuid, PaidFact>, d: LocalDate, value: PaidFact -> int)
    requires d !in Dates(facts)
    ensures Sum(facts, OnDay(d), value) == 0
  {
    forall id | id in facts ensures Values(facts, OnDay(d), value)[id] == 0 {
      assert facts[id].localDate in Dates(facts);
    }
    TotalZero(Values(facts, OnDay(d), value));
  }

  lemma EmptyDay(facts: map<Uuid, PaidFact>, d: LocalDate)
    requires d !in Dates(facts)
    ensures DayOf(facts, d) == NO_SALES
  {
    NothingOnDay(facts, d, RevenueOfFact);
    NothingOnDay(facts, d, One);
    NothingOnDay(facts, d, TicketsOfFact);
    hide Sum, Dates;
  }

  lemma DayOfOneMore(facts: map<Uuid, PaidFact>, id: Uuid, fact: PaidFact, d: LocalDate)
    requires id !in facts
    ensures DayOf(facts[id := fact], d) ==
      if d == fact.localDate then Plus(DayOf(facts, d), Sale(fact)) else DayOf(facts, d)
  {
    SumOfOneMore(facts, id, fact, OnDay(d), RevenueOfFact);
    SumOfOneMore(facts, id, fact, OnDay(d), One);
    SumOfOneMore(facts, id, fact, OnDay(d), TicketsOfFact);
    hide Sum;
  }

  lemma DatesOfOneMore(facts: map<Uuid, PaidFact>, id: Uuid, fact: PaidFact)
    requires id !in facts
    ensures Dates(facts[id := fact]) == Dates(facts) + {fact.localDate}
  {
    var more := facts[id := fact];
    forall d | d in Dates(facts) + {fact.localDate} ensures d in Dates(more) {
      if d == fact.localDate {
        assert id in more && more[id].localDate == d;
      } else {
        var k :| k in facts && facts[k].localDate == d;
        assert k in more && more[k].localDate == d;
      }
    }
  }

  lemma GroupedOn(facts: map<Uuid, PaidFact>, d: LocalDate)
    ensures d in GroupByDate(facts) <==> d in Dates(facts)
    ensures d in Dates(facts) ==> GroupByDate(facts)[d] == DayOf(facts, d)
  {
    hide Dates, DayOf;
  }

  lemma AddDayAt(daily: map<LocalDate, Day>, fact: PaidFact, d: LocalDate)
    ensures d in AddDay(daily, fact) <==> d in daily || d == fact.localDate
    ensures d in AddDay(daily, fact) ==>
      AddDay(daily, fact)[d] ==
        if d == fact.localDate then Plus(if d in daily then daily[d] else NO_SALES, Sale(fact)) else daily[d]
  {
  }

  lemma CountedDay(facts: map<Uuid, PaidFact>, id: Uuid, fact: PaidFact, d: LocalDate)
    requires id !in facts
    ensures d in AddDay(GroupByDate(facts), fact) <==> d in Dates(facts) + {fact.localDate}
    ensures d in Dates(facts) + {fact.localDate} ==> AddDay(GroupByDate(facts), fact)[d] == DayOf(facts[id := fact], d)
  {
    GroupedOn(facts, d);
    AddDayAt(GroupByDate(facts), fact, d);
    if d !in Dates(facts) { EmptyDay(facts, d); }
    DayOfOneMore(facts, id, fact, d);
    hide GroupByDate, DayOf, Dates, AddDay, Sale, Plus;
  }

  /** Counting one more fact is grouping one more fact. */
  lemma CountingIsGrouping(facts: map<Uuid, PaidFact>, id: Uuid, fact: PaidFact)
    requires id !in facts
    ensures AddDay(GroupByDate(facts), fact) == GroupByDate(facts[id := fact])
  {
    DatesOfOneMore(facts, id, fact);
    var counted, grouped := AddDay(GroupByDate(facts), fact), GroupByDate(facts[id := fact]);
    hide AddDay, GroupByDate, DayOf, Dates;
    forall d ensures (d in counted <==> d in grouped) && (d in grouped ==> counted[d] == grouped[d]) {
      CountedDay(facts, id, fact, d);
      GroupedOn(facts[id := fact], d);
    }
  }

  // ---------------------------------------------------------------- the aggregate of the distinct events

  function WithEvent(seen: map<Uuid, Incoming>, e: Incoming): map<Uuid, Incoming> {
    if IdOf(e) in seen then seen else seen[IdOf(e) := e]
  }

  /** The distinct events behind a delivery sequence; the first delivery of an id counts. */
  function Seen(events: seq<Incoming>): map<Uuid, Incoming> {
    if events == [] then map[] else WithEvent(Seen(events[..|events| - 1]), events[|events| - 1])
  }

  /** An event id fixes the event. */
  predicate IdFixesContent(events: seq<Incoming>) {
    forall a, b :: a in events && b in events && IdOf(a) == IdOf(b) ==> a == b
  }

  function FactsOf(seen: map<Uuid, Incoming>): map<Uuid, PaidFact> {
    map id | id in seen && IsPaid(seen[id]) :: FactOf(seen[id].event)
  }

  function PaymentsOf(seen: map<Uuid, Incoming>): map<Uuid, PaymentFact> {
    map id | id in seen && seen[id].PaymentEvent? :: PaymentFactOf(seen[id])
  }

  function SearchesOf(seen: map<Uuid, Incoming>): map<Uuid, SearchFact> {
    map id | id in seen && seen[id].SearchEvent? :: SearchFactOf(seen[id])
  }

  /** What the tables should hold once exactly these events have arrived. */
  ghost function Aggregate(seen: map<Uuid, Incoming>): Projection {
    Projection(
      seen.Keys, GroupByDate(FactsOf(seen)), FactsOf(seen), PaymentsOf(seen), SearchesOf(seen))
  }

  /**
   Stored paid facts of an installation that grew up with the schema: some may be missing, and
   stored ones may hold outdated columns, except the booking id; those of `current` are right.
   */
  predicate Refreshable(facts: map<Uuid, PaidFact>, all: map<Uuid, PaidFact>, current: set<Uuid>) {
    && (forall id :: id in facts ==> id in all && facts[id].bookingId == all[id].bookingId)
    && forall id :: id in current ==> id in facts && id in all && facts[id] == all[id]
  }

  /** The tables once these events were counted, except that only the paid facts of `current` are surely right. */
  ghost predicate Partial(s: Projection, seen: map<Uuid, Incoming>, current: set<Uuid>) {
    s == Aggregate(seen).(facts := s.facts) && Refreshable(s.facts, FactsOf(seen), current) && Indexed(seen)
  }

  function PaidId(e: Incoming): set<Uuid> { if IsPaid(e) then {IdOf(e)} else {} }

  predicate Indexed(seen: map<Uuid, Incoming>) { forall id :: id in seen ==> IdOf(seen[id]) == id }

  lemma Refreshed(facts: map<Uuid, PaidFact>, all: map<Uuid, PaidFact>, current: set<Uuid>, id: Uuid, fact: PaidFact)
    requires Refreshable(facts, all, current) && (id in all ==> all[id] == fact)
    ensures Refreshable(UpsertFact(facts, id, fact), all[id := fact], current + {id})
  {
  }

  /** A replay refreshes the stored fact and counts nothing. */
  lemma {:induction false} ReplayRefreshes(s: Projection, seen: map<Uuid, Incoming>, current: set<Uuid>, e: Incoming)
    requires Partial(s, seen, current) && IdOf(e) in seen && seen[IdOf(e)] == e
    ensures Partial(Apply(s, e), seen, current + PaidId(e))
  {
    assert s.processed + {IdOf(e)} == s.processed;
    if IsPaid(e) {
      var fact := FactOf(e.event);
      assert FactsOf(seen)[IdOf(e) := fact] == FactsOf(seen);
      Refreshed(s.facts, FactsOf(seen), current, IdOf(e), fact);
    } else {
      assert current + PaidId(e) == current;
    }
    hide GroupByDate, Labels, VietnamLocalDate, Refreshable, UpsertFact, FactOf, Indexed;
  }

  lemma NewFacts(seen: map<Uuid, Incoming>, e: Incoming)
    requires IdOf(e) !in seen
    ensures FactsOf(seen[IdOf(e) := e]) ==
      if IsPaid(e) then FactsOf(seen)[IdOf(e) := FactOf(e.event)] else FactsOf(seen)
    ensures IdOf(e) !in FactsOf(seen)
  {
    hide FactOf;
  }

  lemma NewPayments(seen: map<Uuid, Incoming>, e: Incoming)
    requires IdOf(e) !in seen
    ensures PaymentsOf(seen[IdOf(e) := e]) ==
      if e.PaymentEvent? then PaymentsOf(seen)[IdOf(e) := PaymentFactOf(e)] else PaymentsOf(seen)
    ensures IdOf(e) !in PaymentsOf(seen)
  {
    hide PaymentFactOf;
  }

  lemma NewSearches(seen: map<Uuid, Incoming>, e: Incoming)
    requires IdOf(e) !in seen
    ensures SearchesOf(seen[IdOf(e) := e]) ==
      if e.SearchEvent? then SearchesOf(seen)[IdOf(e) := SearchFactOf(e)] else SearchesOf(seen)
  {
    hide SearchFactOf;
  }

  lemma {:induction false} AggregateOfPaid(seen: map<Uuid, Incoming>, e: Incoming)
    requires IdOf(e) !in seen && IsPaid(e)
    ensures
      var was, fact := Aggregate(seen), FactOf(e.event);
      Aggregate(seen[IdOf(e) := e]) == was.(
        processed := was.processed + {IdOf(e)}, daily := AddDay(was.daily, fact), facts := was.facts[IdOf(e) := fact])
  {
    NewFacts(seen, e);
    NewPayments(seen, e);
    NewSearches(seen, e);
    CountingIsGrouping(FactsOf(seen), IdOf(e), FactOf(e.event));
    assert seen[IdOf(e) := e].Keys == seen.Keys + {IdOf(e)};
    hide GroupByDate, FactOf, FactsOf, PaymentsOf, SearchesOf, AddDay;
  }

  /** Applying a new paid event, when only the paid facts may be incomplete. */
  lemma AppliedPaid(s: Projection, was: Projection, e: Incoming)
    requires s == was.(facts := s.facts) && IsPaid(e) && IdOf(e) !in s.processed
    ensures
      var after, fact := Apply(s, e), FactOf(e.event);
      && after == was.(processed := was.processed + {IdOf(e)}, daily := AddDay(was.daily, fact), facts := after.facts)
      && after.facts == UpsertFact(s.facts, IdOf(e), fact)
  {
    hide AddDay, FactOf, UpsertFact;
  }

  lemma StillIndexed(seen: map<Uuid, Incoming>, e: Incoming)
    requires Indexed(seen)
    ensures Indexed(seen[IdOf(e) := e])
  {
  }

  lemma {:induction false} NewPaidEvent(s: Projection, seen: map<Uuid, Incoming>, current: set<Uuid>, e: Incoming)
    requires Partial(s, seen, current) && IdOf(e) !in seen && IsPaid(e)
    ensures Partial(Apply(s, e), seen[IdOf(e) := e], current + PaidId(e))
  {
    var was, fact := Aggregate(seen), FactOf(e.event);
    assert was.processed == seen.Keys;
    StillIndexed(seen, e);
    NewFacts(seen, e);
    Refreshed(s.facts, FactsOf(seen), current, IdOf(e), fact);
    AggregateOfPaid(seen, e);
    hide Aggregate, Indexed, FactOf, FactsOf, AddDay, Refreshable, UpsertFact;
    AppliedPaid(s, was, e);
    hide Apply, IdOf, IsPaid;
  }

  lemma NewOtherEvent(s: Projection, seen: map<Uuid, Incoming>, current: set<Uuid>, e: Incoming)
    requires Partial(s, seen, current) && IdOf(e) !in seen && !IsPaid(e)
    ensures Partial(Apply(s, e), seen[IdOf(e) := e], current + PaidId(e))
  {
    NewFacts(seen, e);
    NewPayments(seen, e);
    NewSearches(seen, e);
    StillIndexed(seen, e);
    assert current + PaidId(e) == current;
    hide Indexed, GroupByDate, FactOf, FactsOf, PaymentsOf, SearchesOf, PaymentFactOf, SearchFactOf, Refreshable,
         AddDay, UpsertFact;
  }

  lemma {:induction false} ApplyKeepsPartial(s: Projection, seen: map<Uuid, Incoming>, current: set<Uuid>, e: Incoming)
    requires Partial(s, seen, current) && (IdOf(e) in seen ==> seen[IdOf(e)] == e)
    ensures Partial(Apply(s, e), seen[IdOf(e) := e], current + PaidId(e))
  {
    hide Partial, Apply;
    if IdOf(e) in seen {
      assert seen[IdOf(e) := e] == seen;
      ReplayRefreshes(s, seen, current, e);
    } else if IsPaid(e) {
      NewPaidEvent(s, seen, current, e);
    } else {
      NewOtherEvent(s, seen, current, e);
    }
  }

  lemma {:induction false} SeenIs(events: seq<Incoming>)
    requires IdFixesContent(events)
    ensures forall id :: id in Seen(events) ==> Seen(events)[id] in events && IdOf(Seen(events)[id]) == id
    ensures forall e :: e in events ==> IdOf(e) in Seen(events) && Seen(events)[IdOf(e)] == e
  {
    if events != [] {
      var init := events[..|events| - 1];
      assert events == init + [events[|events| - 1]];
      SeenIs(init);
    }
  }

  lemma {:induction false} DeliversOne(after: Projection, seen: map<Uuid, Incoming>, more: map<Uuid, Incoming>,
                                       e: Incoming)
    requires Partial(after, seen + more, FactsOf(more).Keys)
    requires (IdOf(e) in seen ==> seen[IdOf(e)] == e) && (IdOf(e) in more ==> more[IdOf(e)] == e)
    ensures Partial(Apply(after, e), seen + WithEvent(more, e), FactsOf(WithEvent(more, e)).Keys)
  {
    hide Partial, Apply;
    ApplyKeepsPartial(after, seen + more, FactsOf(more).Keys, e);
    SeenPlus(seen, more, e);
    PaidKeys(more, e);
    hide FactsOf, IdOf, IsPaid, WithEvent;
  }

  /** Delivery keeps every count exact, and makes the paid facts it delivers right. */
  lemma {:induction false} DeliveryKeepsPartial(s: Projection, seen: map<Uuid, Incoming>, events: seq<Incoming>)
    requires Partial(s, seen, {}) && IdFixesContent(events)
    requires forall e :: e in events && IdOf(e) in seen ==> seen[IdOf(e)] == e
    ensures Partial(ApplyAll(s, events), seen + Seen(events), FactsOf(Seen(events)).Keys)
  {
    hide Partial, Apply, WithEvent;
    if events == [] {
      assert seen + map[] == seen && FactsOf(map[]).Keys == {};
    } else {
      var init, last := events[..|events| - 1], events[|events| - 1];
      assert events == init + [last];
      DeliveryKeepsPartial(s, seen, init);
      SeenIs(init);
      DeliversOne(ApplyAll(s, init), seen, Seen(init), last);
      hide FactsOf;
    }
  }

  lemma SeenPlus(seen: map<Uuid, Incoming>, more: map<Uuid, Incoming>, e: Incoming)
    requires IdOf(e) in more ==> more[IdOf(e)] == e
    ensures (seen + more)[IdOf(e) := e] == seen + WithEvent(more, e)
  {
  }

  lemma PaidKeys(seen: map<Uuid, Incoming>, e: Incoming)
    requires IdOf(e) in seen ==> seen[IdOf(e)] == e
    ensures FactsOf(WithEvent(seen, e)).Keys == FactsOf(seen).Keys + PaidId(e)
  {
    if IdOf(e) !in seen { NewFacts(seen, e); }
    hide FactOf;
  }

  // ---------------------------------------------------------------- theorems

  /**
   Whatever was delivered, in whatever order and however often, the tables are the aggregate of
   the distinct events: in particular the incremental daily revenue is the paid facts grouped
   by date.
   */
  lemma ProjectionIsAggregate(events: seq<Incoming>)
    requires IdFixesContent(events)
    ensures ApplyAll(BLANK, events) == Aggregate(Seen(events))
    ensures ApplyAll(BLANK, events).daily == GroupByDate(ApplyAll(BLANK, events).facts)
  {
    assert FactsOf(map[]) == map[] && GroupByDate(map[]) == map[];
    assert Partial(BLANK, map[], {});
    DeliveryKeepsPartial(BLANK, map[], events);
    assert map[] + Seen(events) == Seen(events);
    hide Apply, ApplyAll, Seen, FactsOf, GroupByDate;
    WhollyRefreshed(ApplyAll(BLANK, events), Seen(events), FactsOf(Seen(events)).Keys);
  }

  lemma WhollyRefreshed(s: Projection, seen: map<Uuid, Incoming>, current: set<Uuid>)
    requires Partial(s, seen, current) && FactsOf(seen).Keys <= current
    ensures s == Aggregate(seen)
  {
    hide FactsOf, GroupByDate;
    assert s.facts == FactsOf(seen);
  }

  /** Two delivery sequences with the same distinct events leave the same tables. */
  lemma OnlyTheSetOfEventsMatters(a: seq<Incoming>, b: seq<Incoming>)
    requires IdFixesContent(a) && forall e :: e in a <==> e in b
    ensures ApplyAll(BLANK, a) == ApplyAll(BLANK, b)
  {
    ProjectionIsAggregate(a);
    ProjectionIsAggregate(b);
    SeenIs(a);
    SeenIs(b);
    assert Seen(a) == Seen(b);
  }

  /**
   Replaying every paid event repairs an installation whose paid facts are partly missing or still
   hold the columns' defaults, without counting anything twice.
   */
  lemma {:induction false} ReplayRepairs(s: Projection, seen: map<Uuid, Incoming>, events: seq<Incoming>)
    requires Partial(s, seen, {}) && IdFixesContent(events)
    requires forall e :: e in events && IdOf(e) in seen ==> seen[IdOf(e)] == e
    requires forall id :: id in seen && IsPaid(seen[id]) ==> seen[id] in events
    ensures ApplyAll(s, events) == Aggregate(seen + Seen(events))
  {
    DeliveryKeepsPartial(s, seen, events);
    SeenIs(events);
    assert Indexed(seen);
    SamePaid(seen, Seen(events));
    hide Apply, ApplyAll, Seen, Partial, Aggregate, FactsOf;
    WhollyRefreshed(ApplyAll(s, events), seen + Seen(events), FactsOf(Seen(events)).Keys);
  }

  lemma SamePaid(seen: map<Uuid, Incoming>, replayed: map<Uuid, Incoming>)
    requires forall id :: id in seen && IsPaid(seen[id]) ==> id in replayed
    ensures FactsOf(seen + replayed).Keys <= FactsOf(replayed).Keys
  {
    hide FactOf;
  }

  // ---------------------------------------------------------------- what each fact says

  /** The local day of an instant, from one midnight at UTC+7 to the next. */
  predicate OnLocalDay(at: int, d: LocalDate) { d * 86400000 <= at + 7 * 3600000 < (d + 1) * 86400000 }

  /** The caption of the first match of a route. */
  predicate FirstCaption(routes: seq<RouteMatch>, routeId: Uuid, caption: string) {
    exists i :: 0 <= i < |routes| && routes[i] == RouteMatch(routeId, caption)
      && forall j :: 0 <= j < i ==> routes[j].routeId != routeId
  }

  lemma {:induction false} LabelsAre(routes: seq<RouteMatch>, routeId: Uuid)
    ensures routeId in Labels(routes) <==> exists m :: m in routes && m.routeId == routeId
    ensures routeId in Labels(routes) ==> FirstCaption(routes, routeId, Labels(routes)[routeId])
  {
    if routes != [] {
      var init, last := routes[..|routes| - 1], routes[|routes| - 1];
      LabelsAre(init, routeId);
      assert routes == init + [last];
      if routeId in Labels(init) {
        var i :| 0 <= i < |init| && init[i] == RouteMatch(routeId, Labels(init)[routeId])
          && forall j :: 0 <= j < i ==> init[j].routeId != routeId;
        assert routes[i] == init[i];
      } else if last.routeId == routeId {
        assert routes[|init|] == RouteMatch(routeId, last.caption);
      }
    }
  }

  /**
   After any deliveries each distinct event has left what it says, and nothing else is stored: a paid
   booking its route, passengers and price on the local day it was paid, a payment its outcome and
   amount, a search its result count and the first caption of every route it matched.
   */
  lemma FactsTellTheirEvents(events: seq<Incoming>, e: Incoming)
    requires IdFixesContent(events) && e in events
    ensures
      var s, id := ApplyAll(BLANK, events), IdOf(e);
      && id in s.processed
      && (id in s.facts <==> e.BookingEvent? && e.event.eventType == BookingPaidV1)
      && (id in s.facts ==>
            var f, p := s.facts[id], e.event.payload;
            && OnLocalDay(e.event.occurredAt, f.localDate) && f.bookingId == p.bookingId && f.routeId == p.routeId
            && f.routeCode == p.routeCode && f.tickets == p.passengerCount && f.revenueVnd == p.totalPriceVnd)
      && (id in s.payments <==> e.PaymentEvent?)
      && (id in s.payments ==>
            var f := s.payments[id];
            && OnLocalDay(e.occurredAt, f.localDate) && f.attemptId == e.attemptId && f.bookingId == e.bookingId
            && f.succeeded == e.succeeded && f.amountVnd == e.amountVnd)
      && (id in s.searches <==> e.SearchEvent?)
      && (id in s.searches ==>
            var f := s.searches[id];
            && OnLocalDay(e.occurredAt, f.localDate) && f.sessionId == e.sessionId && f.resultCount == e.resultCount
            && (forall r :: r in f.routes <==> exists m :: m in e.matchedRoutes && m.routeId == r)
            && (forall r :: r in f.routes ==> FirstCaption(e.matchedRoutes, r, f.routes[r])))
  {
    ProjectionIsAggregate(events);
    SeenIs(events);
    hide ApplyAll, Seen, GroupByDate;
    match e
    case BookingEvent(event) => LocalMidnight(event.occurredAt, VietnamLocalDate(event.occurredAt));
    case PaymentEvent(_, at, _, _, _, _) => LocalMidnight(at, VietnamLocalDate(at));
    case SearchEvent(_, at, _, _, matchedRoutes) =>
      LocalMidnight(at, VietnamLocalDate(at));
      forall r ensures r in Labels(matchedRoutes) <==> exists m :: m in matchedRoutes && m.routeId == r {
        LabelsAre(matchedRoutes, r);
      }
      forall r | r in Labels(matchedRoutes) ensures FirstCaption(matchedRoutes, r, Labels(matchedRoutes)[r]) {
        LabelsAre(matchedRoutes, r);
      }
  }

  /** Every stored row comes from a delivered event. */
  lemma StoredCameFromEvents(events: seq<Incoming>, id: Uuid)
    requires IdFixesContent(events)
    ensures
      var s := ApplyAll(BLANK, events);
      id in s.processed || id in s.facts || id in s.payments || id in s.searches ==>
        exists e :: e in events && IdOf(e) == id
  {
    ProjectionIsAggregate(events);
    SeenIs(events);
    hide ApplyAll, Seen, GroupByDate;
  }
}
