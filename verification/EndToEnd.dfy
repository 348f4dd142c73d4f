/** What ties the services together: the booking tables, the event log, the worker and the analytics. */
module EndToEnd {
  import opened Prelude
  import opened Bookings
  import opened BookingLifecycle
  import opened BookingInvariants
  import opened BookingTheorems
  import opened BookingAccounts
  import opened BookingRecords
  import opened Analytics
  import opened AnalyticsReports
  import Relay = OutboxRelay
  import Rabbit = RabbitPipeline

  // ---------------------------------------------------------------- revenue

  /** The paid facts an event log amounts to. */
  function LoggedFacts(log: seq<Event>): map<Uuid, PaidFact> {
    if log == [] then map[]
    else
      var before, last := LoggedFacts(log[..|log| - 1]), log[|log| - 1];
      if last.eventType == BookingPaidV1 then before[last.eventId := FactOf(last)] else before
  }

  function Everything(): PaidFact -> bool { (f: PaidFact) => true }

  lemma {:induction false} LoggedIds(log: seq<Event>)
    requires Distinct(Map(log, IdOfEvent))
    ensures forall id :: id in LoggedFacts(log) <==>
      exists e :: e in log && e.eventId == id && e.eventType == BookingPaidV1
    ensures forall e :: e in log && e.eventType == BookingPaidV1 ==> LoggedFacts(log)[e.eventId] == FactOf(e)
  {
    if log != [] {
      var init, last := log[..|log| - 1], log[|log| - 1];
      assert log == init + [last];
      DistinctFront(log);
      LoggedIds(init);
      hide FactOf;
    }
  }

  lemma {:induction false} LoggedRevenue(log: seq<Event>)
    requires Distinct(Map(log, IdOfEvent))
    ensures Sum(LoggedFacts(log), Everything(), RevenueOfFact) == SumBy(log, PaidAmount(None))
  {
    if log == [] {
      NoFacts(Everything(), RevenueOfFact);
    } else {
      var init, last := log[..|log| - 1], log[|log| - 1];
      DistinctFront(log);
      LoggedRevenue(init);
      LoggedIds(init);
      hide Sum, FactOf;
      if last.eventType == BookingPaidV1 {
        assert last.eventId !in LoggedFacts(init);
        SumOfOneMore(LoggedFacts(init), last.eventId, FactOf(last), Everything(), RevenueOfFact);
      }
      assert RevenueOfFact(FactOf(last)) == last.payload.totalPriceVnd by { FactRevenue(last); }
    }
  }

  lemma FactRevenue(e: Event)
    ensures RevenueOfFact(FactOf(e)) == e.payload.totalPriceVnd
  {
  }

  lemma DistinctFront(log: seq<Event>)
    requires log != [] && Distinct(Map(log, IdOfEvent))
    ensures Distinct(Map(log[..|log| - 1], IdOfEvent))
    ensures forall e :: e in log[..|log| - 1] ==> e.eventId != log[|log| - 1].eventId
  {
    var init, last := log[..|log| - 1], log[|log| - 1];
    forall i, j | 0 <= i < j < |init| ensures init[i].eventId != init[j].eventId {
      assert Map(log, IdOfEvent)[i] != Map(log, IdOfEvent)[j];
    }
    forall e | e in init ensures e.eventId != last.eventId {
      var i :| 0 <= i < |init| && init[i] == e;
      assert Map(log, IdOfEvent)[i] != Map(log, IdOfEvent)[|init|];
    }
  }

  /** The deliveries analytics received carry every paid booking event of the log, and no other. */
  ghost predicate Delivers(feed: seq<Incoming>, log: seq<Event>) {
    forall e: Event :: e.eventType == BookingPaidV1 ==> (BookingEvent(e) in feed <==> e in log)
  }

  lemma FeedHoldsTheLog(feed: seq<Incoming>, log: seq<Event>)
    requires IdFixesContent(feed) && Delivers(feed, log) && Distinct(Map(log, IdOfEvent))
    ensures FactsOf(Seen(feed)) == LoggedFacts(log)
  {
    SeenIs(feed);
    LoggedIds(log);
    var a, b := FactsOf(Seen(feed)), LoggedFacts(log);
    forall id | id in a ensures id in b && b[id] == a[id] {
      assert Seen(feed)[id] == BookingEvent(Seen(feed)[id].event);
    }
    forall id | id in b ensures id in a {
      var e :| e in log && e.eventId == id && e.eventType == BookingPaidV1;
      assert BookingEvent(e) in feed;
    }
  }

  predicate CoversAll(s: Projection, from: LocalDate, to: LocalDate) {
    forall d :: d in s.daily ==> from <= d <= to
  }

  lemma AllDays(s: Projection, from: LocalDate, to: LocalDate)
    requires s.daily == GroupByDate(s.facts) && CoversAll(s, from, to)
    ensures RevenueSummary(s, from, to) == Sum(s.facts, Everything(), RevenueOfFact)
  {
    hide Sum;
    DaysAddUp(s, from, to, REVENUE);
    forall id | id in s.facts ensures InRange(from, to)(s.facts[id]) {
      assert s.facts[id].localDate in Dates(s.facts);
      assert s.facts[id].localDate in s.daily;
    }
    KeepsAll(s.facts, InRange(from, to));
  }

  lemma KeepsAll(facts: map<Uuid, PaidFact>, keep: PaidFact -> bool)
    requires forall id :: id in facts ==> keep(facts[id])
    ensures Sum(facts, keep, RevenueOfFact) == Sum(facts, Everything(), RevenueOfFact)
  {
    assert Values(facts, keep, RevenueOfFact) == Values(facts, Everything(), RevenueOfFact);
  }

  /**
   Money is conserved across services. Once every paid event has been applied, in any order
   and any number of times, the analytics revenue is what the booking log says was paid, and
   the administration report is that less what was cancelled: analytics never subtracts.
   */
  lemma RevenueAcrossServices(steps: seq<Step>, feed: seq<Incoming>, from: LocalDate, to: LocalDate)
    requires IdFixesContent(feed) && Delivers(feed, EventsOf(Run(EMPTY_DB, steps).outbox))
    requires CoversAll(ApplyAll(BLANK, feed), from, to)
    ensures
      var db := Run(EMPTY_DB, steps);
      var log, analytics := EventsOf(db.outbox), RevenueSummary(ApplyAll(BLANK, feed), from, to);
      && analytics == SumBy(log, PaidAmount(None))
      && AdminRevenue(db, None) == analytics - SumBy(log, CancelledAmount(None))
  {
    var db, s := Run(EMPTY_DB, steps), ApplyAll(BLANK, feed);
    var log := EventsOf(db.outbox);
    EventIdsNeverRepeat(steps);
    RevenueIsConserved(steps, None);
    ProjectionIsAggregate(feed);
    FeedHoldsTheLog(feed, log);
    LoggedRevenue(log);
    hide ApplyAll, Run, GroupByDate;
    AllDays(s, from, to);
  }

  // ---------------------------------------------------------------- fulfilment

  function ContentOf(row: Relay.Row<OutboxRow>): OutboxRow { row.content }

  /**
   Every booking that was ever paid is accounted for on its way to fulfilment: its BookingPaid
   outbox row exists, and is pending, or dead-lettered, or the event is in the inbox, in a
   queue, or unacked.
   */
  lemma {:induction false} PaidBookingsAreAccountedFor(steps: seq<Step>, id: Uuid, start: int,
                                                       happenings: seq<Rabbit.Happening>,
                                                       c: Relay.Config, maxAttempts: nat)
    requires c.maxAttempts > 0 && maxAttempts > 0
    requires id in Run(EMPTY_DB, steps).bookings && EverPaid(Run(EMPTY_DB, steps).bookings[id].status)
    requires Map(Rabbit.Run(Rabbit.Idle(start), happenings, c, maxAttempts).outbox.rows, ContentOf) ==
      Run(EMPTY_DB, steps).outbox
    ensures
      var p := Rabbit.Run(Rabbit.Idle(start), happenings, c, maxAttempts);
      exists i :: 0 <= i < |p.outbox.rows| &&
        var row := p.outbox.rows[i];
        && row.content.event.aggregateId == id && row.content.event.eventType == BookingPaidV1
        && row.content.target.destination == RABBITMQ
        && (Relay.Live(row) || row.deadLettered || Rabbit.Safe(p, row.content.event.eventId))
  {
    var o := PaidRow(steps, id);
    hide Rabbit.Run, Run, Rabbit.Safe, EverPaid;
    var db, p := Run(EMPTY_DB, steps), Rabbit.Run(Rabbit.Idle(start), happenings, c, maxAttempts);
    var i :| 0 <= i < |db.outbox| && db.outbox[i] == o;
    assert Map(p.outbox.rows, ContentOf)[i] == o;
    Rabbit.NoPaidEventIsLost(start, happenings, i, c, maxAttempts);
  }

  lemma PaidRow(steps: seq<Step>, id: Uuid) returns (o: OutboxRow)
    requires id in Run(EMPTY_DB, steps).bookings && EverPaid(Run(EMPTY_DB, steps).bookings[id].status)
    ensures o in Run(EMPTY_DB, steps).outbox && Rabbit.Routed(o)
    ensures o.event.aggregateId == id && o.event.eventType == BookingPaidV1
  {
    var db := Run(EMPTY_DB, steps);
    StatusTellsHistoryAndOutbox(steps, id);
    hide Run, Edge, HasTypes, EventTypes, BookingPayload;
    var events := EventsOf(RowsOf(db, id).outbox);
    o := PaidDelivery(events, db.bookings[id].status);
    FilterMember(db.outbox, o, OutboxOf(id));
  }

  /** The RabbitMQ row of the BookingPaid event among one booking's deliveries. */
  lemma PaidDelivery(events: seq<Event>, status: Status) returns (o: OutboxRow)
    requires HasTypes(events, EventTypes(status)) && EverPaid(status)
    ensures o in Deliveries(events) && Rabbit.Routed(o) && o.event.eventType == BookingPaidV1
  {
    var e := events[1];
    o := OutboxRow(DeliveryTargets(e)[0], e);
    DeliveriesOf(events, e, o);
  }
}
