/** What every event and every history row says, field by field, against the tables it was written beside. */
module BookingRecords {
  import opened Prelude
  import opened Bookings
  import opened BookingLifecycle
  import opened BookingInvariants
  import opened BookingTheorems
  import opened BookingAccounts

  // ---------------------------------------------------------------- who and when

  /** The event's instant is the one the booking keeps for it; a payment event names the paying attempt. */
  predicate EventTells(b: Booking, e: Event) {
    match e.eventType
    case BookingCreatedV1 => e.occurredAt == b.facts.createdAt && e.paymentAttemptId == None
    case BookingPaidV1 =>
      b.paidAt == Some(e.occurredAt) && b.paidAttemptId.Some? && e.paymentAttemptId == b.paidAttemptId
    case BookingExpiredV1 => b.expiredAt == Some(e.occurredAt) && e.paymentAttemptId == None
    case BookingCancelledV1 => b.cancelledAt == Some(e.occurredAt) && e.paymentAttemptId == None
  }

  /** Who moved the booking there, and when: its owner, the platform, or whoever checked a passenger in. */
  predicate HistoryTells(b: Booking, checkIns: seq<CheckIn>, h: HistoryRow) {
    var owner := b.facts.owner;
    match h.to
    case PENDING_PAYMENT => h.actor == Actor(OwnerRole(owner.kind), owner.id) && h.occurredAt == b.facts.createdAt
    case PAID => h.actor == Actor(OwnerRole(owner.kind), owner.id) && b.paidAt == Some(h.occurredAt)
    case EXPIRED => b.expiredAt == Some(h.occurredAt)
    case TICKET_ISSUED => h.actor.role == SYSTEM
    case CHECKED_IN =>
      exists c :: c in checkIns && c.bookingId == b.facts.id && c.actor == h.actor && c.at == h.occurredAt
    case CANCELLED => h.actor == Actor(OwnerRole(CUSTOMER), owner.id) && b.cancelledAt == Some(h.occurredAt)
    case _ => false
  }

  predicate EventStamped(db: Db, e: Event) {
    e.aggregateId in db.bookings && EventTells(db.bookings[e.aggregateId], e)
  }

  predicate HistoryStamped(db: Db, h: HistoryRow) {
    h.bookingId in db.bookings && HistoryTells(db.bookings[h.bookingId], db.checkIns, h)
  }

  predicate Stamped(db: Db) {
    && (forall o :: o in db.outbox ==> EventStamped(db, o.event))
    && forall h :: h in db.history ==> HistoryStamped(db, h)
  }

  /** Facts and instants, once written, stay. */
  predicate Grown(was: Booking, row: Booking) {
    && row.facts == was.facts
    && (was.paidAt.Some? ==> row.paidAt == was.paidAt)
    && (was.paidAttemptId.Some? ==> row.paidAttemptId == was.paidAttemptId)
    && (was.expiredAt.Some? ==> row.expiredAt == was.expiredAt)
    && (was.cancelledAt.Some? ==> row.cancelledAt == was.cancelledAt)
  }

  predicate GrownFrom(db: Db, after: Db, id: Uuid) {
    id in db.bookings ==> id in after.bookings && Grown(db.bookings[id], after.bookings[id])
  }

  lemma StillStamped(db: Db, after: Db, events: seq<OutboxRow>, history: seq<HistoryRow>)
    requires Stamped(db)
    requires after.outbox == db.outbox + events && after.history == db.history + history
    requires forall id {:trigger GrownFrom(db, after, id)} :: GrownFrom(db, after, id)
    requires forall c :: c in db.checkIns ==> c in after.checkIns
    requires forall o :: o in events ==> EventStamped(after, o.event)
    requires forall h :: h in history ==> HistoryStamped(after, h)
    ensures Stamped(after)
  {
    hide Grown;
    forall o | o in after.outbox ensures EventStamped(after, o.event) {
      if o in db.outbox {
        assert EventStamped(db, o.event) && GrownFrom(db, after, o.event.aggregateId);
        EventStays(db, after, o.event);
      }
    }
    forall h | h in after.history ensures HistoryStamped(after, h) {
      if h in db.history {
        assert HistoryStamped(db, h) && GrownFrom(db, after, h.bookingId);
        HistoryStays(db, after, h);
      }
    }
  }

  lemma EventStays(db: Db, after: Db, e: Event)
    requires EventStamped(db, e) && GrownFrom(db, after, e.aggregateId)
    ensures EventStamped(after, e)
  {
  }

  lemma HistoryStays(db: Db, after: Db, h: HistoryRow)
    requires HistoryStamped(db, h) && GrownFrom(db, after, h.bookingId)
    requires forall c :: c in db.checkIns ==> c in after.checkIns
    ensures HistoryStamped(after, h)
  {
  }

  lemma CreateStamps(db: Db, input: PersistInput, event: Event)
    requires Stamped(db) && CreatesBooking(db, input, event)
    ensures Stamped(CreateOrReplay(db, input, event).db)
  {
    var after := CreateOrReplay(db, input, event).db;
    if after != db {
      EnqueueFresh(db.outbox, event);
      var facts := input.facts;
      var entry := HistoryRow(facts.id, None, PENDING_PAYMENT, OwnerActor(facts.owner), facts.createdAt);
      hide EnqueueBookingEvent, InsertPassengers, Stamped, SeatsIn;
      StillStamped(db, after, DeliveryRows(event), [entry]);
    }
  }

  /** What each move writes goes with the row it writes it for. */
  predicate Tells(was: Booking, row: Booking, checkIns: seq<CheckIn>, entry: HistoryRow, event: Event) {
    Grown(was, row) && EventTells(row, event) && entry.to != CHECKED_IN && HistoryTells(row, checkIns, entry)
  }

  /** What pay, expire and cancel write is stamped with the instant they store. */
  lemma MoveStamps(db: Db, row: Booking, entry: HistoryRow, event: Event, audit: seq<Audit>)
    requires Stamped(db) && FreshEvent(db, event.eventId) && entry.bookingId in db.bookings
    requires event.aggregateId == entry.bookingId
    requires Tells(db.bookings[entry.bookingId], row, db.checkIns, entry, event)
    ensures Stamped(Move(db, row, entry, event, audit))
  {
    EnqueueFresh(db.outbox, event);
    hide EnqueueBookingEvent, Stamped, Grown, EventTells, HistoryTells, FreshEvent;
    var after := Move(db, row, entry, event, audit);
    forall id ensures GrownFrom(db, after, id) {
      if id in db.bookings && id != entry.bookingId { Same(db.bookings[id]); }
    }
    StillStamped(db, after, DeliveryRows(event), [entry]);
  }

  lemma Same(b: Booking)
    ensures Grown(b, b)
  {
  }

  /** A row of one booking rewritten, with at most one history row. */
  lemma QuietStamps(db: Db, after: Db, id: Uuid, row: Booking, history: seq<HistoryRow>)
    requires Stamped(db) && id in db.bookings && after.bookings == db.bookings[id := row]
    requires Grown(db.bookings[id], row)
    requires after.outbox == db.outbox && after.history == db.history + history
    requires forall c :: c in db.checkIns ==> c in after.checkIns
    requires forall h :: h in history ==> h.bookingId == id && HistoryTells(row, after.checkIns, h)
    ensures Stamped(after)
  {
    hide Stamped, Grown, HistoryTells;
    AppendNothing(db.outbox);
    forall other ensures GrownFrom(db, after, other) {
      if other in db.bookings && other != id { Same(db.bookings[other]); }
    }
    StillStamped(db, after, [], history);
  }

  /** The moves of the three commands, once their guards hold. */
  lemma PaysByMove(db: Db, step: Step)
    requires step.Pay? && Next(db, step) != db && step.id in db.bookings
    ensures
      var row := db.bookings[step.id].(
        status := PAID, paidAttemptId := Some(step.attemptId), paymentKey := Some(step.key), paidAt := Some(step.at));
      var entry := HistoryRow(step.id, Some(PENDING_PAYMENT), PAID, OwnerActor(step.owner), step.at);
      var audit := [Audit(BOOKING_PAID, step.id, step.event.payload.tripId, OwnerActor(step.owner), step.at)];
      && Next(db, step) == Move(db, row, entry, step.event, audit) && db.bookings[step.id].status == PENDING_PAYMENT
      && step.owner == row.facts.owner
      && Dispatches(db, step.id, BookingPaidV1, step.at, Some(step.attemptId), step.event)
  {
    hide Move, Dispatches;
  }

  lemma ExpiresByMove(db: Db, step: Step)
    requires step.Expire? && Next(db, step) != db && step.id in db.bookings
    ensures
      var row := db.bookings[step.id].(status := EXPIRED, expiredAt := Some(step.at));
      var entry := HistoryRow(step.id, Some(PENDING_PAYMENT), EXPIRED, step.actor, step.at);
      && Next(db, step) == Move(db, row, entry, step.event, []) && db.bookings[step.id].status == PENDING_PAYMENT
      && Dispatches(db, step.id, BookingExpiredV1, step.at, None, step.event)
  {
    hide Move, Dispatches;
  }

  lemma CancelsByMove(db: Db, step: Step)
    requires step.Cancel? && Next(db, step) != db && step.id in db.bookings
    ensures
      var was, customer := db.bookings[step.id], Actor(OwnerRole(CUSTOMER), step.owner.id);
      var row := was.(status := CANCELLED, cancelledAt := Some(step.at), cancellationKey := Some(step.key));
      var audit := [Audit(BOOKING_CANCELLED, step.id, step.event.payload.tripId, OwnerActor(step.owner), step.at)];
      && Next(db, step) == Move(db, row, HistoryRow(step.id, Some(was.status), CANCELLED, customer, step.at),
                                step.event, audit)
      && was.status in {PAID, TICKET_ISSUED} && step.owner == was.facts.owner
      && Dispatches(db, step.id, BookingCancelledV1, step.at, None, step.event)
  {
    hide Move, Dispatches;
  }

  /** An event from a booking's snapshot, for that booking. */
  lemma DispatchTells(db: Db, id: Uuid, eventType: EventType, at: int, attemptId: Option<Uuid>, event: Event)
    requires Dispatches(db, id, eventType, at, attemptId, event) && OkFor(db, id)
    ensures event.aggregateId == id && event.eventType == eventType && event.occurredAt == at
    ensures event.paymentAttemptId == attemptId && FreshEvent(db, event.eventId) && Columns(db.bookings[id])
  {
    ColumnsHold(db, id);
    hide BookingPayload, BookingOk, FreshEvent, Columns;
  }

  lemma PayTells(was: Booking, checkIns: seq<CheckIn>, id: Uuid, attemptId: Uuid, key: string, at: int, event: Event)
    requires Columns(was) && was.status == PENDING_PAYMENT
    requires event.eventType == BookingPaidV1 && event.occurredAt == at && event.paymentAttemptId == Some(attemptId)
    ensures
      var row := was.(status := PAID, paidAttemptId := Some(attemptId), paymentKey := Some(key), paidAt := Some(at));
      Tells(was, row, checkIns, HistoryRow(id, Some(PENDING_PAYMENT), PAID, OwnerActor(was.facts.owner), at), event)
  {
  }

  lemma ExpireTells(was: Booking, checkIns: seq<CheckIn>, id: Uuid, actor: Actor, at: int, event: Event)
    requires Columns(was) && was.status == PENDING_PAYMENT
    requires event.eventType == BookingExpiredV1 && event.occurredAt == at && event.paymentAttemptId == None
    ensures
      var row := was.(status := EXPIRED, expiredAt := Some(at));
      Tells(was, row, checkIns, HistoryRow(id, Some(PENDING_PAYMENT), EXPIRED, actor, at), event)
  {
  }

  lemma CancelTells(was: Booking, checkIns: seq<CheckIn>, id: Uuid, key: string, at: int, event: Event)
    requires Columns(was) && was.status in {PAID, TICKET_ISSUED}
    requires event.eventType == BookingCancelledV1 && event.occurredAt == at && event.paymentAttemptId == None
    ensures
      var row := was.(status := CANCELLED, cancelledAt := Some(at), cancellationKey := Some(key));
      var customer := Actor(OwnerRole(CUSTOMER), was.facts.owner.id);
      Tells(was, row, checkIns, HistoryRow(id, Some(was.status), CANCELLED, customer, at), event)
  {
  }

  lemma PayStamps(db: Db, step: Step)
    requires Stamped(db) && step.Pay? && OkFor(db, step.id) && Next(db, step) != db && step.id in db.bookings
    ensures Stamped(Next(db, step))
  {
    PaysByMove(db, step);
    DispatchTells(db, step.id, BookingPaidV1, step.at, Some(step.attemptId), step.event);
    hide Next, Move, Dispatches, OkFor, Stamped, FreshEvent, Columns, Tells, OwnerActor;
    var was := db.bookings[step.id];
    var row := was.(
      status := PAID, paidAttemptId := Some(step.attemptId), paymentKey := Some(step.key), paidAt := Some(step.at));
    PayTells(was, db.checkIns, step.id, step.attemptId, step.key, step.at, step.event);
    MoveStamps(db, row, HistoryRow(step.id, Some(PENDING_PAYMENT), PAID, OwnerActor(step.owner), step.at), step.event,
               [Audit(BOOKING_PAID, step.id, step.event.payload.tripId, OwnerActor(step.owner), step.at)]);
  }

  lemma ExpireStamps(db: Db, step: Step)
    requires Stamped(db) && step.Expire? && OkFor(db, step.id) && Next(db, step) != db && step.id in db.bookings
    ensures Stamped(Next(db, step))
  {
    ExpiresByMove(db, step);
    DispatchTells(db, step.id, BookingExpiredV1, step.at, None, step.event);
    hide Next, Move, Dispatches, OkFor, Stamped, FreshEvent, Columns, Tells;
    var row := db.bookings[step.id].(status := EXPIRED, expiredAt := Some(step.at));
    ExpireTells(db.bookings[step.id], db.checkIns, step.id, step.actor, step.at, step.event);
    MoveStamps(db, row, HistoryRow(step.id, Some(PENDING_PAYMENT), EXPIRED, step.actor, step.at), step.event, []);
  }

  lemma CancelStamps(db: Db, step: Step)
    requires Stamped(db) && step.Cancel? && OkFor(db, step.id) && Next(db, step) != db && step.id in db.bookings
    ensures Stamped(Next(db, step))
  {
    CancelsByMove(db, step);
    DispatchTells(db, step.id, BookingCancelledV1, step.at, None, step.event);
    hide Next, Move, Dispatches, OkFor, Stamped, FreshEvent, Columns, Tells, OwnerActor;
    var was, customer := db.bookings[step.id], Actor(OwnerRole(CUSTOMER), step.owner.id);
    var row := was.(status := CANCELLED, cancelledAt := Some(step.at), cancellationKey := Some(step.key));
    CancelTells(was, db.checkIns, step.id, step.key, step.at, step.event);
    MoveStamps(db, row, HistoryRow(step.id, Some(was.status), CANCELLED, customer, step.at), step.event,
               [Audit(BOOKING_CANCELLED, step.id, step.event.payload.tripId, OwnerActor(step.owner), step.at)]);
  }

  lemma IssueStamps(db: Db, step: Step)
    requires Stamped(db) && step.Issue?
    ensures Stamped(Next(db, step))
  {
    hide MatchesPassengers, InsertTickets, SameTicketReferences, Stamped;
    var after := Next(db, step);
    if after.history != db.history {
      var row := db.bookings[step.id].(status := TICKET_ISSUED);
      QuietStamps(db, after, step.id, row, [IssueEntry(step.id, step.at, step.actorId)]);
    } else if step.id in db.bookings {
      assert db.bookings[step.id := db.bookings[step.id]] == db.bookings;
      AppendNothing(db.history);
      QuietStamps(db, after, step.id, db.bookings[step.id], []);
    }
  }

  lemma {:induction false} AdmitStamps(db: Db, step: Step)
    requires Stamped(db) && step.Admit? && forall id {:trigger OkFor(db, id)} :: OkFor(db, id)
    ensures Stamped(Next(db, step))
  {
    hide OkFor, Stamped, HasCredential, CheckInByKey, Filter, CheckedInAt;
    var command, after := step.command, Next(db, step);
    if after != db {
      var ref := Filter(db.tickets, HasCredential(command.kind, command.credential))[0];
      var id := ref.bookingId;
      var c := CheckIn(ref.ticket.ticketId, id, ref.ticket.passengerId, command.key, command.actor, command.at);
      var was := db.bookings[id];
      assert db.bookings[id := was] == db.bookings;
      assert OkFor(db, id);
      assert was.facts.id == id by { RowId(db, id); }
      assert after.checkIns == db.checkIns + [c] && c in after.checkIns;
      AppendNothing(db.history);
      if was.status == CHECKED_IN {
        QuietStamps(db, after, id, was, []);
      } else {
        QuietStamps(db, after, id, was.(status := CHECKED_IN), [AdmitEntry(id, command)]);
      }
    }
  }

  lemma RowId(db: Db, id: Uuid)
    requires OkFor(db, id) && id in db.bookings
    ensures db.bookings[id].facts.id == id
  {
  }

  lemma ReleaseStamps(db: Db, step: Step)
    requires Stamped(db) && step.SeatsReleased?
    ensures Stamped(Next(db, step))
  {
    hide Stamped;
    var after := Next(db, step);
    if after != db {
      AppendNothing(db.history);
      QuietStamps(db, after, step.id, after.bookings[step.id], []);
    }
  }

  lemma NoBookingNoMove(db: Db, step: Step)
    requires (step.Pay? || step.Expire? || step.Cancel?) && Next(db, step) != db
    ensures step.id in db.bookings
  {
  }

  lemma {:induction false} RunStamps(steps: seq<Step>)
    ensures Stamped(Run(EMPTY_DB, steps))
  {
    if steps != [] {
      var db, step := Run(EMPTY_DB, steps[..|steps| - 1]), steps[|steps| - 1];
      RunStamps(steps[..|steps| - 1]);
      RunKeeps(steps[..|steps| - 1]);
      hide Stamped, OkFor, Run;
      assert OkFor(db, TargetOf(step));
      match step
      case Create(input, event) =>
        if CreatesBooking(db, input, event) { CreateStamps(db, input, event); }
      case Pay(_, _, _, _, _, _) => if Next(db, step) != db { NoBookingNoMove(db, step); PayStamps(db, step); }
      case Expire(_, _, _, _, _) => if Next(db, step) != db { NoBookingNoMove(db, step); ExpireStamps(db, step); }
      case Issue(_, _, _, _) => IssueStamps(db, step);
      case Admit(_) => AdmitStamps(db, step);
      case Cancel(_, _, _, _, _) => if Next(db, step) != db { NoBookingNoMove(db, step); CancelStamps(db, step); }
      case SeatsReleased(_, _, _) => ReleaseStamps(db, step);
    }
  }

  /** In every reachable state each history row names who moved its booking, and the instant kept for that move. */
  lemma HistoryNamesWhoAndWhen(steps: seq<Step>, h: HistoryRow)
    requires h in Run(EMPTY_DB, steps).history
    ensures
      var db := Run(EMPTY_DB, steps);
      && h.bookingId in db.bookings
      && var b := db.bookings[h.bookingId];
         var customer := Actor(OwnerRole(b.facts.owner.kind), b.facts.owner.id);
         && (h.to == PENDING_PAYMENT ==> h.actor == customer && h.occurredAt == b.facts.createdAt)
         && (h.to == PAID ==> h.actor == customer && b.paidAt == Some(h.occurredAt))
         && (h.to == EXPIRED ==> b.expiredAt == Some(h.occurredAt))
         && (h.to == CANCELLED ==>
               h.actor == Actor(OwnerRole(CUSTOMER), b.facts.owner.id) && b.cancelledAt == Some(h.occurredAt))
         && (h.to == TICKET_ISSUED ==> h.actor.role == SYSTEM)
         && (h.to == CHECKED_IN ==> exists c :: c in db.checkIns && c.bookingId == h.bookingId
                                                && c.actor == h.actor && c.at == h.occurredAt)
         && h.to !in {DRAFT, COMPLETED}
  {
    var db := Run(EMPTY_DB, steps);
    RunStamps(steps);
    RunKeeps(steps);
    hide Run, OkFor, HistoryTells;
    assert HistoryStamped(db, h);
    assert OkFor(db, h.bookingId);
    RowId(db, h.bookingId);
    HistoryMeans(db.bookings[h.bookingId], db.checkIns, h);
  }

  lemma HistoryMeans(b: Booking, checkIns: seq<CheckIn>, h: HistoryRow)
    requires HistoryTells(b, checkIns, h)
    ensures
      var customer := Actor(OwnerRole(b.facts.owner.kind), b.facts.owner.id);
      && (h.to == PENDING_PAYMENT ==> h.actor == customer && h.occurredAt == b.facts.createdAt)
      && (h.to == PAID ==> h.actor == customer && b.paidAt == Some(h.occurredAt))
      && (h.to == EXPIRED ==> b.expiredAt == Some(h.occurredAt))
      && (h.to == CANCELLED ==>
            h.actor == Actor(OwnerRole(CUSTOMER), b.facts.owner.id) && b.cancelledAt == Some(h.occurredAt))
      && (h.to == TICKET_ISSUED ==> h.actor.role == SYSTEM)
      && (h.to == CHECKED_IN ==> exists c :: c in checkIns && c.bookingId == b.facts.id
                                             && c.actor == h.actor && c.at == h.occurredAt)
      && h.to !in {DRAFT, COMPLETED}
  {
  }

  // ---------------------------------------------------------------- what an event carries, and where it goes

  lemma {:induction false} DeliveredEvent(events: seq<Event>, o: OutboxRow)
    requires o in Deliveries(events)
    ensures o.event in events && o in DeliveryRows(o.event)
  {
    var init, last := events[..|events| - 1], events[|events| - 1];
    if o in Deliveries(init) { DeliveredEvent(init, o); }
  }

  lemma RowOfBooking(steps: seq<Step>, o: OutboxRow)
    requires o in Run(EMPTY_DB, steps).outbox
    ensures
      var db, id := Run(EMPTY_DB, steps), o.event.aggregateId;
      && id in db.bookings && db.bookings[id].facts.id == id && o in DeliveryRows(o.event)
      && o.event.payload == BookingPayload(db.bookings[id].facts, PassengersOf(db, id))
      && EventTells(db.bookings[id], o.event)
  {
    var db, id := Run(EMPTY_DB, steps), o.event.aggregateId;
    RunStamps(steps);
    RunKeeps(steps);
    hide Run;
    assert EventStamped(db, o.event) && OkFor(db, id);
    FilterMember(db.outbox, o, OutboxOf(id));
    DeliveredEvent(EventsOf(RowsOf(db, id).outbox), o);
    hide EventsOf, Deliveries, Filter, EventTells;
  }

  predicate Ascending(seats: seq<SeatId>) { forall i, j :: 0 <= i < j < |seats| ==> seats[i] <= seats[j] }

  lemma SeatsAreSorted(passengers: seq<Passenger>)
    ensures Ascending(SeatsIn(passengers)) && multiset(SeatsIn(passengers)) == multiset(Map(passengers, SeatOf))
  {
    SortBySorted(Map(passengers, SeatOf), SeatOrder);
    SortByRows(Map(passengers, SeatOf), SeatOrder);
    hide SortBy;
  }

  /**
   In every reachable state every enqueued event describes its booking as the tables have it: its
   trip, route and price, one count per stored passenger row, and exactly those passengers' seats
   in order; it carries the instant stored for it and, if it is a payment, the paying attempt.
   */
  lemma EventsDescribeTheirBooking(steps: seq<Step>, o: OutboxRow)
    requires o in Run(EMPTY_DB, steps).outbox
    ensures
      var db, e := Run(EMPTY_DB, steps), o.event;
      && e.aggregateId in db.bookings && e.payload.bookingId == e.aggregateId
      && var b := db.bookings[e.aggregateId];
         var mine := Filter(db.passengers, (p: Passenger) => p.bookingId == e.aggregateId);
         && b.facts.id == e.aggregateId && e.payload.tripId == b.facts.tripId
         && e.payload.routeId == b.facts.routeId && e.payload.routeCode == b.facts.routeCode
         && e.payload.totalPriceVnd == b.facts.totalPriceVnd
         && e.payload.passengerCount == |mine| == b.facts.seatCount
         && Ascending(e.payload.seatIds)
         && multiset(e.payload.seatIds) == multiset(Map(mine, (p: Passenger) => p.seatId))
         && (e.eventType == BookingCreatedV1 ==> e.occurredAt == b.facts.createdAt)
         && (e.eventType == BookingPaidV1 ==> b.paidAt == Some(e.occurredAt) && e.paymentAttemptId == b.paidAttemptId)
         && (e.eventType == BookingExpiredV1 ==> b.expiredAt == Some(e.occurredAt))
         && (e.eventType == BookingCancelledV1 ==> b.cancelledAt == Some(e.occurredAt))
  {
    var db, id := Run(EMPTY_DB, steps), o.event.aggregateId;
    RowOfBooking(steps, o);
    RunKeeps(steps);
    hide Run;
    assert OkFor(db, id);
    var mine := PassengersOf(db, id);
    SameFilter(db.passengers, PassengerOf(id), (p: Passenger) => p.bookingId == id);
    SeatsAreSorted(mine);
    SameMap(mine, SeatOf, (p: Passenger) => p.seatId);
    hide SeatsIn, Ascending, DeliveryRows;
  }

  lemma {:induction false} SameFilter<T>(s: seq<T>, a: T -> bool, b: T -> bool)
    requires forall x :: a(x) == b(x)
    ensures Filter(s, a) == Filter(s, b)
  {
    if s != [] { SameFilter(s[..|s| - 1], a, b); }
  }

  lemma SameMap<T, U>(s: seq<T>, f: T -> U, g: T -> U)
    requires forall x :: f(x) == g(x)
    ensures Map(s, f) == Map(s, g)
  {
  }

  /** Where an event's row goes: the Kafka topic under the booking's id, or the exchange under the event's own key. */
  lemma RowsGoWhereTheyBelong(steps: seq<Step>, o: OutboxRow)
    requires o in Run(EMPTY_DB, steps).outbox
    ensures
      match o.target.destination
      case KAFKA => o.target == Target(KAFKA, "booking-events", AggregateKey(o.event.aggregateId))
      case RABBITMQ =>
        o.event.eventType != BookingCreatedV1 && o.target == Target(RABBITMQ, "bus.domain", RoutingKey(
          match o.event.eventType
          case BookingPaidV1 => "booking.paid.v1"
          case BookingExpiredV1 => "booking.expired.v1"
          case _ => "booking.cancelled.v1"))
  {
    RowOfBooking(steps, o);
    hide Run, EventTells, BookingPayload;
  }

  // ---------------------------------------------------------------- one row per event and destination

  predicate OneRowEach(outbox: seq<OutboxRow>) {
    forall i, j :: 0 <= i < j < |outbox| ==>
      outbox[i].event.eventId != outbox[j].event.eventId || outbox[i].target.destination != outbox[j].target.destination
  }

  lemma {:induction false} EnqueueKeepsOneRow(outbox: seq<OutboxRow>, event: Event, targets: seq<Target>)
    requires OneRowEach(outbox)
    ensures OneRowEach(EnqueueTargets(outbox, event, targets))
  {
    if targets != [] { EnqueueKeepsOneRow(outbox, event, targets[..|targets| - 1]); }
  }

  lemma OutboxEnqueues(db: Db, step: Step)
    ensures Next(db, step).outbox == db.outbox ||
      ((step.Create? || step.Pay? || step.Expire? || step.Cancel?) &&
       Next(db, step).outbox == EnqueueBookingEvent(db.outbox, step.event))
  {
    hide EnqueueBookingEvent, InsertPassengers, CreatesBooking, Dispatches, InsertTickets, MatchesPassengers,
         SameTicketReferences, Filter, CheckedInAt;
  }

  /** No event has two rows for one destination, whatever runs. */
  lemma {:induction false} OneRowPerDestination(steps: seq<Step>)
    ensures OneRowEach(Run(EMPTY_DB, steps).outbox)
  {
    if steps != [] {
      var db, step := Run(EMPTY_DB, steps[..|steps| - 1]), steps[|steps| - 1];
      OneRowPerDestination(steps[..|steps| - 1]);
      hide Next, OneRowEach;
      OutboxEnqueues(db, step);
      if Next(db, step).outbox != db.outbox {
        EnqueueKeepsOneRow(db.outbox, step.event, DeliveryTargets(step.event));
      }
    }
  }

  lemma {:induction false} DeliveriesOf(events: seq<Event>, e: Event, o: OutboxRow)
    requires e in events && o in DeliveryRows(e)
    ensures o in Deliveries(events)
  {
    if events[|events| - 1] != e { DeliveriesOf(events[..|events| - 1], e, o); }
  }

  lemma RowsFor(e: Event)
    ensures forall k :: k in DeliveryRows(e) ==> k.event == e
    ensures exists k :: k in DeliveryRows(e) && k.target.destination == KAFKA
    ensures e.eventType != BookingCreatedV1 ==> exists k :: k in DeliveryRows(e) && k.target.destination == RABBITMQ
  {
    var rows := DeliveryRows(e);
    assert rows[|rows| - 1] in rows && rows[0] in rows;
  }

  /** An event with any row has its Kafka row, and unless it is a creation its RabbitMQ row too. */
  lemma EventsReachEveryDestination(steps: seq<Step>, o: OutboxRow)
    requires o in Run(EMPTY_DB, steps).outbox
    ensures
      var outbox := Run(EMPTY_DB, steps).outbox;
      && (exists k :: k in outbox && k.event == o.event && k.target.destination == KAFKA)
      && (o.event.eventType != BookingCreatedV1 ==>
            exists k :: k in outbox && k.event == o.event && k.target.destination == RABBITMQ)
  {
    var db, id := Run(EMPTY_DB, steps), o.event.aggregateId;
    RowOfBooking(steps, o);
    RunKeeps(steps);
    hide Run;
    assert OkFor(db, id);
    var events := EventsOf(RowsOf(db, id).outbox);
    FilterMember(db.outbox, o, OutboxOf(id));
    DeliveredEvent(events, o);
    var rows := DeliveryRows(o.event);
    hide OkFor, EventsOf, Deliveries, DeliveryRows, EventTells, Filter;
    forall k | k in rows ensures k in db.outbox {
      DeliveriesOf(events, o.event, k);
      FilterMember(db.outbox, k, OutboxOf(id));
    }
    RowsFor(o.event);
  }

  // ---------------------------------------------------------------- passengers

  /** No two passengers share an id, and none of one booking a seat. */
  predicate PassengersUnique(passengers: seq<Passenger>) {
    forall i, j :: 0 <= i < j < |passengers| ==>
      && passengers[i].id != passengers[j].id
      && (passengers[i].bookingId == passengers[j].bookingId ==> passengers[i].seatId != passengers[j].seatId)
  }

  lemma {:induction false} InsertKeepsPassengersUnique(table: seq<Passenger>, rows: seq<Passenger>)
    requires PassengersUnique(table) && InsertPassengers(table, rows).Ok?
    ensures PassengersUnique(InsertPassengers(table, rows).value)
  {
    if rows != [] { InsertKeepsPassengersUnique(table, rows[..|rows| - 1]); }
  }

  lemma OnlyCreateWritesPassengers(db: Db, step: Step)
    ensures Next(db, step).passengers == db.passengers ||
      (step.Create? && var inserted := InsertPassengers(db.passengers, step.input.passengers);
       inserted.Ok? && Next(db, step).passengers == inserted.value)
  {
    hide Dispatches, CreatesBooking, EnqueueBookingEvent, InsertPassengers, InsertTickets, MatchesPassengers,
         SameTicketReferences, Filter, CheckedInAt;
  }

  /** In every reachable state no seat of a booking is given twice and no passenger id is drawn twice. */
  lemma {:induction false} PassengersStayUnique(steps: seq<Step>)
    ensures PassengersUnique(Run(EMPTY_DB, steps).passengers)
  {
    hide Next;
    if steps != [] {
      hide PassengersUnique;
      var db, step := Run(EMPTY_DB, steps[..|steps| - 1]), steps[|steps| - 1];
      PassengersStayUnique(steps[..|steps| - 1]);
      OnlyCreateWritesPassengers(db, step);
      if Next(db, step).passengers != db.passengers {
        InsertKeepsPassengersUnique(db.passengers, step.input.passengers);
      }
    }
  }
}
