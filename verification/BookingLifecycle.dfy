/**
 Every run of the booking transactions, in any order and interleaving: whoever holds or
 lost the per-booking advisory lock, the tables only ever change by these steps.
 */
module BookingLifecycle {
  import opened Prelude
  import opened Bookings

  // ---------------------------------------------------------------- runs

  datatype Step =
    | Create(input: PersistInput, event: Event)
    | Pay(id: Uuid, owner: Owner, attemptId: Uuid, key: string, at: int, event: Event)
    | Expire(id: Uuid, owner: Owner, at: int, actor: Actor, event: Event)
    | Issue(id: Uuid, at: int, actorId: Uuid, tickets: seq<TicketInput>)
    | Admit(command: CheckInCommand)
    | Cancel(id: Uuid, owner: Owner, key: string, at: int, event: Event)
    | SeatsReleased(id: Uuid, key: string, at: int)

  function PassengersOf(db: Db, id: Uuid): seq<Passenger> { Filter(db.passengers, PassengerOf(id)) }

  /** `randomUUID` never repeats an event id. */
  predicate FreshEvent(db: Db, eventId: Uuid) {
    forall o :: o in db.outbox ==> o.event.eventId != eventId
  }

  /** The dispatch builders of booking.events.ts, fed with a snapshot of the booking. */
  predicate Dispatches(db: Db, id: Uuid, eventType: EventType, at: int, attemptId: Option<Uuid>, event: Event) {
    && id in db.bookings
    && FreshEvent(db, event.eventId)
    && event == DispatchOf(eventType, db.bookings[id].facts, PassengersOf(db, id), event.eventId, at, attemptId)
  }

  /** What `createBooking` hands over: one new passenger row per held seat, and its event. */
  predicate CreatesBooking(db: Db, input: PersistInput, event: Event) {
    && FreshEvent(db, event.eventId)
    && (forall p :: p in input.passengers ==> p.bookingId == input.facts.id)
    && |input.passengers| == input.facts.seatCount
    && event == DispatchOf(BookingCreatedV1, input.facts, input.passengers,
                           event.eventId, input.facts.createdAt, None)
  }

  /** The checks `markTicketIssued` makes in the service before its transaction. */
  predicate MatchesPassengers(tickets: seq<TicketInput>, passengers: seq<Passenger>) {
    && |tickets| == |passengers|
    && (forall t :: t in tickets ==> exists p :: p in passengers && p.id == t.passengerId)
    && (forall i, j :: 0 <= i < j < |tickets| ==> tickets[i].passengerId != tickets[j].passengerId)
  }

  /** One transaction; a step whose caller-side checks fail writes nothing. */
  function Next(db: Db, step: Step): Db {
    match step
    case Create(input, event) =>
      if CreatesBooking(db, input, event) then CreateOrReplay(db, input, event).db else db
    case Pay(id, owner, attemptId, key, at, event) =>
      if Dispatches(db, id, BookingPaidV1, at, Some(attemptId), event)
      then MarkPaid(db, id, owner, attemptId, key, at, event).db else db
    case Expire(id, owner, at, actor, event) =>
      if Dispatches(db, id, BookingExpiredV1, at, None, event)
      then MarkExpired(db, id, owner, at, actor, event).db else db
    case Issue(id, at, actorId, tickets) =>
      if MatchesPassengers(tickets, PassengersOf(db, id)) then MarkTicketIssued(db, id, at, actorId, tickets).db else db
    case Admit(command) => CheckInTicket(db, command).db
    case Cancel(id, owner, key, at, event) =>
      if Dispatches(db, id, BookingCancelledV1, at, None, event)
      then MarkCancelled(db, id, owner, key, at, event).db else db
    case SeatsReleased(id, key, at) => MarkCancellationSeatsReleased(db, id, key, at)
  }

  function Run(db: Db, steps: seq<Step>): Db {
    if steps == [] then db else Next(Run(db, steps[..|steps| - 1]), steps[|steps| - 1])
  }

  // ---------------------------------------------------------------- the rows of one booking

  datatype Rows = Rows(
    passengers: seq<Passenger>, history: seq<HistoryRow>, outbox: seq<OutboxRow>,
    tickets: seq<TicketRef>, checkIns: seq<CheckIn>)

  const NO_ROWS := Rows([], [], [], [], [])

  function RowsOf(db: Db, id: Uuid): Rows {
    Rows(PassengersOf(db, id), Filter(db.history, HistoryOf(id)), Filter(db.outbox, OutboxOf(id)),
         Filter(db.tickets, TicketOf(id)), Filter(db.checkIns, CheckInOf(id)))
  }

  predicate AllOf(rows: Rows, id: Uuid) {
    && (forall x :: x in rows.passengers ==> x.bookingId == id)
    && (forall x :: x in rows.history ==> x.bookingId == id)
    && (forall x :: x in rows.outbox ==> x.event.aggregateId == id)
    && (forall x :: x in rows.tickets ==> x.bookingId == id)
    && (forall x :: x in rows.checkIns ==> x.bookingId == id)
  }

  function Plus(a: Rows, b: Rows): Rows {
    Rows(a.passengers + b.passengers, a.history + b.history, a.outbox + b.outbox,
         a.tickets + b.tickets, a.checkIns + b.checkIns)
  }

  /** `after` is `before` with one booking row written and `added`, all of that booking, appended. */
  predicate Writes(before: Db, after: Db, id: Uuid, row: Booking, added: Rows) {
    && AllOf(added, id)
    && after.bookings == before.bookings[id := row]
    && after.passengers == before.passengers + added.passengers
    && after.history == before.history + added.history
    && after.outbox == before.outbox + added.outbox
    && after.tickets == before.tickets + added.tickets
    && after.checkIns == before.checkIns + added.checkIns
  }

  lemma FilterAppended<T>(table: seq<T>, added: seq<T>, mine: T -> bool, other: T -> bool)
    requires forall x :: x in added ==> mine(x) && !other(x)
    ensures Filter(table + added, mine) == Filter(table, mine) + added
    ensures Filter(table + added, other) == Filter(table, other)
  {
    FilterConcat(table, added, mine);
    FilterConcat(table, added, other);
    FilterAll(added, mine);
    FilterNone(added, other);
  }

  /** A transaction on one booking is invisible to every other booking. */
  lemma WritesAreLocal(before: Db, after: Db, id: Uuid, row: Booking, added: Rows, other: Uuid)
    requires Writes(before, after, id, row, added) && other != id
    ensures RowsOf(after, id) == Plus(RowsOf(before, id), added)
    ensures RowsOf(after, other) == RowsOf(before, other)
  {
    FilterAppended(before.passengers, added.passengers, PassengerOf(id), PassengerOf(other));
    FilterAppended(before.history, added.history, HistoryOf(id), HistoryOf(other));
    FilterAppended(before.outbox, added.outbox, OutboxOf(id), OutboxOf(other));
    FilterAppended(before.tickets, added.tickets, TicketOf(id), TicketOf(other));
    FilterAppended(before.checkIns, added.checkIns, CheckInOf(id), CheckInOf(other));
  }
}
