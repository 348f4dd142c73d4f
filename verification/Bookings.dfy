/**
 The booking schema and its transactions. One transaction is one function from the
 tables before to the tables after and an outcome; a transaction that throws returns
 the tables it was given (ROLLBACK). Tables are sequences of rows in insertion order,
 except `bookings`, which is keyed by its primary key.
 */
module Bookings {
  import opened Prelude

  datatype Status =
    | DRAFT | PENDING_PAYMENT | PAID | TICKET_ISSUED | CHECKED_IN | COMPLETED | EXPIRED | CANCELLED

  datatype OwnerType = GUEST_SESSION | CUSTOMER

  datatype Owner = Owner(kind: OwnerType, id: Uuid)

  datatype Role = OwnerRole(kind: OwnerType) | SYSTEM | STAFF | ADMIN

  datatype Actor = Actor(role: Role, id: Uuid)

  /** Seat labels; their order stands for the order of the label text. */
  type SeatId = nat

  datatype PassengerInput =
    PassengerInput(seatId: SeatId, fullName: string, phone: Option<string>, document: Option<string>)

  /** SHA-256 over the JSON text of the request is taken as injective, so the content stands for it. */
  datatype Fingerprint =
    Fingerprint(holdToken: string, owner: Owner, contact: string, passengers: seq<PassengerInput>)

  /** The columns of a booking that no statement ever updates. */
  datatype Facts = Facts(
    id: Uuid, owner: Owner, idempotencyKey: string, fingerprint: Fingerprint,
    holdToken: string, holdExpiresAt: int, tripId: Uuid, routeId: Uuid, routeCode: string,
    departureAt: int, unitPriceVnd: int, seatCount: nat, totalPriceVnd: int, createdAt: int)

  datatype Booking = Booking(
    facts: Facts, status: Status,
    paidAttemptId: Option<Uuid>, paymentKey: Option<string>, paidAt: Option<int>,
    expiredAt: Option<int>,
    cancelledAt: Option<int>, cancellationKey: Option<string>, seatsReleasedAt: Option<int>)

  datatype Passenger = Passenger(id: Uuid, bookingId: Uuid, seatId: SeatId, fullName: string)

  datatype HistoryRow =
    HistoryRow(bookingId: Uuid, from: Option<Status>, to: Status, actor: Actor, occurredAt: int)

  datatype EventType = BookingCreatedV1 | BookingPaidV1 | BookingExpiredV1 | BookingCancelledV1

  datatype Payload = Payload(
    bookingId: Uuid, tripId: Uuid, routeId: Uuid, routeCode: string,
    seatIds: seq<SeatId>, passengerCount: nat, totalPriceVnd: int)

  datatype Event = Event(
    eventId: Uuid, eventType: EventType, occurredAt: int, aggregateId: Uuid, payload: Payload,
    paymentAttemptId: Option<Uuid>)

  datatype Destination = RABBITMQ | KAFKA

  datatype MessageKey = AggregateKey(id: Uuid) | RoutingKey(key: string)

  datatype Target = Target(destination: Destination, channelName: string, messageKey: MessageKey)

  datatype OutboxRow = OutboxRow(target: Target, event: Event)

  datatype TicketInput = TicketInput(ticketId: Uuid, passengerId: Uuid, ticketCode: string, qrHash: string)

  datatype TicketRef = TicketRef(bookingId: Uuid, ticket: TicketInput)

  datatype CheckIn =
    CheckIn(ticketId: Uuid, bookingId: Uuid, passengerId: Uuid, key: string, actor: Actor, at: int)

  datatype AuditAction = BOOKING_PAID | BOOKING_CANCELLED | TICKET_CHECKED_IN

  datatype Audit = Audit(action: AuditAction, targetId: Uuid, tripId: Uuid, actor: Actor, occurredAt: int)

  datatype Db = Db(
    bookings: map<Uuid, Booking>,
    ownerKeys: map<(Owner, string), Uuid>,   // the unique index bookings_owner_idempotency_key
    passengers: seq<Passenger>,
    history: seq<HistoryRow>,
    outbox: seq<OutboxRow>,
    tickets: seq<TicketRef>,
    checkIns: seq<CheckIn>,
    audit: seq<Audit>)

  datatype Error =
    | NotFound | ConstraintViolation | TicketConflict | WrongTrip | CheckInKeyConflict
    | CheckInState(status: Status)

  datatype Tx<+T> = Tx(db: Db, out: Result<T, Error>)

  const EMPTY_DB := Db(map[], map[], [], [], [], [], [], [])

  const BOOKING_DOMAIN_EXCHANGE := "bus.domain"
  const BOOKING_EVENTS_TOPIC := "booking-events"

  // ---------------------------------------------------------------- selections

  function PassengerOf(id: Uuid): Passenger -> bool { (p: Passenger) => p.bookingId == id }

  function HistoryOf(id: Uuid): HistoryRow -> bool { (h: HistoryRow) => h.bookingId == id }

  function OutboxOf(id: Uuid): OutboxRow -> bool { (o: OutboxRow) => o.event.aggregateId == id }

  function TicketOf(id: Uuid): TicketRef -> bool { (t: TicketRef) => t.bookingId == id }

  function CheckInOf(id: Uuid): CheckIn -> bool { (c: CheckIn) => c.bookingId == id }

  function PassengerOrder(t: TicketRef): int { t.ticket.passengerId }

  function InputOrder(t: TicketInput): int { t.passengerId }

  function SeatOf(p: Passenger): SeatId { p.seatId }

  function SeatOrder(s: SeatId): int { s }

  /** `bookingByIdSql`: the row, only for its owner. */
  function OwnedRow(db: Db, id: Uuid, owner: Owner): Option<Booking> {
    if id in db.bookings && db.bookings[id].facts.owner == owner then Some(db.bookings[id]) else None
  }

  function SeatsIn(passengers: seq<Passenger>): seq<SeatId> { SortBy(Map(passengers, SeatOf), SeatOrder) }

  /** A `releaseBookedSeats` request. */
  datatype ReleaseCall = ReleaseCall(bookingId: Uuid, tripId: Uuid, seatIds: seq<SeatId>, key: string)

  function ReleaseRequest(facts: Facts, passengers: seq<Passenger>, key: string): ReleaseCall {
    ReleaseCall(facts.id, facts.tripId, SeatsIn(passengers), key)
  }

  // ---------------------------------------------------------------- events

  /** `bookingPayload`: what an event says about a booking. */
  function BookingPayload(facts: Facts, passengers: seq<Passenger>): Payload {
    Payload(facts.id, facts.tripId, facts.routeId, facts.routeCode,
            SeatsIn(passengers), |passengers|, facts.totalPriceVnd)
  }

  function DispatchOf(eventType: EventType, facts: Facts, passengers: seq<Passenger>,
                      eventId: Uuid, occurredAt: int, attemptId: Option<Uuid>): Event {
    Event(eventId, eventType, occurredAt, facts.id, BookingPayload(facts, passengers), attemptId)
  }

  /** `deliveryTargets`. */
  function DeliveryTargets(event: Event): seq<Target> {
    var kafka := Target(KAFKA, BOOKING_EVENTS_TOPIC, AggregateKey(event.aggregateId));
    match event.eventType
    case BookingCreatedV1 => [kafka]
    case BookingPaidV1 => [Target(RABBITMQ, BOOKING_DOMAIN_EXCHANGE, RoutingKey("booking.paid.v1")), kafka]
    case BookingCancelledV1 => [Target(RABBITMQ, BOOKING_DOMAIN_EXCHANGE, RoutingKey("booking.cancelled.v1")), kafka]
    case BookingExpiredV1 => [Target(RABBITMQ, BOOKING_DOMAIN_EXCHANGE, RoutingKey("booking.expired.v1")), kafka]
  }

  predicate HasOutboxRow(outbox: seq<OutboxRow>, eventId: Uuid, destination: Destination) {
    exists o :: o in outbox && o.event.eventId == eventId && o.target.destination == destination
  }

  function EnqueueTargets(outbox: seq<OutboxRow>, event: Event, targets: seq<Target>): seq<OutboxRow> {
    if targets == [] then outbox
    else
      var before := EnqueueTargets(outbox, event, targets[..|targets| - 1]);
      var target := targets[|targets| - 1];
      if HasOutboxRow(before, event.eventId, target.destination) then before   // ON CONFLICT DO NOTHING
      else before + [OutboxRow(target, event)]
  }

  /** `enqueueBookingEvent`. */
  function EnqueueBookingEvent(outbox: seq<OutboxRow>, event: Event): seq<OutboxRow> {
    EnqueueTargets(outbox, event, DeliveryTargets(event))
  }

  // ---------------------------------------------------------------- creation

  datatype PersistInput = PersistInput(facts: Facts, passengers: seq<Passenger>)

  /** What an `integer` column can hold. */
  predicate StorableInteger(x: int) { -2147483648 <= x <= 2147483647 }

  /** The column types and CHECK constraints on a new booking. */
  predicate BookingChecks(facts: Facts) {
    && 1 <= facts.seatCount <= 10
    && 0 <= facts.unitPriceVnd && StorableInteger(facts.unitPriceVnd)
    && 0 <= facts.totalPriceVnd && StorableInteger(facts.totalPriceVnd)
    && facts.totalPriceVnd == facts.unitPriceVnd * facts.seatCount
  }

  predicate PassengerConflict(table: seq<Passenger>, p: Passenger) {
    exists q :: q in table && (q.id == p.id || (q.bookingId == p.bookingId && q.seatId == p.seatId))
  }

  function InsertPassengers(table: seq<Passenger>, rows: seq<Passenger>): Result<seq<Passenger>, Error> {
    if rows == [] then Ok(table)
    else
      match InsertPassengers(table, rows[..|rows| - 1])
      case Err(e) => Err(e)
      case Ok(t) =>
        var p := rows[|rows| - 1];
        if PassengerConflict(t, p) then Err(ConstraintViolation) else Ok(t + [p])
  }

  function OwnerActor(owner: Owner): Actor { Actor(OwnerRole(owner.kind), owner.id) }

  function NewBooking(facts: Facts): Booking {
    Booking(facts, PENDING_PAYMENT, None, None, None, None, None, None, None)
  }

  /** `createOrReplay`: the id of the one booking that holds this owner and key. */
  function CreateOrReplay(db: Db, input: PersistInput, event: Event): Tx<Uuid> {
    var facts := input.facts;
    var ownerKey := (facts.owner, facts.idempotencyKey);
    if !BookingChecks(facts) then Tx(db, Err(ConstraintViolation))   // checked before any conflict is looked for
    else if ownerKey in db.ownerKeys then Tx(db, Ok(db.ownerKeys[ownerKey]))
    else if facts.id in db.bookings then Tx(db, Err(ConstraintViolation))
    else
      match InsertPassengers(db.passengers, input.passengers)
      case Err(e) => Tx(db, Err(e))
      case Ok(passengers) =>
        var created := db.(
          bookings := db.bookings[facts.id := NewBooking(facts)],
          ownerKeys := db.ownerKeys[ownerKey := facts.id],
          passengers := passengers,
          history := db.history +
            [HistoryRow(facts.id, None, PENDING_PAYMENT, OwnerActor(facts.owner), facts.createdAt)],
          outbox := EnqueueBookingEvent(db.outbox, event));
        Tx(created, Ok(facts.id))
  }

  // ---------------------------------------------------------------- payment, expiry, cancellation

  /** What pay, expire and cancel do when their guarded UPDATE hits a row. */
  function Move(db: Db, row: Booking, entry: HistoryRow, event: Event, audit: seq<Audit>): Db {
    db.(bookings := db.bookings[entry.bookingId := row],
        history := db.history + [entry],
        outbox := EnqueueBookingEvent(db.outbox, event),
        audit := db.audit + audit)
  }

  function MarkPaid(db: Db, id: Uuid, owner: Owner, attemptId: Uuid, key: string, at: int, event: Event)
    : Tx<Booking>
  {
    match OwnedRow(db, id, owner)
    case None => Tx(db, Err(NotFound))
    case Some(row) =>
      if row.status != PENDING_PAYMENT then Tx(db, Ok(row))
      else
        var paid := row.(status := PAID, paidAttemptId := Some(attemptId), paymentKey := Some(key), paidAt := Some(at));
        Tx(Move(db, paid, HistoryRow(id, Some(PENDING_PAYMENT), PAID, OwnerActor(owner), at), event,
                [Audit(BOOKING_PAID, id, event.payload.tripId, OwnerActor(owner), at)]),
           Ok(paid))
  }

  function MarkExpired(db: Db, id: Uuid, owner: Owner, at: int, actor: Actor, event: Event)
    : Tx<(Booking, bool)>
  {
    match OwnedRow(db, id, owner)
    case None => Tx(db, Err(NotFound))
    case Some(row) =>
      if row.status != PENDING_PAYMENT then Tx(db, Ok((row, false)))
      else
        var expired := row.(status := EXPIRED, expiredAt := Some(at));
        Tx(Move(db, expired, HistoryRow(id, Some(PENDING_PAYMENT), EXPIRED, actor, at), event, []),
           Ok((expired, true)))
  }

  function MarkCancelled(db: Db, id: Uuid, owner: Owner, key: string, at: int, event: Event)
    : Tx<(Booking, bool)>
  {
    match OwnedRow(db, id, owner)
    case None => Tx(db, Err(NotFound))
    case Some(row) =>
      if row.status != PAID && row.status != TICKET_ISSUED then Tx(db, Ok((row, false)))
      else
        var cancelled := row.(status := CANCELLED, cancelledAt := Some(at), cancellationKey := Some(key));
        var customer := Actor(OwnerRole(CUSTOMER), owner.id);
        Tx(Move(db, cancelled, HistoryRow(id, Some(row.status), CANCELLED, customer, at), event,
                [Audit(BOOKING_CANCELLED, id, event.payload.tripId, OwnerActor(owner), at)]),
           Ok((cancelled, true)))
  }

  function MarkCancellationSeatsReleased(db: Db, id: Uuid, key: string, at: int): Db {
    if id in db.bookings && db.bookings[id].status == CANCELLED && db.bookings[id].cancellationKey == Some(key) then
      var row := db.bookings[id];
      db.(bookings := db.bookings[id := row.(seatsReleasedAt :=
        if row.seatsReleasedAt.Some? then row.seatsReleasedAt else Some(at))])
    else db
  }

  // ---------------------------------------------------------------- tickets

  predicate PassengerOnBooking(passengers: seq<Passenger>, passengerId: Uuid, bookingId: Uuid) {
    exists p :: p in passengers && p.id == passengerId && p.bookingId == bookingId
  }

  /** A unique index other than the primary key already holds one of the ticket's values. */
  predicate TicketIndexConflict(tickets: seq<TicketRef>, bookingId: Uuid, t: TicketInput) {
    exists r :: r in tickets &&
      (|| r.ticket.ticketCode == t.ticketCode || r.ticket.qrHash == t.qrHash
       || (r.bookingId == bookingId && r.ticket.passengerId == t.passengerId))
  }

  predicate HasTicket(tickets: seq<TicketRef>, ticketId: Uuid) {
    exists r :: r in tickets && r.ticket.ticketId == ticketId
  }

  function InsertTickets(tickets: seq<TicketRef>, passengers: seq<Passenger>, id: Uuid, input: seq<TicketInput>)
    : Result<seq<TicketRef>, Error>
  {
    if input == [] then Ok(tickets)
    else
      match InsertTickets(tickets, passengers, id, input[..|input| - 1])
      case Err(e) => Err(e)
      case Ok(table) =>
        var t := input[|input| - 1];
        if HasTicket(table, t.ticketId) then Ok(table)   // ON CONFLICT (ticket_id) DO NOTHING
        else if TicketIndexConflict(table, id, t) || !PassengerOnBooking(passengers, t.passengerId, id)
        then Err(ConstraintViolation)
        else Ok(table + [TicketRef(id, t)])
  }

  /** `sameTicketReferences`: stored rows, ordered by passenger, against the sorted request. */
  predicate SameTicketReferences(stored: seq<TicketRef>, expected: seq<TicketInput>) {
    && |stored| == |expected|
    && var ordered := SortBy(expected, InputOrder);
       |ordered| == |stored| && forall i :: 0 <= i < |stored| ==> stored[i].ticket == ordered[i]
  }

  function StoredTickets(tickets: seq<TicketRef>, id: Uuid): seq<TicketRef> {
    SortBy(Filter(tickets, TicketOf(id)), PassengerOrder)
  }

  predicate Issuable(status: Status) { status in {PAID, TICKET_ISSUED, CHECKED_IN, COMPLETED} }

  function MarkTicketIssued(db: Db, id: Uuid, at: int, actorId: Uuid, input: seq<TicketInput>)
    : Tx<(Status, bool)>
  {
    if id !in db.bookings then Tx(db, Err(NotFound))
    else
      var row := db.bookings[id];
      if !Issuable(row.status) then Tx(db, Ok((row.status, false)))
      else
        match InsertTickets(db.tickets, db.passengers, id, input)
        case Err(e) => Tx(db, Err(e))
        case Ok(tickets) =>
          if !SameTicketReferences(StoredTickets(tickets, id), input) then Tx(db, Err(TicketConflict))
          else if row.status == PAID then
            Tx(db.(bookings := db.bookings[id := row.(status := TICKET_ISSUED)],
                   tickets := tickets,
                   history := db.history +
                     [HistoryRow(id, Some(PAID), TICKET_ISSUED, Actor(SYSTEM, actorId), at)]),
               Ok((TICKET_ISSUED, true)))
          else Tx(db.(tickets := tickets), Ok((row.status, false)))
  }

  // ---------------------------------------------------------------- check-in

  datatype CredentialKind = TICKET_CODE | QR_PAYLOAD

  datatype CheckInCommand =
    CheckInCommand(kind: CredentialKind, credential: string, tripId: Uuid, key: string, actor: Actor, at: int)

  datatype CheckInOutcome = CheckInOutcome(ticketId: Uuid, status: Status, checkedInAt: Option<int>, transitioned: bool)

  function HasCredential(kind: CredentialKind, credential: string): TicketRef -> bool {
    (t: TicketRef) => credential == if kind == TICKET_CODE then t.ticket.ticketCode else t.ticket.qrHash
  }

  function CheckInByKey(actorId: Uuid, key: string): CheckIn -> bool {
    (c: CheckIn) => c.actor.id == actorId && c.key == key
  }

  function CheckInOfTicket(ticketId: Uuid): CheckIn -> bool { (c: CheckIn) => c.ticketId == ticketId }

  function CheckedInAt(checkIns: seq<CheckIn>, ticketId: Uuid): Option<int> {
    var rows := Filter(checkIns, CheckInOfTicket(ticketId));
    if rows == [] then None else Some(rows[0].at)
  }

  function CheckInTicket(db: Db, command: CheckInCommand): Tx<Option<CheckInOutcome>> {
    var target := Filter(db.tickets, HasCredential(command.kind, command.credential));
    if target == [] || target[0].bookingId !in db.bookings then Tx(db, Ok(None))
    else
      var ref := target[0];
      var id, ticketId := ref.bookingId, ref.ticket.ticketId;
      var row := db.bookings[id];
      var checkedInAt := CheckedInAt(db.checkIns, ticketId);
      var prior := Filter(db.checkIns, CheckInByKey(command.actor.id, command.key));
      if row.facts.tripId != command.tripId then Tx(db, Err(WrongTrip))
      else if prior != [] then
        if prior[0].ticketId != ticketId then Tx(db, Err(CheckInKeyConflict))
        else Tx(db, Ok(Some(CheckInOutcome(ticketId, row.status, checkedInAt, true))))
      else if row.status != TICKET_ISSUED && row.status != CHECKED_IN then Tx(db, Err(CheckInState(row.status)))
      else if checkedInAt.Some? then Tx(db, Ok(Some(CheckInOutcome(ticketId, row.status, checkedInAt, false))))
      else
        var recorded := db.(
          checkIns := db.checkIns +
            [CheckIn(ticketId, id, ref.ticket.passengerId, command.key, command.actor, command.at)],
          audit := db.audit +
            [Audit(TICKET_CHECKED_IN, ticketId, row.facts.tripId, command.actor, command.at)]);
        var moved :=
          if row.status == CHECKED_IN then recorded
          else recorded.(
            bookings := db.bookings[id := row.(status := CHECKED_IN)],
            history := db.history +
              [HistoryRow(id, Some(TICKET_ISSUED), CHECKED_IN, command.actor, command.at)]);
        Tx(moved, Ok(Some(CheckInOutcome(ticketId, CHECKED_IN, Some(command.at), true))))
  }

  // ---------------------------------------------------------------- reports

  predicate CountsAsRevenue(status: Status) { status in {PAID, TICKET_ISSUED, CHECKED_IN, COMPLETED} }

  /** A report over every trip, or over one. */
  predicate InScope(trip: Option<Uuid>, tripId: Uuid) { trip == None || trip == Some(tripId) }

  function RevenueOf(b: Booking, trip: Option<Uuid>): int {
    if CountsAsRevenue(b.status) && InScope(trip, b.facts.tripId) then b.facts.totalPriceVnd else 0
  }

  function RevenueMap(bookings: map<Uuid, Booking>, trip: Option<Uuid>): map<Uuid, int> {
    map id | id in bookings :: RevenueOf(bookings[id], trip)
  }

  /** The `revenue_vnd` column of `getAdminOperations`. */
  ghost function AdminRevenue(db: Db, trip: Option<Uuid>): int {
    Total(RevenueMap(db.bookings, trip))
  }
}
