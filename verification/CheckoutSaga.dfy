/**
 Payment, expiry, cancellation and seat release as concurrent processes: they share the
 booking tables, the payment service, the seat inventory and one advisory lock per booking,
 and may crash, time out or lose the lock between any two steps. A remote call is logged
 when it is sent; its reply, or its failure, is a later step.
 */
module CheckoutSaga {
  import opened Prelude
  import opened Bookings
  import opened BookingLifecycle
  import opened Payments

  type ProcessId = nat

  /** What `findOwnedById` returned when the process read the booking. */
  datatype Record = Record(row: Booking, passengers: seq<Passenger>)

  datatype Command =
    | PayCommand(bookingId: Uuid, owner: Owner, outcome: Outcome, key: string)
    | ExpireCommand(bookingId: Uuid, owner: Owner)
    | CancelCommand(bookingId: Uuid, owner: Owner, key: string)
    | ReleaseCommand(bookingId: Uuid, owner: Owner, key: string)

  datatype Pc =
    | Locking
    | Reading
    | AwaitingAttempt(record: Record)
    | AwaitingConfirm(record: Record, attempt: Attempt)
    | MarkingPaid(record: Record, attempt: Attempt, at: int)
    | MarkingExpired(record: Record)
    | MarkingCancelled(record: Record)
    | AwaitingRelease(record: Record)
    | MarkingReleased(record: Record, at: int)
    | Done

  datatype Process = Process(command: Command, pc: Pc)

  datatype ConfirmCall =
    ConfirmCall(holdToken: string, owner: Owner, tripId: Uuid, seatIds: seq<SeatId>, bookingId: Uuid, key: Uuid)

  datatype World = World(
    db: Db,
    ledger: Ledger,
    requests: seq<PaymentRequest>,   // payment requests sent, answered or not
    processes: map<ProcessId, Process>,
    lock: map<Uuid, ProcessId>,
    lost: set<Uuid>,   // bookings whose lock was once lost by a process that went on running
    confirms: seq<ConfirmCall>,
    confirmed: set<Uuid>,   // keys of the confirmations the seat inventory granted
    releases: seq<ReleaseCall>)

  const IDLE := World(EMPTY_DB, EMPTY_LEDGER, [], map[], map[], {}, [], {}, [])

  datatype Happening =
    | Other(step: Step)   // creation, ticket issuance and check-in take no lock
    | Start(p: ProcessId, command: Command)
    | Acquire(p: ProcessId)
    | Read(p: ProcessId, now: int)
    | ServedUnheard(i: nat, id: Uuid, at: int)   // a payment request whose caller stopped waiting
    | Served(p: ProcessId, id: Uuid, at: int)
    | Confirmed(p: ProcessId, at: int)
    | HoldExpired(p: ProcessId)
    | CommitPaid(p: ProcessId, eventId: Uuid)
    | CommitExpired(p: ProcessId, eventId: Uuid, at: int, actor: Actor)
    | CommitCancelled(p: ProcessId, eventId: Uuid, at: int)
    | Released(p: ProcessId, at: int)
    | CommitReleased(p: ProcessId)
    | Throws(p: ProcessId)   // a call times out or fails, or a transaction rolls back
    | Unlock(p: ProcessId)
    | Crash(p: ProcessId)
    | LoseLock(p: ProcessId)   // the coordination connection drops while the operation runs on

  // ---------------------------------------------------------------- requests

  function ContentFor(facts: Facts, outcome: Outcome): RequestContent {
    RequestContent(facts.id, facts.owner, facts.totalPriceVnd, outcome)
  }

  function ConfirmFor(record: Record, attempt: Attempt): ConfirmCall {
    var facts := record.row.facts;
    ConfirmCall(facts.holdToken, facts.owner, facts.tripId, SeatsIn(record.passengers), facts.id, attempt.id)
  }

  function ReleaseFor(record: Record, key: string): ReleaseCall {
    ReleaseRequest(record.row.facts, record.passengers, key)
  }

  // ---------------------------------------------------------------- steps

  function Goto(w: World, p: ProcessId, pc: Pc): World
    requires p in w.processes
  {
    w.(processes := w.processes[p := w.processes[p].(pc := pc)])
  }

  /** The process is gone; a lock it held is free again. */
  function Gone(w: World, p: ProcessId): World
    requires p in w.processes
  {
    var id := w.processes[p].command.bookingId;
    w.(processes := w.processes - {p},
       lock := if id in w.lock && w.lock[id] == p then w.lock - {id} else w.lock)
  }

  predicate WindowExpired(facts: Facts, now: int) { facts.holdExpiresAt <= now || facts.departureAt <= now }

  function CallRelease(w: World, p: ProcessId, record: Record, key: string): World
    requires p in w.processes
  {
    Goto(w, p, AwaitingRelease(record)).(releases := w.releases + [ReleaseFor(record, key)])
  }

  /** The first statement under the lock, and the branch it decides. */
  function ReadStep(w: World, p: ProcessId, command: Command, now: int): World
    requires p in w.processes
  {
    match OwnedRow(w.db, command.bookingId, command.owner)
    case None => Goto(w, p, Done)
    case Some(row) =>
      var record := Record(row, PassengersOf(w.db, command.bookingId));
      match command
      case PayCommand(_, _, outcome, key) =>
        if row.status != PENDING_PAYMENT then Goto(w, p, Done)
        else if WindowExpired(row.facts, now) then Goto(w, p, MarkingExpired(record))
        else Goto(w, p, AwaitingAttempt(record)).(
               requests := w.requests + [PaymentRequest(ContentFor(row.facts, outcome), key)])
      case ExpireCommand(_, _) =>
        if row.status == PENDING_PAYMENT && WindowExpired(row.facts, now) then Goto(w, p, MarkingExpired(record))
        else Goto(w, p, Done)
      case CancelCommand(_, _, key) =>
        if row.status == CANCELLED then
          if row.cancellationKey != Some(key) || row.seatsReleasedAt.Some? then Goto(w, p, Done)
          else CallRelease(w, p, record, key)
        else if row.status != PAID && row.status != TICKET_ISSUED then Goto(w, p, Done)
        else if row.facts.departureAt <= now then Goto(w, p, Done)
        else Goto(w, p, MarkingCancelled(record))
      case ReleaseCommand(_, _, key) =>
        if row.status != CANCELLED then Goto(w, p, Done) else CallRelease(w, p, record, key)
  }

  /** Release commands come from a reconciler query over the bookings as they are now. */
  predicate MayStart(db: Db, command: Command) {
    match command
    case PayCommand(_, _, _, _) => true
    case ExpireCommand(_, _) => true
    case CancelCommand(_, owner, _) => owner.kind == CUSTOMER
    case ReleaseCommand(id, owner, key) =>
      && id in db.bookings && db.bookings[id].facts.owner == owner
      && db.bookings[id].status == CANCELLED && db.bookings[id].cancellationKey == Some(key)
  }

  predicate TakesNoLock(step: Step) { step.Create? || step.Issue? || step.Admit? }

  function Serve(w: World, request: PaymentRequest, id: Uuid, at: int): Paid<Attempt> {
    CreatePaymentAttempt(w.ledger, w.ledger, request, id, at)
  }

  function ServedStep(w: World, p: ProcessId, record: Record, id: Uuid, at: int): World
    requires p in w.processes && w.processes[p].command.PayCommand?
  {
    var command := w.processes[p].command;
    var answer := Serve(w, PaymentRequest(ContentFor(record.row.facts, command.outcome), command.key), id, at);
    var w2 := w.(ledger := answer.ledger);
    if answer.out.Ok? && answer.out.value.status == SUCCEEDED then
      Goto(w2, p, AwaitingConfirm(record, answer.out.value)).(
        confirms := w.confirms + [ConfirmFor(record, answer.out.value)])
    else Goto(w2, p, Done)
  }

  function PaidTx(w: World, command: Command, record: Record, attempt: Attempt, at: int, eventId: Uuid): Tx<Booking>
    requires command.PayCommand?
  {
    MarkPaid(w.db, command.bookingId, command.owner, attempt.id, command.key, at,
             DispatchOf(BookingPaidV1, record.row.facts, record.passengers, eventId, at, Some(attempt.id)))
  }

  function ExpiredTx(w: World, command: Command, record: Record, eventId: Uuid, at: int, actor: Actor)
    : Tx<(Booking, bool)>
  {
    MarkExpired(w.db, command.bookingId, command.owner, at, actor,
                DispatchOf(BookingExpiredV1, record.row.facts, record.passengers, eventId, at, None))
  }

  function CancelledTx(w: World, command: Command, record: Record, eventId: Uuid, at: int): Tx<(Booking, bool)>
    requires command.CancelCommand?
  {
    MarkCancelled(w.db, command.bookingId, command.owner, command.key, at,
                  DispatchOf(BookingCancelledV1, record.row.facts, record.passengers, eventId, at, None))
  }

  /** Seats are released only once the transaction has returned a cancelled booking. */
  function AfterCancel(w: World, p: ProcessId, tx: Tx<(Booking, bool)>): World
    requires p in w.processes && w.processes[p].command.CancelCommand?
  {
    var command, w2 := w.processes[p].command, w.(db := tx.db);
    if tx.out.Ok? && tx.out.value.0.status == CANCELLED then
      CallRelease(w2, p, Record(tx.out.value.0, PassengersOf(tx.db, command.bookingId)), command.key)
    else Goto(w2, p, Done)
  }

  function ProcessOf(e: Happening): ProcessId {
    match e
    case Other(_) => 0
    case ServedUnheard(_, _, _) => 0
    case _ => e.p
  }

  /** One step; an event that the state does not allow changes nothing. */
  function Do(w: World, e: Happening): World {
    match e
    case Other(step) => if TakesNoLock(step) then w.(db := Next(w.db, step)) else w
    case Start(p, command) =>
      if p !in w.processes && MayStart(w.db, command) then
        w.(processes := w.processes[p := Process(command, Locking)])
      else w
    case ServedUnheard(i, id, at) =>
      if i < |w.requests| then w.(ledger := Serve(w, w.requests[i], id, at).ledger) else w
    case _ => if ProcessOf(e) in w.processes then DoProcess(w, e, w.processes[ProcessOf(e)]) else w
  }

  function DoProcess(w: World, e: Happening, process: Process): World
    requires ProcessOf(e) in w.processes && process == w.processes[ProcessOf(e)]
  {
    var p, command := ProcessOf(e), process.command;
    match (e, process.pc)
    case (Acquire(_), Locking) =>
      if command.bookingId in w.lock then w
      else Goto(w, p, Reading).(lock := w.lock[command.bookingId := p])
    case (Read(_, now), Reading) => ReadStep(w, p, command, now)
    case (Served(_, id, at), AwaitingAttempt(record)) =>
      if command.PayCommand? then ServedStep(w, p, record, id, at) else w
    case (Confirmed(_, at), AwaitingConfirm(record, attempt)) =>
      Goto(w, p, MarkingPaid(record, attempt, at)).(confirmed := w.confirmed + {attempt.id})
    case (HoldExpired(_), AwaitingConfirm(record, _)) => Goto(w, p, MarkingExpired(record))
    case (CommitPaid(_, eventId), MarkingPaid(record, attempt, at)) =>
      if command.PayCommand? && FreshEvent(w.db, eventId) then
        Goto(w.(db := PaidTx(w, command, record, attempt, at, eventId).db), p, Done)
      else w
    case (CommitExpired(_, eventId, at, actor), MarkingExpired(record)) =>
      if FreshEvent(w.db, eventId) then Goto(w.(db := ExpiredTx(w, command, record, eventId, at, actor).db), p, Done)
      else w
    case (CommitCancelled(_, eventId, at), MarkingCancelled(record)) =>
      if command.CancelCommand? && FreshEvent(w.db, eventId) then
        AfterCancel(w, p, CancelledTx(w, command, record, eventId, at))
      else w
    case (Released(_, at), AwaitingRelease(record)) => Goto(w, p, MarkingReleased(record, at))
    case (CommitReleased(_), MarkingReleased(record, at)) =>
      if command.CancelCommand? || command.ReleaseCommand? then
        Goto(w.(db := MarkCancellationSeatsReleased(w.db, command.bookingId, command.key, at)), p, Done)
      else w
    case (Throws(_), pc) => if pc.Locking? then Gone(w, p) else Goto(w, p, Done)
    case (Unlock(_), Done) => Gone(w, p)
    case (Crash(_), _) => Gone(w, p)
    case (LoseLock(_), _) =>
      if command.bookingId in w.lock && w.lock[command.bookingId] == p then
        w.(lock := w.lock - {command.bookingId}, lost := w.lost + {command.bookingId})
      else w
    case _ => w
  }

  function DoAll(w: World, events: seq<Happening>): World {
    if events == [] then w else Do(DoAll(w, events[..|events| - 1]), events[|events| - 1])
  }
}
