/** At which moment a booking may be paid, expired or cancelled: what the clock said when the process read it. */
module CheckoutMoments {
  import opened Prelude
  import opened Bookings
  import opened BookingLifecycle
  import opened BookingInvariants
  import opened BookingTheorems
  import opened Payments
  import opened CheckoutSaga
  import opened SagaInvariants
  import opened SagaSteps
  import opened SagaTheorems
  import opened SagaRecovery

  // ---------------------------------------------------------------- one read

  /** The row the process asks for exists and is its owner's. */
  predicate Finds(w: World, command: Command) {
    command.bookingId in w.db.bookings && w.db.bookings[command.bookingId].facts.owner == command.owner
  }

  /** What reading at `now` led to, in terms of the row and the clock. */
  predicate Decided(w: World, p: ProcessId, now: int, w2: World)
    requires p in w.processes
  {
    var command := w.processes[p].command;
    var id := command.bookingId;
    && p in w2.processes && w2.processes[p].command == command && w2.db == w.db && w2.ledger == w.ledger
    && var pc := w2.processes[p].pc;
       var b := if Finds(w, command) then Some(w.db.bookings[id]) else None;
       var over := b.Some? && (b.value.facts.holdExpiresAt <= now || b.value.facts.departureAt <= now);
       && (pc.AwaitingAttempt? <==>
             command.PayCommand? && b.Some? && b.value.status == PENDING_PAYMENT && !over)
       && (pc.MarkingExpired? <==>
             (command.PayCommand? || command.ExpireCommand?) && b.Some? && b.value.status == PENDING_PAYMENT && over)
       && (pc.MarkingCancelled? <==>
             command.CancelCommand? && b.Some? && b.value.status in {PAID, TICKET_ISSUED}
             && now < b.value.facts.departureAt)
       && (pc.AwaitingRelease? <==>
             b.Some? && b.value.status == CANCELLED &&
             (command.ReleaseCommand? || (command.CancelCommand? && b.value.cancellationKey == Some(command.key)
                                          && b.value.seatsReleasedAt == None)))
       && (pc.Done? || (GoesOn(pc) && b.Some? && pc.record == Record(b.value, PassengersOf(w.db, id))))
       && (w2.requests == if pc.AwaitingAttempt? then w.requests + [PaymentRequest(
             RequestContent(b.value.facts.id, b.value.facts.owner, b.value.facts.totalPriceVnd, command.outcome),
             command.key)] else w.requests)
       && (w2.releases == if pc.AwaitingRelease? then w.releases + [ReleaseRequest(
             b.value.facts, PassengersOf(w.db, id), command.key)] else w.releases)
  }

  /** A read that does not end the command. */
  predicate GoesOn(pc: Pc) {
    pc.AwaitingAttempt? || pc.MarkingExpired? || pc.MarkingCancelled? || pc.AwaitingRelease?
  }

  lemma PayReads(w: World, p: ProcessId, now: int)
    requires p in w.processes && w.processes[p].command.PayCommand?
    ensures Decided(w, p, now, ReadStep(w, p, w.processes[p].command, now))
  {
    hide PassengersOf, ReleaseRequest;
  }

  lemma ExpireReads(w: World, p: ProcessId, now: int)
    requires p in w.processes && w.processes[p].command.ExpireCommand?
    ensures Decided(w, p, now, ReadStep(w, p, w.processes[p].command, now))
  {
    hide PassengersOf, ReleaseRequest;
  }

  lemma CancelReads(w: World, p: ProcessId, now: int)
    requires p in w.processes && w.processes[p].command.CancelCommand?
    ensures Decided(w, p, now, ReadStep(w, p, w.processes[p].command, now))
  {
    hide PassengersOf, ReleaseRequest;
  }

  lemma ReleaseReads(w: World, p: ProcessId, now: int)
    requires p in w.processes && w.processes[p].command.ReleaseCommand?
    ensures Decided(w, p, now, ReadStep(w, p, w.processes[p].command, now))
  {
    hide PassengersOf, ReleaseRequest;
  }

  /**
   What a process goes on to do is decided by the row and the clock when it reads: a payment is
   asked for before the hold's end and the departure, an expiry recorded only at or after one of
   them, a cancellation before the departure of a paid or issued booking, and a release sent for a
   cancelled one under the command's key. Everything else ends the command.
   */
  lemma ReadDecides(w: World, p: ProcessId, now: int)
    requires p in w.processes && w.processes[p].pc.Reading?
    ensures Decided(w, p, now, Do(w, Read(p, now)))
  {
    DoesRead(w, p, now);
    hide Do, ReadStep, Decided;
    match w.processes[p].command
    case PayCommand(_, _, _, _) => PayReads(w, p, now);
    case ExpireCommand(_, _) => ExpireReads(w, p, now);
    case CancelCommand(_, _, _) => CancelReads(w, p, now);
    case ReleaseCommand(_, _, _) => ReleaseReads(w, p, now);
  }

  // ---------------------------------------------------------------- what a run has seen

  /** Why a booking may be in the state it is in. */
  datatype Cause =
    | PaidAs(facts: Facts, key: string)
    | CancelledAs(facts: Facts, key: string)
    | OverFor(facts: Facts)

  /** The process reads this booking, its own, in the given state. */
  predicate ReadsBooking(w: World, e: Happening, facts: Facts, status: set<Status>) {
    && e.Read? && e.p in w.processes && w.processes[e.p].pc.Reading?
    && w.processes[e.p].command.bookingId == facts.id && w.processes[e.p].command.owner == facts.owner
    && facts.id in w.db.bookings && w.db.bookings[facts.id].facts == facts
    && w.db.bookings[facts.id].status in status
  }

  predicate Causes(w: World, e: Happening, cause: Cause) {
    var facts := cause.facts;
    match cause
    case PaidAs(_, key) =>
      && ReadsBooking(w, e, facts, {PENDING_PAYMENT})
      && w.processes[e.p].command.PayCommand? && w.processes[e.p].command.key == key
      && e.now < facts.holdExpiresAt && e.now < facts.departureAt
    case CancelledAs(_, key) =>
      && ReadsBooking(w, e, facts, {PAID, TICKET_ISSUED})
      && w.processes[e.p].command.CancelCommand? && w.processes[e.p].command.key == key
      && e.now < facts.departureAt
    case OverFor(_) =>
      || (&& ReadsBooking(w, e, facts, {PENDING_PAYMENT})
          && (w.processes[e.p].command.PayCommand? || w.processes[e.p].command.ExpireCommand?)
          && (facts.holdExpiresAt <= e.now || facts.departureAt <= e.now))
      || (&& e.HoldExpired? && e.p in w.processes && w.processes[e.p].pc.AwaitingConfirm?
          && w.processes[e.p].command.bookingId == facts.id)
  }

  predicate Happened(events: seq<Happening>, cause: Cause) {
    exists k :: 0 <= k < |events| && Causes(DoAll(IDLE, events[..k]), events[k], cause)
  }

  lemma StillHappened(events: seq<Happening>, e: Happening, cause: Cause)
    requires Happened(events, cause)
    ensures Happened(events + [e], cause)
  {
    hide DoAll, Causes;
    var k :| 0 <= k < |events| && Causes(DoAll(IDLE, events[..k]), events[k], cause);
    var more := events + [e];
    assert more[..k] == events[..k] && more[k] == events[k];
  }

  lemma HappensNow(events: seq<Happening>, e: Happening, cause: Cause)
    requires Causes(DoAll(IDLE, events), e, cause)
    ensures Happened(events + [e], cause)
  {
    hide DoAll, Causes;
    var more, k := events + [e], |events|;
    assert more[..k] == events && more[k] == e;
  }

  /** What has to have happened for a process to be where it is, ... */
  predicate PcJustified(events: seq<Happening>, process: Process) {
    var command := process.command;
    match process.pc
    case AwaitingAttempt(record) => command.PayCommand? && Happened(events, PaidAs(record.row.facts, command.key))
    case AwaitingConfirm(record, _) => command.PayCommand? && Happened(events, PaidAs(record.row.facts, command.key))
    case MarkingPaid(record, _, _) => command.PayCommand? && Happened(events, PaidAs(record.row.facts, command.key))
    case MarkingExpired(record) => Happened(events, OverFor(record.row.facts))
    case MarkingCancelled(record) =>
      command.CancelCommand? && Happened(events, CancelledAs(record.row.facts, command.key))
    case _ => true
  }

  /** ... and a booking in its state. */
  predicate RowJustified(events: seq<Happening>, b: Booking) {
    && (b.paymentKey.Some? ==> Happened(events, PaidAs(b.facts, b.paymentKey.value)))
    && (b.cancellationKey.Some? ==> Happened(events, CancelledAs(b.facts, b.cancellationKey.value)))
    && (b.status == EXPIRED ==> Happened(events, OverFor(b.facts)))
  }

  predicate ProcessJustified(events: seq<Happening>, w: World, p: ProcessId) {
    p in w.processes ==> PcJustified(events, w.processes[p])
  }

  predicate BookingJustified(events: seq<Happening>, w: World, id: Uuid) {
    id in w.db.bookings ==> RowJustified(events, w.db.bookings[id])
  }

  lemma PcStays(events: seq<Happening>, e: Happening, process: Process)
    requires PcJustified(events, process)
    ensures PcJustified(events + [e], process)
  {
    hide Happened;
    forall cause | Happened(events, cause) ensures Happened(events + [e], cause) { StillHappened(events, e, cause); }
  }

  lemma RowStays(events: seq<Happening>, e: Happening, b: Booking)
    requires RowJustified(events, b)
    ensures RowJustified(events + [e], b)
  {
    hide Happened;
    forall cause | Happened(events, cause) ensures Happened(events + [e], cause) { StillHappened(events, e, cause); }
  }

  // ---------------------------------------------------------------- every step keeps it

  /** A read that goes on has found the moment it needs. */
  lemma DecidedCause(w: World, p: ProcessId, now: int, w2: World)
    requires p in w.processes && w.processes[p].pc.Reading? && Decided(w, p, now, w2)
    requires var id := w.processes[p].command.bookingId; id in w.db.bookings ==> w.db.bookings[id].facts.id == id
    ensures
      var command, pc, e := w.processes[p].command, w2.processes[p].pc, Read(p, now);
      && (pc.AwaitingAttempt? ==> command.PayCommand? && Causes(w, e, PaidAs(pc.record.row.facts, command.key)))
      && (pc.MarkingExpired? ==> Causes(w, e, OverFor(pc.record.row.facts)))
      && (pc.MarkingCancelled? ==>
            command.CancelCommand? && Causes(w, e, CancelledAs(pc.record.row.facts, command.key)))
      && (pc.AwaitingAttempt? || pc.MarkingExpired? || pc.MarkingCancelled? || pc.AwaitingRelease? || pc.Done?)
  {
    hide PassengersOf, ReleaseRequest;
  }

  lemma ReadJustifies(events: seq<Happening>, p: ProcessId, now: int)
    requires var w := DoAll(IDLE, events); Inv(w) && p in w.processes && w.processes[p].pc.Reading?
    ensures var w2 := Do(DoAll(IDLE, events), Read(p, now));
      p in w2.processes && PcJustified(events + [Read(p, now)], w2.processes[p])
  {
    var w, e := DoAll(IDLE, events), Read(p, now);
    var command, w2 := w.processes[p].command, Do(w, Read(p, now));
    ReadDecides(w, p, now);
    var id := command.bookingId;
    if id in w.db.bookings {
      InvDb(w);
      assert OkFor(w.db, id);
      FactsHaveId(w.db, id);
    }
    KeepsCommand(w, p, now, w2);
    hide Do, DoAll, Inv, AllOk, OkFor, Decided, Happened, Causes;
    DecidedCause(w, p, now, w2);
    var pc := w2.processes[p].pc;
    if pc.AwaitingAttempt? { HappensNow(events, e, PaidAs(pc.record.row.facts, command.key)); }
    if pc.MarkingExpired? { HappensNow(events, e, OverFor(pc.record.row.facts)); }
    if pc.MarkingCancelled? { HappensNow(events, e, CancelledAs(pc.record.row.facts, command.key)); }
  }

  lemma KeepsCommand(w: World, p: ProcessId, now: int, w2: World)
    requires p in w.processes && Decided(w, p, now, w2)
    ensures p in w2.processes && w2.processes[p].command == w.processes[p].command
  {
  }

  lemma FactsHaveId(db: Db, id: Uuid)
    requires OkFor(db, id) && id in db.bookings
    ensures db.bookings[id].facts.id == id
  {
    hide BookingOk, RowsOf;
  }

  /** Every other step of a process goes on for the reason it had, or for the refusal it just heard. */
  lemma MoveJustifies(events: seq<Happening>, e: Happening, p: ProcessId)
    requires var w := DoAll(IDLE, events);
      && Inv(w) && ProcessJustified(events, w, p)
      && (e.Read? && p == e.p && p in w.processes ==> !w.processes[p].pc.Reading?)
    ensures ProcessJustified(events + [e], Do(DoAll(IDLE, events), e), p)
  {
    var w := DoAll(IDLE, events);
    if p in w.processes { PcStays(events, e, w.processes[p]); }
    if e.Other? || e.Start? || e.ServedUnheard? || p != ProcessOf(e) {
      Bystander(w, e, p);
    } else if p in w.processes {
      if e.HoldExpired? && w.processes[p].pc.AwaitingConfirm? {
        InvProcess(w, p);
        HappensNow(events, e, OverFor(w.processes[p].pc.record.row.facts)) by { hide DoAll, Inv; }
      }
      hide DoAll, Inv, Happened;
      Moves(events + [e], w, e);
    } else {
      Bystander(w, e, p);
    }
    hide DoAll, Do, Inv, Happened;
  }

  /** A step of another process, or none. */
  lemma Bystander(w: World, e: Happening, p: ProcessId)
    requires e.Other? || e.Start? || e.ServedUnheard? || p != ProcessOf(e) || p !in w.processes
    ensures p in Do(w, e).processes ==>
      (p in w.processes && Do(w, e).processes[p] == w.processes[p]) || Do(w, e).processes[p].pc.Locking?
  {
    if !e.Other? && !e.Start? && !e.ServedUnheard? && ProcessOf(e) in w.processes { ActsAlone(w, e, p); }
    hide DoProcess, Next, Serve, MayStart;
  }

  lemma ActsAlone(w: World, e: Happening, p: ProcessId)
    requires !e.Other? && !e.Start? && !e.ServedUnheard? && ProcessOf(e) in w.processes && p != ProcessOf(e)
    ensures var w2 := DoProcess(w, e, w.processes[ProcessOf(e)]);
      p in w2.processes ==> p in w.processes && w2.processes[p] == w.processes[p]
  {
    hide Serve, PaidTx, ExpiredTx, CancelledTx, MarkCancellationSeatsReleased, OwnedRow, PassengersOf;
    hide FreshEvent, ConfirmFor, ContentFor, ReleaseFor, WindowExpired;
  }

  lemma Moves(events: seq<Happening>, w: World, e: Happening)
    requires !e.Other? && !e.Start? && !e.ServedUnheard? && ProcessOf(e) in w.processes
    requires PcJustified(events, w.processes[ProcessOf(e)])
    requires e.Read? ==> !w.processes[e.p].pc.Reading?
    requires var pc := w.processes[ProcessOf(e)].pc;
      e.HoldExpired? && pc.AwaitingConfirm? ==> Happened(events, OverFor(pc.record.row.facts))
    ensures ProcessJustified(events, Do(w, e), ProcessOf(e))
  {
    hide Happened, Serve, PaidTx, ExpiredTx, CancelledTx, MarkCancellationSeatsReleased, PassengersOf, ReadStep;
    hide FreshEvent, ConfirmFor, ContentFor, ReleaseFor;
  }

  /** A payment, expiry or cancellation leaves these columns of every other booking alone. */
  predicate SameReasons(db: Db, after: Db, id: Uuid) {
    id in after.bookings ==>
      if id in db.bookings then
        var was, row := db.bookings[id], after.bookings[id];
        && row.facts == was.facts && row.paymentKey == was.paymentKey && row.cancellationKey == was.cancellationKey
        && (row.status == EXPIRED ==> was.status == EXPIRED)
      else
        var row := after.bookings[id];
        row.paymentKey == None && row.cancellationKey == None && row.status != EXPIRED
  }

  lemma OthersKeepReasons(db: Db, step: Step, id: Uuid)
    requires TakesNoLock(step)
    ensures SameReasons(db, Next(db, step), id)
  {
    match step
    case Create(_, _) => hide CreatesBooking, InsertPassengers, EnqueueBookingEvent;
    case Issue(_, _, _, _) => hide MatchesPassengers, InsertTickets, SameTicketReferences, Filter;
    case Admit(_) => hide CheckedInAt, Filter, HasCredential, CheckInByKey;
  }

  /** The four commits, as a change of one booking row. */
  predicate OneReason(db: Db, after: Db, id: Uuid, command: Command, pc: Pc, other: Uuid) {
    SameReasons(db, after, other) ||
    (&& other == id && id in db.bookings && id in after.bookings
     && var was, row := db.bookings[id], after.bookings[id];
        && row.facts == was.facts
        && match pc
           case MarkingPaid(_, _, _) =>
             && command.PayCommand? && row.paymentKey == Some(command.key)
             && row.cancellationKey == was.cancellationKey && row.status != EXPIRED
           case MarkingExpired(_) => row.paymentKey == was.paymentKey && row.cancellationKey == was.cancellationKey
           case MarkingCancelled(_) =>
             && command.CancelCommand? && row.cancellationKey == Some(command.key)
             && row.paymentKey == was.paymentKey && row.status != EXPIRED
           case _ => false)
  }

  lemma PaidReason(w: World, command: Command, pc: Pc, eventId: Uuid, other: Uuid)
    requires command.PayCommand? && pc.MarkingPaid?
    ensures var after := PaidTx(w, command, pc.record, pc.attempt, pc.at, eventId).db;
      OneReason(w.db, after, command.bookingId, command, pc, other)
  {
    hide EnqueueBookingEvent, DispatchOf;
  }

  lemma ExpiredReason(w: World, command: Command, pc: Pc, eventId: Uuid, at: int, actor: Actor, other: Uuid)
    requires pc.MarkingExpired?
    ensures var after := ExpiredTx(w, command, pc.record, eventId, at, actor).db;
      OneReason(w.db, after, command.bookingId, command, pc, other)
  {
    hide EnqueueBookingEvent, DispatchOf;
  }

  lemma CancelledReason(w: World, command: Command, pc: Pc, eventId: Uuid, at: int, other: Uuid)
    requires command.CancelCommand? && pc.MarkingCancelled?
    ensures OneReason(w.db, CancelledTx(w, command, pc.record, eventId, at).db, command.bookingId, command, pc, other)
  {
    hide EnqueueBookingEvent, DispatchOf;
  }

  lemma ReleasedReason(db: Db, id: Uuid, key: string, at: int, other: Uuid)
    ensures SameReasons(db, MarkCancellationSeatsReleased(db, id, key, at), other) && SameReasons(db, db, other)
  {
  }

  predicate IsCommit(e: Happening) { e.CommitPaid? || e.CommitExpired? || e.CommitCancelled? || e.CommitReleased? }

  lemma OnlyCommitsWrite(w: World, e: Happening)
    requires !e.Other? && !IsCommit(e)
    ensures Do(w, e).db == w.db
  {
    hide Serve, MayStart, OwnedRow, PassengersOf, WindowExpired, ConfirmFor, ContentFor, ReleaseFor;
  }

  lemma CommitHasReason(w: World, e: Happening, other: Uuid)
    requires !e.Other? && !e.Start? && !e.ServedUnheard? && ProcessOf(e) in w.processes
    ensures var process := w.processes[ProcessOf(e)];
      OneReason(w.db, Do(w, e).db, process.command.bookingId, process.command, process.pc, other)
  {
    var command, pc := w.processes[ProcessOf(e)].command, w.processes[ProcessOf(e)].pc;
    ReleasedReason(w.db, command.bookingId, KeyOf(command), if pc.MarkingReleased? then pc.at else 0, other);
    hide SameReasons;
    if !IsCommit(e) {
      OnlyCommitsWrite(w, e);
    } else {
      if e.CommitPaid? && pc.MarkingPaid? && command.PayCommand? { PaidReason(w, command, pc, e.eventId, other); }
      if e.CommitExpired? && pc.MarkingExpired? { ExpiredReason(w, command, pc, e.eventId, e.at, e.actor, other); }
      if e.CommitCancelled? && pc.MarkingCancelled? && command.CancelCommand? {
        CancelledReason(w, command, pc, e.eventId, e.at, other);
      }
      CommitWrites(w, e, other);
    }
    hide Do;
  }

  lemma CommitWrites(w: World, e: Happening, other: Uuid)
    requires IsCommit(e) && e.p in w.processes
    ensures
      var command, pc := w.processes[e.p].command, w.processes[e.p].pc;
      var after := Do(w, e).db;
      after == w.db || match e
        case CommitPaid(_, eventId) =>
          && pc.MarkingPaid? && command.PayCommand?
          && after == PaidTx(w, command, pc.record, pc.attempt, pc.at, eventId).db
        case CommitExpired(_, eventId, at, actor) =>
          pc.MarkingExpired? && after == ExpiredTx(w, command, pc.record, eventId, at, actor).db
        case CommitCancelled(_, eventId, at) =>
          && pc.MarkingCancelled? && command.CancelCommand?
          && after == CancelledTx(w, command, pc.record, eventId, at).db
        case _ =>
          after == MarkCancellationSeatsReleased(w.db, command.bookingId, KeyOf(command),
                                                 if pc.MarkingReleased? then pc.at else 0)
  {
    hide PaidTx, ExpiredTx, CancelledTx, MarkCancellationSeatsReleased, FreshEvent, ReleaseFor, PassengersOf;
  }

  lemma RowJustifies(events: seq<Happening>, e: Happening, id: Uuid)
    requires var w := DoAll(IDLE, events);
      Inv(w) && BookingJustified(events, w, id) && ProcessJustified(events, w, ProcessOf(e))
    ensures BookingJustified(events + [e], Do(DoAll(IDLE, events), e), id)
  {
    var w := DoAll(IDLE, events);
    var after := Do(w, e).db;
    if id in w.db.bookings { RowStays(events, e, w.db.bookings[id]); }
    if e.Other? {
      if TakesNoLock(e.step) { OthersKeepReasons(w.db, e.step, id); }
      DoesOther(w, e.step);
    } else if e.Start? || e.ServedUnheard? || ProcessOf(e) !in w.processes {
      DbStays(w, e);
    } else {
      var p := ProcessOf(e);
      InvProcess(w, p);
      CommitHasReason(w, e, id);
      PcStays(events, e, w.processes[p]);
      hide DoAll, Do, Inv, Happened, SameReasons, ProcessOk, OneReason, PcJustified, RowJustified;
      CommitJustifies(events + [e], w, after, p, id);
    }
    hide DoAll, Do, Inv, Happened;
    if SameReasons(w.db, after, id) { SameRow(events + [e], w.db, after, id); }
  }

  /** A committed move is justified by what had justified its process. */
  lemma CommitJustifies(events: seq<Happening>, w: World, after: Db, p: ProcessId, id: Uuid)
    requires p in w.processes && ProcessOk(w, p) && PcJustified(events, w.processes[p])
    requires OneReason(w.db, after, w.processes[p].command.bookingId, w.processes[p].command, w.processes[p].pc, id)
    requires id in w.db.bookings ==> RowJustified(events, w.db.bookings[id])
    ensures id in after.bookings ==> RowJustified(events, after.bookings[id])
  {
    hide Happened, SameReasons, ConfirmFor, IsSuccess, ReleaseRequest, PassengersOf;
    if SameReasons(w.db, after, id) {
      SameRow(events, w.db, after, id);
    } else {
      assert w.processes[p].pc.record.row.facts == w.db.bookings[id].facts;
    }
  }

  lemma SameRow(events: seq<Happening>, db: Db, after: Db, id: Uuid)
    requires SameReasons(db, after, id) && (id in db.bookings ==> RowJustified(events, db.bookings[id]))
    ensures id in after.bookings ==> RowJustified(events, after.bookings[id])
  {
    hide Happened;
  }

  lemma DoesOther(w: World, step: Step)
    ensures Do(w, Other(step)).db == if TakesNoLock(step) then Next(w.db, step) else w.db
  {
    hide Next;
  }

  lemma DbStays(w: World, e: Happening)
    requires e.Start? || e.ServedUnheard? || (!e.Other? && ProcessOf(e) !in w.processes)
    ensures Do(w, e).db == w.db
  {
    hide DoProcess, MayStart, Serve;
  }

  lemma {:induction false} Justified(events: seq<Happening>, p: ProcessId, id: Uuid)
    ensures ProcessJustified(events, DoAll(IDLE, events), p) && BookingJustified(events, DoAll(IDLE, events), id)
  {
    if events != [] {
      var init, e := events[..|events| - 1], events[|events| - 1];
      assert events == init + [e];
      Reachable(init);
      Justified(init, p, id);
      Justified(init, ProcessOf(e), id);
      hide Do, Inv, ProcessJustified, BookingJustified;
      RowJustifies(init, e, id);
      ProcessStepJustifies(init, e, p);
    }
  }

  lemma ProcessStepJustifies(events: seq<Happening>, e: Happening, p: ProcessId)
    requires Inv(DoAll(IDLE, events)) && ProcessJustified(events, DoAll(IDLE, events), p)
    ensures ProcessJustified(events + [e], Do(DoAll(IDLE, events), e), p)
  {
    var w := DoAll(IDLE, events);
    hide Do, DoAll, Inv, PcJustified;
    if e.Read? && p == e.p && p in w.processes && w.processes[p].pc.Reading? {
      ReadJustifies(events, p, e.now);
    } else {
      MoveJustifies(events, e, p);
    }
  }

  // ---------------------------------------------------------------- the moments

  /** Some process, reading the booking in this state under this command, found the clock at `now`. */
  predicate ReadAt(events: seq<Happening>, k: nat, facts: Facts, status: set<Status>, command: Command, now: int) {
    && k < |events| && events[k].Read? && events[k].now == now
    && var w, p := DoAll(IDLE, events[..k]), events[k].p;
       && p in w.processes && w.processes[p].command == command
       && facts.id in w.db.bookings && w.db.bookings[facts.id].facts == facts
       && w.db.bookings[facts.id].status in status
  }

  /** The seat inventory answered a payment of this booking that its hold had expired. */
  predicate RefusedAt(events: seq<Happening>, k: nat, id: Uuid) {
    && k < |events| && events[k].HoldExpired?
    && var w, p := DoAll(IDLE, events[..k]), events[k].p;
       p in w.processes && w.processes[p].command.bookingId == id && w.processes[p].pc.AwaitingConfirm?
  }

  /**
   In every reachable state, whatever crashed and whichever locks were lost: a booking ever paid was
   read by a payment command under the stored key while it was pending, before the end of its hold
   and before the departure; a cancelled one by a cancellation under the stored key while it was
   paid or issued, before the departure; and an expired one at or after one of the two instants,
   unless the seat inventory had refused its hold.
   */
  lemma MovesHaveTheirMoment(events: seq<Happening>, id: Uuid)
    requires id in DoAll(IDLE, events).db.bookings
    ensures
      var b := DoAll(IDLE, events).db.bookings[id];
      var facts := b.facts;
      && facts.id == id
      && (EverPaid(b.status) ==>
            exists k, command, now :: ReadAt(events, k, facts, {PENDING_PAYMENT}, command, now)
              && command.PayCommand? && Some(command.key) == b.paymentKey
              && now < facts.holdExpiresAt && now < facts.departureAt)
      && (b.status == CANCELLED ==>
            exists k, command, now :: ReadAt(events, k, facts, {PAID, TICKET_ISSUED}, command, now)
              && command.CancelCommand? && Some(command.key) == b.cancellationKey
              && now < facts.departureAt)
      && (b.status == EXPIRED ==>
            || (exists k :: RefusedAt(events, k, id))
            || exists k, command, now :: ReadAt(events, k, facts, {PENDING_PAYMENT}, command, now)
                 && (command.PayCommand? || command.ExpireCommand?)
                 && (facts.holdExpiresAt <= now || facts.departureAt <= now))
  {
    var w := DoAll(IDLE, events);
    var b := w.db.bookings[id];
    Reachable(events);
    Justified(events, 0, id);
    InvDb(w);
    assert OkFor(w.db, id);
    ColumnsHold(w.db, id);
    hide DoAll, Inv, AllOk, OkFor, Happened, ReadAt, RefusedAt;
    if EverPaid(b.status) { PaidMoment(events, b.facts, b.paymentKey.value); }
    if b.status == CANCELLED { CancelMoment(events, b.facts, b.cancellationKey.value); }
    if b.status == EXPIRED { OverMoment(events, b.facts); }
  }

  lemma PaidMoment(events: seq<Happening>, facts: Facts, key: string)
    requires Happened(events, PaidAs(facts, key))
    ensures exists k, command, now :: ReadAt(events, k, facts, {PENDING_PAYMENT}, command, now)
              && command.PayCommand? && command.key == key && now < facts.holdExpiresAt && now < facts.departureAt
  {
    hide DoAll;
    var k :| 0 <= k < |events| && Causes(DoAll(IDLE, events[..k]), events[k], PaidAs(facts, key));
    var command := DoAll(IDLE, events[..k]).processes[events[k].p].command;
    assert ReadAt(events, k, facts, {PENDING_PAYMENT}, command, events[k].now);
  }

  lemma CancelMoment(events: seq<Happening>, facts: Facts, key: string)
    requires Happened(events, CancelledAs(facts, key))
    ensures exists k, command, now :: ReadAt(events, k, facts, {PAID, TICKET_ISSUED}, command, now)
              && command.CancelCommand? && command.key == key && now < facts.departureAt
  {
    hide DoAll;
    var k :| 0 <= k < |events| && Causes(DoAll(IDLE, events[..k]), events[k], CancelledAs(facts, key));
    var command := DoAll(IDLE, events[..k]).processes[events[k].p].command;
    assert ReadAt(events, k, facts, {PAID, TICKET_ISSUED}, command, events[k].now);
  }

  lemma OverMoment(events: seq<Happening>, facts: Facts)
    requires Happened(events, OverFor(facts))
    ensures
      || (exists k :: RefusedAt(events, k, facts.id))
      || exists k, command, now :: ReadAt(events, k, facts, {PENDING_PAYMENT}, command, now)
           && (command.PayCommand? || command.ExpireCommand?)
           && (facts.holdExpiresAt <= now || facts.departureAt <= now)
  {
    hide DoAll;
    var k :| 0 <= k < |events| && Causes(DoAll(IDLE, events[..k]), events[k], OverFor(facts));
    if events[k].HoldExpired? {
      assert RefusedAt(events, k, facts.id);
    } else {
      var command := DoAll(IDLE, events[..k]).processes[events[k].p].command;
      assert ReadAt(events, k, facts, {PENDING_PAYMENT}, command, events[k].now);
    }
  }

  // ---------------------------------------------------------------- what the remote calls carry

  predicate SeatsOf(db: Db, id: Uuid, seats: seq<SeatId>) {
    && (forall i, j :: 0 <= i < j < |seats| ==> seats[i] <= seats[j])
    && multiset(seats) == multiset(Map(PassengersOf(db, id), (p: Passenger) => p.seatId))
  }

  lemma SeatsInAre(db: Db, id: Uuid)
    ensures SeatsOf(db, id, SeatsIn(PassengersOf(db, id)))
  {
    var passengers := PassengersOf(db, id);
    SortBySorted(Map(passengers, SeatOf), SeatOrder);
    SortByRows(Map(passengers, SeatOf), SeatOrder);
    assert Map(passengers, SeatOf) == Map(passengers, (p: Passenger) => p.seatId);
    hide SortBy, PassengersOf;
  }

  /**
   In every reachable state each confirmation asks for exactly the seats of its booking, in order,
   under the booking's hold, owner and trip and a successful attempt's id; and each release for exactly
   those seats of that trip.
   */
  lemma CallsNameTheSeats(events: seq<Happening>)
    ensures
      var w := DoAll(IDLE, events);
      && (forall c :: c in w.confirms ==>
            && c.bookingId in w.db.bookings && SeatsOf(w.db, c.bookingId, c.seatIds)
            && var facts := w.db.bookings[c.bookingId].facts;
               && c.holdToken == facts.holdToken && c.owner == facts.owner && c.tripId == facts.tripId
               && exists a :: a in w.ledger.attempts && a.id == c.key && a.status == SUCCEEDED
                              && a.bookingId == c.bookingId && a.amountVnd == facts.totalPriceVnd)
      && (forall r :: r in w.releases ==>
            && r.bookingId in w.db.bookings && SeatsOf(w.db, r.bookingId, r.seatIds)
            && r.tripId == w.db.bookings[r.bookingId].facts.tripId)
  {
    var w := DoAll(IDLE, events);
    Reachable(events);
    hide DoAll, SeatsOf, SeatsIn, PassengersOf, AllOk, PcOk;
    forall c | c in w.confirms
      ensures c.bookingId in w.db.bookings && SeatsOf(w.db, c.bookingId, c.seatIds)
      ensures
        var facts := w.db.bookings[c.bookingId].facts;
        && c.holdToken == facts.holdToken && c.owner == facts.owner && c.tripId == facts.tripId
        && exists a :: a in w.ledger.attempts && a.id == c.key && a.status == SUCCEEDED
                       && a.bookingId == c.bookingId && a.amountVnd == facts.totalPriceVnd
    {
      assert ConfirmOk(w, c);
      ConfirmCarries(w, c);
    }
    forall r | r in w.releases
      ensures r.bookingId in w.db.bookings && SeatsOf(w.db, r.bookingId, r.seatIds)
      ensures r.tripId == w.db.bookings[r.bookingId].facts.tripId
    {
      assert ReleaseOk(w, r);
      SeatsInAre(w.db, r.bookingId);
    }
  }

  lemma ConfirmCarries(w: World, c: ConfirmCall)
    requires ConfirmOk(w, c) && AttemptsOk(w.ledger)
    ensures c.bookingId in w.db.bookings && SeatsOf(w.db, c.bookingId, c.seatIds)
    ensures
      var facts := w.db.bookings[c.bookingId].facts;
      && c.holdToken == facts.holdToken && c.owner == facts.owner && c.tripId == facts.tripId
      && exists a :: a in w.ledger.attempts && a.id == c.key && a.status == SUCCEEDED
                     && a.bookingId == c.bookingId && a.amountVnd == facts.totalPriceVnd
  {
    var a :| a in w.ledger.attempts && IsConfirm(w, c, a);
    SeatsInAre(w.db, c.bookingId);
    assert WellFormed(a);
    hide SeatsOf, SeatsIn, PassengersOf;
  }
}
