/** What one undisturbed command does to its booking, from every reachable state: exactly when it succeeds. */
module CheckoutOutcomes {
  import opened Prelude
  import opened Bookings
  import opened BookingLifecycle
  import opened BookingInvariants
  import opened BookingTheorems
  import opened Payments
  import opened CheckoutSaga
  import opened SagaInvariants
  import opened SagaSteps
  import opened SagaTheorems
  import opened SagaRecovery
  import opened CheckoutMoments

  // ---------------------------------------------------------------- cancellation

  /** A new process takes the lock, reads the booking and, if it got that far, commits. */
  function Cancellation(p: ProcessId, command: Command, now: int, eventId: Uuid, at: int): seq<Happening> {
    [Start(p, command), Acquire(p)] + [Read(p, now)] + [CommitCancelled(p, eventId, at)]
  }

  lemma {:induction false} CancellationRun(w: World, p: ProcessId, command: Command, now: int, eventId: Uuid, at: int)
    ensures DoAll(w, Cancellation(p, command, now, eventId, at)) ==
      Do(Do(DoAll(w, [Start(p, command), Acquire(p)]), Read(p, now)), CommitCancelled(p, eventId, at))
  {
    hide Do, DoAll;
    var a := [Start(p, command), Acquire(p)];
    OneMoreEvent(w, a, Read(p, now));
    OneMoreEvent(w, a + [Read(p, now)], CommitCancelled(p, eventId, at));
  }

  lemma CancellationCommits(w: World, p: ProcessId, eventId: Uuid, at: int)
    requires p in w.processes && w.processes[p].pc.MarkingCancelled? && w.processes[p].command.CancelCommand?
    requires Finds(w, w.processes[p].command) && FreshEvent(w.db, eventId)
    requires w.db.bookings[w.processes[p].command.bookingId].status in {PAID, TICKET_ISSUED}
    ensures
      var command, w2 := w.processes[p].command, Do(w, CommitCancelled(p, eventId, at));
      var id := command.bookingId;
      var b := w.db.bookings[id];
      && w2.db.bookings == w.db.bookings[id :=
           b.(status := CANCELLED, cancelledAt := Some(at), cancellationKey := Some(command.key))]
      && w2.db.passengers == w.db.passengers
      && w2.releases == w.releases + [ReleaseRequest(b.facts, PassengersOf(w.db, id), command.key)]
  {
    CommitsCancellation(w, p, eventId, at);
    hide Do, FreshEvent, EnqueueBookingEvent, SeatsIn, Filter, DispatchOf;
  }

  lemma NoCancellation(w: World, p: ProcessId, eventId: Uuid, at: int)
    requires p in w.processes && !w.processes[p].pc.MarkingCancelled?
    ensures Do(w, CommitCancelled(p, eventId, at)) == w
  {
    hide AfterCancel, CancelledTx, FreshEvent;
  }

  /**
   From every reachable state: a customer's cancellation that finds the lock free cancels the booking
   if and only if it is the customer's own, paid or issued, and read before its departure. It then
   stores its key and instant and asks for the release of exactly the booking's seats; otherwise no
   booking changes, and a release is sent only for a booking cancelled under the same key before.
   */
  lemma CancelsIff(events: seq<Happening>, p: ProcessId, command: Command, now: int, eventId: Uuid, at: int)
    requires var w := DoAll(IDLE, events);
      && p !in w.processes && command.bookingId !in w.lock && FreshEvent(w.db, eventId)
      && command.CancelCommand? && command.owner.kind == CUSTOMER
    ensures
      var w, id := DoAll(IDLE, events), command.bookingId;
      var w2 := DoAll(w, Cancellation(p, command, now, eventId, at));
      if id in w.db.bookings && w.db.bookings[id].facts.owner == command.owner
         && w.db.bookings[id].status in {PAID, TICKET_ISSUED} && now < w.db.bookings[id].facts.departureAt
      then
        var b := w.db.bookings[id];
        && w2.db.bookings == w.db.bookings[id :=
             b.(status := CANCELLED, cancelledAt := Some(at), cancellationKey := Some(command.key))]
        && w2.releases == w.releases + [ReleaseRequest(b.facts, PassengersOf(w.db, id), command.key)]
      else
        && w2.db == w.db
        && (w2.releases != w.releases ==>
              id in w.db.bookings && w.db.bookings[id].status == CANCELLED
              && w.db.bookings[id].cancellationKey == Some(command.key) && w.db.bookings[id].seatsReleasedAt == None)
  {
    var w := DoAll(IDLE, events);
    Entered(w, p, command);
    CancellationRun(w, p, command, now, eventId, at);
    var inside := Inside(w, p, command);
    ReadDecides(inside, p, now);
    hide Do, DoAll, PassengersOf, ReleaseRequest, FreshEvent;
    var w1 := Do(inside, Read(p, now));
    if w1.processes[p].pc.MarkingCancelled? {
      CancellationCommits(w1, p, eventId, at);
    } else {
      NoCancellation(w1, p, eventId, at);
    }
  }

  // ---------------------------------------------------------------- expiry

  lemma ExpiryCommits(w: World, p: ProcessId, eventId: Uuid, at: int, actor: Actor)
    requires p in w.processes && w.processes[p].pc.MarkingExpired? && FreshEvent(w.db, eventId)
    requires Finds(w, w.processes[p].command)
    requires w.db.bookings[w.processes[p].command.bookingId].status == PENDING_PAYMENT
    ensures
      var w2, id := Do(w, CommitExpired(p, eventId, at, actor)), w.processes[p].command.bookingId;
      w2.db.bookings == w.db.bookings[id := w.db.bookings[id].(status := EXPIRED, expiredAt := Some(at))]
  {
    CommitsExpiry(w, p, eventId, at, actor);
    hide Do, FreshEvent, EnqueueBookingEvent, SeatsIn, Filter, DispatchOf;
  }

  lemma NoExpiry(w: World, p: ProcessId, eventId: Uuid, at: int, actor: Actor)
    requires p in w.processes && !w.processes[p].pc.MarkingExpired?
    ensures Do(w, CommitExpired(p, eventId, at, actor)) == w
  {
    hide ExpiredTx, FreshEvent;
  }

  /**
   From every reachable state: an expiry that finds the lock free expires the booking if and only if
   it is pending and was read at or after the end of its hold or its departure; otherwise no booking changes.
   */
  lemma ExpiresIff(events: seq<Happening>, p: ProcessId, command: Command, now: int, eventId: Uuid, at: int,
                   actor: Actor)
    requires var w := DoAll(IDLE, events);
      && p !in w.processes && command.bookingId !in w.lock && FreshEvent(w.db, eventId) && command.ExpireCommand?
    ensures
      var w, id := DoAll(IDLE, events), command.bookingId;
      var run := [Start(p, command), Acquire(p)] + [Read(p, now)] + [CommitExpired(p, eventId, at, actor)];
      var w2 := DoAll(w, run);
      if id in w.db.bookings && w.db.bookings[id].facts.owner == command.owner
         && w.db.bookings[id].status == PENDING_PAYMENT
         && (w.db.bookings[id].facts.holdExpiresAt <= now || w.db.bookings[id].facts.departureAt <= now)
      then w2.db.bookings == w.db.bookings[id := w.db.bookings[id].(status := EXPIRED, expiredAt := Some(at))]
      else w2.db == w.db
  {
    var w := DoAll(IDLE, events);
    Entered(w, p, command);
    hide DoAll;
    var a := [Start(p, command), Acquire(p)];
    OneMoreEvent(w, a, Read(p, now));
    OneMoreEvent(w, a + [Read(p, now)], CommitExpired(p, eventId, at, actor));
    var inside := Inside(w, p, command);
    ReadDecides(inside, p, now);
    hide Do, PassengersOf, ReleaseRequest, FreshEvent;
    var w1 := Do(inside, Read(p, now));
    if w1.processes[p].pc.MarkingExpired? {
      ExpiryCommits(w1, p, eventId, at, actor);
    } else {
      NoExpiry(w1, p, eventId, at, actor);
    }
  }

  // ---------------------------------------------------------------- payment

  /** A payment that is not asked for, or not answered with a success, leaves the bookings as they were. */
  lemma NoPayment(w: World, p: ProcessId, at: int, eventId: Uuid)
    requires p in w.processes && !w.processes[p].pc.AwaitingConfirm? && !w.processes[p].pc.MarkingPaid?
    ensures Do(Do(w, Confirmed(p, at)), CommitPaid(p, eventId)) == w
  {
    hide PaidTx, FreshEvent;
    assert Do(w, Confirmed(p, at)) == w;
  }

  lemma NotServed(w: World, p: ProcessId, attemptId: Uuid, at: int)
    requires p in w.processes && !w.processes[p].pc.AwaitingAttempt?
    ensures Do(w, Served(p, attemptId, at)) == w
  {
    hide ServedStep;
  }

  lemma RefusedPayment(w: World, p: ProcessId, attemptId: Uuid, at: int)
    requires p in w.processes && w.processes[p].pc.AwaitingAttempt? && w.processes[p].command.PayCommand?
    requires
      var command, facts := w.processes[p].command, w.processes[p].pc.record.row.facts;
      var out := Serve(w, PaymentRequest(ContentFor(facts, command.outcome), command.key), attemptId, at).out;
      out.Ok? ==> out.value.status == FAILED
    ensures var w2 := Do(w, Served(p, attemptId, at));
      w2.db == w.db && p in w2.processes && w2.processes[p].pc.Done?
  {
    DoesServe(w, p, attemptId, at);
    hide Do, CreatePaymentAttempt, ContentFor, ConfirmFor;
  }

  /** Only a storable amount, a successful outcome and a key without a failed attempt are answered with a success. */
  lemma SuccessNeeds(w: World, facts: Facts, outcome: Outcome, key: string, attemptId: Uuid, at: int)
    requires AttemptsOk(w.ledger)
    ensures
      var out := Serve(w, PaymentRequest(ContentFor(facts, outcome), key), attemptId, at).out;
      out.Ok? && out.value.status == SUCCEEDED ==>
        && outcome == SUCCESS && 1 <= facts.totalPriceVnd <= 2147483647
        && forall a :: a in w.ledger.attempts && a.bookingId == facts.id && a.key == key ==> a.status == SUCCEEDED
  {
    var request := PaymentRequest(ContentFor(facts, outcome), key);
    AnswerIsStored(w.ledger, request, attemptId, at);
    FindsByKey(w.ledger, facts.id, key);
    forall a | a in w.ledger.attempts && a.bookingId == facts.id && a.key == key && a.status == FAILED
      ensures
        var out := Serve(w, request, attemptId, at).out;
        out.Ok? ==> out.value.status == FAILED
    {
      assert WellFormed(a);
    }
    hide CreateOrReplayAttempt, FindByIdempotency;
  }

  /**
   From every reachable state: a payment command that finds the lock free, and whose confirmation is
   granted, makes the booking PAID if and only if the booking is the owner's, pending, read before
   the end of its hold and before its departure, the payment is meant to succeed, its total is one the
   payment service takes, and its key names no failed attempt; otherwise no booking changes.
   */
  lemma PaysIff(events: seq<Happening>, p: ProcessId, command: Command, now: int, attemptId: Uuid, at: int,
                eventId: Uuid)
    requires var w := DoAll(IDLE, events);
      && p !in w.processes && command.PayCommand? && command.bookingId !in w.lock
      && FreshAttempt(w.ledger, attemptId) && FreshEvent(w.db, eventId)
    ensures
      var w, id := DoAll(IDLE, events), command.bookingId;
      var w2 := DoAll(w, Recovery(p, command, now, attemptId, at, eventId));
      if id in w.db.bookings && w.db.bookings[id].facts.owner == command.owner
         && w.db.bookings[id].status == PENDING_PAYMENT
         && now < w.db.bookings[id].facts.holdExpiresAt && now < w.db.bookings[id].facts.departureAt
         && command.outcome == SUCCESS && 1 <= w.db.bookings[id].facts.totalPriceVnd <= 2147483647
         && forall a :: a in w.ledger.attempts && a.bookingId == id && a.key == command.key ==> a.status == SUCCEEDED
      then id in w2.db.bookings && w2.db.bookings[id].status == PAID
      else w2.db == w.db
  {
    var w, id := DoAll(IDLE, events), command.bookingId;
    RowHasId(events, id);
    Entered(w, p, command);
    RecoveryRun(w, p, command, now, attemptId, at, eventId);
    var inside := Inside(w, p, command);
    ReadDecides(inside, p, now);
    hide Do, DoAll, Inv, PassengersOf, ReleaseRequest, FreshEvent, FreshAttempt, Recovery, Decided, WillName;
    hide AttemptsOk;
    var w1 := Do(inside, Read(p, now));
    AsksWhen(inside, p, now, w1);
    if !w1.processes[p].pc.AwaitingAttempt? {
      NotServed(w1, p, attemptId, at);
      NoPayment(w1, p, at, eventId);
    } else {
      PaysOrNot(events, p, command, now, attemptId, at, eventId, w1);
    }
  }

  lemma RowHasId(events: seq<Happening>, id: Uuid)
    ensures var w := DoAll(IDLE, events);
      AttemptsOk(w.ledger) && (id in w.db.bookings ==> w.db.bookings[id].facts.id == id)
  {
    var w := DoAll(IDLE, events);
    Reachable(events);
    InvDb(w);
    assert OkFor(w.db, id);
    hide DoAll, Inv, BookingOk, RowsOf;
  }

  lemma {:induction false} RecoveryRun(w: World, p: ProcessId, command: Command, now: int, attemptId: Uuid, at: int,
                                       eventId: Uuid)
    ensures DoAll(w, Recovery(p, command, now, attemptId, at, eventId)) ==
      Do(Do(Do(Do(DoAll(w, [Start(p, command), Acquire(p)]), Read(p, now)), Served(p, attemptId, at)),
            Confirmed(p, at)), CommitPaid(p, eventId))
  {
    AskingRun(w, p, command, now, attemptId, at);
    hide Do, DoAll, Asking;
    var asking := Asking(p, command, now, attemptId, at);
    OneMoreEvent(w, asking, Confirmed(p, at));
    OneMoreEvent(w, asking + [Confirmed(p, at)], CommitPaid(p, eventId));
  }

  /** When a payment command goes on to ask, for its own booking. */
  lemma AsksWhen(w: World, p: ProcessId, now: int, w1: World)
    requires p in w.processes && w.processes[p].command.PayCommand? && Decided(w, p, now, w1)
    ensures
      var command, id := w.processes[p].command, w.processes[p].command.bookingId;
      && p in w1.processes && w1.processes[p].command == command && w1.db == w.db && w1.ledger == w.ledger
      && !w1.processes[p].pc.AwaitingConfirm? && !w1.processes[p].pc.MarkingPaid?
      && (w1.processes[p].pc.AwaitingAttempt? <==>
            && Finds(w, command) && w.db.bookings[id].status == PENDING_PAYMENT
            && now < w.db.bookings[id].facts.holdExpiresAt && now < w.db.bookings[id].facts.departureAt)
      && (w1.processes[p].pc.AwaitingAttempt? ==> w1.processes[p].pc.record.row == w.db.bookings[id])
  {
    hide PassengersOf, ReleaseRequest;
  }

  lemma PaysOrNot(events: seq<Happening>, p: ProcessId, command: Command, now: int, attemptId: Uuid, at: int,
                  eventId: Uuid, w1: World)
    requires
      var w, id := DoAll(IDLE, events), command.bookingId;
      && p !in w.processes && command.PayCommand? && id !in w.lock && AttemptsOk(w.ledger)
      && FreshAttempt(w.ledger, attemptId) && FreshEvent(w.db, eventId)
      && Finds(w, command) && w.db.bookings[id].status == PENDING_PAYMENT && w.db.bookings[id].facts.id == id
      && now < w.db.bookings[id].facts.holdExpiresAt && now < w.db.bookings[id].facts.departureAt
      && p in w1.processes && w1.processes[p].command == command && w1.db == w.db && w1.ledger == w.ledger
      && w1.processes[p].pc.AwaitingAttempt? && w1.processes[p].pc.record.row == w.db.bookings[id]
      && DoAll(w, Recovery(p, command, now, attemptId, at, eventId)) ==
           Do(Do(Do(w1, Served(p, attemptId, at)), Confirmed(p, at)), CommitPaid(p, eventId))
    ensures
      var w, id := DoAll(IDLE, events), command.bookingId;
      var w2 := DoAll(w, Recovery(p, command, now, attemptId, at, eventId));
      if command.outcome == SUCCESS && 1 <= w.db.bookings[id].facts.totalPriceVnd <= 2147483647
         && forall a :: a in w.ledger.attempts && a.bookingId == id && a.key == command.key ==> a.status == SUCCEEDED
      then id in w2.db.bookings && w2.db.bookings[id].status == PAID
      else w2.db == w.db
  {
    var w, id := DoAll(IDLE, events), command.bookingId;
    var facts := w.db.bookings[id].facts;
    hide Do, DoAll, FreshEvent, FreshAttempt, Recovery, WillName, CreatePaymentAttempt, ContentFor, AttemptsOk;
    if command.outcome == SUCCESS && 1 <= facts.totalPriceVnd <= 2147483647
       && forall a :: a in w.ledger.attempts && a.bookingId == id && a.key == command.key ==> a.status == SUCCEEDED
    {
      RecoveryPays(events, p, id, command.key, now, attemptId, at, eventId);
      assert command == PayCommand(id, facts.owner, SUCCESS, command.key);
    } else {
      SuccessNeeds(w, facts, command.outcome, command.key, attemptId, at);
      RefusedPayment(w1, p, attemptId, at);
      NoPayment(Do(w1, Served(p, attemptId, at)), p, at, eventId);
    }
  }

  // ---------------------------------------------------------------- releasing the seats

  /** The reconciler's process: it reads the cancelled booking, is answered, and records the release. */
  function Releasing(p: ProcessId, command: Command, now: int, at: int): seq<Happening> {
    [Start(p, command), Acquire(p)] + [Read(p, now)] + [Released(p, at)] + [CommitReleased(p)]
  }

  lemma {:induction false} ReleasingRun(w: World, p: ProcessId, command: Command, now: int, at: int)
    ensures DoAll(w, Releasing(p, command, now, at)) ==
      Do(Do(Do(DoAll(w, [Start(p, command), Acquire(p)]), Read(p, now)), Released(p, at)), CommitReleased(p))
  {
    hide Do, DoAll;
    var a := [Start(p, command), Acquire(p)];
    OneMoreEvent(w, a, Read(p, now));
    OneMoreEvent(w, a + [Read(p, now)], Released(p, at));
    OneMoreEvent(w, a + [Read(p, now)] + [Released(p, at)], CommitReleased(p));
  }

  lemma CommitsRelease(w: World, p: ProcessId, at: int)
    requires p in w.processes && w.processes[p].pc.AwaitingRelease? && w.processes[p].command.ReleaseCommand?
    requires Finds(w, w.processes[p].command)
    ensures
      var command, id, w2 := w.processes[p].command, w.processes[p].command.bookingId,
                             Do(Do(w, Released(p, at)), CommitReleased(p));
      var b := w.db.bookings[id];
      && w2.releases == w.releases && w2.db == w.db.(bookings := w2.db.bookings)
      && w2.db.bookings == w.db.bookings[id := b.(seatsReleasedAt :=
           if b.status == CANCELLED && b.cancellationKey == Some(command.key) && b.seatsReleasedAt == None
           then Some(at) else b.seatsReleasedAt)]
  {
    var w1 := Do(w, Released(p, at));
    assert w1 == Goto(w, p, MarkingReleased(w.processes[p].pc.record, at));
    var id := w.processes[p].command.bookingId;
    assert w.db.bookings[id := w.db.bookings[id]] == w.db.bookings;
  }

  /**
   From every reachable state: a release the reconciler asks for, once it finds the lock free and is
   answered, has sent one request with the stored key and the booking's seats, and the instant of the
   first such answer stays with the booking.
   */
  lemma ReleasesOnce(events: seq<Happening>, p: ProcessId, command: Command, now: int, at: int)
    requires var w := DoAll(IDLE, events);
      && p !in w.processes && command.ReleaseCommand? && command.bookingId !in w.lock && MayStart(w.db, command)
    ensures
      var w, id := DoAll(IDLE, events), command.bookingId;
      var w2, b := DoAll(w, Releasing(p, command, now, at)), w.db.bookings[id];
      && b.status == CANCELLED && b.cancellationKey == Some(command.key)
      && w2.releases == w.releases + [ReleaseRequest(b.facts, PassengersOf(w.db, id), command.key)]
      && w2.db.bookings == w.db.bookings[id := b.(seatsReleasedAt :=
           if b.seatsReleasedAt == None then Some(at) else b.seatsReleasedAt)]
  {
    var w := DoAll(IDLE, events);
    Entered(w, p, command);
    ReleasingRun(w, p, command, now, at);
    var inside := Inside(w, p, command);
    ReadDecides(inside, p, now);
    hide Do, DoAll, PassengersOf, ReleaseRequest;
    CommitsRelease(Do(inside, Read(p, now)), p, at);
  }
}
