/** What holds in every run of checkout processes, with crashes, lost replies and lost locks. */
module SagaTheorems {
  import opened Prelude
  import opened Bookings
  import opened BookingLifecycle
  import opened BookingInvariants
  import opened BookingTheorems
  import opened BookingAccounts
  import opened Payments
  import opened CheckoutSaga
  import opened SagaInvariants
  import opened SagaSteps

  /** The one booking transaction an event runs, if it runs any. */
  predicate RunsOne(db: Db, after: Db, step: Option<Step>) {
    after == match step case None => db case Some(s) => Next(db, s)
  }

  lemma ProcessKeeps(w: World, e: Happening) returns (step: Option<Step>)
    requires Inv(w) && !e.Other? && !e.Start? && !e.ServedUnheard? && ProcessOf(e) in w.processes
    ensures Inv(DoProcess(w, e, w.processes[ProcessOf(e)]))
    ensures RunsOne(w.db, DoProcess(w, e, w.processes[ProcessOf(e)]).db, step)
  {
    hide Inv, Next, Dispatches, PaidTx, ExpiredTx, CancelledTx, ReadStep, ServedStep, ProcessOk, FreshEvent;
    var p, process := ProcessOf(e), w.processes[ProcessOf(e)];
    var command := process.command;
    step := None;
    match (e, process.pc)
    case (Acquire(_), Locking) => AcquireKeeps(w, p);
    case (Read(_, now), Reading) => ReadKeeps(w, p, now); ReadOnly(w, p, now);
    case (Served(_, id, at), AwaitingAttempt(_)) => ServedKeeps(w, p, id, at); ServedOnly(w, e);
    case (Confirmed(_, at), AwaitingConfirm(_, _)) => ConfirmedKeeps(w, p, at);
    case (HoldExpired(_), AwaitingConfirm(record, _)) => HoldExpiredKeeps(w, p);
    case (CommitPaid(_, eventId), MarkingPaid(record, attempt, at)) =>
      if command.PayCommand? && FreshEvent(w.db, eventId) {
        step := Some(PayStep(command, record, attempt, at, eventId));
        CommitPaidKeeps(w, p, eventId);
      }
    case (CommitExpired(_, eventId, at, actor), MarkingExpired(record)) =>
      if FreshEvent(w.db, eventId) {
        step := Some(ExpireStep(command, record, eventId, at, actor));
        CommitExpiredKeeps(w, p, eventId, at, actor);
      }
    case (CommitCancelled(_, eventId, at), MarkingCancelled(record)) =>
      if command.CancelCommand? && FreshEvent(w.db, eventId) {
        step := Some(CancelStep(command, record, eventId, at));
        CommitCancelledKeeps(w, p, eventId, at);
      }
    case (Released(_, at), AwaitingRelease(_)) => ReleasedKeeps(w, p, at);
    case (CommitReleased(_), MarkingReleased(_, at)) =>
      if command.CancelCommand? || command.ReleaseCommand? {
        step := Some(SeatsReleased(command.bookingId, command.key, at));
        CommitReleasedKeeps(w, p, at);
        ReleasedIsNext(w.db, command.bookingId, command.key, at);
      }
    case (Throws(_), pc) => if pc.Locking? { GoneKeeps(w, p); } else { GotoDone(w, p); }
    case (Unlock(_), Done) => GoneKeeps(w, p);
    case (Crash(_), _) => GoneKeeps(w, p);
    case (LoseLock(_), _) => LoseLockKeeps(w, p);
    case _ =>
  }

  lemma ReleasedIsNext(db: Db, id: Uuid, key: string, at: int)
    ensures Next(db, SeatsReleased(id, key, at)) == MarkCancellationSeatsReleased(db, id, key, at)
  {
  }

  lemma ReadOnly(w: World, p: ProcessId, now: int)
    requires p in w.processes
    ensures ReadStep(w, p, w.processes[p].command, now).db == w.db
  {
  }

  lemma ServedOnly(w: World, e: Happening)
    requires e.Served? && e.p in w.processes
    ensures DoProcess(w, e, w.processes[e.p]).db == w.db
  {
  }

  lemma HoldExpiredKeeps(w: World, p: ProcessId)
    requires Inv(w) && p in w.processes && w.processes[p].pc.AwaitingConfirm?
    ensures Inv(Goto(w, p, MarkingExpired(w.processes[p].pc.record)))
  {
    InvProcess(w, p);
    hide Inv;
    GotoKeeps(w, p, MarkingExpired(w.processes[p].pc.record));
  }

  lemma ReleasedKeeps(w: World, p: ProcessId, at: int)
    requires Inv(w) && p in w.processes && w.processes[p].pc.AwaitingRelease?
    ensures Inv(Goto(w, p, MarkingReleased(w.processes[p].pc.record, at)))
  {
    InvProcess(w, p);
    hide Inv;
    GotoKeeps(w, p, MarkingReleased(w.processes[p].pc.record, at));
  }

  lemma DoKeeps(w: World, e: Happening) returns (step: Option<Step>)
    requires Inv(w)
    ensures Inv(Do(w, e)) && RunsOne(w.db, Do(w, e).db, step)
  {
    hide Inv, Next, DoProcess, Serve;
    step := None;
    match e
    case Other(s) => if TakesNoLock(s) { OtherKeeps(w, s); step := Some(s); }
    case Start(p, command) => StartKeeps(w, p, command);
    case ServedUnheard(i, id, at) => if i < |w.requests| { ServedUnheardKeeps(w, i, id, at); }
    case _ => if ProcessOf(e) in w.processes { step := ProcessKeeps(w, e); }
  }

  lemma IdleOk()
    ensures Inv(IDLE)
  {
    forall p ensures ProcessOk(IDLE, p) {}
    forall id ensures PaidOk(IDLE, id) {}
    forall id ensures OkFor(EMPTY_DB, id) {}
  }

  /** However the processes interleave, crash or lose their locks, the tables see a run of transactions. */
  lemma {:induction false} SagaIsALifecycleRun(events: seq<Happening>) returns (steps: seq<Step>)
    ensures Inv(DoAll(IDLE, events))
    ensures DoAll(IDLE, events).db == Run(EMPTY_DB, steps)
  {
    hide Inv, Next, Do;
    if events == [] {
      IdleOk();
      steps := [];
    } else {
      steps := SagaIsALifecycleRun(events[..|events| - 1]);
      var step := DoKeeps(DoAll(IDLE, events[..|events| - 1]), events[|events| - 1]);
      if step.Some? {
        assert (steps + [step.value])[..|steps|] == steps;
        steps := steps + [step.value];
      }
    }
  }

  lemma {:induction false} Reachable(events: seq<Happening>)
    ensures Inv(DoAll(IDLE, events))
  {
    hide Inv, Do, Next;
    var _ := SagaIsALifecycleRun(events);
  }

  // ---------------------------------------------------------------- payment

  lemma OneSuccess(ledger: Ledger, facts: Facts, a: Attempt, b: Attempt)
    requires AttemptsOk(ledger) && IsSuccess(ledger, facts, a) && b in ledger.attempts
    requires b.status == SUCCEEDED && b.bookingId == facts.id
    ensures a == b
  {
    assert WellFormed(a);
    Unique(ledger, a, b);
  }

  /**
   A booking that was ever paid names the one successful attempt of that booking. The attempt
   has the booking's owner and its total price, and the seat inventory confirmed the seats
   under its id.
   */
  lemma {:induction false} PaidNamesItsAttempt(events: seq<Happening>, id: Uuid)
    requires var db := DoAll(IDLE, events).db; id in db.bookings && EverPaid(db.bookings[id].status)
    ensures
      var w := DoAll(IDLE, events);
      var facts := w.db.bookings[id].facts;
      exists a :: a in w.ledger.attempts
        && w.db.bookings[id].paidAttemptId == Some(a.id)
        && a.status == SUCCEEDED && a.bookingId == id && a.owner == facts.owner && a.amountVnd == facts.totalPriceVnd
        && (exists c :: c in w.confirms && c.key == a.id)
        && a.id in w.confirmed
        && forall b :: b in w.ledger.attempts && b.bookingId == id && b.status == SUCCEEDED ==> b == a
  {
    Reachable(events);
    var w := DoAll(IDLE, events);
    assert OkFor(w.db, id);
    ColumnsHold(w.db, id);
    assert PaidOk(w, id);
    var a :| a in w.ledger.attempts && PaidWith(w, id, a);
    assert WellFormed(a);
    assert GrantOk(w, a.id);
    forall b | b in w.ledger.attempts && b.bookingId == id && b.status == SUCCEEDED ensures b == a {
      OneSuccess(w.ledger, w.db.bookings[id].facts, a, b);
    }
  }

  /** Every confirmation ever sent for a booking is the same request: one key, one seat set. */
  lemma ConfirmationsAgree(events: seq<Happening>, c: ConfirmCall, d: ConfirmCall)
    requires c in DoAll(IDLE, events).confirms && d in DoAll(IDLE, events).confirms && c.bookingId == d.bookingId
    ensures c == d
  {
    Reachable(events);
    var w := DoAll(IDLE, events);
    hide DoAll, AllOk, AttemptsOk, SeatsIn;
    assert ConfirmOk(w, c) && ConfirmOk(w, d);
    var a :| a in w.ledger.attempts && IsConfirm(w, c, a);
    var b :| b in w.ledger.attempts && IsConfirm(w, d, b);
    SameSuccess(w, c, d, a, b);
  }

  lemma SameSuccess(w: World, c: ConfirmCall, d: ConfirmCall, a: Attempt, b: Attempt)
    requires Inv(w) && IsConfirm(w, c, a) && IsConfirm(w, d, b) && c.bookingId == d.bookingId
    ensures a == b
  {
    assert WellFormed(b);
    OneSuccess(w.ledger, w.db.bookings[c.bookingId].facts, a, b);
  }

  /**
   Whatever crashed before, a process that asks again for a booking whose payment had
   succeeded is answered with that same attempt, under any key that does not already name
   another attempt of the booking, and nothing is added to the payment table.
   */
  lemma {:induction false} RetryIsAnsweredAlike(events: seq<Happening>, p: ProcessId, success: Attempt, id: Uuid,
                                                at: int)
    requires var w := DoAll(IDLE, events);
      && p in w.processes && w.processes[p].pc.AwaitingAttempt? && w.processes[p].command.PayCommand?
      && w.processes[p].command.outcome == SUCCESS
      && success in w.ledger.attempts && success.status == SUCCEEDED
      && success.bookingId == w.processes[p].command.bookingId
    ensures
      var w := DoAll(IDLE, events);
      var w2, process := Do(w, Served(p, id, at)), w.processes[p];
      && w2.ledger == w.ledger
      && (w2.processes[p].pc == AwaitingConfirm(process.pc.record, success) <==>
            forall a :: a in w.ledger.attempts && a.bookingId == success.bookingId && a.key == process.command.key ==>
              a == success)
  {
    Reachable(events);
    var w := DoAll(IDLE, events);
    hide DoAll, AllOk, SeatsIn, PaidOk;
    var process := w.processes[p];
    assert ProcessOk(w, p);
    assert ContentOk(w.db, success.content);
    assert WellFormed(success);
    var request := PaymentRequest(ContentFor(process.pc.record.row.facts, SUCCESS), process.command.key);
    RetryGetsTheSuccess(w.ledger, success, request, id, at);
    hide CreatePaymentAttempt, AttemptsOk;
  }

  /** While a payment is in progress and its lock is kept, no expiry, cancellation or other payment gets in. */
  lemma {:induction false} PaymentHoldsTheBooking(events: seq<Happening>, p: ProcessId)
    requires var w := DoAll(IDLE, events);
      && p in w.processes && w.processes[p].command.bookingId !in w.lost
      && (w.processes[p].pc.AwaitingAttempt? || w.processes[p].pc.AwaitingConfirm? || w.processes[p].pc.MarkingPaid?)
    ensures var w := DoAll(IDLE, events);
      Unpaid(w.db, w.processes[p].command.bookingId)
  {
    Reachable(events);
    hide DoAll, AllOk, AttemptsOk;
    assert ProcessOk(DoAll(IDLE, events), p);
  }

  /** A confirmed payment that keeps its lock is recorded: the booking becomes PAID and names the attempt. */
  lemma {:induction false} ConfirmedPaymentIsRecorded(events: seq<Happening>, p: ProcessId, eventId: Uuid)
    requires var w := DoAll(IDLE, events);
      && p in w.processes && w.processes[p].command.bookingId !in w.lost && w.processes[p].pc.MarkingPaid?
      && FreshEvent(w.db, eventId)
    ensures
      var w := DoAll(IDLE, events);
      var after, id := Do(w, CommitPaid(p, eventId)).db, w.processes[p].command.bookingId;
      && id in after.bookings && after.bookings[id].status == PAID
      && after.bookings[id].paidAttemptId == Some(w.processes[p].pc.attempt.id)
  {
    Reachable(events);
    hide DoAll, AllOk, AttemptsOk, FreshEvent;
    var w := DoAll(IDLE, events);
    assert ProcessOk(w, p);
    CommitsPayment(w, p, eventId);
    hide Do, SeatsIn, EnqueueBookingEvent, Filter;
  }

  lemma CommitsPayment(w: World, p: ProcessId, eventId: Uuid)
    requires p in w.processes && w.processes[p].pc.MarkingPaid? && w.processes[p].command.PayCommand?
    requires FreshEvent(w.db, eventId)
    ensures var pc := w.processes[p].pc;
      Do(w, CommitPaid(p, eventId)) ==
        Goto(w.(db := PaidTx(w, w.processes[p].command, pc.record, pc.attempt, pc.at, eventId).db), p, Done)
  {
    hide PaidTx, FreshEvent;
  }

  // ---------------------------------------------------------------- who holds a lock

  /** A process that is past its lock statement for this booking. */
  predicate InsideLock(w: World, p: ProcessId, id: Uuid) {
    p in w.processes && w.processes[p].command.bookingId == id && !w.processes[p].pc.Locking?
  }

  predicate LocksAreOwned(w: World) {
    forall id :: id in w.lock ==> InsideLock(w, w.lock[id], id)
  }

  predicate TouchesLocks(e: Happening) {
    e.Acquire? || e.Throws? || e.Unlock? || e.Crash? || e.LoseLock?
  }

  lemma LocksTouched(w: World, e: Happening)
    requires LocksAreOwned(w) && TouchesLocks(e)
    ensures LocksAreOwned(Do(w, e))
  {
  }

  lemma LocksUntouched(w: World, e: Happening)
    requires LocksAreOwned(w) && !TouchesLocks(e)
    ensures LocksAreOwned(Do(w, e))
  {
    hide DoProcess, Next, Serve, MayStart;
    if !e.Other? && !e.Start? && !e.ServedUnheard? && ProcessOf(e) in w.processes {
      MovesInside(w, e, w.processes[ProcessOf(e)]);
    }
  }

  /** Between its lock statement and its end a process stays inside. */
  lemma MovesInside(w: World, e: Happening, process: Process)
    requires LocksAreOwned(w) && !TouchesLocks(e)
    requires ProcessOf(e) in w.processes && process == w.processes[ProcessOf(e)]
    ensures LocksAreOwned(DoProcess(w, e, process))
  {
    hide PaidTx, ExpiredTx, CancelledTx, MarkCancellationSeatsReleased, OwnedRow, PassengersOf;
    hide Serve, FreshEvent, WindowExpired, ConfirmFor, ReleaseFor, ContentFor;
  }

  lemma LocksStayOwned(w: World, e: Happening)
    requires LocksAreOwned(w)
    ensures LocksAreOwned(Do(w, e))
  {
    if TouchesLocks(e) { LocksTouched(w, e); } else { LocksUntouched(w, e); }
    hide Do, LocksAreOwned;
  }

  lemma {:induction false} LocksOwned(events: seq<Happening>)
    ensures LocksAreOwned(DoAll(IDLE, events))
  {
    hide Do;
    if events != [] {
      LocksOwned(events[..|events| - 1]);
      LocksStayOwned(DoAll(IDLE, events[..|events| - 1]), events[|events| - 1]);
    }
  }

  /** A lock that was never lost is taken exactly while some process is inside it. */
  lemma {:induction false} LockIsTakenExactlyWhileInside(events: seq<Happening>, id: Uuid)
    requires id !in DoAll(IDLE, events).lost
    ensures var w := DoAll(IDLE, events);
      id in w.lock <==> exists p :: p in w.processes && InsideLock(w, p, id)
  {
    var w := DoAll(IDLE, events);
    Reachable(events);
    LocksOwned(events);
    hide DoAll, AllOk, AttemptsOk, LogsOk, PcOk, CommandOk;
    forall p | p in w.processes && InsideLock(w, p, id) ensures id in w.lock {
      assert ProcessOk(w, p);
    }
    if id in w.lock { assert InsideLock(w, w.lock[id], id); }
  }

  // ---------------------------------------------------------------- cancellation

  /**
   Booked seats are only ever released for a cancelled booking, with that booking's seats;
   and if its lock was never lost, always under the key stored with the cancellation.
   */
  lemma ReleasesAreSafe(events: seq<Happening>, r: ReleaseCall)
    requires r in DoAll(IDLE, events).releases
    ensures
      var w := DoAll(IDLE, events);
      && r.bookingId in w.db.bookings && w.db.bookings[r.bookingId].status == CANCELLED
      && r == ReleaseRequest(w.db.bookings[r.bookingId].facts, PassengersOf(w.db, r.bookingId), r.key)
      && (r.bookingId !in w.lost ==> w.db.bookings[r.bookingId].cancellationKey == Some(r.key))
  {
    Reachable(events);
    var w := DoAll(IDLE, events);
    hide DoAll, AllOk, AttemptsOk, SeatsIn;
    assert ReleaseOk(w, r);
  }

  /** While the lock is kept, every release of one booking is the same request. */
  lemma ReleasesAgree(events: seq<Happening>, r: ReleaseCall, s: ReleaseCall)
    requires r in DoAll(IDLE, events).releases && s in DoAll(IDLE, events).releases
    requires r.bookingId == s.bookingId && r.bookingId !in DoAll(IDLE, events).lost
    ensures r == s
  {
    ReleasesAreSafe(events, r);
    ReleasesAreSafe(events, s);
  }

  /**
   The step that starts a release after a cancellation sends the stored key if and only if the
   booking was not already cancelled under another key: what losing the lock can break.
   */
  lemma CancellationReleasesUnderStoredKey(events: seq<Happening>, p: ProcessId, eventId: Uuid, at: int)
    requires var w := DoAll(IDLE, events);
      && p in w.processes && w.processes[p].pc.MarkingCancelled? && w.processes[p].command.CancelCommand?
      && FreshEvent(w.db, eventId)
      && Do(w, CommitCancelled(p, eventId, at)).processes[p].pc.AwaitingRelease?
    ensures
      var w := DoAll(IDLE, events);
      var w2, command := Do(w, CommitCancelled(p, eventId, at)), w.processes[p].command;
      var id := command.bookingId;
      && id in w.db.bookings && id in w2.db.bookings
      && w2.releases[|w2.releases| - 1].key == command.key
      && (w2.db.bookings[id].cancellationKey == Some(command.key) <==>
            w.db.bookings[id].status != CANCELLED || w.db.bookings[id].cancellationKey == Some(command.key))
  {
    Reachable(events);
    var w := DoAll(IDLE, events);
    assert ProcessOk(w, p);
    var command, record := w.processes[p].command, w.processes[p].pc.record;
    var event := DispatchOf(BookingCancelledV1, record.row.facts, record.passengers, eventId, at, None);
    CancelledUnderKey(w.db, command.bookingId, command.owner, command.key, at, event);
    CommitsCancellation(w, p, eventId, at);
    hide Do, DoAll, SeatsIn, MarkCancelled, AllOk, AttemptsOk, FreshEvent, Inv, PassengersOf;
  }

  lemma CommitsCancellation(w: World, p: ProcessId, eventId: Uuid, at: int)
    requires p in w.processes && w.processes[p].pc.MarkingCancelled? && w.processes[p].command.CancelCommand?
    requires FreshEvent(w.db, eventId)
    ensures Do(w, CommitCancelled(p, eventId, at)) ==
      AfterCancel(w, p, CancelledTx(w, w.processes[p].command, w.processes[p].pc.record, eventId, at))
  {
    hide AfterCancel, CancelledTx;
  }

  lemma CancelledUnderKey(db: Db, id: Uuid, owner: Owner, key: string, at: int, event: Event)
    ensures
      var tx := MarkCancelled(db, id, owner, key, at, event);
      tx.out.Ok? && tx.out.value.0.status == CANCELLED ==>
        && id in db.bookings && id in tx.db.bookings
        && (tx.db.bookings[id].cancellationKey == Some(key) <==>
              db.bookings[id].status != CANCELLED || db.bookings[id].cancellationKey == Some(key))
  {
    hide EnqueueBookingEvent;
  }

  function Afterwards(events: seq<Happening>, more: seq<Happening>): World { DoAll(DoAll(IDLE, events), more) }

  /** Every continuation remembers what the booking is. */
  lemma {:induction false} BookingStays(events: seq<Happening>, more: seq<Happening>, id: Uuid)
    requires id in DoAll(IDLE, events).db.bookings
    ensures Inv(Afterwards(events, more)) && id in Afterwards(events, more).db.bookings
    ensures Afterwards(events, more).db.bookings[id].facts == DoAll(IDLE, events).db.bookings[id].facts
  {
    hide Inv, Do, Next;
    if more == [] {
      Reachable(events);
    } else {
      var w, e := Afterwards(events, more[..|more| - 1]), more[|more| - 1];
      BookingStays(events, more[..|more| - 1], id);
      var step := DoKeeps(w, e);
      InvDb(w);
      if step.Some? { NextEvolves(w.db, step.value, id); }
    }
  }

  lemma {:induction false} CheckedInStays(events: seq<Happening>, more: seq<Happening>, id: Uuid)
    requires CheckedIn(DoAll(IDLE, events).db, id)
    ensures Inv(Afterwards(events, more)) && CheckedIn(Afterwards(events, more).db, id)
  {
    hide Inv, Do, Next;
    if more == [] {
      Reachable(events);
    } else {
      var w, e := Afterwards(events, more[..|more| - 1]), more[|more| - 1];
      CheckedInStays(events, more[..|more| - 1], id);
      var step := DoKeeps(w, e);
      InvDb(w);
      if step.Some? { NextEvolves(w.db, step.value, id); }
    }
  }

  /**
   Once a booking is checked in, no request to release its seats is ever sent, before or after:
   not even by a process that had read it as cancellable before the check-in.
   */
  lemma CheckedInSeatsAreNeverReleased(events: seq<Happening>, more: seq<Happening>, id: Uuid)
    requires CheckedIn(DoAll(IDLE, events).db, id)
    ensures forall r :: r in Afterwards(events, more).releases ==> r.bookingId != id
  {
    hide Do, Next;
    CheckedInStays(events, more, id);
    forall r | r in Afterwards(events, more).releases ensures r.bookingId != id {
      assert ReleaseOk(Afterwards(events, more), r);
    }
  }

  /** A total the payment service refuses can never be paid, whatever runs. */
  lemma {:induction false} UnpayableIsNeverPaid(events: seq<Happening>, id: Uuid)
    requires id in DoAll(IDLE, events).db.bookings
    requires !ValidAmount(DoAll(IDLE, events).db.bookings[id].facts.totalPriceVnd)
    ensures !EverPaid(DoAll(IDLE, events).db.bookings[id].status)
  {
    var w := DoAll(IDLE, events);
    Reachable(events);
    assert forall a :: a in w.ledger.attempts ==> WellFormed(a);
    if EverPaid(w.db.bookings[id].status) {
      PaidNamesItsAttempt(events, id);
    }
  }
}
