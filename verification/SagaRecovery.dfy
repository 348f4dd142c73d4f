/** What a new process can still do to a booking: pay it after a crash, expire it, cancel it without the lock. */
module SagaRecovery {
  import opened Prelude
  import opened Bookings
  import opened BookingLifecycle
  import opened BookingInvariants
  import opened BookingTheorems
  import opened Payments
  import opened CheckoutSaga
  import opened SagaInvariants
  import opened SagaSteps
  import opened SagaTheorems

  lemma {:induction false} OneMoreEvent(w: World, events: seq<Happening>, e: Happening)
    ensures DoAll(w, events + [e]) == Do(DoAll(w, events), e)
  {
    assert (events + [e])[..|events|] == events;
  }

  /** A new process that finds the booking's lock free. */
  function Inside(w: World, p: ProcessId, command: Command): World {
    w.(processes := w.processes[p := Process(command, Reading)], lock := w.lock[command.bookingId := p])
  }

  lemma DoesStart(w: World, p: ProcessId, command: Command)
    requires p !in w.processes && MayStart(w.db, command)
    ensures Do(w, Start(p, command)) == w.(processes := w.processes[p := Process(command, Locking)])
  {
    hide DoProcess, MayStart;
  }

  lemma DoesAcquire(w: World, p: ProcessId)
    requires p in w.processes && w.processes[p].pc.Locking? && w.processes[p].command.bookingId !in w.lock
    ensures Do(w, Acquire(p)) == Goto(w, p, Reading).(lock := w.lock[w.processes[p].command.bookingId := p])
  {
  }

  lemma TwoEvents(w: World, a: Happening, b: Happening)
    ensures DoAll(w, [a, b]) == Do(Do(w, a), b)
  {
    hide Do;
    assert [a, b][..1] == [a] && [a][..0] == [];
    assert DoAll(w, [a]) == Do(w, a);
  }

  lemma Entered(w: World, p: ProcessId, command: Command)
    requires p !in w.processes && command.bookingId !in w.lock && MayStart(w.db, command)
    ensures DoAll(w, [Start(p, command), Acquire(p)]) == Inside(w, p, command)
  {
    DoesStart(w, p, command);
    DoesAcquire(Do(w, Start(p, command)), p);
    TwoEvents(w, Start(p, command), Acquire(p));
    hide Do, DoAll, MayStart;
  }

  lemma DoesLose(w: World, p: ProcessId)
    requires p in w.processes && var id := w.processes[p].command.bookingId; id in w.lock && w.lock[id] == p
    ensures var id := w.processes[p].command.bookingId;
      Do(w, LoseLock(p)) == w.(lock := w.lock - {id}, lost := w.lost + {id})
  {
  }

  lemma DoesRead(w: World, p: ProcessId, now: int)
    requires p in w.processes && w.processes[p].pc.Reading?
    ensures Do(w, Read(p, now)) == ReadStep(w, p, w.processes[p].command, now)
  {
    hide ReadStep;
  }

  lemma DoesServe(w: World, p: ProcessId, id: Uuid, at: int)
    requires p in w.processes && w.processes[p].pc.AwaitingAttempt? && w.processes[p].command.PayCommand?
    ensures Do(w, Served(p, id, at)) == ServedStep(w, p, w.processes[p].pc.record, id, at)
  {
    hide ServedStep;
  }

  lemma DoesConfirm(w: World, p: ProcessId, at: int)
    requires p in w.processes && w.processes[p].pc.AwaitingConfirm?
    ensures var pc := w.processes[p].pc;
      Do(w, Confirmed(p, at)) ==
        Goto(w, p, MarkingPaid(pc.record, pc.attempt, at)).(confirmed := w.confirmed + {pc.attempt.id})
  {
  }

  lemma FirstSuccess(ledger: Ledger, request: PaymentRequest, id: Uuid, at: int)
    requires AttemptsOk(ledger) && ValidAmount(request.content.amountVnd) && request.content.outcome == SUCCESS
    requires !IndexConflict(ledger.attempts, ToPersistInput(request, id, at))
    ensures CreatePaymentAttempt(ledger, ledger, request, id, at).out == Ok(ToPersistInput(request, id, at))
  {
    var row := ToPersistInput(request, id, at);
    PersistKeeps(ledger, request, id, at);
    FindsByKey(ledger, row.bookingId, row.key);
    assert row in Persist(ledger, row).attempts;
    FindsByKey(Persist(ledger, row), row.bookingId, row.key);
  }

  /** The booking can still be paid under this key: it is pending, in its window, and the key names no other attempt. */
  predicate Payable(w: World, id: Uuid, key: string, now: int, attemptId: Uuid, eventId: Uuid) {
    && id in w.db.bookings && w.db.bookings[id].status == PENDING_PAYMENT && id !in w.lock
    && !WindowExpired(w.db.bookings[id].facts, now)
    && FreshAttempt(w.ledger, attemptId) && FreshEvent(w.db, eventId)
    && forall a :: a in w.ledger.attempts && a.bookingId == id && a.key == key ==> a.status == SUCCEEDED
  }

  /** The successful attempt a payment of this booking is going to name. */
  predicate WillName(w: World, id: Uuid, attemptId: Uuid, named: Uuid) {
    if exists a :: a in w.ledger.attempts && a.bookingId == id && a.status == SUCCEEDED
    then exists a :: a in w.ledger.attempts && a.bookingId == id && a.status == SUCCEEDED && a.id == named
    else named == attemptId
  }

  lemma Answered(w: World, facts: Facts, key: string, attemptId: Uuid, at: int) returns (a: Attempt)
    requires Inv(w) && facts.id in w.db.bookings && w.db.bookings[facts.id].facts == facts
    requires ValidAmount(facts.totalPriceVnd) && FreshAttempt(w.ledger, attemptId)
    requires forall a :: a in w.ledger.attempts && a.bookingId == facts.id && a.key == key ==> a.status == SUCCEEDED
    ensures Serve(w, PaymentRequest(ContentFor(facts, SUCCESS), key), attemptId, at).out == Ok(a)
    ensures a.status == SUCCEEDED && WillName(w, facts.id, attemptId, a.id)
  {
    var request := PaymentRequest(ContentFor(facts, SUCCESS), key);
    if exists s :: s in w.ledger.attempts && s.bookingId == facts.id && s.status == SUCCEEDED {
      a :| a in w.ledger.attempts && a.bookingId == facts.id && a.status == SUCCEEDED;
      assert ContentOk(w.db, a.content);
      assert WellFormed(a);
      forall b | b in w.ledger.attempts && b.bookingId == facts.id && b.key == key ensures b == a {
        Unique(w.ledger, a, b);
      }
      RetryGetsTheSuccess(w.ledger, a, request, attemptId, at);
    } else {
      a := ToPersistInput(request, attemptId, at);
      FirstSuccess(w.ledger, request, attemptId, at);
    }
    hide CreatePaymentAttempt;
  }

  /** A new process asks for payment and sends the confirmation, ... */
  function Asking(p: ProcessId, command: Command, now: int, attemptId: Uuid, at: int): seq<Happening> {
    [Start(p, command), Acquire(p)] + [Read(p, now)] + [Served(p, attemptId, at)]
  }

  /** ... which is granted and recorded. */
  function Recovery(p: ProcessId, command: Command, now: int, attemptId: Uuid, at: int, eventId: Uuid)
    : seq<Happening>
  {
    Asking(p, command, now, attemptId, at) + [Confirmed(p, at)] + [CommitPaid(p, eventId)]
  }

  lemma Requests(w: World, p: ProcessId, command: Command, now: int)
    requires command.PayCommand? && command.bookingId in w.db.bookings
    requires var row := w.db.bookings[command.bookingId];
      row.facts.owner == command.owner && row.status == PENDING_PAYMENT && !WindowExpired(row.facts, now)
    ensures
      var w2, row := Inside(w, p, command), w.db.bookings[command.bookingId];
      Do(w2, Read(p, now)) ==
        Goto(w2, p, AwaitingAttempt(Record(row, PassengersOf(w.db, command.bookingId)))).(
          requests := w.requests + [PaymentRequest(ContentFor(row.facts, command.outcome), command.key)])
  {
    DoesRead(Inside(w, p, command), p, now);
    hide Do, PassengersOf, WindowExpired, ContentFor;
  }

  lemma Commits(w: World, p: ProcessId, at: int, eventId: Uuid)
    requires p in w.processes && w.processes[p].pc.AwaitingConfirm? && w.processes[p].command.PayCommand?
    requires FreshEvent(w.db, eventId)
    requires var command := w.processes[p].command;
      OwnedRow(w.db, command.bookingId, command.owner).Some?
        && w.db.bookings[command.bookingId].status == PENDING_PAYMENT
    ensures
      var after, id := Do(Do(w, Confirmed(p, at)), CommitPaid(p, eventId)).db, w.processes[p].command.bookingId;
      && id in after.bookings && after.bookings[id].status == PAID
      && after.bookings[id].paidAttemptId == Some(w.processes[p].pc.attempt.id)
      && after.bookings[id].facts == w.db.bookings[id].facts
    ensures
      var w2 := Do(Do(w, Confirmed(p, at)), CommitPaid(p, eventId));
      w2.lock == w.lock && w2.processes == w.processes[p := w.processes[p].(pc := Done)]
  {
    DoesConfirm(w, p, at);
    CommitsPayment(Do(w, Confirmed(p, at)), p, eventId);
    hide Do, EnqueueBookingEvent, SeatsIn, FreshEvent;
  }

  lemma {:induction false} AskingRun(w: World, p: ProcessId, command: Command, now: int, attemptId: Uuid, at: int)
    ensures DoAll(w, Asking(p, command, now, attemptId, at)) ==
      Do(Do(DoAll(w, [Start(p, command), Acquire(p)]), Read(p, now)), Served(p, attemptId, at))
  {
    hide Do, DoAll;
    var a := [Start(p, command), Acquire(p)];
    OneMoreEvent(w, a, Read(p, now));
    OneMoreEvent(w, a + [Read(p, now)], Served(p, attemptId, at));
  }

  /** The process gets the booking's success and waits for the confirmation it has sent under its id. */
  lemma {:induction false} AsksForConfirmation(w: World, p: ProcessId, id: Uuid, key: string, now: int,
                                               attemptId: Uuid, at: int, eventId: Uuid) returns (a: Attempt)
    requires Inv(w) && Payable(w, id, key, now, attemptId, eventId) && p !in w.processes
    requires ValidAmount(w.db.bookings[id].facts.totalPriceVnd)
    ensures
      var command := PayCommand(id, w.db.bookings[id].facts.owner, SUCCESS, key);
      var record := Record(w.db.bookings[id], PassengersOf(w.db, id));
      var w2 := DoAll(w, Asking(p, command, now, attemptId, at));
      && w2.db == w.db && w2.lock == w.lock[id := p] && w2.lost == w.lost
      && w2.processes == w.processes[p := Process(command, AwaitingConfirm(record, a))]
      && w2.confirms == w.confirms + [ConfirmFor(record, a)]
    ensures a.status == SUCCEEDED && WillName(w, id, attemptId, a.id)
    ensures w.db.bookings[id].facts.id == id
  {
    assert OkFor(w.db, id);
    var row := w.db.bookings[id];
    var command := PayCommand(id, row.facts.owner, SUCCESS, key);
    a := Answered(w, row.facts, key, attemptId, at);
    Entered(w, p, command);
    Asked(w, p, command, now);
    AskingRun(w, p, command, now, attemptId, at);
    hide Inv, Do, DoAll, AllOk, WillName, Payable, Serve, Asking, ConfirmFor, ContentFor, PassengersOf, OkFor, Inside;
    GetsSuccess(w, Do(Inside(w, p, command), Read(p, now)), p, row.facts, attemptId, at, a);
    var record := Record(row, PassengersOf(w.db, id));
    Overwritten(w.processes, p, Process(command, AwaitingAttempt(record)),
                Process(command, AwaitingConfirm(record, a)));
  }

  lemma Overwritten<V>(m: map<ProcessId, V>, p: ProcessId, first: V, last: V)
    ensures m[p := first][p := last] == m[p := last]
  {
  }

  lemma Asked(w: World, p: ProcessId, command: Command, now: int)
    requires command.PayCommand? && command.bookingId in w.db.bookings
    requires var row := w.db.bookings[command.bookingId];
      row.facts.owner == command.owner && row.status == PENDING_PAYMENT && !WindowExpired(row.facts, now)
    ensures
      var w3 := Do(Inside(w, p, command), Read(p, now));
      var record := Record(w.db.bookings[command.bookingId], PassengersOf(w.db, command.bookingId));
      && w3.processes == w.processes[p := Process(command, AwaitingAttempt(record))]
      && w3.db == w.db && w3.ledger == w.ledger && w3.lock == w.lock[command.bookingId := p]
      && w3.lost == w.lost && w3.confirms == w.confirms
  {
    Requests(w, p, command, now);
    var record := Record(w.db.bookings[command.bookingId], PassengersOf(w.db, command.bookingId));
    Overwritten(w.processes, p, Process(command, Reading), Process(command, AwaitingAttempt(record)));
    hide Do, PassengersOf, WindowExpired, ContentFor;
  }

  /** A successful answer sends the confirmation. */
  lemma GetsSuccess(w: World, w3: World, p: ProcessId, facts: Facts, attemptId: Uuid, at: int, a: Attempt)
    requires p in w3.processes && w3.processes[p].pc.AwaitingAttempt? && w3.processes[p].command.PayCommand?
    requires w3.processes[p].pc.record.row.facts == facts && w3.ledger == w.ledger
    requires
      var command := w3.processes[p].command;
      Serve(w, PaymentRequest(ContentFor(facts, command.outcome), command.key), attemptId, at).out == Ok(a)
    requires a.status == SUCCEEDED
    ensures
      var w4, record := Do(w3, Served(p, attemptId, at)), w3.processes[p].pc.record;
      && w4.db == w3.db && w4.lock == w3.lock && w4.lost == w3.lost
      && w4.processes == w3.processes[p := w3.processes[p].(pc := AwaitingConfirm(record, a))]
      && w4.confirms == w3.confirms + [ConfirmFor(record, a)]
  {
    DoesServe(w3, p, attemptId, at);
    hide Do, CreatePaymentAttempt, ConfirmFor, ContentFor;
  }

  /**
   Whatever processes have crashed at whatever point, a booking that is still pending and in
   its window can be paid by a new process under any key that names no failed attempt; and if
   the earlier payment had already succeeded, it is that attempt the booking then names.
   */
  lemma {:induction false} RecoveryPays(events: seq<Happening>, p: ProcessId, id: Uuid, key: string, now: int,
                                        attemptId: Uuid, at: int, eventId: Uuid)
    requires Payable(DoAll(IDLE, events), id, key, now, attemptId, eventId) && p !in DoAll(IDLE, events).processes
    requires ValidAmount(DoAll(IDLE, events).db.bookings[id].facts.totalPriceVnd)
    ensures
      var w := DoAll(IDLE, events);
      var command := PayCommand(id, w.db.bookings[id].facts.owner, SUCCESS, key);
      var w2 := DoAll(w, Recovery(p, command, now, attemptId, at, eventId));
      && id in w2.db.bookings && w2.db.bookings[id].status == PAID && w2.db.bookings[id].paidAttemptId.Some?
      && WillName(w, id, attemptId, w2.db.bookings[id].paidAttemptId.value)
      && w2.db.bookings[id].facts == w.db.bookings[id].facts
      && w2.lock == w.lock[id := p] && w2.processes == w.processes[p := Process(command, Done)]
  {
    Reachable(events);
    hide DoAll, Recovery, Payable, WillName, Inv;
    RecoversFrom(DoAll(IDLE, events), p, id, key, now, attemptId, at, eventId);
  }

  lemma {:induction false} RecoversFrom(w: World, p: ProcessId, id: Uuid, key: string, now: int, attemptId: Uuid,
                                        at: int, eventId: Uuid)
    requires Inv(w) && Payable(w, id, key, now, attemptId, eventId) && p !in w.processes
    requires ValidAmount(w.db.bookings[id].facts.totalPriceVnd)
    ensures
      var command := PayCommand(id, w.db.bookings[id].facts.owner, SUCCESS, key);
      var w2 := DoAll(w, Recovery(p, command, now, attemptId, at, eventId));
      && id in w2.db.bookings && w2.db.bookings[id].status == PAID && w2.db.bookings[id].paidAttemptId.Some?
      && WillName(w, id, attemptId, w2.db.bookings[id].paidAttemptId.value)
      && w2.db.bookings[id].facts == w.db.bookings[id].facts
      && w2.lock == w.lock[id := p] && w2.processes == w.processes[p := Process(command, Done)]
  {
    var command := PayCommand(id, w.db.bookings[id].facts.owner, SUCCESS, key);
    var a := AsksForConfirmation(w, p, id, key, now, attemptId, at, eventId);
    var asking := Asking(p, command, now, attemptId, at);
    OneMoreEvent(w, asking, Confirmed(p, at));
    OneMoreEvent(w, asking + [Confirmed(p, at)], CommitPaid(p, eventId));
    hide Inv, Do, DoAll, WillName, FreshEvent, FreshAttempt, PassengersOf, WindowExpired;
    hide Asking, ConfirmFor, ValidAmount;
    Commits(DoAll(w, asking), p, at, eventId);
    var record := Record(w.db.bookings[id], PassengersOf(w.db, id));
    Overwritten(w.processes, p, Process(command, AwaitingConfirm(record, a)), Process(command, Done));
  }

  predicate PaidIn(w: World, id: Uuid) { id in w.db.bookings && EverPaid(w.db.bookings[id].status) }

  /**
   A pending booking that a new process could pay is ever paid, in some continuation, if and only
   if its total is not zero: a free booking passes every booking check but no payment is made for it.
   */
  lemma {:induction false} PaidInSomeFutureIffNotFree(events: seq<Happening>, p: ProcessId, id: Uuid, key: string,
                                                      now: int, attemptId: Uuid, at: int, eventId: Uuid)
    requires Payable(DoAll(IDLE, events), id, key, now, attemptId, eventId) && p !in DoAll(IDLE, events).processes
    ensures
      (exists more :: PaidIn(Afterwards(events, more), id)) <==>
      DoAll(IDLE, events).db.bookings[id].facts.totalPriceVnd != 0
  {
    var w := DoAll(IDLE, events);
    Reachable(events);
    assert OkFor(w.db, id);
    ColumnsHold(w.db, id);
    var facts := w.db.bookings[id].facts;
    hide DoAll, Inv, OkFor, Payable;
    if facts.totalPriceVnd != 0 {
      var command := PayCommand(id, facts.owner, SUCCESS, key);
      PayableIsThere(w, id, key, now, attemptId, eventId);
      RecoveryPays(events, p, id, key, now, attemptId, at, eventId);
      assert PaidIn(Afterwards(events, Recovery(p, command, now, attemptId, at, eventId)), id);
    } else {
      PayableIsThere(w, id, key, now, attemptId, eventId);
      forall more ensures !PaidIn(Afterwards(events, more), id) {
        BookingStays(events, more, id);
        Splits(IDLE, events, more);
        UnpayableIsNeverPaid(events + more, id);
      }
    }
  }

  lemma PayableIsThere(w: World, id: Uuid, key: string, now: int, attemptId: Uuid, eventId: Uuid)
    requires Payable(w, id, key, now, attemptId, eventId)
    ensures id in w.db.bookings
  {
  }

  lemma {:induction false} Splits(w: World, a: seq<Happening>, b: seq<Happening>)
    ensures DoAll(w, a + b) == DoAll(DoAll(w, a), b)
  {
    if b == [] {
      assert a + b == a;
    } else {
      var init, last := b[..|b| - 1], b[|b| - 1];
      assert a + b == (a + init) + [last];
      OneMoreEvent(w, a + init, last);
      Splits(w, a, init);
    }
  }

  lemma ReadsCancellable(w: World, p: ProcessId, command: Command, now: int)
    requires command.CancelCommand? && command.bookingId in w.db.bookings
    requires var row := w.db.bookings[command.bookingId];
      row.facts.owner == command.owner && row.status == PAID && row.facts.departureAt > now
    ensures
      var w2 := Inside(w, p, command);
      Do(w2, Read(p, now)) ==
        Goto(w2, p, MarkingCancelled(Record(w.db.bookings[command.bookingId], PassengersOf(w.db, command.bookingId))))
  {
    DoesRead(Inside(w, p, command), p, now);
    hide Do, PassengersOf;
  }

  /** A process about to cancel sends a release under its own key whether or not another has just cancelled. */
  lemma {:induction false} Sends(w: World, p: ProcessId, eventId: Uuid, at: int, free: Uuid)
    requires p in w.processes && w.processes[p].pc.MarkingCancelled? && w.processes[p].command.CancelCommand?
    requires FreshEvent(w.db, eventId)
    requires var command := w.processes[p].command;
      OwnedRow(w.db, command.bookingId, command.owner).Some?
        && w.db.bookings[command.bookingId].status in {PAID, CANCELLED}
    ensures
      var w2, command := Do(w, CommitCancelled(p, eventId, at)), w.processes[p].command;
      var id := command.bookingId;
      && w2.processes.Keys == w.processes.Keys
      && (forall q :: q in w.processes && q != p ==> w2.processes[q] == w.processes[q])
      && id in w2.db.bookings && w2.db.bookings[id].facts == w.db.bookings[id].facts
      && w2.db.bookings[id].status == CANCELLED
      && (w.db.bookings[id].status == PAID ==> w2.db.bookings[id].cancellationKey == Some(command.key))
      && (w.db.bookings[id].status == CANCELLED ==> w2.db.bookings[id] == w.db.bookings[id])
      && (exists r :: w2.releases == w.releases + [r]
                      && r.bookingId == w.db.bookings[id].facts.id && r.key == command.key)
      && (FreshEvent(w.db, free) && free != eventId ==> FreshEvent(w2.db, free))
  {
    CommitsCancellation(w, p, eventId, at);
    var command, record := w.processes[p].command, w.processes[p].pc.record;
    EnqueueFresh(w.db.outbox, DispatchOf(BookingCancelledV1, record.row.facts, record.passengers, eventId, at, None));
    hide Do, EnqueueBookingEvent, SeatsIn, Filter, BookingPayload;
    var w2 := Do(w, CommitCancelled(p, eventId, at));
    assert w2.releases == w.releases + [w2.releases[|w.releases|]];
  }

  function LostLock(p: ProcessId, q: ProcessId, mine: Command, other: Command, now: int, e: Uuid,
                    f: Uuid): seq<Happening> {
    [Start(p, mine), Acquire(p)] + [Read(p, now)] + [LoseLock(p)] + [Start(q, other), Acquire(q)] + [Read(q, now)]
      + [CommitCancelled(q, e, now)] + [CommitCancelled(p, f, now)]
  }

  /**
   Without the lock the property fails: from any state with a paid booking before departure,
   a run in which one cancelling process loses its lock ends with two releases of the same
   booking under two different keys, only one of them the stored one.
   */
  lemma LostLockReleasesUnderTwoKeys(w: World, p: ProcessId, q: ProcessId, mine: Command, other: Command,
                                     now: int, e: Uuid, f: Uuid) returns (r: ReleaseCall, s: ReleaseCall)
    requires mine.CancelCommand? && other.CancelCommand?
      && other == CancelCommand(mine.bookingId, mine.owner, other.key)
    requires other.key != mine.key && mine.owner.kind == CUSTOMER
    requires p !in w.processes && q !in w.processes && p != q && mine.bookingId !in w.lock
    requires OwnedRow(w.db, mine.bookingId, mine.owner).Some?
    requires w.db.bookings[mine.bookingId].status == PAID && w.db.bookings[mine.bookingId].facts.departureAt > now
    requires FreshEvent(w.db, e) && FreshEvent(w.db, f) && e != f
    ensures
      var w2, id := DoAll(w, LostLock(p, q, mine, other, now, e, f)), mine.bookingId;
      && id in w2.db.bookings && w2.db.bookings[id].cancellationKey == Some(other.key)
      && w2.releases == w.releases + [r] + [s]
      && r.bookingId == s.bookingId == w.db.bookings[id].facts.id && r.key == other.key && s.key == mine.key
  {
    hide Do, DoAll, FreshEvent, PassengersOf;
    var id := mine.bookingId;
    Entered(w, p, mine);
    var w1 := Inside(w, p, mine);
    ReadsCancellable(w, p, mine, now);
    var w2 := Do(w1, Read(p, now));
    DoesLose(w2, p);
    var w3 := Do(w2, LoseLock(p));
    Entered(w3, q, other);
    ReadsCancellable(w3, q, other, now);
    var w5 := Do(Inside(w3, q, other), Read(q, now));
    Sends(w5, q, e, now, f);
    var w6 := Do(w5, CommitCancelled(q, e, now));
    Sends(w6, p, f, now, f);
    var w7 := Do(w6, CommitCancelled(p, f, now));
    LostLockRun(w, p, q, mine, other, now, e, f, w1, w3);
    r :| w6.releases == w5.releases + [r] && r.bookingId == w5.db.bookings[id].facts.id && r.key == other.key;
    s :| w7.releases == w6.releases + [s] && s.bookingId == w6.db.bookings[id].facts.id && s.key == mine.key;
    assert w7.releases == w.releases + [r] + [s];
  }

  lemma {:induction false} LostLockRun(w: World, p: ProcessId, q: ProcessId, mine: Command, other: Command, now: int,
                                       e: Uuid, f: Uuid, w1: World, w3: World)
    requires w1 == DoAll(w, [Start(p, mine), Acquire(p)])
    requires w3 == Do(Do(w1, Read(p, now)), LoseLock(p))
    ensures
      var w4 := DoAll(w3, [Start(q, other), Acquire(q)]);
      DoAll(w, LostLock(p, q, mine, other, now, e, f)) ==
        Do(Do(Do(w4, Read(q, now)), CommitCancelled(q, e, now)), CommitCancelled(p, f, now))
  {
    hide Do, DoAll;
    var a := [Start(p, mine), Acquire(p)];
    var b := a + [Read(p, now)];
    var c := b + [LoseLock(p)];
    var d := c + [Start(q, other), Acquire(q)];
    OneMoreEvent(w, a, Read(p, now));
    OneMoreEvent(w, b, LoseLock(p));
    Splits(w, c, [Start(q, other), Acquire(q)]);
    OneMoreEvent(w, d, Read(q, now));
    OneMoreEvent(w, d + [Read(q, now)], CommitCancelled(q, e, now));
    OneMoreEvent(w, d + [Read(q, now)] + [CommitCancelled(q, e, now)], CommitCancelled(p, f, now));
  }

  // ---------------------------------------------------------------- expiry against a confirmation on its way

  /** A new process finds the window over and expires the booking, if it gets the lock. */
  function Expiry(q: ProcessId, expire: Command, now: int, eventId: Uuid, actor: Actor): seq<Happening> {
    [Start(q, expire), Acquire(q)] + [Read(q, now)] + [CommitExpired(q, eventId, now, actor)]
  }

  lemma {:induction false} ExpiryRun(w: World, q: ProcessId, expire: Command, now: int, eventId: Uuid, actor: Actor)
    ensures DoAll(w, Expiry(q, expire, now, eventId, actor)) ==
      Do(Do(DoAll(w, [Start(q, expire), Acquire(q)]), Read(q, now)), CommitExpired(q, eventId, now, actor))
  {
    hide Do, DoAll;
    var a := [Start(q, expire), Acquire(q)];
    OneMoreEvent(w, a, Read(q, now));
    OneMoreEvent(w, a + [Read(q, now)], CommitExpired(q, eventId, now, actor));
  }

  lemma ExpiresBooking(w: World, q: ProcessId, command: Command, now: int, eventId: Uuid, actor: Actor)
    requires command.ExpireCommand? && OwnedRow(w.db, command.bookingId, command.owner).Some?
    requires Unpaid(w.db, command.bookingId) && WindowExpired(w.db.bookings[command.bookingId].facts, now)
    requires FreshEvent(w.db, eventId)
    ensures
      var w2 := Do(Do(Inside(w, q, command), Read(q, now)), CommitExpired(q, eventId, now, actor));
      && command.bookingId in w2.db.bookings && w2.db.bookings[command.bookingId].status == EXPIRED
      && w2.ledger == w.ledger && w2.confirms == w.confirms && w2.lost == w.lost
  {
    var inside := Inside(w, q, command);
    DoesRead(inside, q, now);
    var record := Record(w.db.bookings[command.bookingId], PassengersOf(w.db, command.bookingId));
    var w1 := Do(inside, Read(q, now));
    assert w1 == Goto(inside, q, MarkingExpired(record)) by { hide Do, WindowExpired, PassengersOf; }
    CommitsExpiry(w1, q, eventId, now, actor);
    hide Do, FreshEvent, EnqueueBookingEvent, SeatsIn;
  }

  lemma CommitsExpiry(w: World, q: ProcessId, eventId: Uuid, at: int, actor: Actor)
    requires q in w.processes && w.processes[q].pc.MarkingExpired? && FreshEvent(w.db, eventId)
    ensures Do(w, CommitExpired(q, eventId, at, actor)) ==
      Goto(w.(db := ExpiredTx(w, w.processes[q].command, w.processes[q].pc.record, eventId, at, actor).db), q, Done)
  {
    hide ExpiredTx, FreshEvent;
  }

  /** A process that cannot take the lock does nothing. */
  lemma WaitsForTheLock(w: World, q: ProcessId, command: Command, now: int, eventId: Uuid, actor: Actor)
    requires q !in w.processes && command.ExpireCommand? && command.bookingId in w.lock
    ensures
      Do(Do(DoAll(w, [Start(q, command), Acquire(q)]), Read(q, now)), CommitExpired(q, eventId, now, actor)) ==
      w.(processes := w.processes[q := Process(command, Locking)])
  {
    DoesStart(w, q, command);
    TwoEvents(w, Start(q, command), Acquire(q));
    hide DoAll;
    var w1 := w.(processes := w.processes[q := Process(command, Locking)]);
    assert Do(w1, Acquire(q)) == w1;
    assert Do(w1, Read(q, now)) == w1;
    assert Do(w1, CommitExpired(q, eventId, now, actor)) == w1;
    hide Do;
  }

  /**
   In every reachable state in which a confirmation has been sent for a booking that is still
   pending and whose window is over, whoever sent it and whatever became of its sender, expiry
   overtakes the confirmation if and only if the booking's lock is free. The successful attempt
   and the request then remain beside an EXPIRED booking.
   */
  lemma {:induction false} ExpiryOvertakesIffLockIsFree(events: seq<Happening>, c: ConfirmCall, q: ProcessId, now: int,
                                                        eventId: Uuid, actor: Actor)
    requires var w := DoAll(IDLE, events);
      && c in w.confirms && Unpaid(w.db, c.bookingId) && WindowExpired(w.db.bookings[c.bookingId].facts, now)
      && q !in w.processes && FreshEvent(w.db, eventId)
    ensures
      var w, id := DoAll(IDLE, events), c.bookingId;
      var expire := ExpireCommand(id, w.db.bookings[id].facts.owner);
      var w2 := DoAll(w, Expiry(q, expire, now, eventId, actor));
      && id in w2.db.bookings && (w2.db.bookings[id].status == EXPIRED <==> id !in w.lock)
      && c in w2.confirms && w2.lost == w.lost
      && exists a :: a in w2.ledger.attempts && a.status == SUCCEEDED && a.bookingId == id && a.id == c.key
  {
    var w, id := DoAll(IDLE, events), c.bookingId;
    Reachable(events);
    ConfirmedBySuccess(w, c);
    var expire := ExpireCommand(id, w.db.bookings[id].facts.owner);
    hide Inv, DoAll, Do, FreshEvent, PassengersOf, WindowExpired;
    ExpiryRun(w, q, expire, now, eventId, actor);
    if id in w.lock {
      WaitsForTheLock(w, q, expire, now, eventId, actor);
    } else {
      Entered(w, q, expire);
      ExpiresBooking(w, q, expire, now, eventId, actor);
    }
  }

  lemma ConfirmedBySuccess(w: World, c: ConfirmCall)
    requires Inv(w) && c in w.confirms
    ensures exists a :: a in w.ledger.attempts && a.status == SUCCEEDED && a.bookingId == c.bookingId && a.id == c.key
  {
    assert ConfirmOk(w, c);
    var a :| a in w.ledger.attempts && IsConfirm(w, c, a);
    assert WellFormed(a);
  }

  lemma GivesUp(w: World, p: ProcessId)
    requires p in w.processes && w.processes[p].pc.AwaitingConfirm?
    requires var id := w.processes[p].command.bookingId; id in w.lock && w.lock[id] == p
    ensures var id := w.processes[p].command.bookingId;
      DoAll(w, [Throws(p), Unlock(p)]) == w.(processes := w.processes - {p}, lock := w.lock - {id})
  {
    var w2 := Goto(w, p, Done);
    Stops(w, p);
    TwoEvents(w, Throws(p), Unlock(p));
    Unlocks(w2, p);
    hide Do, DoAll;
    assert w2.processes - {p} == w.processes - {p};
  }

  lemma Stops(w: World, p: ProcessId)
    requires p in w.processes && w.processes[p].pc.AwaitingConfirm?
    ensures Do(w, Throws(p)) == Goto(w, p, Done)
  {
  }

  lemma Unlocks(w: World, p: ProcessId)
    requires p in w.processes && w.processes[p].pc == Done
    requires var id := w.processes[p].command.bookingId; id in w.lock && w.lock[id] == p
    ensures Do(w, Unlock(p)) ==
      w.(processes := w.processes - {p}, lock := w.lock - {w.processes[p].command.bookingId})
  {
  }
}
