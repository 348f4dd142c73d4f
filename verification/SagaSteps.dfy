/** Every step of every checkout process keeps the invariant and is a booking transaction or none. */
module SagaSteps {
  import opened Prelude
  import opened Bookings
  import opened BookingLifecycle
  import opened BookingInvariants
  import opened BookingTheorems
  import opened BookingAccounts
  import opened Payments
  import opened CheckoutSaga
  import opened SagaInvariants

  /** A step that leaves the booking tables alone. */
  lemma SameTables(w: World, w2: World, p: ProcessId)
    requires Inv(w) && w2.db == w.db && AttemptsOk(w2.ledger) && Acts(w, w2, p)
    ensures Inv(w2)
  {
    hide PaidOk, LogsOk, ProcessOk, AllOk, AttemptsOk, Undisturbed, ConfirmOk, GrantOk, ReleaseOk, ContentOk;
    assert Grows(w, w2);
    forall id ensures Kept(w.db, w2.db, id) {}
    Advance(w, w2, p);
  }

  // ---------------------------------------------------------------- local steps

  lemma GotoKeeps(w: World, p: ProcessId, pc: Pc)
    requires Inv(w) && p in w.processes && PcOk(w, w.processes[p].command, pc)
    requires LockOk(w, p, w.processes[p].(pc := pc))
    ensures Inv(Goto(w, p, pc))
  {
    hide AllOk, AttemptsOk, LogsOk, PaidOk, ConfirmOk, ReleaseOk, ContentOk, GrantOk, Cancellable;
    var w2 := Goto(w, p, pc);
    assert ProcessOk(w, p);
    PcSame(w, w2, w.processes[p].command, pc);
    SameTables(w, w2, p);
  }

  lemma PcSame(w: World, w2: World, command: Command, pc: Pc)
    requires w2.db == w.db && w2.ledger == w.ledger && Grows(w, w2) && PcOk(w, command, pc)
    ensures PcOk(w2, command, pc)
  {
  }

  lemma GoneKeeps(w: World, p: ProcessId)
    requires Inv(w) && p in w.processes
    ensures Inv(Gone(w, p))
  {
    hide AllOk, AttemptsOk, LogsOk, PaidOk, ConfirmOk, ReleaseOk, ContentOk, GrantOk, Cancellable, PcOk;
    SameTables(w, Gone(w, p), p);
  }

  lemma StartKeeps(w: World, p: ProcessId, command: Command)
    requires Inv(w)
    ensures Inv(Do(w, Start(p, command)))
  {
    hide AllOk, AttemptsOk, LogsOk, PaidOk, ConfirmOk, ReleaseOk, ContentOk, GrantOk, Cancellable;
    SameTables(w, Do(w, Start(p, command)), p);
  }

  lemma AcquireKeeps(w: World, p: ProcessId)
    requires Inv(w)
    ensures Inv(Do(w, Acquire(p)))
  {
    hide AllOk, AttemptsOk, LogsOk, PaidOk, ConfirmOk, ReleaseOk, ContentOk, GrantOk, Cancellable;
    assert ProcessOk(w, p);
    SameTables(w, Do(w, Acquire(p)), p);
  }

  lemma LoseLockKeeps(w: World, p: ProcessId)
    requires Inv(w)
    ensures Inv(Do(w, LoseLock(p)))
  {
    hide AllOk, AttemptsOk, LogsOk, PaidOk, ConfirmOk, ReleaseOk, ContentOk, GrantOk;
    var w2 := Do(w, LoseLock(p));
    assert ProcessOk(w, p);
    if w2 != w {
      PcSame(w, w2, w.processes[p].command, w.processes[p].pc);
      hide PcOk, CommandOk;
      SameTables(w, w2, p);
    }
  }

  // ---------------------------------------------------------------- remote calls

  lemma CallReleaseKeeps(w: World, p: ProcessId, record: Record)
    requires Inv(w) && p in w.processes && !w.processes[p].pc.Locking?
    requires var command := w.processes[p].command;
      && (command.CancelCommand? || command.ReleaseCommand?)
      && StoredKey(w, command.bookingId, command.key) && Holds(w.db, command.bookingId, record)
    ensures Inv(CallRelease(w, p, record, w.processes[p].command.key))
  {
    hide AllOk, AttemptsOk, LogsOk, PaidOk, ConfirmOk, ContentOk, GrantOk, Cancellable, SeatsIn, Filter;
    var command := w.processes[p].command;
    var w2 := CallRelease(w, p, record, command.key);
    assert ProcessOk(w, p);
    assert ReleaseOk(w2, ReleaseFor(record, command.key));
    assert ProcessOk(w2, p);
    SameTables(w, w2, p);
  }

  lemma ReadHolds(w: World, command: Command, row: Booking)
    requires AllOk(w.db) && OwnedRow(w.db, command.bookingId, command.owner) == Some(row)
    ensures Holds(w.db, command.bookingId, Record(row, PassengersOf(w.db, command.bookingId)))
    ensures Columns(row)
  {
    assert OkFor(w.db, command.bookingId);
  }

  lemma ReadKeeps(w: World, p: ProcessId, now: int)
    requires Inv(w) && p in w.processes && w.processes[p].pc.Reading?
    ensures Inv(ReadStep(w, p, w.processes[p].command, now))
  {
    hide Inv, BookingChecks;
    var command := w.processes[p].command;
    InvProcess(w, p);
    GotoDone(w, p);
    match OwnedRow(w.db, command.bookingId, command.owner)
    case None =>
    case Some(row) =>
      InvDb(w);
      ReadHolds(w, command, row);
      var record := Record(row, PassengersOf(w.db, command.bookingId));
      match command
      case PayCommand(_, _, outcome, key) =>
        if row.status == PENDING_PAYMENT {
          if WindowExpired(row.facts, now) {
            GotoKeeps(w, p, MarkingExpired(record));
          } else {
            RequestKeeps(w, p, record, outcome, key);
          }
        }
      case ExpireCommand(_, _) =>
        if row.status == PENDING_PAYMENT && WindowExpired(row.facts, now) {
          GotoKeeps(w, p, MarkingExpired(record));
        }
      case CancelCommand(_, _, key) =>
        if row.status == CANCELLED && row.cancellationKey == Some(key) {
          CallReleaseKeeps(w, p, record);
        } else if row.status in {PAID, TICKET_ISSUED} {
          GotoKeeps(w, p, MarkingCancelled(record));
        }
      case ReleaseCommand(_, _, key) =>
        CallReleaseKeeps(w, p, record);
  }

  lemma InvProcess(w: World, p: ProcessId)
    requires Inv(w)
    ensures ProcessOk(w, p)
  {
  }

  lemma InvDb(w: World)
    requires Inv(w)
    ensures AllOk(w.db) && AttemptsOk(w.ledger)
  {
  }

  lemma GotoDone(w: World, p: ProcessId)
    requires Inv(w) && p in w.processes && !w.processes[p].pc.Locking?
    ensures Inv(Goto(w, p, Done))
  {
    InvProcess(w, p);
    hide Inv;
    GotoKeeps(w, p, Done);
  }

  lemma RequestKeeps(w: World, p: ProcessId, record: Record, outcome: Outcome, key: string)
    requires Inv(w) && p in w.processes && w.processes[p].pc.Reading? && w.processes[p].command.PayCommand?
    requires InPayment(w, w.processes[p].command, record)
    ensures Inv(Goto(w, p, AwaitingAttempt(record)).(
      requests := w.requests + [PaymentRequest(ContentFor(record.row.facts, outcome), key)]))
  {
    hide AllOk, AttemptsOk, LogsOk, PaidOk, ConfirmOk, ReleaseOk, GrantOk, Cancellable;
    var request := PaymentRequest(ContentFor(record.row.facts, outcome), key);
    var w2 := Goto(w, p, AwaitingAttempt(record)).(requests := w.requests + [request]);
    assert ProcessOk(w, p);
    assert ContentOk(w.db, request.content);
    SameTables(w, w2, p);
  }

  lemma ConfirmedKeeps(w: World, p: ProcessId, at: int)
    requires Inv(w) && p in w.processes && w.processes[p].pc.AwaitingConfirm?
    ensures Inv(Do(w, Confirmed(p, at)))
  {
    hide AllOk, AttemptsOk, LogsOk, PaidOk, ConfirmOk, ReleaseOk, ContentOk, Cancellable;
    var w2 := Do(w, Confirmed(p, at));
    var pc := w.processes[p].pc;
    assert ProcessOk(w, p);
    assert ConfirmFor(pc.record, pc.attempt) in w2.confirms;
    SameTables(w, w2, p);
  }

  /** What the payment service's answer adds to the ledger. */
  lemma ServeAdds(ledger: Ledger, request: PaymentRequest, id: Uuid, at: int)
    requires AttemptsOk(ledger)
    ensures
      var answer := CreatePaymentAttempt(ledger, ledger, request, id, at);
      && AttemptsOk(answer.ledger)
      && (forall a :: a in ledger.attempts ==> a in answer.ledger.attempts)
      && (forall a :: a in answer.ledger.attempts ==> a in ledger.attempts || a.content == request.content)
      && (answer.out.Ok? ==> answer.out.value in answer.ledger.attempts && answer.out.value.content == request.content)
      && (answer.out.Ok? && answer.out.value.status == SUCCEEDED ==> request.content.outcome == SUCCESS)
  {
    var answer := CreatePaymentAttempt(ledger, ledger, request, id, at);
    AttemptKeeps(ledger, ledger, request, id, at);
    AnswerIsStored(ledger, request, id, at);
    var row := ToPersistInput(request, id, at);
    LedgerAfter(ledger, row);
    LedgerChoice(ledger, request, id, at);
    forall a | a in ledger.attempts ensures a in answer.ledger.attempts {
      assert a in answer.ledger.attempts[..|ledger.attempts|];
    }
    hide CreatePaymentAttempt, CreateOrReplayAttempt, AttemptsOk, IndexConflict;
  }

  lemma LedgerChoice(ledger: Ledger, request: PaymentRequest, id: Uuid, at: int)
    ensures CreatePaymentAttempt(ledger, ledger, request, id, at).ledger in
      {ledger, CreateOrReplayAttempt(ledger, ToPersistInput(request, id, at)).ledger}
  {
    hide CreateOrReplayAttempt, FindByIdempotency;
  }

  lemma {:induction false} ServedUnheardKeeps(w: World, i: nat, id: Uuid, at: int)
    requires Inv(w) && i < |w.requests|
    ensures Inv(w.(ledger := Serve(w, w.requests[i], id, at).ledger))
  {
    hide AllOk, AttemptsOk, PaidOk, ConfirmOk, ReleaseOk, ContentOk, GrantOk, Cancellable, CreatePaymentAttempt, PcOk;
    var w2 := w.(ledger := Serve(w, w.requests[i], id, at).ledger);
    assert w.requests[i] in w.requests;
    assert ContentOk(w.db, w.requests[i].content);
    ServeAdds(w.ledger, w.requests[i], id, at);
    var p: ProcessId := 0;
    assert ProcessOk(w, p);
    ProcessGrows(w, w2, p);
    SameTables(w, w2, p);
  }

  lemma ProcessGrows(w: World, w2: World, p: ProcessId)
    requires ProcessOk(w, p) && w2.processes == w.processes && w2.lock == w.lock && w2.db == w.db && Grows(w, w2)
    ensures ProcessOk(w2, p)
  {
    hide ContentFor, ConfirmFor;
  }

  lemma {:induction false} ServedKeeps(w: World, p: ProcessId, id: Uuid, at: int)
    requires Inv(w) && p in w.processes && w.processes[p].pc.AwaitingAttempt?
    ensures Inv(Do(w, Served(p, id, at)))
  {
    hide AllOk, AttemptsOk, PaidOk, LogsOk, ReleaseOk, GrantOk, Cancellable, CreatePaymentAttempt, SeatsIn;
    var process := w.processes[p];
    assert ProcessOk(w, p);
    var record, command := process.pc.record, process.command;
    var request := PaymentRequest(ContentFor(record.row.facts, command.outcome), command.key);
    ServeAdds(w.ledger, request, id, at);
    var answer := Serve(w, request, id, at);
    var w2 := Do(w, Served(p, id, at));
    if answer.out.Ok? && answer.out.value.status == SUCCEEDED {
      var a := answer.out.value;
      assert IsConfirm(w2, ConfirmFor(record, a), a);
      assert ConfirmOk(w2, ConfirmFor(record, a));
    }
    hide ConfirmOk;
    SameTables(w, w2, p);
  }

  // ---------------------------------------------------------------- transactions

  /** A step that runs one booking transaction. */
  lemma Transaction(w: World, w2: World, p: ProcessId, step: Step)
    requires Inv(w) && w2.db == Next(w.db, step) && w2.ledger == w.ledger && Acts(w, w2, p)
    requires forall id {:trigger PaidOk(w2, id)} :: Pays(step, id) ==>
      PaidBy(w2.db, id) == PaidBy(w.db, id) || PaidOk(w2, id)
    ensures Inv(w2)
  {
    hide PaidOk, LogsOk, ProcessOk, AttemptsOk, Acts, Next, OkFor, Kept, Cancellable, PaidBy;
    forall id ensures OkFor(w2.db, id) { NextKeeps(w.db, step, id); }
    forall id ensures Kept(w.db, w2.db, id) { NextEvolves(w.db, step, id); }
    forall id ensures PaidBy(w2.db, id) == PaidBy(w.db, id) || PaidOk(w2, id) {
      NextEvolves(w.db, step, id);
    }
    Advance(w, w2, p);
  }

  predicate SamePeople(w: World, w2: World, p: ProcessId) {
    && w2.lock == w.lock && w2.lost == w.lost && w2.ledger == w.ledger && w2.requests == w.requests
    && w2.confirms == w.confirms && w2.confirmed == w.confirmed && w2.releases == w.releases
    && (w2.processes == w.processes
        || (p in w.processes && !w.processes[p].pc.Locking?
            && w2.processes == w.processes[p := w.processes[p].(pc := Done)]))
  }

  lemma CommandKept(db: Db, db2: Db, command: Command)
    requires CommandOk(db, command) && Kept(db, db2, command.bookingId)
    ensures CommandOk(db2, command)
  {
  }

  /** Payments and expiries are committed by a process that has been through the lock. */
  predicate ByHolder(w: World, p: ProcessId, step: Step) {
    step.Pay? || step.Expire? ==>
      p in w.processes && step.id == w.processes[p].command.bookingId && !w.processes[p].pc.Locking?
  }

  lemma CalmProcess(w: World, w2: World, p: ProcessId, step: Step, q: ProcessId)
    requires Inv(w) && w2.db == Next(w.db, step) && !step.Cancel? && SamePeople(w, w2, p) && ByHolder(w, p, step)
    requires step.Pay? || step.Expire? ==> w2.processes == w.processes[p := w.processes[p].(pc := Done)]
    ensures ProcessOk(w2, q)
    ensures q in w2.processes && q != p ==> Undisturbed(w, w2, q, w.processes[q].command.bookingId)
  {
    hide AllOk, AttemptsOk, LogsOk, PaidOk, Next, PcOk, CommandOk, Cancellable, Unpaid, Kept;
    assert ProcessOk(w, p);
    if q in w.processes {
      var id := w.processes[q].command.bookingId;
      NextEvolves(w.db, step, id);
      assert ProcessOk(w, q);
      if w2.processes[q] == w.processes[q] && (q != p || (!step.Pay? && !step.Expire?)) {
        assert Undisturbed(w, w2, q, id);
        ProcessLater(w, w2, q);
      } else {
        CommandKept(w.db, w2.db, w.processes[q].command);
        DonePc(w2, w.processes[q].command);
      }
    }
  }

  lemma DonePc(w: World, command: Command)
    ensures PcOk(w, command, Done)
  {
  }

  /** Committing a transaction other than a cancellation. */
  lemma CommitKeeps(w: World, w2: World, p: ProcessId, step: Step)
    requires Inv(w) && w2.db == Next(w.db, step) && !step.Cancel? && SamePeople(w, w2, p) && ByHolder(w, p, step)
    requires step.Pay? || step.Expire? ==> w2.processes == w.processes[p := w.processes[p].(pc := Done)]
    requires forall id {:trigger PaidOk(w2, id)} :: Pays(step, id) ==>
      PaidBy(w2.db, id) == PaidBy(w.db, id) || PaidOk(w2, id)
    ensures Inv(w2)
  {
    hide Inv, Next, ProcessOk, Undisturbed, PaidOk, PaidBy, Pays;
    forall q
      ensures ProcessOk(w2, q)
      ensures q in w2.processes && q != p ==> Undisturbed(w, w2, q, w.processes[q].command.bookingId)
    {
      CalmProcess(w, w2, p, step, q);
    }
    assert Acts(w, w2, p);
    Transaction(w, w2, p, step);
  }

  lemma OtherKeeps(w: World, step: Step)
    requires Inv(w) && TakesNoLock(step)
    ensures Inv(w.(db := Next(w.db, step)))
  {
    hide Inv, Next;
    CommitKeeps(w, w.(db := Next(w.db, step)), 0, step);
  }

  /** The dispatch built from what the process read is the one the booking asks for now. */
  lemma StillDispatches(db: Db, id: Uuid, record: Record, eventType: EventType, eventId: Uuid, at: int,
                        attemptId: Option<Uuid>)
    requires Holds(db, id, record) && FreshEvent(db, eventId)
    ensures Dispatches(db, id, eventType, at, attemptId,
                       DispatchOf(eventType, record.row.facts, record.passengers, eventId, at, attemptId))
  {
  }

  function PayStep(command: Command, record: Record, attempt: Attempt, at: int, eventId: Uuid): Step
    requires command.PayCommand?
  {
    Pay(command.bookingId, command.owner, attempt.id, command.key, at,
        DispatchOf(BookingPaidV1, record.row.facts, record.passengers, eventId, at, Some(attempt.id)))
  }

  function ExpireStep(command: Command, record: Record, eventId: Uuid, at: int, actor: Actor): Step {
    Expire(command.bookingId, command.owner, at, actor,
           DispatchOf(BookingExpiredV1, record.row.facts, record.passengers, eventId, at, None))
  }

  function CancelStep(command: Command, record: Record, eventId: Uuid, at: int): Step
    requires command.CancelCommand?
  {
    Cancel(command.bookingId, command.owner, command.key, at,
           DispatchOf(BookingCancelledV1, record.row.facts, record.passengers, eventId, at, None))
  }

  lemma PaidEffect(w: World, command: Command, record: Record, attempt: Attempt, at: int, eventId: Uuid)
    requires command.PayCommand? && Holds(w.db, command.bookingId, record) && FreshEvent(w.db, eventId)
    ensures
      var after := PaidTx(w, command, record, attempt, at, eventId).db;
      && after == Next(w.db, PayStep(command, record, attempt, at, eventId))
      && (PaidBy(after, command.bookingId) == PaidBy(w.db, command.bookingId)
          || PaidBy(after, command.bookingId) == Some(attempt.id))
  {
    StillDispatches(w.db, command.bookingId, record, BookingPaidV1, eventId, at, Some(attempt.id));
    hide Dispatches, EnqueueBookingEvent, BookingPayload, Holds, FreshEvent;
  }

  lemma CommitPaidKeeps(w: World, p: ProcessId, eventId: Uuid)
    requires Inv(w) && p in w.processes && w.processes[p].pc.MarkingPaid? && FreshEvent(w.db, eventId)
    requires w.processes[p].command.PayCommand?
    ensures
      var pc, command := w.processes[p].pc, w.processes[p].command;
      var tx := PaidTx(w, command, pc.record, pc.attempt, pc.at, eventId);
      tx.db == Next(w.db, PayStep(command, pc.record, pc.attempt, pc.at, eventId))
        && Inv(Goto(w.(db := tx.db), p, Done))
  {
    InvProcess(w, p);
    var command, pc := w.processes[p].command, w.processes[p].pc;
    PaidEffect(w, command, pc.record, pc.attempt, pc.at, eventId);
    hide PaidTx, FreshEvent, PayStep, Inv;
    var step := PayStep(command, pc.record, pc.attempt, pc.at, eventId);
    var w2 := Goto(w.(db := Next(w.db, step)), p, Done);
    InvDb(w);
    PaidNow(w, w2, p, step);
    CommitKeeps(w, w2, p, step);
  }

  /** Whatever a committed payment names, its process had asked for it and had it confirmed. */
  lemma PaidNow(w: World, w2: World, p: ProcessId, step: Step)
    requires AllOk(w.db) && ProcessOk(w, p) && p in w.processes && w.processes[p].pc.MarkingPaid?
    requires w2.db == Next(w.db, step) && w2.ledger == w.ledger && w2.confirmed == w.confirmed
    requires var id := w.processes[p].command.bookingId;
      PaidBy(w2.db, id) == PaidBy(w.db, id) || PaidBy(w2.db, id) == Some(w.processes[p].pc.attempt.id)
    ensures var id := w.processes[p].command.bookingId; PaidBy(w2.db, id) == PaidBy(w.db, id) || PaidOk(w2, id)
  {
    hide Next, AllOk;
    var id, a := w.processes[p].command.bookingId, w.processes[p].pc.attempt;
    NextEvolves(w.db, step, id);
    if PaidBy(w2.db, id) == Some(a.id) {
      assert PaidWith(w2, id, a);
    }
  }

  lemma CommitExpiredKeeps(w: World, p: ProcessId, eventId: Uuid, at: int, actor: Actor)
    requires Inv(w) && p in w.processes && w.processes[p].pc.MarkingExpired? && FreshEvent(w.db, eventId)
    ensures
      var command, record := w.processes[p].command, w.processes[p].pc.record;
      var tx := ExpiredTx(w, command, record, eventId, at, actor);
      tx.db == Next(w.db, ExpireStep(command, record, eventId, at, actor)) && Inv(Goto(w.(db := tx.db), p, Done))
  {
    InvProcess(w, p);
    var command, record := w.processes[p].command, w.processes[p].pc.record;
    StillDispatches(w.db, command.bookingId, record, BookingExpiredV1, eventId, at, None);
    hide Dispatches, MarkExpired, FreshEvent, Inv;
    var step := ExpireStep(command, record, eventId, at, actor);
    CommitKeeps(w, Goto(w.(db := Next(w.db, step)), p, Done), p, step);
  }

  lemma CommitReleasedKeeps(w: World, p: ProcessId, at: int)
    requires Inv(w) && p in w.processes && w.processes[p].pc.MarkingReleased?
    requires w.processes[p].command.CancelCommand? || w.processes[p].command.ReleaseCommand?
    ensures
      var command := w.processes[p].command;
      var step := SeatsReleased(command.bookingId, command.key, at);
      Inv(Goto(w.(db := Next(w.db, step)), p, Done))
  {
    hide Inv, Next;
    var command := w.processes[p].command;
    var step := SeatsReleased(command.bookingId, command.key, at);
    CommitKeeps(w, Goto(w.(db := Next(w.db, step)), p, Done), p, step);
  }

  // ---------------------------------------------------------------- cancellation

  lemma CancelEffect(w: World, command: Command, record: Record, eventId: Uuid, at: int)
    requires command.CancelCommand? && Holds(w.db, command.bookingId, record) && FreshEvent(w.db, eventId)
    ensures
      var tx, id := CancelledTx(w, command, record, eventId, at), command.bookingId;
      && tx.db == Next(w.db, CancelStep(command, record, eventId, at))
      && (tx.out.Ok? ==> id in tx.db.bookings && tx.out.value.0 == tx.db.bookings[id])
      && (tx.out.Ok? && Cancellable(w.db, id) && tx.out.value.0.status == CANCELLED ==>
            tx.db.bookings[id].cancellationKey == Some(command.key))
  {
    StillDispatches(w.db, command.bookingId, record, BookingCancelledV1, eventId, at, None);
    hide Dispatches, EnqueueBookingEvent, BookingPayload, Holds, FreshEvent;
  }

  lemma CancelOthers(w: World, w2: World, p: ProcessId, step: Step, q: ProcessId)
    requires Inv(w) && w2.db == Next(w.db, step) && step.Cancel? && Grows(w, w2)
    requires w2.lock == w.lock && w2.lost == w.lost
    requires p in w.processes && step.id == w.processes[p].command.bookingId && !w.processes[p].pc.Locking?
    requires q in w.processes && q != p
    ensures Undisturbed(w, w2, q, w.processes[q].command.bookingId)
  {
    hide AllOk, AttemptsOk, LogsOk, PaidOk, Next, PcOk, CommandOk, Cancellable, Kept;
    NextEvolves(w.db, step, w.processes[q].command.bookingId);
    assert ProcessOk(w, p);
  }

  lemma CancelledProcess(w: World, w2: World, p: ProcessId, record: Record)
    requires p in w.processes && w.processes[p].pc.MarkingCancelled? && ProcessOk(w, p)
    requires var id := w.processes[p].command.bookingId; Kept(w.db, w2.db, id) && w2.lost == w.lost && w2.lock == w.lock
    requires w2.processes == w.processes[p := w.processes[p].(pc := Done)] ||
      (&& w2.processes == w.processes[p := w.processes[p].(pc := AwaitingRelease(record))]
       && StoredKey(w2, w.processes[p].command.bookingId, w.processes[p].command.key)
       && Holds(w2.db, w.processes[p].command.bookingId, record))
    ensures ProcessOk(w2, p)
  {
  }

  lemma CancelledRecord(db: Db, id: Uuid)
    requires AllOk(db) && id in db.bookings
    ensures Holds(db, id, Record(db.bookings[id], PassengersOf(db, id)))
  {
    assert OkFor(db, id);
  }

  /** The process goes on to release the seats only if the booking is now cancelled, under a stored key. */
  lemma CancelledOutcome(w: World, p: ProcessId, eventId: Uuid, at: int)
    requires Inv(w) && p in w.processes && w.processes[p].pc.MarkingCancelled? && w.processes[p].command.CancelCommand?
    requires FreshEvent(w.db, eventId)
    ensures
      var command, record := w.processes[p].command, w.processes[p].pc.record;
      var tx := CancelledTx(w, command, record, eventId, at);
      && tx.db == Next(w.db, CancelStep(command, record, eventId, at))
      && Kept(w.db, tx.db, command.bookingId)
      && (tx.out.Ok? && tx.out.value.0.status == CANCELLED ==>
            && StoredKey(w.(db := tx.db), command.bookingId, command.key)
            && Holds(tx.db, command.bookingId, Record(tx.out.value.0, PassengersOf(tx.db, command.bookingId))))
  {
    InvProcess(w, p);
    InvDb(w);
    var command, record := w.processes[p].command, w.processes[p].pc.record;
    var step, id := CancelStep(command, record, eventId, at), command.bookingId;
    CancelEffect(w, command, record, eventId, at);
    NextEvolves(w.db, step, id);
    NextAllOk(w.db, step);
    var tx := CancelledTx(w, command, record, eventId, at);
    if tx.out.Ok? { CancelledRecord(tx.db, id); }
    hide CancelledTx, Inv, AllOk, FreshEvent, Next, Kept, Holds;
  }

  lemma NextAllOk(db: Db, step: Step)
    requires AllOk(db)
    ensures AllOk(Next(db, step))
  {
    hide Next, OkFor;
    forall id ensures OkFor(Next(db, step), id) { NextKeeps(db, step, id); }
  }

  lemma AfterCancelActs(w: World, p: ProcessId, tx: Tx<(Booking, bool)>, step: Step)
    requires Inv(w) && p in w.processes && w.processes[p].pc.MarkingCancelled? && w.processes[p].command.CancelCommand?
    requires tx.db == Next(w.db, step) && step.Cancel? && step.id == w.processes[p].command.bookingId
    requires Kept(w.db, tx.db, step.id)
    requires tx.out.Ok? && tx.out.value.0.status == CANCELLED ==>
      && StoredKey(w.(db := tx.db), step.id, w.processes[p].command.key)
      && Holds(tx.db, step.id, Record(tx.out.value.0, PassengersOf(tx.db, step.id)))
    ensures Acts(w, AfterCancel(w, p, tx), p)
  {
    InvProcess(w, p);
    OthersUndisturbed(w, AfterCancel(w, p, tx), p, step);
    hide Inv, Next, Kept, Undisturbed, Holds, StoredKey;
    if tx.out.Ok? && tx.out.value.0.status == CANCELLED {
      ReleasingActs(w, p, tx.db, Record(tx.out.value.0, PassengersOf(tx.db, step.id)));
    } else {
      RefusedActs(w, p, tx.db);
    }
    hide Acts, ProcessOk, CallRelease;
  }

  /** What every other process needs of a cancellation. */
  predicate OthersHold(w: World, w2: World, p: ProcessId) {
    forall q {:trigger q in w2.processes} :: q in w2.processes && q != p ==>
      q in w.processes && Undisturbed(w, w2, q, w.processes[q].command.bookingId)
  }

  lemma ReleasingActs(w: World, p: ProcessId, db: Db, record: Record)
    requires p in w.processes && w.processes[p].pc.MarkingCancelled? && ProcessOk(w, p)
    requires w.processes[p].command.CancelCommand?
    requires
      var id, key := w.processes[p].command.bookingId, w.processes[p].command.key;
      Kept(w.db, db, id) && StoredKey(w.(db := db), id, key) && Holds(db, id, record)
    requires OthersHold(w, CallRelease(w.(db := db), p, record, w.processes[p].command.key), p)
    ensures Acts(w, CallRelease(w.(db := db), p, record, w.processes[p].command.key), p)
  {
    var id, key := w.processes[p].command.bookingId, w.processes[p].command.key;
    var w2 := CallRelease(w.(db := db), p, record, key);
    hide PcOk, CommandOk, LockOk, Kept, Undisturbed, ConfirmOk, GrantOk, ContentOk;
    CancelledProcess(w, w2, p, record);
    NewReleaseOk(w2, id, record, key);
    hide ProcessOk, StoredKey, Holds, ReleaseOk, ReleaseFor;
  }

  lemma RefusedActs(w: World, p: ProcessId, db: Db)
    requires p in w.processes && w.processes[p].pc.MarkingCancelled? && ProcessOk(w, p)
    requires Kept(w.db, db, w.processes[p].command.bookingId)
    requires OthersHold(w, Goto(w.(db := db), p, Done), p)
    ensures Acts(w, Goto(w.(db := db), p, Done), p)
  {
    var w2 := Goto(w.(db := db), p, Done);
    hide PcOk, CommandOk, LockOk, Kept, Undisturbed, ConfirmOk, GrantOk, ContentOk, ReleaseOk;
    CancelledProcess(w, w2, p, w.processes[p].pc.record);
    hide ProcessOk;
  }

  lemma NewReleaseOk(w: World, id: Uuid, record: Record, key: string)
    requires StoredKey(w, id, key) && Holds(w.db, id, record)
    ensures ReleaseOk(w, ReleaseFor(record, key))
  {
  }

  lemma OthersUndisturbed(w: World, w2: World, p: ProcessId, step: Step)
    requires Inv(w) && w2.db == Next(w.db, step) && step.Cancel? && Grows(w, w2)
    requires w2.lock == w.lock && w2.lost == w.lost && w2.processes.Keys == w.processes.Keys
    requires p in w.processes && step.id == w.processes[p].command.bookingId && !w.processes[p].pc.Locking?
    ensures OthersHold(w, w2, p)
  {
    hide Inv, Next, Undisturbed, Grows;
    forall q | q in w2.processes && q != p ensures Undisturbed(w, w2, q, w.processes[q].command.bookingId) {
      CancelOthers(w, w2, p, step, q);
    }
  }

  lemma {:induction false} CommitCancelledKeeps(w: World, p: ProcessId, eventId: Uuid, at: int)
    requires Inv(w) && p in w.processes && w.processes[p].pc.MarkingCancelled? && w.processes[p].command.CancelCommand?
    requires FreshEvent(w.db, eventId)
    ensures
      var command, record := w.processes[p].command, w.processes[p].pc.record;
      var tx := CancelledTx(w, command, record, eventId, at);
      tx.db == Next(w.db, CancelStep(command, record, eventId, at)) && Inv(AfterCancel(w, p, tx))
  {
    var command, record := w.processes[p].command, w.processes[p].pc.record;
    CancelledOutcome(w, p, eventId, at);
    hide CancelledTx, Inv, FreshEvent, Next, Kept, Holds, StoredKey, Acts, ProcessOk;
    var tx, step := CancelledTx(w, command, record, eventId, at), CancelStep(command, record, eventId, at);
    AfterCancelActs(w, p, tx, step);
    Transaction(w, AfterCancel(w, p, tx), p, step);
  }
}
