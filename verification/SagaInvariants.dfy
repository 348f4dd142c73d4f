/** What every reachable state of the checkout processes satisfies. */
module SagaInvariants {
  import opened Prelude
  import opened Bookings
  import opened BookingLifecycle
  import opened BookingInvariants
  import opened BookingTheorems
  import opened BookingAccounts
  import opened Payments
  import opened CheckoutSaga

  // ---------------------------------------------------------------- one booking over time

  predicate Cancelled(db: Db, id: Uuid) { id in db.bookings && db.bookings[id].status == CANCELLED }

  predicate Cancellable(db: Db, id: Uuid) {
    id in db.bookings && db.bookings[id].status in {PAID, TICKET_ISSUED, CHECKED_IN}
  }

  predicate Unpaid(db: Db, id: Uuid) { id in db.bookings && db.bookings[id].status == PENDING_PAYMENT }

  predicate CheckedIn(db: Db, id: Uuid) { id in db.bookings && db.bookings[id].status == CHECKED_IN }

  /** What a process read of facts and passengers never changes; cancellation and check-in are final. */
  predicate Kept(before: Db, after: Db, id: Uuid) {
    id in before.bookings ==>
      && id in after.bookings
      && after.bookings[id].facts == before.bookings[id].facts
      && PassengersOf(after, id) == PassengersOf(before, id)
      && (Cancelled(before, id) ==>
            Cancelled(after, id) && after.bookings[id].cancellationKey == before.bookings[id].cancellationKey)
      && (CheckedIn(before, id) ==> CheckedIn(after, id))
  }

  function PaidBy(db: Db, id: Uuid): Option<Uuid> {
    if id in db.bookings then db.bookings[id].paidAttemptId else None
  }

  predicate Cancels(step: Step, id: Uuid) { step.Cancel? && step.id == id }

  predicate Pays(step: Step, id: Uuid) { step.Pay? && step.id == id }

  predicate Expires(step: Step, id: Uuid) { step.Expire? && step.id == id }

  predicate Evolves(db: Db, step: Step, id: Uuid) {
    var after := Next(db, step);
    && Kept(db, after, id)
    && (Cancellable(db, id) && !Cancels(step, id) ==> Cancellable(after, id))
    && (Unpaid(db, id) && !Pays(step, id) && !Expires(step, id) ==> Unpaid(after, id))
    && (!Pays(step, id) ==> PaidBy(after, id) == PaidBy(db, id))
  }

  lemma CreateEvolves(db: Db, step: Step, id: Uuid)
    requires AllOk(db) && step.Create?
    ensures Evolves(db, step, id)
  {
    hide OkFor, AllOf, EnqueueBookingEvent, InsertPassengers, SortBy;
    if Next(db, step) != db {
      CreateWrites(db, step.input, step.event);
      if id != step.input.facts.id {
        WritesAreLocal(db, Next(db, step), step.input.facts.id, NewBooking(step.input.facts),
                       NewRows(step.input, step.event), id);
      }
    }
  }

  lemma AdmitEvolves(db: Db, step: Step, id: Uuid)
    requires step.Admit?
    ensures Evolves(db, step, id)
  {
    hide CheckedInAt, HasCredential, Filter, CheckInByKey;
  }

  lemma IssueEvolves(db: Db, step: Step, id: Uuid)
    requires step.Issue?
    ensures Evolves(db, step, id)
  {
    hide MatchesPassengers, InsertTickets, SameTicketReferences, Filter;
  }

  lemma CommandEvolves(db: Db, step: Step, id: Uuid)
    requires step.SeatsReleased? || step.Pay? || step.Expire? || step.Cancel?
    ensures Evolves(db, step, id)
  {
    hide EnqueueBookingEvent, Dispatches, Filter;
  }

  lemma {:induction false} NextEvolves(db: Db, step: Step, id: Uuid)
    requires AllOk(db)
    ensures Evolves(db, step, id)
  {
    hide Evolves, AllOk;
    match step
    case Create(_, _) => CreateEvolves(db, step, id);
    case Admit(_) => AdmitEvolves(db, step, id);
    case Issue(_, _, _, _) => IssueEvolves(db, step, id);
    case _ => CommandEvolves(db, step, id);
  }

  // ---------------------------------------------------------------- what each part of the state means

  /** What a process read is still true of the booking. */
  predicate Holds(db: Db, id: Uuid, record: Record) {
    && id in db.bookings && db.bookings[id].facts == record.row.facts && record.row.facts.id == id
    && record.passengers == PassengersOf(db, id)
  }

  predicate IsSuccess(ledger: Ledger, facts: Facts, a: Attempt) {
    a in ledger.attempts && a.status == SUCCEEDED && a.content == ContentFor(facts, SUCCESS)
  }

  /** Unless the booking's lock was lost, this is the key stored with its cancellation. */
  predicate StoredKey(w: World, id: Uuid, key: string) {
    Cancelled(w.db, id) && (id !in w.lost ==> w.db.bookings[id].cancellationKey == Some(key))
  }

  predicate CommandOk(db: Db, command: Command) {
    match command
    case PayCommand(_, _, _, _) => true
    case ExpireCommand(_, _) => true
    case CancelCommand(_, owner, _) => owner.kind == CUSTOMER
    case ReleaseCommand(id, _, key) => Cancelled(db, id) && db.bookings[id].cancellationKey == Some(key)
  }

  function KeyOf(command: Command): string { if command.ExpireCommand? then "" else command.key }

  /** A payment in progress, while its lock is kept: the booking is still the owner's to pay. */
  predicate InPayment(w: World, command: Command, record: Record) {
    var id := command.bookingId;
    && command.PayCommand? && Holds(w.db, id, record) && record.row.facts.owner == command.owner
    && (id !in w.lost ==> Unpaid(w.db, id))
  }

  predicate PcOk(w: World, command: Command, pc: Pc) {
    var id := command.bookingId;
    match pc
    case Locking => true
    case Reading => true
    case Done => true
    case AwaitingAttempt(record) => InPayment(w, command, record)
    case AwaitingConfirm(record, attempt) =>
      InPayment(w, command, record) && IsSuccess(w.ledger, record.row.facts, attempt)
      && ConfirmFor(record, attempt) in w.confirms
    case MarkingPaid(record, attempt, _) =>
      InPayment(w, command, record) && IsSuccess(w.ledger, record.row.facts, attempt)
      && attempt.id in w.confirmed
    case MarkingExpired(record) =>
      Holds(w.db, id, record) && record.row.facts.owner == command.owner && (id !in w.lost ==> Unpaid(w.db, id))
    case MarkingCancelled(record) =>
      command.CancelCommand? && Holds(w.db, id, record) && (id !in w.lost ==> Cancellable(w.db, id))
    case AwaitingRelease(record) => StoredKey(w, id, KeyOf(command)) && Holds(w.db, id, record)
    case MarkingReleased(record, _) => StoredKey(w, id, KeyOf(command)) && Holds(w.db, id, record)
  }

  /** A process past its lock statement holds the lock, unless the lock was lost. */
  predicate LockOk(w: World, p: ProcessId, process: Process) {
    var id := process.command.bookingId;
    process.pc.Locking? || id in w.lost || (id in w.lock && w.lock[id] == p)
  }

  predicate ProcessOk(w: World, p: ProcessId) {
    p in w.processes ==>
      var process := w.processes[p];
      CommandOk(w.db, process.command) && PcOk(w, process.command, process.pc) && LockOk(w, p, process)
  }

  predicate IsConfirm(w: World, c: ConfirmCall, a: Attempt) {
    var id := c.bookingId;
    && id in w.db.bookings && IsSuccess(w.ledger, w.db.bookings[id].facts, a)
    && c == ConfirmFor(Record(w.db.bookings[id], PassengersOf(w.db, id)), a)
  }

  predicate ConfirmOk(w: World, c: ConfirmCall) {
    exists a :: a in w.ledger.attempts && IsConfirm(w, c, a)
  }

  predicate GrantOk(w: World, attemptId: Uuid) {
    exists c :: c in w.confirms && c.key == attemptId
  }

  predicate ReleaseOk(w: World, r: ReleaseCall) {
    && StoredKey(w, r.bookingId, r.key)
    && r == ReleaseRequest(w.db.bookings[r.bookingId].facts, PassengersOf(w.db, r.bookingId), r.key)
  }

  predicate ContentOk(db: Db, content: RequestContent) {
    content.bookingId in db.bookings && content == ContentFor(db.bookings[content.bookingId].facts, content.outcome)
  }

  predicate PaidOk(w: World, id: Uuid) {
    PaidBy(w.db, id).Some? ==>
      exists a :: a in w.ledger.attempts && PaidWith(w, id, a)
  }

  predicate PaidWith(w: World, id: Uuid, a: Attempt) {
    && id in w.db.bookings && PaidBy(w.db, id) == Some(a.id) && a.id in w.confirmed
    && IsSuccess(w.ledger, w.db.bookings[id].facts, a)
  }

  predicate LogsOk(w: World) {
    && (forall c {:trigger ConfirmOk(w, c)} :: c in w.confirms ==> ConfirmOk(w, c))
    && (forall k {:trigger GrantOk(w, k)} :: k in w.confirmed ==> GrantOk(w, k))
    && (forall r {:trigger ReleaseOk(w, r)} :: r in w.releases ==> ReleaseOk(w, r))
    && (forall q {:trigger ContentOk(w.db, q.content)} :: q in w.requests ==> ContentOk(w.db, q.content))
    && (forall a {:trigger ContentOk(w.db, a.content)} :: a in w.ledger.attempts ==> ContentOk(w.db, a.content))
  }

  ghost predicate Inv(w: World) {
    && AllOk(w.db) && AttemptsOk(w.ledger) && LogsOk(w)
    && (forall p {:trigger ProcessOk(w, p)} :: ProcessOk(w, p))
    && (forall id {:trigger PaidOk(w, id)} :: PaidOk(w, id))
  }

  // ---------------------------------------------------------------- what no step undoes

  predicate Grows(w: World, w2: World) {
    && (forall a {:trigger a in w2.ledger.attempts} :: a in w.ledger.attempts ==> a in w2.ledger.attempts)
    && (forall c {:trigger c in w2.confirms} :: c in w.confirms ==> c in w2.confirms)
    && w.confirmed <= w2.confirmed && w.lost <= w2.lost
  }

  predicate Later(w: World, w2: World, id: Uuid) {
    Kept(w.db, w2.db, id) && Grows(w, w2)
  }

  /** Another process's step took neither this process's lock nor, while locked, the state its booking was read in. */
  predicate Undisturbed(w: World, w2: World, p: ProcessId, id: Uuid) {
    id in w2.lost ||
    !(id in w.lock && w.lock[id] == p) ||
    (&& id in w2.lock && w2.lock[id] == p
     && (Cancellable(w.db, id) ==> Cancellable(w2.db, id))
     && (Unpaid(w.db, id) ==> Unpaid(w2.db, id)))
  }

  lemma ProcessLater(w: World, w2: World, p: ProcessId)
    requires p in w.processes && p in w2.processes && w2.processes[p] == w.processes[p] && ProcessOk(w, p)
    requires var id := w.processes[p].command.bookingId; Later(w, w2, id) && Undisturbed(w, w2, p, id)
    ensures ProcessOk(w2, p)
  {
    hide ConfirmFor, ContentFor;
  }

  lemma ConfirmLater(w: World, w2: World, c: ConfirmCall)
    requires ConfirmOk(w, c) && Later(w, w2, c.bookingId)
    ensures ConfirmOk(w2, c)
  {
    hide ContentFor, SeatsIn;
    var a :| a in w.ledger.attempts && IsConfirm(w, c, a);
    assert IsConfirm(w2, c, a);
  }

  lemma ReleaseLater(w: World, w2: World, r: ReleaseCall)
    requires ReleaseOk(w, r) && Later(w, w2, r.bookingId)
    ensures ReleaseOk(w2, r)
  {
  }

  lemma PaidLater(w: World, w2: World, id: Uuid)
    requires PaidOk(w, id) && Later(w, w2, id) && PaidBy(w2.db, id) == PaidBy(w.db, id)
    ensures PaidOk(w2, id)
  {
    hide ContentFor;
    if PaidBy(w.db, id).Some? {
      var a :| a in w.ledger.attempts && PaidWith(w, id, a);
      assert PaidWith(w2, id, a);
    }
  }

  /** What the acting process's step must show; everything else carries over. */
  predicate Acts(w: World, w2: World, p: ProcessId) {
    && Grows(w, w2)
    && (forall q {:trigger q in w2.processes} :: q in w2.processes && q != p ==>
          && q in w.processes && w2.processes[q] == w.processes[q]
          && Undisturbed(w, w2, q, w.processes[q].command.bookingId))
    && ProcessOk(w2, p)
    && (forall c {:trigger c in w2.confirms} :: c in w2.confirms ==> c in w.confirms || ConfirmOk(w2, c))
    && (forall k {:trigger k in w2.confirmed} :: k in w2.confirmed ==> k in w.confirmed || GrantOk(w2, k))
    && (forall r {:trigger r in w2.releases} :: r in w2.releases ==> r in w.releases || ReleaseOk(w2, r))
    && (forall q {:trigger q in w2.requests} :: q in w2.requests ==> q in w.requests || ContentOk(w2.db, q.content))
    && (forall a {:trigger a in w2.ledger.attempts} :: a in w2.ledger.attempts ==>
          a in w.ledger.attempts || ContentOk(w2.db, a.content))
  }

  lemma LogsLater(w: World, w2: World, p: ProcessId)
    requires LogsOk(w) && Acts(w, w2, p)
    requires forall id {:trigger Kept(w.db, w2.db, id)} :: Kept(w.db, w2.db, id)
    ensures LogsOk(w2)
  {
    hide Kept, ContentFor, ReleaseOk, ConfirmOk, ProcessOk, Undisturbed;
    forall c | c in w2.confirms ensures ConfirmOk(w2, c) {
      if c in w.confirms { assert Kept(w.db, w2.db, c.bookingId); ConfirmLater(w, w2, c); }
    }
    forall r | r in w2.releases ensures ReleaseOk(w2, r) {
      if r in w.releases { assert Kept(w.db, w2.db, r.bookingId); ReleaseLater(w, w2, r); }
    }
    forall q | q in w2.requests ensures ContentOk(w2.db, q.content) {
      if q in w.requests { assert ContentOk(w.db, q.content); ContentLater(w.db, w2.db, q.content); }
    }
    forall a | a in w2.ledger.attempts ensures ContentOk(w2.db, a.content) {
      if a in w.ledger.attempts { assert ContentOk(w.db, a.content); ContentLater(w.db, w2.db, a.content); }
    }
    forall k | k in w2.confirmed ensures GrantOk(w2, k) {
      if k in w.confirmed { assert GrantOk(w, k); }
    }
  }

  lemma ContentLater(db: Db, db2: Db, content: RequestContent)
    requires ContentOk(db, content) && Kept(db, db2, content.bookingId)
    ensures ContentOk(db2, content)
  {
  }

  lemma Advance(w: World, w2: World, p: ProcessId)
    requires Inv(w) && AllOk(w2.db) && AttemptsOk(w2.ledger) && Acts(w, w2, p)
    requires forall id {:trigger Kept(w.db, w2.db, id)} :: Kept(w.db, w2.db, id)
    requires forall id {:trigger PaidOk(w2, id)} :: PaidBy(w2.db, id) == PaidBy(w.db, id) || PaidOk(w2, id)
    ensures Inv(w2)
  {
    hide Kept, AllOk, AttemptsOk, PaidBy, ProcessOk, Undisturbed, PaidOk, LogsOk;
    LogsLater(w, w2, p);
    forall q ensures ProcessOk(w2, q) {
      if q != p {
        OtherProcess(w, w2, p, q);
      }
    }
    forall id ensures PaidOk(w2, id) {
      assert Kept(w.db, w2.db, id) && PaidOk(w, id);
      if PaidBy(w2.db, id) == PaidBy(w.db, id) { PaidLater(w, w2, id); }
    }
  }

  lemma OtherProcess(w: World, w2: World, p: ProcessId, q: ProcessId)
    requires Acts(w, w2, p) && q != p && ProcessOk(w, q)
    requires forall id {:trigger Kept(w.db, w2.db, id)} :: Kept(w.db, w2.db, id)
    ensures ProcessOk(w2, q)
  {
    hide Kept, PcOk, CommandOk, LockOk, Undisturbed, Grows;
    if q in w2.processes {
      assert Kept(w.db, w2.db, w.processes[q].command.bookingId);
      ProcessLater(w, w2, q);
    }
  }
}
