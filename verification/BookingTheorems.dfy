/** The booking lifecycle over every run from the empty database. */
module BookingTheorems {
  import opened Prelude
  import opened Bookings
  import opened BookingLifecycle
  import opened BookingInvariants

  ghost predicate AllOk(db: Db) {
    forall id {:trigger OkFor(db, id)} :: OkFor(db, id)
  }

  function TargetOf(step: Step): Uuid {
    match step
    case Create(input, _) => input.facts.id
    case Pay(id, _, _, _, _, _) => id
    case Expire(id, _, _, _, _) => id
    case Issue(id, _, _, _) => id
    case Cancel(id, _, _, _, _) => id
    case SeatsReleased(id, _, _) => id
    case Admit(_) => 0
  }

  lemma NextKeeps(db: Db, step: Step, id: Uuid)
    requires AllOk(db)
    ensures OkFor(Next(db, step), id)
  {
    hide OkFor;
    assert OkFor(db, id) && OkFor(db, TargetOf(step));
    match step
    case Create(input, event) => if CreatesBooking(db, input, event) { CreateKeeps(db, input, event, id); }
    case Pay(target, owner, attemptId, key, at, event) =>
      if Dispatches(db, target, BookingPaidV1, at, Some(attemptId), event) {
        PayKeeps(db, target, owner, attemptId, key, at, event, id);
      }
    case Expire(target, owner, at, actor, event) =>
      if Dispatches(db, target, BookingExpiredV1, at, None, event) {
        ExpireKeeps(db, target, owner, at, actor, event, id);
      }
    case Issue(target, at, actorId, tickets) =>
      if MatchesPassengers(tickets, PassengersOf(db, target)) { IssueKeeps(db, target, at, actorId, tickets, id); }
    case Admit(command) => AdmitKeeps(db, command, id);
    case Cancel(target, owner, key, at, event) =>
      if Dispatches(db, target, BookingCancelledV1, at, None, event) {
        CancelKeeps(db, target, owner, key, at, event, id);
      }
    case SeatsReleased(target, key, at) => SeatsReleasedKeeps(db, target, key, at, id);
  }

  lemma {:induction false} RunKeepsFrom(db: Db, steps: seq<Step>)
    requires AllOk(db)
    ensures AllOk(Run(db, steps))
  {
    hide OkFor;
    if steps != [] {
      RunKeepsFrom(db, steps[..|steps| - 1]);
      forall id ensures OkFor(Run(db, steps), id) {
        NextKeeps(Run(db, steps[..|steps| - 1]), steps[|steps| - 1], id);
      }
    }
  }

  lemma RunKeeps(steps: seq<Step>)
    ensures AllOk(Run(EMPTY_DB, steps))
  {
    RunKeepsFrom(EMPTY_DB, steps);
  }

  // ---------------------------------------------------------------- history and outbox

  /**
   In every reachable state a booking's history is one chain from nothing to its current
   status, never visiting a status twice and at most four rows long, and the status alone
   fixes which events it enqueued, in which order and with which delivery targets.
   */
  lemma {:induction false} StatusTellsHistoryAndOutbox(steps: seq<Step>, id: Uuid)
    requires id in Run(EMPTY_DB, steps).bookings
    ensures
      var db := Run(EMPTY_DB, steps);
      var status, rows := db.bookings[id].status, RowsOf(db, id);
      var events := EventsOf(rows.outbox);
      && 1 <= |rows.history| <= 4
      && rows.history[0].from == None && rows.history[|rows.history| - 1].to == status
      && (forall i :: 0 < i < |rows.history| ==>
            && rows.history[i].from == Some(rows.history[i - 1].to)
            && Edge(rows.history[i - 1].to, rows.history[i].to))
      && (forall i, j :: 0 <= i < j < |rows.history| ==> rows.history[i].to != rows.history[j].to)
      && rows.outbox == Deliveries(events)
      && HasTypes(events, EventTypes(status))
      && forall e :: e in events ==> e.payload == BookingPayload(db.bookings[id].facts, rows.passengers)
  {
    RunKeeps(steps);
    var db := Run(EMPTY_DB, steps);
    assert OkFor(db, id);
    ChainIsShort(RowsOf(db, id).history, db.bookings[id].status);
    ChainEnds(RowsOf(db, id).history, db.bookings[id].status);
  }

  // ---------------------------------------------------------------- tickets

  /**
   A booking has no tickets before issuance and exactly one per passenger while issued or
   checked in; it is CHECKED_IN exactly when it has a check-in, each of one of its tickets, so
   a cancelled booking has none.
   */
  lemma {:induction false} StatusTellsTicketsAndCheckIns(steps: seq<Step>, id: Uuid)
    requires id in Run(EMPTY_DB, steps).bookings
    ensures
      var db := Run(EMPTY_DB, steps);
      var status, rows := db.bookings[id].status, RowsOf(db, id);
      && (status in {PENDING_PAYMENT, PAID, EXPIRED} ==> rows.tickets == [])
      && (status in {TICKET_ISSUED, CHECKED_IN} ==> Bijective(rows.tickets, rows.passengers))
      && (status == CANCELLED ==> rows.tickets == [] || Bijective(rows.tickets, rows.passengers))
      && (rows.checkIns != [] <==> status == CHECKED_IN)
      && forall c :: c in rows.checkIns ==> HasTicket(rows.tickets, c.ticketId)
  {
    RunKeeps(steps);
    hide Run;
    assert OkFor(Run(EMPTY_DB, steps), id);
  }

  lemma IssueLeavesTickets(db: Db, step: Step, id: Uuid)
    requires AllOk(db) && step.Issue? && RowsOf(db, id).tickets != []
    ensures RowsOf(Next(db, step), id).tickets == RowsOf(db, id).tickets
  {
    hide BookingOk;
    if MatchesPassengers(step.tickets, PassengersOf(db, step.id)) && step.id in db.bookings {
      assert OkFor(db, step.id) && OkFor(db, id);
      var added := IssueEffect(db, step.id, step.at, step.actorId, step.tickets);
      if Next(db, step) != db {
        if id == step.id {
          TicketsOnlyAfterIssue(db, id);
          assert false;
        }
        FilterConcat(db.tickets, added, TicketOf(id));
        FilterNone(added, TicketOf(id));
        AppendNothing(Filter(db.tickets, TicketOf(id)));
      }
    }
  }

  lemma TicketsOnlyAfterIssue(db: Db, id: Uuid)
    requires OkFor(db, id) && RowsOf(db, id).tickets != []
    ensures id in db.bookings && db.bookings[id].status in {TICKET_ISSUED, CHECKED_IN, CANCELLED}
    ensures Bijective(RowsOf(db, id).tickets, PassengersOf(db, id))
  {
  }

  lemma {:induction false} StepLeavesTickets(db: Db, step: Step, id: Uuid)
    requires AllOk(db) && RowsOf(db, id).tickets != []
    ensures RowsOf(Next(db, step), id).tickets == RowsOf(db, id).tickets
  {
    if step.Issue? {
      IssueLeavesTickets(db, step, id);
    } else {
      OnlyIssueWritesTickets(db, step);
      hide Next, AllOk;
    }
  }

  lemma OnlyIssueWritesTickets(db: Db, step: Step)
    requires !step.Issue?
    ensures Next(db, step).tickets == db.tickets
  {
    hide Dispatches, CreatesBooking, EnqueueBookingEvent, InsertPassengers, Filter, CheckedInAt, HasCredential,
         CheckInByKey;
  }

  lemma {:induction false} RunLeavesTickets(db: Db, steps: seq<Step>, id: Uuid)
    requires AllOk(db) && RowsOf(db, id).tickets != []
    ensures RowsOf(Run(db, steps), id).tickets == RowsOf(db, id).tickets
  {
    hide OkFor;
    if steps != [] {
      RunLeavesTickets(db, steps[..|steps| - 1], id);
      RunKeepsFrom(db, steps[..|steps| - 1]);
      StepLeavesTickets(Run(db, steps[..|steps| - 1]), steps[|steps| - 1], id);
    }
  }

  /** Once a booking has tickets it keeps exactly those, one per passenger, whatever runs later. */
  lemma {:induction false} TicketsAreForever(before: seq<Step>, after: seq<Step>, id: Uuid)
    requires RowsOf(Run(EMPTY_DB, before), id).tickets != []
    ensures
      var db := Run(EMPTY_DB, before);
      && RowsOf(Run(db, after), id).tickets == RowsOf(db, id).tickets
      && Bijective(RowsOf(db, id).tickets, PassengersOf(db, id))
  {
    var db := Run(EMPTY_DB, before);
    RunKeeps(before);
    assert OkFor(db, id);
    TicketsOnlyAfterIssue(db, id);
    RunLeavesTickets(db, after, id);
  }

  lemma TicketIdsPresent(tickets: seq<TicketRef>, id: Uuid, input: seq<TicketInput>)
    requires multiset(input) == multiset(Map(Filter(tickets, TicketOf(id)), TicketInputOf))
    ensures forall t :: t in input ==> HasTicket(tickets, t.ticketId)
  {
    var mine := Filter(tickets, TicketOf(id));
    forall t | t in input ensures HasTicket(tickets, t.ticketId) {
      assert t in multiset(Map(mine, TicketInputOf));
      var i :| 0 <= i < |mine| && mine[i].ticket == t;
      FilterMember(tickets, mine[i], TicketOf(id));
    }
  }

  function TicketInputOf(t: TicketRef): TicketInput { t.ticket }

  lemma {:induction false} NothingToInsert(tickets: seq<TicketRef>, passengers: seq<Passenger>, id: Uuid,
                                           input: seq<TicketInput>)
    requires forall t :: t in input ==> HasTicket(tickets, t.ticketId)
    ensures InsertTickets(tickets, passengers, id, input) == Ok(tickets)
  {
    if input != [] {
      NothingToInsert(tickets, passengers, id, input[..|input| - 1]);
    }
  }

  lemma {:induction false} SortedAlike(mine: seq<TicketRef>, input: seq<TicketInput>)
    requires multiset(input) == multiset(Map(mine, TicketInputOf))
    requires forall i, j :: 0 <= i < j < |input| ==> input[i].passengerId != input[j].passengerId
    ensures Map(SortBy(mine, PassengerOrder), TicketInputOf) == SortBy(input, InputOrder)
  {
    var stored, ordered := Map(SortBy(mine, PassengerOrder), TicketInputOf), SortBy(input, InputOrder);
    SortBySorted(mine, PassengerOrder);
    SortByRows(mine, PassengerOrder);
    MapOfPermutation(SortBy(mine, PassengerOrder), mine, TicketInputOf);
    SortBySorted(input, InputOrder);
    SortByRows(input, InputOrder);
    forall x, y | x in stored && y in stored && InputOrder(x) == InputOrder(y) ensures x == y {
      assert x in multiset(input) && y in multiset(input);
      var i :| 0 <= i < |input| && input[i] == x;
      var j :| 0 <= j < |input| && input[j] == y;
    }
    SortedUnique(stored, ordered, InputOrder);
  }

  /** After issuance a call writes nothing, and succeeds exactly when it repeats the stored references. */
  lemma {:induction false} ReissueOutcome(db: Db, id: Uuid, at: int, actorId: Uuid, input: seq<TicketInput>)
    requires OkFor(db, id) && id in db.bookings && db.bookings[id].status in {TICKET_ISSUED, CHECKED_IN}
    requires MatchesPassengers(input, PassengersOf(db, id))
    ensures
      var tx := MarkTicketIssued(db, id, at, actorId, input);
      && tx.db == db
      && (tx.out.Ok? <==> multiset(input) == multiset(Map(RowsOf(db, id).tickets, TicketInputOf)))
      && (tx.out.Ok? ==> tx.out.value == (db.bookings[id].status, false))
  {
    hide BookingOk;
    var tx, mine := MarkTicketIssued(db, id, at, actorId, input), Filter(db.tickets, TicketOf(id));
    var _ := IssueEffect(db, id, at, actorId, input);
    if multiset(input) == multiset(Map(mine, TicketInputOf)) {
      TicketIdsPresent(db.tickets, id, input);
      NothingToInsert(db.tickets, db.passengers, id, input);
      SortedAlike(mine, input);
      var stored, ordered := StoredTickets(db.tickets, id), SortBy(input, InputOrder);
      assert Map(stored, TicketInputOf) == ordered;
      assert |ordered| == |input| by {
        SortByRows(input, InputOrder);
        assert |multiset(ordered)| == |multiset(input)|;
      }
      assert SameTicketReferences(stored, input);
    } else if tx.out.Ok? {
      var stored, ordered := StoredTickets(db.tickets, id), SortBy(input, InputOrder);
      assert Map(stored, TicketInputOf) == ordered;
      StoredCount(db.tickets, id);
      MapOfPermutation(stored, mine, TicketInputOf);
      SortByRows(input, InputOrder);
      assert false;
    }
  }
}
