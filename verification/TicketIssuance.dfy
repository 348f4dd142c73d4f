/** Exactly when tickets are issued, and what an issuance writes. */
module TicketIssuance {
  import opened Prelude
  import opened Bookings
  import opened BookingLifecycle
  import opened BookingInvariants
  import opened BookingTheorems

  // ---------------------------------------------------------------- inserting every ticket

  function Refs(id: Uuid, input: seq<TicketInput>): seq<TicketRef> { Map(input, (t: TicketInput) => TicketRef(id, t)) }

  /** The ticket's id, code and QR payload are new to the table. */
  predicate NewTo(tickets: seq<TicketRef>, t: TicketInput) {
    forall r :: r in tickets ==>
      r.ticket.ticketId != t.ticketId && r.ticket.ticketCode != t.ticketCode && r.ticket.qrHash != t.qrHash
  }

  predicate Differ(a: TicketInput, b: TicketInput) {
    && a.ticketId != b.ticketId && a.ticketCode != b.ticketCode && a.qrHash != b.qrHash
    && a.passengerId != b.passengerId
  }

  /** Every ticket is new, no two share anything, and each is for a passenger of the booking. */
  predicate AllNew(db: Db, id: Uuid, input: seq<TicketInput>) {
    && (forall t :: t in input ==> NewTo(db.tickets, t))
    && (forall i, j :: 0 <= i < j < |input| ==> Differ(input[i], input[j]))
    && forall t :: t in input ==> exists p :: p in db.passengers && p.id == t.passengerId && p.bookingId == id
  }

  /** None of the booking's passengers has a ticket yet. */
  predicate NoTickets(tickets: seq<TicketRef>, id: Uuid) { forall r :: r in tickets ==> r.bookingId != id }

  lemma RefsOfOneMore(id: Uuid, input: seq<TicketInput>)
    requires input != []
    ensures Refs(id, input) == Refs(id, input[..|input| - 1]) + [TicketRef(id, input[|input| - 1])]
  {
  }

  lemma FrontNew(db: Db, id: Uuid, input: seq<TicketInput>)
    requires input != [] && AllNew(db, id, input)
    ensures AllNew(db, id, input[..|input| - 1])
  {
    var init := input[..|input| - 1];
    forall t | t in init ensures t in input {}
    hide NewTo, Differ;
    forall i, j | 0 <= i < j < |init| ensures Differ(init[i], init[j]) {
      assert init[i] == input[i] && init[j] == input[j];
    }
  }

  lemma LastNew(db: Db, id: Uuid, input: seq<TicketInput>)
    requires input != [] && AllNew(db, id, input) && NoTickets(db.tickets, id)
    ensures
      var table, t := db.tickets + Refs(id, input[..|input| - 1]), input[|input| - 1];
      && !HasTicket(table, t.ticketId) && !TicketIndexConflict(table, id, t)
      && PassengerOnBooking(db.passengers, t.passengerId, id)
  {
    var init, t := input[..|input| - 1], input[|input| - 1];
    var table := db.tickets + Refs(id, init);
    forall r | r in table
      ensures r.ticket.ticketId != t.ticketId && r.ticket.ticketCode != t.ticketCode && r.ticket.qrHash != t.qrHash
      ensures r.bookingId == id ==> r.ticket.passengerId != t.passengerId
    {
      if r in db.tickets {
        assert NewTo(db.tickets, t);
      } else {
        var k :| 0 <= k < |Refs(id, init)| && Refs(id, init)[k] == r;
        assert Differ(input[k], input[|init|]);
      }
    }
  }

  lemma {:induction false} NewTicketsInsert(db: Db, id: Uuid, input: seq<TicketInput>)
    requires AllNew(db, id, input) && NoTickets(db.tickets, id)
    ensures InsertTickets(db.tickets, db.passengers, id, input) == Ok(db.tickets + Refs(id, input))
  {
    if input == [] {
      AppendNothing(db.tickets);
    } else {
      FrontNew(db, id, input);
      NewTicketsInsert(db, id, input[..|input| - 1]);
      LastNew(db, id, input);
      RefsOfOneMore(id, input);
      var init, last := input[..|input| - 1], input[|input| - 1];
      assert db.tickets + Refs(id, input) == db.tickets + Refs(id, init) + [TicketRef(id, last)];
      hide AllNew, NoTickets, Refs, HasTicket, TicketIndexConflict, PassengerOnBooking;
    }
  }

  /** If every ticket went in, every one was new. */
  lemma {:induction false} InsertedWereNew(db: Db, id: Uuid, input: seq<TicketInput>)
    requires InsertTickets(db.tickets, db.passengers, id, input) == Ok(db.tickets + Refs(id, input))
    ensures AllNew(db, id, input)
  {
    if input != [] {
      var init, t := input[..|input| - 1], input[|input| - 1];
      var before := InsertedTickets(db.tickets, db.passengers, id, init);
      RefsOfOneMore(id, input);
      var table := db.tickets + before;
      assert |before| <= |init| && |Refs(id, input)| == |init| + 1;
      assert InsertTickets(db.tickets, db.passengers, id, init).value == table;
      assert |table| < |db.tickets + Refs(id, input)|;
      assert !HasTicket(table, t.ticketId) && db.tickets + Refs(id, input) == table + [TicketRef(id, t)];
      assert |before| == |init|;
      assert before == Refs(id, init);
      InsertedWereNew(db, id, init);
      LastWasNew(db, id, input);
    }
  }

  lemma LastWasNew(db: Db, id: Uuid, input: seq<TicketInput>)
    requires input != [] && AllNew(db, id, input[..|input| - 1])
    requires
      var table, t := db.tickets + Refs(id, input[..|input| - 1]), input[|input| - 1];
      && !HasTicket(table, t.ticketId) && !TicketIndexConflict(table, id, t)
      && PassengerOnBooking(db.passengers, t.passengerId, id)
    ensures AllNew(db, id, input)
  {
    var init, t := input[..|input| - 1], input[|input| - 1];
    var refs := Refs(id, init);
    var table := db.tickets + refs;
    forall r | r in table
      ensures r.ticket.ticketId != t.ticketId && r.ticket.ticketCode != t.ticketCode && r.ticket.qrHash != t.qrHash
      ensures r.bookingId == id ==> r.ticket.passengerId != t.passengerId
    {
    }
    assert NewTo(db.tickets, t) by {
      forall r | r in db.tickets
        ensures r.ticket.ticketId != t.ticketId && r.ticket.ticketCode != t.ticketCode && r.ticket.qrHash != t.qrHash
      {
        assert r in table;
      }
    }
    forall i | 0 <= i < |init| ensures Differ(input[i], t) {
      assert refs[i] in table && refs[i] == TicketRef(id, input[i]);
    }
    forall i, j | 0 <= i < j < |input| ensures Differ(input[i], input[j]) {
      if j < |init| { assert Differ(init[i], init[j]); }
    }
    assert forall u :: u in input ==> u in init || u == t;
  }

  // ---------------------------------------------------------------- the references agree

  lemma {:induction false} OwnRefs(tickets: seq<TicketRef>, id: Uuid, input: seq<TicketInput>)
    requires NoTickets(tickets, id)
    ensures Filter(tickets + Refs(id, input), TicketOf(id)) == Refs(id, input)
  {
    FilterConcat(tickets, Refs(id, input), TicketOf(id));
    FilterNone(tickets, TicketOf(id));
    FilterAll(Refs(id, input), TicketOf(id));
    assert [] + Refs(id, input) == Refs(id, input);
  }

  lemma SameReferences(tickets: seq<TicketRef>, id: Uuid, input: seq<TicketInput>)
    requires NoTickets(tickets, id) && forall i, j :: 0 <= i < j < |input| ==> Differ(input[i], input[j])
    ensures SameTicketReferences(StoredTickets(tickets + Refs(id, input), id), input)
  {
    var mine := Refs(id, input);
    OwnRefs(tickets, id, input);
    assert Map(mine, TicketInputOf) == input;
    SortedAlike(mine, input);
    StoredCount(tickets + mine, id);
    var stored, ordered := StoredTickets(tickets + mine, id), SortBy(input, InputOrder);
    assert Map(stored, TicketInputOf) == ordered;
    assert forall i :: 0 <= i < |stored| ==> stored[i].ticket == Map(stored, TicketInputOf)[i];
  }

  lemma ReachableNoTickets(steps: seq<Step>, id: Uuid)
    requires id in Run(EMPTY_DB, steps).bookings && Run(EMPTY_DB, steps).bookings[id].status == PAID
    ensures NoTickets(Run(EMPTY_DB, steps).tickets, id)
  {
    var db := Run(EMPTY_DB, steps);
    StatusTellsTicketsAndCheckIns(steps, id);
    hide Run;
    forall r | r in db.tickets ensures r.bookingId != id {
      FilterMember(db.tickets, r, TicketOf(id));
    }
  }

  // ---------------------------------------------------------------- theorems

  /**
   In every reachable state the tickets of a paid booking are issued if and only if each is for one of
   its passengers, ids, codes and QR payloads are new, and no two tickets share any of the four. All
   of them are then appended, in the order given, and the booking is TICKET_ISSUED; otherwise the
   call fails and writes nothing.
   */
  lemma IssuesIff(steps: seq<Step>, id: Uuid, at: int, actorId: Uuid, input: seq<TicketInput>)
    requires id in Run(EMPTY_DB, steps).bookings && Run(EMPTY_DB, steps).bookings[id].status == PAID
    ensures
      var db := Run(EMPTY_DB, steps);
      var tx := MarkTicketIssued(db, id, at, actorId, input);
      if AllNew(db, id, input) then
        && tx.out == Ok((TICKET_ISSUED, true)) && tx.db.tickets == db.tickets + Refs(id, input)
        && tx.db.bookings == db.bookings[id := db.bookings[id].(status := TICKET_ISSUED)]
        && tx.db.history == db.history + [HistoryRow(id, Some(PAID), TICKET_ISSUED, Actor(SYSTEM, actorId), at)]
      else tx.out.Err? && tx.db == db
  {
    var db := Run(EMPTY_DB, steps);
    ReachableNoTickets(steps, id);
    hide Run;
    var inserted := InsertTickets(db.tickets, db.passengers, id, input);
    if AllNew(db, id, input) {
      NewTicketsInsert(db, id, input);
      SameReferences(db.tickets, id, input);
      hide InsertTickets, SameTicketReferences, AllNew, StoredTickets, NoTickets;
    } else if inserted.Ok? && SameTicketReferences(StoredTickets(inserted.value, id), input) {
      AllWentIn(db, id, input);
      InsertedWereNew(db, id, input);
      assert false;
    }
  }

  /** If the stored references agree with the request, every ticket of it was inserted. */
  lemma AllWentIn(db: Db, id: Uuid, input: seq<TicketInput>)
    requires NoTickets(db.tickets, id)
    requires var inserted := InsertTickets(db.tickets, db.passengers, id, input);
      inserted.Ok? && SameTicketReferences(StoredTickets(inserted.value, id), input)
    ensures InsertTickets(db.tickets, db.passengers, id, input) == Ok(db.tickets + Refs(id, input))
  {
    var added := InsertedTickets(db.tickets, db.passengers, id, input);
    FilterNone(db.tickets, TicketOf(id));
    AddedForBooking(db.tickets, added, id);
    StoredCount(db.tickets + added, id);
    assert |added| == |input|;
    assert added == Refs(id, input);
  }

  /** For any other booking nothing is written: it is unknown, or its status alone is reported. */
  lemma NotIssuable(db: Db, id: Uuid, at: int, actorId: Uuid, input: seq<TicketInput>)
    requires id in db.bookings ==> db.bookings[id].status in {DRAFT, PENDING_PAYMENT, EXPIRED, CANCELLED}
    ensures MarkTicketIssued(db, id, at, actorId, input) ==
      Tx(db, if id in db.bookings then Ok((db.bookings[id].status, false)) else Err(NotFound))
  {
    hide InsertTickets, SameTicketReferences;
  }
}
