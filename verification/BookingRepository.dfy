/**
 The booking repository as the program runs it: tables updated in place inside transactions
 that roll back when they throw. Every method is proved to be one of the transaction
 functions of `Bookings`, about which all other results are stated.
 */
module BookingRepository {
  import opened Prelude
  import opened Bookings

  class Repository {
    var bookings: map<Uuid, Booking>
    var ownerKeys: map<(Owner, string), Uuid>
    var passengers: seq<Passenger>
    var history: seq<HistoryRow>
    var outbox: seq<OutboxRow>
    var tickets: seq<TicketRef>
    var checkIns: seq<CheckIn>
    var audit: seq<Audit>

    constructor ()
      ensures Tables() == EMPTY_DB
    {
      bookings, ownerKeys, passengers, history, outbox := map[], map[], [], [], [];
      tickets, checkIns, audit := [], [], [];
    }

    function Tables(): Db
      reads this
    {
      Db(bookings, ownerKeys, passengers, history, outbox, tickets, checkIns, audit)
    }

    /** ROLLBACK: the tables are again what they were at BEGIN. */
    method Rollback(begin: Db)
      modifies this
      ensures Tables() == begin
    {
      bookings, ownerKeys, passengers, history := begin.bookings, begin.ownerKeys, begin.passengers, begin.history;
      outbox, tickets, checkIns, audit := begin.outbox, begin.tickets, begin.checkIns, begin.audit;
    }

    method EnqueueBookingEventRows(event: Event)
      modifies this
      ensures Tables() == old(Tables()).(outbox := EnqueueBookingEvent(old(outbox), event))
    {
      var targets := DeliveryTargets(event);
      for i := 0 to |targets|
        invariant Tables() == old(Tables()).(outbox := EnqueueTargets(old(outbox), event, targets[..i]))
      {
        assert targets[..i + 1][..i] == targets[..i];
        if !HasOutboxRow(outbox, event.eventId, targets[i].destination) {
          outbox := outbox + [OutboxRow(targets[i], event)];
        }
      }
      assert targets[..|targets|] == targets;
    }

    method InsertPassengerRows(rows: seq<Passenger>) returns (failed: bool)
      modifies this
      ensures failed <==> InsertPassengers(old(passengers), rows).Err?
      ensures failed ==> InsertPassengers(old(passengers), rows) == Err(ConstraintViolation)
      ensures !failed ==> Tables() == old(Tables()).(passengers := InsertPassengers(old(passengers), rows).value)
    {
      failed := false;
      for i := 0 to |rows|
        invariant Tables() == old(Tables()).(passengers := passengers)
        invariant InsertPassengers(old(passengers), rows[..i]) ==
          if failed then Err(ConstraintViolation) else Ok(passengers)
      {
        assert rows[..i + 1][..i] == rows[..i];
        if !failed {
          if PassengerConflict(passengers, rows[i]) {
            failed := true;
          } else {
            passengers := passengers + [rows[i]];
          }
        }
      }
      assert rows[..|rows|] == rows;
    }

    method CreateOrReplayRow(input: PersistInput, event: Event) returns (out: Result<Uuid, Error>)
      modifies this
      ensures Tx(Tables(), out) == CreateOrReplay(old(Tables()), input, event)
    {
      var begin, facts := Tables(), input.facts;
      var ownerKey := (facts.owner, facts.idempotencyKey);
      if !BookingChecks(facts) { return Err(ConstraintViolation); }
      if ownerKey !in ownerKeys {
        if facts.id in bookings { return Err(ConstraintViolation); }
        bookings := bookings[facts.id := NewBooking(facts)];
        ownerKeys := ownerKeys[ownerKey := facts.id];
        var failed := InsertPassengerRows(input.passengers);
        if failed {
          Rollback(begin);
          return Err(ConstraintViolation);
        }
        history := history + [HistoryRow(facts.id, None, PENDING_PAYMENT, OwnerActor(facts.owner), facts.createdAt)];
        EnqueueBookingEventRows(event);
      }
      return Ok(ownerKeys[ownerKey]);
    }

    method MarkPaidRow(id: Uuid, owner: Owner, attemptId: Uuid, key: string, at: int, event: Event)
      returns (out: Result<Booking, Error>)
      modifies this
      ensures Tx(Tables(), out) == MarkPaid(old(Tables()), id, owner, attemptId, key, at, event)
    {
      var updated := OwnedRow(Tables(), id, owner);
      if updated.Some? && updated.value.status == PENDING_PAYMENT {
        bookings := bookings[id := bookings[id].(
          status := PAID, paidAttemptId := Some(attemptId), paymentKey := Some(key), paidAt := Some(at))];
        history := history + [HistoryRow(id, Some(PENDING_PAYMENT), PAID, OwnerActor(owner), at)];
        EnqueueBookingEventRows(event);
        audit := audit + [Audit(BOOKING_PAID, id, event.payload.tripId, OwnerActor(owner), at)];
      }
      var selected := OwnedRow(Tables(), id, owner);
      return if selected.Some? then Ok(selected.value) else Err(NotFound);
    }

    method MarkExpiredRow(id: Uuid, owner: Owner, at: int, actor: Actor, event: Event)
      returns (out: Result<(Booking, bool), Error>)
      modifies this
      ensures Tx(Tables(), out) == MarkExpired(old(Tables()), id, owner, at, actor, event)
    {
      var updated := OwnedRow(Tables(), id, owner);
      var transitioned := updated.Some? && updated.value.status == PENDING_PAYMENT;
      if transitioned {
        bookings := bookings[id := bookings[id].(status := EXPIRED, expiredAt := Some(at))];
        history := history + [HistoryRow(id, Some(PENDING_PAYMENT), EXPIRED, actor, at)];
        EnqueueBookingEventRows(event);
        AppendNothing(audit);
      }
      var selected := OwnedRow(Tables(), id, owner);
      return if selected.Some? then Ok((selected.value, transitioned)) else Err(NotFound);
    }

    method MarkCancelledRow(id: Uuid, owner: Owner, key: string, at: int, event: Event)
      returns (out: Result<(Booking, bool), Error>)
      modifies this
      ensures Tx(Tables(), out) == MarkCancelled(old(Tables()), id, owner, key, at, event)
    {
      var before := OwnedRow(Tables(), id, owner);
      if before.None? { return Err(NotFound); }
      var status, transitioned := before.value.status, false;
      if status == PAID || status == TICKET_ISSUED {
        bookings := bookings[id := bookings[id].(
          status := CANCELLED, cancelledAt := Some(at), cancellationKey := Some(key))];
        history := history + [HistoryRow(id, Some(status), CANCELLED, Actor(OwnerRole(CUSTOMER), owner.id), at)];
        EnqueueBookingEventRows(event);
        audit := audit + [Audit(BOOKING_CANCELLED, id, event.payload.tripId, OwnerActor(owner), at)];
        transitioned := true;
      }
      return Ok((bookings[id], transitioned));
    }

    method MarkCancellationSeatsReleasedRow(id: Uuid, key: string, at: int)
      modifies this
      ensures Tables() == MarkCancellationSeatsReleased(old(Tables()), id, key, at)
    {
      if id in bookings && bookings[id].status == CANCELLED && bookings[id].cancellationKey == Some(key) {
        if bookings[id].seatsReleasedAt == None {
          bookings := bookings[id := bookings[id].(seatsReleasedAt := Some(at))];
        } else {
          assert bookings[id := bookings[id]] == bookings;
        }
      }
    }

    method InsertTicketRows(id: Uuid, input: seq<TicketInput>) returns (failed: bool)
      modifies this
      ensures failed <==> InsertTickets(old(tickets), old(passengers), id, input).Err?
      ensures failed ==> InsertTickets(old(tickets), old(passengers), id, input) == Err(ConstraintViolation)
      ensures !failed ==>
        Tables() == old(Tables()).(tickets := InsertTickets(old(tickets), old(passengers), id, input).value)
    {
      failed := false;
      for i := 0 to |input|
        invariant Tables() == old(Tables()).(tickets := tickets)
        invariant InsertTickets(old(tickets), old(passengers), id, input[..i]) ==
                  if failed then Err(ConstraintViolation) else Ok(tickets)
      {
        assert input[..i + 1][..i] == input[..i];
        var t := input[i];
        if !failed && !HasTicket(tickets, t.ticketId) {
          if TicketIndexConflict(tickets, id, t) || !PassengerOnBooking(passengers, t.passengerId, id) {
            failed := true;
          } else {
            tickets := tickets + [TicketRef(id, t)];
          }
        }
      }
      assert input[..|input|] == input;
    }

    method MarkTicketIssuedRow(id: Uuid, at: int, actorId: Uuid, input: seq<TicketInput>)
      returns (out: Result<(Status, bool), Error>)
      modifies this
      ensures Tx(Tables(), out) == MarkTicketIssued(old(Tables()), id, at, actorId, input)
    {
      var begin := Tables();
      if id !in bookings { return Err(NotFound); }
      if !Issuable(bookings[id].status) { return Ok((bookings[id].status, false)); }
      var failed := InsertTicketRows(id, input);
      if failed {
        Rollback(begin);
        return Err(ConstraintViolation);
      }
      if !SameTicketReferences(StoredTickets(tickets, id), input) {
        Rollback(begin);
        return Err(TicketConflict);
      }
      var updated := bookings[id].status == PAID;
      if updated {
        bookings := bookings[id := bookings[id].(status := TICKET_ISSUED)];
        history := history + [HistoryRow(id, Some(PAID), TICKET_ISSUED, Actor(SYSTEM, actorId), at)];
      }
      return Ok((bookings[id].status, updated));
    }

    method CheckInTicketRow(command: CheckInCommand) returns (out: Result<Option<CheckInOutcome>, Error>)
      modifies this
      ensures Tx(Tables(), out) == CheckInTicket(old(Tables()), command)
    {
      var target := Filter(tickets, HasCredential(command.kind, command.credential));
      if target == [] || target[0].bookingId !in bookings { return Ok(None); }
      var ref, id := target[0], target[0].bookingId;
      var ticketId, status, tripId := ref.ticket.ticketId, bookings[id].status, bookings[id].facts.tripId;
      var checkedInAt := CheckedInAt(checkIns, ticketId);
      if tripId != command.tripId { return Err(WrongTrip); }
      var prior := Filter(checkIns, CheckInByKey(command.actor.id, command.key));
      if prior != [] {
        if prior[0].ticketId != ticketId { return Err(CheckInKeyConflict); }
        return Ok(Some(CheckInOutcome(ticketId, status, checkedInAt, true)));
      }
      if status != TICKET_ISSUED && status != CHECKED_IN { return Err(CheckInState(status)); }
      if checkedInAt.Some? { return Ok(Some(CheckInOutcome(ticketId, status, checkedInAt, false))); }
      checkIns := checkIns + [CheckIn(ticketId, id, ref.ticket.passengerId, command.key, command.actor, command.at)];
      audit := audit + [Audit(TICKET_CHECKED_IN, ticketId, tripId, command.actor, command.at)];
      if status == TICKET_ISSUED {
        bookings := bookings[id := bookings[id].(status := CHECKED_IN)];
        history := history + [HistoryRow(id, Some(TICKET_ISSUED), CHECKED_IN, command.actor, command.at)];
      }
      return Ok(Some(CheckInOutcome(ticketId, CHECKED_IN, Some(command.at), true)));
    }
  }
}
