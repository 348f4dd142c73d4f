/** Who is admitted on which ticket, in every run of the booking transactions. */
module TicketAdmission {
  import opened Prelude
  import opened Bookings
  import opened BookingLifecycle
  import opened BookingInvariants
  import opened BookingTheorems
  import opened BookingAccounts

  // ---------------------------------------------------------------- unique credentials

  /** No two tickets share an id, a code or a QR payload. */
  predicate TicketsUnique(tickets: seq<TicketRef>) {
    forall i, j :: 0 <= i < j < |tickets| ==>
      && tickets[i].ticket.ticketId != tickets[j].ticket.ticketId
      && tickets[i].ticket.ticketCode != tickets[j].ticket.ticketCode
      && tickets[i].ticket.qrHash != tickets[j].ticket.qrHash
  }

  lemma {:induction false} InsertKeepsUnique(tickets: seq<TicketRef>, passengers: seq<Passenger>, id: Uuid,
                                             input: seq<TicketInput>)
    requires TicketsUnique(tickets) && InsertTickets(tickets, passengers, id, input).Ok?
    ensures TicketsUnique(InsertTickets(tickets, passengers, id, input).value)
  {
    if input != [] {
      InsertKeepsUnique(tickets, passengers, id, input[..|input| - 1]);
      hide PassengerOnBooking;
    }
  }

  lemma IssueInserts(db: Db, step: Step)
    requires step.Issue?
    ensures Next(db, step).tickets == db.tickets ||
      (var inserted := InsertTickets(db.tickets, db.passengers, step.id, step.tickets);
       inserted.Ok? && Next(db, step).tickets == inserted.value)
  {
    hide InsertTickets, MatchesPassengers, SameTicketReferences;
  }

  lemma {:induction false} TicketsStayUnique(steps: seq<Step>)
    ensures TicketsUnique(Run(EMPTY_DB, steps).tickets)
  {
    hide Next;
    if steps != [] {
      hide TicketsUnique;
      var db, step := Run(EMPTY_DB, steps[..|steps| - 1]), steps[|steps| - 1];
      TicketsStayUnique(steps[..|steps| - 1]);
      if step.Issue? {
        IssueInserts(db, step);
        if Next(db, step).tickets != db.tickets {
          InsertKeepsUnique(db.tickets, db.passengers, step.id, step.tickets);
        }
      } else {
        OnlyIssueWritesTickets(db, step);
      }
    }
  }

  /** The ticket bears this code or this QR payload, whichever was presented. */
  predicate Bears(ref: TicketRef, command: CheckInCommand) {
    match command.kind
    case TICKET_CODE => ref.ticket.ticketCode == command.credential
    case QR_PAYLOAD => ref.ticket.qrHash == command.credential
  }

  /** In every reachable state a credential belongs to at most one ticket, and that is the one a command finds. */
  lemma CredentialNamesOneTicket(steps: seq<Step>, command: CheckInCommand, ref: TicketRef)
    requires ref in Run(EMPTY_DB, steps).tickets && Bears(ref, command)
    ensures forall other :: other in Run(EMPTY_DB, steps).tickets && Bears(other, command) ==> other == ref
    ensures var found := Filter(Run(EMPTY_DB, steps).tickets, HasCredential(command.kind, command.credential));
      found != [] && found[0] == ref
  {
    var tickets, keep := Run(EMPTY_DB, steps).tickets, HasCredential(command.kind, command.credential);
    TicketsStayUnique(steps);
    hide Run;
    forall t: TicketRef ensures keep(t) <==> Bears(t, command) {}
    FilterMember(tickets, ref, keep);
    FilterMember(tickets, Filter(tickets, keep)[0], keep);
    forall other | other in tickets && Bears(other, command) ensures other == ref {
      var i :| 0 <= i < |tickets| && tickets[i] == ref;
      var j :| 0 <= j < |tickets| && tickets[j] == other;
    }
  }

  // ---------------------------------------------------------------- one check-in per actor and key

  predicate KeysUnique(checkIns: seq<CheckIn>) {
    forall i, j :: 0 <= i < j < |checkIns| ==>
      checkIns[i].actor.id != checkIns[j].actor.id || checkIns[i].key != checkIns[j].key
  }

  /** The actor has used this key for `c`. */
  predicate Used(db: Db, command: CheckInCommand, c: CheckIn) {
    c in db.checkIns && c.actor.id == command.actor.id && c.key == command.key
  }

  lemma PriorIs(db: Db, command: CheckInCommand)
    ensures var prior := Filter(db.checkIns, CheckInByKey(command.actor.id, command.key));
      && (prior == [] <==> forall c :: c in db.checkIns ==> !Used(db, command, c))
      && (prior != [] ==> Used(db, command, prior[0]))
  {
    var keep := CheckInByKey(command.actor.id, command.key);
    var prior := Filter(db.checkIns, keep);
    if prior != [] { FilterMember(db.checkIns, prior[0], keep); }
    forall c | Used(db, command, c) ensures c in prior { FilterMember(db.checkIns, c, keep); }
  }

  lemma AdmitAppends(db: Db, command: CheckInCommand)
    ensures var after := CheckInTicket(db, command).db;
      after == db ||
      exists c :: after.checkIns == db.checkIns + [c] && c.actor == command.actor && c.key == command.key
                  && Filter(db.checkIns, CheckInByKey(command.actor.id, command.key)) == []
  {
    hide CheckedInAt, HasCredential, CheckInByKey, Filter;
    var after := CheckInTicket(db, command).db;
    if after != db {
      var ref := Filter(db.tickets, HasCredential(command.kind, command.credential))[0];
      var c := CheckIn(ref.ticket.ticketId, ref.bookingId, ref.ticket.passengerId, command.key, command.actor,
                       command.at);
      assert after.checkIns == db.checkIns + [c];
    }
  }

  lemma OnlyAdmitWritesCheckIns(db: Db, step: Step)
    requires !step.Admit?
    ensures Next(db, step).checkIns == db.checkIns
  {
    hide Dispatches, CreatesBooking, MatchesPassengers, EnqueueBookingEvent, InsertTickets, InsertPassengers,
         SameTicketReferences;
  }

  lemma {:induction false} KeysStayUnique(steps: seq<Step>)
    ensures KeysUnique(Run(EMPTY_DB, steps).checkIns)
  {
    hide Next;
    if steps != [] {
      var db, step := Run(EMPTY_DB, steps[..|steps| - 1]), steps[|steps| - 1];
      KeysStayUnique(steps[..|steps| - 1]);
      if step.Admit? {
        AdmitAppends(db, step.command);
        PriorIs(db, step.command);
        NextAdmits(db, step.command);
        hide CheckInTicket, CheckInByKey, Filter;
        var prior := Filter(db.checkIns, CheckInByKey(step.command.actor.id, step.command.key));
        if prior == [] {
          assert forall i :: 0 <= i < |db.checkIns| ==> !Used(db, step.command, db.checkIns[i]);
        }
      } else {
        OnlyAdmitWritesCheckIns(db, step);
      }
    }
  }

  lemma NextAdmits(db: Db, command: CheckInCommand)
    ensures Next(db, Admit(command)) == CheckInTicket(db, command).db
  {
  }

  // ---------------------------------------------------------------- what a command does

  /** The check-in a command makes of a ticket. */
  function CheckInFor(command: CheckInCommand, ref: TicketRef): CheckIn {
    CheckIn(ref.ticket.ticketId, ref.bookingId, ref.ticket.passengerId, command.key, command.actor, command.at)
  }

  predicate CheckedInAlready(db: Db, ticketId: Uuid) { exists c :: c in db.checkIns && c.ticketId == ticketId }

  lemma CheckedInAtIs(checkIns: seq<CheckIn>, ticketId: Uuid)
    requires Distinct(Map(checkIns, CheckInTicketId))
    ensures CheckedInAt(checkIns, ticketId) == None <==> forall c :: c in checkIns ==> c.ticketId != ticketId
    ensures forall c :: c in checkIns && c.ticketId == ticketId ==> CheckedInAt(checkIns, ticketId) == Some(c.at)
  {
    var keep := CheckInOfTicket(ticketId);
    var rows := Filter(checkIns, keep);
    if rows != [] { FilterMember(checkIns, rows[0], keep); }
    forall c | c in checkIns && c.ticketId == ticketId
      ensures rows != [] && c == rows[0]
    {
      FilterMember(checkIns, c, keep);
      FilterMember(checkIns, rows[0], keep);
      var i :| 0 <= i < |checkIns| && checkIns[i] == c;
      var j :| 0 <= j < |checkIns| && checkIns[j] == rows[0];
      assert Map(checkIns, CheckInTicketId)[i] == Map(checkIns, CheckInTicketId)[j];
    }
  }

  /** A ticket's booking, in every reachable state. */
  lemma TicketHasBooking(steps: seq<Step>, ref: TicketRef)
    requires ref in Run(EMPTY_DB, steps).tickets
    ensures var db := Run(EMPTY_DB, steps);
      && ref.bookingId in db.bookings
      && exists p :: p in db.passengers && p.id == ref.ticket.passengerId && p.bookingId == ref.bookingId
  {
    var db := Run(EMPTY_DB, steps);
    RunKeeps(steps);
    hide Run;
    assert OkFor(db, ref.bookingId);
    FilterMember(db.tickets, ref, TicketOf(ref.bookingId));
    TicketsOnlyAfterIssue(db, ref.bookingId);
    TicketOfAPassenger(RowsOf(db, ref.bookingId).tickets, PassengersOf(db, ref.bookingId), ref);
    var p :| p in PassengersOf(db, ref.bookingId) && p.id == ref.ticket.passengerId;
    FilterMember(db.passengers, p, PassengerOf(ref.bookingId));
  }

  lemma TicketOfAPassenger(tickets: seq<TicketRef>, passengers: seq<Passenger>, ref: TicketRef)
    requires Bijective(tickets, passengers) && ref in tickets
    ensures exists p :: p in passengers && p.id == ref.ticket.passengerId
  {
    var i :| 0 <= i < |tickets| && tickets[i] == ref;
    assert Map(tickets, TicketPassenger)[i] == ref.ticket.passengerId;
    assert ref.ticket.passengerId in multiset(Map(passengers, PassengerId));
    var j :| 0 <= j < |passengers| && Map(passengers, PassengerId)[j] == ref.ticket.passengerId;
    assert passengers[j] in passengers;
  }

  /**
   In every run: a command that presents a ticket's credential under an unused key admits that
   ticket's passenger if and only if the trip is the booking's, the booking is issued or
   checked in, and the ticket has no check-in. It then appends one check-in of that ticket,
   booking and passenger by this actor at this instant, its audit row, and leaves the booking
   CHECKED_IN; otherwise it writes nothing.
   */
  lemma AdmitsIff(steps: seq<Step>, command: CheckInCommand, ref: TicketRef)
    requires ref in Run(EMPTY_DB, steps).tickets && Bears(ref, command)
    ensures
      var db := Run(EMPTY_DB, steps);
      var after, id, ticketId := Next(db, Admit(command)), ref.bookingId, ref.ticket.ticketId;
      && id in db.bookings
      && var b := db.bookings[id];
         && (after.checkIns != db.checkIns <==>
               && (forall c :: c in db.checkIns ==> c.actor.id != command.actor.id || c.key != command.key)
               && b.facts.tripId == command.tripId && b.status in {TICKET_ISSUED, CHECKED_IN}
               && (forall c :: c in db.checkIns ==> c.ticketId != ticketId))
         && (after.checkIns != db.checkIns ==>
               && after.checkIns == db.checkIns + [CheckInFor(command, ref)]
               && after.audit == db.audit +
                    [Audit(TICKET_CHECKED_IN, ticketId, command.tripId, command.actor, command.at)]
               && after.bookings == db.bookings[id := b.(status := CHECKED_IN)])
         && (after.checkIns == db.checkIns ==> after == db)
  {
    var db := Run(EMPTY_DB, steps);
    TicketHasBooking(steps, ref);
    CredentialNamesOneTicket(steps, command, ref);
    CheckInsAreAudited(steps);
    hide Run;
    CheckedInAtIs(db.checkIns, ref.ticket.ticketId);
    PriorIs(db, command);
    AdmitEffect(db, command, ref);
    hide Next, Filter, HasCredential, CheckInByKey, CheckedInAt;
  }

  /** The branches of a command that found its ticket. */
  lemma AdmitEffect(db: Db, command: CheckInCommand, ref: TicketRef)
    requires var found := Filter(db.tickets, HasCredential(command.kind, command.credential));
      found != [] && found[0] == ref
    requires ref.bookingId in db.bookings
    ensures
      var after, b, id := Next(db, Admit(command)), db.bookings[ref.bookingId], ref.bookingId;
      if b.facts.tripId == command.tripId && b.status in {TICKET_ISSUED, CHECKED_IN}
         && Filter(db.checkIns, CheckInByKey(command.actor.id, command.key)) == []
         && CheckedInAt(db.checkIns, ref.ticket.ticketId) == None
      then
        && after.checkIns == db.checkIns + [CheckInFor(command, ref)]
        && after.audit == db.audit +
             [Audit(TICKET_CHECKED_IN, ref.ticket.ticketId, command.tripId, command.actor, command.at)]
        && after.bookings == db.bookings[id := b.(status := CHECKED_IN)]
      else after == db
  {
    NextAdmits(db, command);
    hide Next, Filter, HasCredential, CheckInByKey, CheckedInAt;
    if db.bookings[ref.bookingId].status == CHECKED_IN {
      assert db.bookings[ref.bookingId := db.bookings[ref.bookingId].(status := CHECKED_IN)] == db.bookings;
    }
  }

  /** Without a ticket that bears the credential nothing is found and nothing is written. */
  lemma UnknownCredential(db: Db, command: CheckInCommand)
    requires forall ref :: ref in db.tickets ==> !Bears(ref, command)
    ensures CheckInTicket(db, command) == Tx(db, Ok(None))
  {
    var keep := HasCredential(command.kind, command.credential);
    var found := Filter(db.tickets, keep);
    if found != [] {
      FilterMember(db.tickets, found[0], keep);
      assert false;
    }
  }

  /**
   What the command is answered, in every reachable state: the refusals in their order, a replay by
   the same actor and key, a ticket that is already checked in, or the admission.
   */
  lemma AdmissionAnswers(steps: seq<Step>, command: CheckInCommand, ref: TicketRef)
    requires ref in Run(EMPTY_DB, steps).tickets && Bears(ref, command)
    ensures
      var db := Run(EMPTY_DB, steps);
      var out, ticketId := CheckInTicket(db, command).out, ref.ticket.ticketId;
      && ref.bookingId in db.bookings
      && var b := db.bookings[ref.bookingId];
         var mine := b.facts.tripId == command.tripId;
         var open := forall c :: c in db.checkIns ==> !Used(db, command, c);
         && (!mine ==> out == Err(WrongTrip))
         && (forall c :: Used(db, command, c) && mine ==>
               out == if c.ticketId != ticketId then Err(CheckInKeyConflict)
                      else Ok(Some(CheckInOutcome(ticketId, b.status, Some(c.at), true))))
         && (mine && open && b.status !in {TICKET_ISSUED, CHECKED_IN} ==> out == Err(CheckInState(b.status)))
         && (mine && open && b.status in {TICKET_ISSUED, CHECKED_IN} ==>
               && (forall c :: c in db.checkIns && c.ticketId == ticketId ==>
                     out == Ok(Some(CheckInOutcome(ticketId, b.status, Some(c.at), false))))
               && (!CheckedInAlready(db, ticketId) ==>
                     out == Ok(Some(CheckInOutcome(ticketId, CHECKED_IN, Some(command.at), true)))))
  {
    var db := Run(EMPTY_DB, steps);
    TicketHasBooking(steps, ref);
    CredentialNamesOneTicket(steps, command, ref);
    CheckInsAreAudited(steps);
    KeysStayUnique(steps);
    hide Run;
    CheckedInAtIs(db.checkIns, ref.ticket.ticketId);
    PriorIs(db, command);
    OnlyPrior(db, command);
    hide Filter, HasCredential, CheckInByKey, CheckedInAt, KeysUnique;
  }

  lemma OnlyPrior(db: Db, command: CheckInCommand)
    requires KeysUnique(db.checkIns)
    ensures forall c, d :: Used(db, command, c) && Used(db, command, d) ==> c == d
  {
    forall c, d | Used(db, command, c) && Used(db, command, d) ensures c == d {
      var i :| 0 <= i < |db.checkIns| && db.checkIns[i] == c;
      var j :| 0 <= j < |db.checkIns| && db.checkIns[j] == d;
    }
  }

  /** `c` is what this command made of one of the tickets in these tables, for the trip of its booking. */
  predicate MadeBy(db: Db, command: CheckInCommand, ref: TicketRef, c: CheckIn) {
    && c == CheckInFor(command, ref)
    && ref in db.tickets && Bears(ref, command)
    && ref.bookingId in db.bookings && db.bookings[ref.bookingId].facts.tripId == command.tripId
    && exists p :: p in db.passengers && p.id == ref.ticket.passengerId && p.bookingId == ref.bookingId
  }

  /**
   Nobody is admitted without a ticket for the bus: in every reachable state each check-in was made
   by one of the run's commands, which presented the credential of a ticket that existed then, for
   the trip of its booking, and it names that booking and one of its passengers.
   */
  lemma {:induction false} CheckInsAreForTheTrip(steps: seq<Step>, c: CheckIn)
    requires c in Run(EMPTY_DB, steps).checkIns
    ensures exists k, command, ref ::
      0 <= k < |steps| && steps[k] == Admit(command) && MadeBy(Run(EMPTY_DB, steps[..k]), command, ref, c)
  {
    var n := |steps| - 1;
    var init, step := steps[..n], steps[n];
    var db := Run(EMPTY_DB, init);
    if c in db.checkIns {
      CheckInsAreForTheTrip(init, c);
      hide MadeBy, Run;
      var k, command, ref :| 0 <= k < |init| && init[k] == Admit(command) &&
                             MadeBy(Run(EMPTY_DB, init[..k]), command, ref, c);
      assert init[..k] == steps[..k] && init[k] == steps[k];
    } else if step.Admit? {
      var ref := NewCheckIn(init, step.command, c);
      hide MadeBy, Run;
      assert steps[n] == Admit(step.command) && steps[..n] == init;
    } else {
      OnlyAdmitWritesCheckIns(db, step);
      assert false;
    }
  }

  lemma NewCheckIn(steps: seq<Step>, command: CheckInCommand, c: CheckIn) returns (ref: TicketRef)
    requires c !in Run(EMPTY_DB, steps).checkIns && c in Next(Run(EMPTY_DB, steps), Admit(command)).checkIns
    ensures MadeBy(Run(EMPTY_DB, steps), command, ref, c)
  {
    var db := Run(EMPTY_DB, steps);
    NextAdmits(db, command);
    ref := FoundTicket(db, command);
    AdmitsIff(steps, command, ref);
    TicketHasBooking(steps, ref);
    hide Run, Next, CheckInTicket, Bears;
  }

  lemma FoundTicket(db: Db, command: CheckInCommand) returns (ref: TicketRef)
    requires CheckInTicket(db, command).db != db
    ensures ref in db.tickets && Bears(ref, command)
  {
    var keep := HasCredential(command.kind, command.credential);
    ref := Filter(db.tickets, keep)[0];
    FilterMember(db.tickets, ref, keep);
  }
}
