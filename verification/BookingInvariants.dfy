/** What every reachable state of the booking tables satisfies. */
module BookingInvariants {
  import opened Prelude
  import opened Bookings
  import opened BookingLifecycle

  // ---------------------------------------------------------------- status history

  predicate Edge(from: Status, to: Status) {
    match from
    case PENDING_PAYMENT => to == PAID || to == EXPIRED
    case PAID => to == TICKET_ISSUED || to == CANCELLED
    case TICKET_ISSUED => to == CHECKED_IN || to == CANCELLED
    case _ => false
  }

  function Rank(s: Status): nat {
    match s
    case PENDING_PAYMENT => 1
    case PAID => 2
    case EXPIRED => 2
    case TICKET_ISSUED => 3
    case _ => 4
  }

  /** One chain of legal moves from nothing to `status`, each row starting where the last one ended. */
  predicate Chain(history: seq<HistoryRow>, status: Status) {
    && history != []
    && var last := history[|history| - 1];
       && last.to == status
       && if |history| == 1 then last.from == None && status == PENDING_PAYMENT
          else last.from.Some? && Edge(last.from.value, status) && Chain(history[..|history| - 1], last.from.value)
  }

  lemma {:induction false} ChainGrows(history: seq<HistoryRow>, status: Status, row: HistoryRow)
    requires Chain(history, status) && row.from == Some(status) && Edge(status, row.to)
    ensures Chain(history + [row], row.to)
  {
    assert (history + [row])[..|history|] == history;
  }

  /** A chain never visits a status twice and has at most four rows. */
  lemma {:induction false} ChainIsShort(history: seq<HistoryRow>, status: Status)
    requires Chain(history, status)
    ensures |history| <= Rank(status) <= 4
    ensures forall i, j :: 0 <= i < j < |history| ==> Rank(history[i].to) < Rank(history[j].to)
    ensures forall i :: 0 < i < |history| ==> history[i].from == Some(history[i - 1].to)
  {
    if |history| > 1 {
      var init, last := history[..|history| - 1], history[|history| - 1];
      ChainIsShort(init, last.from.value);
      forall i, j | 0 <= i < j < |history| ensures Rank(history[i].to) < Rank(history[j].to) {
        assert init[|init| - 1].to == last.from.value;
        if j == |history| - 1 {
          assert history[i] == init[i];
        } else {
          assert history[i] == init[i] && history[j] == init[j];
        }
      }
      forall i | 0 < i < |history| ensures history[i].from == Some(history[i - 1].to) {
        if i < |init| {
          assert history[i] == init[i] && history[i - 1] == init[i - 1];
        }
      }
    }
  }

  lemma {:induction false} ChainEnds(history: seq<HistoryRow>, status: Status)
    requires Chain(history, status)
    ensures history[0].from == None
    ensures forall i :: 0 < i < |history| ==> Edge(history[i - 1].to, history[i].to)
  {
    if |history| > 1 {
      var init := history[..|history| - 1];
      ChainEnds(init, history[|history| - 1].from.value);
      forall i | 0 < i < |history| ensures Edge(history[i - 1].to, history[i].to) {
        if i < |init| {
          assert init[i - 1] == history[i - 1] && init[i] == history[i];
        }
      }
    }
  }

  // ---------------------------------------------------------------- outbox

  /** The rows one event leaves behind. */
  function DeliveryRows(e: Event): seq<OutboxRow> {
    var targets := DeliveryTargets(e);
    if |targets| == 1 then [OutboxRow(targets[0], e)]
    else [OutboxRow(targets[0], e), OutboxRow(targets[1], e)]
  }

  function Deliveries(events: seq<Event>): seq<OutboxRow> {
    if events == [] then [] else Deliveries(events[..|events| - 1]) + DeliveryRows(events[|events| - 1])
  }

  /** Every event has exactly one Kafka row, so these are the events behind some outbox rows. */
  function EventsOf(outbox: seq<OutboxRow>): seq<Event> {
    if outbox == [] then []
    else
      var last := outbox[|outbox| - 1];
      EventsOf(outbox[..|outbox| - 1]) + if last.target.destination == KAFKA then [last.event] else []
  }

  function EventTypes(status: Status): seq<EventType> {
    match status
    case PENDING_PAYMENT => [BookingCreatedV1]
    case EXPIRED => [BookingCreatedV1, BookingExpiredV1]
    case CANCELLED => [BookingCreatedV1, BookingPaidV1, BookingCancelledV1]
    case _ => [BookingCreatedV1, BookingPaidV1]
  }

  predicate HasTypes(events: seq<Event>, types: seq<EventType>) {
    |events| == |types| && forall i :: 0 <= i < |events| ==> events[i].eventType == types[i]
  }

  /** The status alone fixes the events and their exact deliveries; content comes from the booking. */
  predicate OutboxFixed(b: Booking, rows: Rows) {
    var events := EventsOf(rows.outbox);
    && rows.outbox == Deliveries(events)
    && HasTypes(events, EventTypes(b.status))
    && forall i :: 0 <= i < |events| ==> events[i].payload == BookingPayload(b.facts, rows.passengers)
  }

  lemma EnqueueFresh(outbox: seq<OutboxRow>, e: Event)
    requires forall o :: o in outbox ==> o.event.eventId != e.eventId
    ensures EnqueueBookingEvent(outbox, e) == outbox + DeliveryRows(e)
  {
    var targets := DeliveryTargets(e);
    var first := outbox + [OutboxRow(targets[0], e)];
    assert targets[..1] == [targets[0]] && targets[..1][..0] == [];
    assert EnqueueTargets(outbox, e, targets[..1]) == first;
    if |targets| == 1 {
      assert targets == targets[..1];
    } else {
      assert targets[..|targets| - 1] == targets[..1];
      assert first + [OutboxRow(targets[1], e)] == outbox + DeliveryRows(e);
    }
  }

  lemma {:induction false} EventsOfAppend(outbox: seq<OutboxRow>, o: OutboxRow)
    ensures EventsOf(outbox + [o]) == EventsOf(outbox) + if o.target.destination == KAFKA then [o.event] else []
  {
    assert (outbox + [o])[..|outbox|] == outbox;
  }

  lemma {:induction false} EventsOfDelivery(outbox: seq<OutboxRow>, e: Event)
    ensures EventsOf(outbox + DeliveryRows(e)) == EventsOf(outbox) + [e]
  {
    var targets := DeliveryTargets(e);
    var first := OutboxRow(targets[0], e);
    EventsOfAppend(outbox, first);
    if |targets| == 2 {
      var second := OutboxRow(targets[1], e);
      assert DeliveryRows(e) == [first, second];
      EventsOfAppend(outbox + [first], second);
      AppendTwice(outbox, first, second);
      AppendNothing(EventsOf(outbox));
    }
    hide EventsOf;
  }

  /** Moving to the next status enqueues exactly the event that belongs to it. */
  lemma OutboxMoves(before: Booking, rows: Rows, after: Booking, added: Rows, e: Event)
    requires OutboxFixed(before, rows)
    requires after.facts == before.facts && added.outbox == DeliveryRows(e) && added.passengers == []
    requires e.payload == BookingPayload(before.facts, rows.passengers)
    requires EventTypes(after.status) == EventTypes(before.status) + [e.eventType]
    ensures OutboxFixed(after, Plus(rows, added))
  {
    EventsOfDelivery(rows.outbox, e);
    var events := EventsOf(rows.outbox);
    assert (events + [e])[..|events|] == events;
    assert rows.passengers + [] == rows.passengers;
  }

  // ---------------------------------------------------------------- tickets and check-ins

  function TicketPassenger(t: TicketRef): Uuid { t.ticket.passengerId }

  function PassengerId(p: Passenger): Uuid { p.id }

  /** One ticket per passenger and one passenger per ticket. */
  predicate Bijective(tickets: seq<TicketRef>, passengers: seq<Passenger>) {
    && multiset(Map(tickets, TicketPassenger)) == multiset(Map(passengers, PassengerId))
    && Distinct(Map(tickets, TicketPassenger))
  }

  predicate TicketsFixed(b: Booking, rows: Rows) {
    && (b.status in {PENDING_PAYMENT, PAID, EXPIRED} ==> rows.tickets == [])
    && (b.status in {TICKET_ISSUED, CHECKED_IN} ==> Bijective(rows.tickets, rows.passengers))
    && (b.status == CANCELLED ==> rows.tickets == [] || Bijective(rows.tickets, rows.passengers))
  }

  predicate CheckInsFixed(b: Booking, rows: Rows) {
    && (rows.checkIns != [] <==> b.status == CHECKED_IN)
    && forall c :: c in rows.checkIns ==> HasTicket(rows.tickets, c.ticketId)
  }

  // ---------------------------------------------------------------- column constraints

  predicate EverPaid(status: Status) { status in {PAID, TICKET_ISSUED, CHECKED_IN, CANCELLED} }

  /** The CHECK constraints on payment and cancellation columns, and their converses. */
  predicate Columns(b: Booking) {
    && b.status !in {DRAFT, COMPLETED}
    && (EverPaid(b.status) <==> b.paidAttemptId.Some?)
    && (EverPaid(b.status) <==> b.paymentKey.Some?)
    && (EverPaid(b.status) <==> b.paidAt.Some?)
    && (b.status == CANCELLED <==> b.cancellationKey.Some?)
    && (b.status == CANCELLED <==> b.cancelledAt.Some?)
    && (b.seatsReleasedAt.Some? ==> b.status == CANCELLED)
    && (b.status == EXPIRED <==> b.expiredAt.Some?)
    && BookingChecks(b.facts)
  }

  predicate BookingOk(b: Booking, rows: Rows) {
    match rows
    case Rows(passengers, history, _, _, _) =>
      && Chain(history, b.status)
      && OutboxFixed(b, rows)
      && TicketsFixed(b, rows)
      && CheckInsFixed(b, rows)
      && Columns(b)
      && |passengers| == b.facts.seatCount
  }

  // ---------------------------------------------------------------- one booking in the database

  /** What the tables say about one booking id: all is well, or there is nothing at all. */
  predicate OkFor(db: Db, id: Uuid) {
    if id in db.bookings then db.bookings[id].facts.id == id && BookingOk(db.bookings[id], RowsOf(db, id))
    else RowsOf(db, id) == NO_ROWS
  }

  lemma {:induction false} ColumnsHold(db: Db, id: Uuid)
    requires OkFor(db, id) && id in db.bookings
    ensures Columns(db.bookings[id])
  {
  }

  lemma PlusNothing(rows: Rows)
    ensures Plus(rows, NO_ROWS) == rows && Plus(NO_ROWS, rows) == rows
  {
  }

  lemma WriteKeeps(before: Db, after: Db, target: Uuid, row: Booking, added: Rows, id: Uuid)
    requires Writes(before, after, target, row, added) && row.facts.id == target
    requires OkFor(before, id)
    requires id == target ==> BookingOk(row, Plus(RowsOf(before, id), added))
    ensures OkFor(after, id)
  {
    hide BookingOk;
    if id == target {
      WritesAreLocal(before, after, target, row, added, target + 1);
    } else {
      WritesAreLocal(before, after, target, row, added, id);
    }
  }

  // ---------------------------------------------------------------- creation

  lemma {:induction false} InsertedPassengers(table: seq<Passenger>, rows: seq<Passenger>)
    requires InsertPassengers(table, rows).Ok?
    ensures InsertPassengers(table, rows).value == table + rows
  {
    if rows == [] {
      assert table + rows == table;
    } else {
      InsertedPassengers(table, rows[..|rows| - 1]);
      assert rows == rows[..|rows| - 1] + [rows[|rows| - 1]];
    }
  }

  function NewRows(input: PersistInput, event: Event): Rows {
    var facts := input.facts;
    var entry := HistoryRow(facts.id, None, PENDING_PAYMENT, OwnerActor(facts.owner), facts.createdAt);
    Rows(input.passengers, [entry], DeliveryRows(event), [], [])
  }

  lemma {:induction false} CreatedRow(input: PersistInput, event: Event)
    requires BookingChecks(input.facts) && |input.passengers| == input.facts.seatCount
    requires event == DispatchOf(BookingCreatedV1, input.facts, input.passengers,
                                 event.eventId, input.facts.createdAt, None)
    ensures BookingOk(NewBooking(input.facts), Plus(NO_ROWS, NewRows(input, event)))
  {
    PlusNothing(NewRows(input, event));
    EventsOfDelivery([], event);
    assert [] + DeliveryRows(event) == DeliveryRows(event);
    assert [event][..0] == [];
    assert Deliveries([event]) == [] + DeliveryRows(event);
  }

  lemma CreateWrites(db: Db, input: PersistInput, event: Event)
    requires CreatesBooking(db, input, event) && CreateOrReplay(db, input, event).db != db
    ensures Writes(db, CreateOrReplay(db, input, event).db, input.facts.id, NewBooking(input.facts),
                   NewRows(input, event))
  {
    hide SortBy;
    InsertedPassengers(db.passengers, input.passengers);
    EnqueueFresh(db.outbox, event);
    AppendNothing(db.tickets);
    AppendNothing(db.checkIns);
  }

  lemma {:induction false} CreateKeeps(db: Db, input: PersistInput, event: Event, id: Uuid)
    requires OkFor(db, id) && CreatesBooking(db, input, event)
    ensures OkFor(CreateOrReplay(db, input, event).db, id)
  {
    hide BookingOk;
    var after := CreateOrReplay(db, input, event).db;
    if after != db {
      CreateWrites(db, input, event);
      CreatedRow(input, event);
      assert RowsOf(db, input.facts.id) == NO_ROWS || id != input.facts.id;
      WriteKeeps(db, after, input.facts.id, NewBooking(input.facts), NewRows(input, event), id);
    }
  }

  // ---------------------------------------------------------------- payment, expiry, cancellation

  function MovedRows(entry: HistoryRow, event: Event): Rows { Rows([], [entry], DeliveryRows(event), [], []) }

  /** Pay, expire and cancel, seen from the one booking they touch. */
  lemma MovedRow(was: Booking, rows: Rows, row: Booking, entry: HistoryRow, event: Event)
    requires BookingOk(was, rows)
    requires event.payload == BookingPayload(was.facts, rows.passengers)
    requires row.facts == was.facts && Columns(row)
    requires entry.to == row.status && entry.from == Some(was.status)
    requires Edge(was.status, row.status) && row.status !in {TICKET_ISSUED, CHECKED_IN}
    requires EventTypes(row.status) == EventTypes(was.status) + [event.eventType]
    ensures BookingOk(row, Plus(rows, MovedRows(entry, event)))
  {
    var added := MovedRows(entry, event);
    var after := Plus(rows, added);
    ChainGrows(rows.history, was.status, entry);
    OutboxMoves(was, rows, row, added, event);
    assert after.tickets == rows.tickets && after.checkIns == rows.checkIns;
    assert after.passengers == rows.passengers;
  }

  lemma MoveWrites(db: Db, row: Booking, entry: HistoryRow, event: Event, audit: seq<Audit>)
    requires FreshEvent(db, event.eventId) && event.aggregateId == row.facts.id && entry.bookingId == row.facts.id
    ensures Writes(db, Move(db, row, entry, event, audit), row.facts.id, row, MovedRows(entry, event))
  {
    EnqueueFresh(db.outbox, event);
    AppendNothing(db.passengers);
    AppendNothing(db.tickets);
    AppendNothing(db.checkIns);
  }

  lemma MoveKeeps(db: Db, row: Booking, entry: HistoryRow, event: Event, audit: seq<Audit>, id: Uuid)
    requires OkFor(db, id) && row.facts.id in db.bookings
    requires FreshEvent(db, event.eventId) && event.aggregateId == row.facts.id && entry.bookingId == row.facts.id
    requires id == row.facts.id ==>
      var was := db.bookings[id];
      && row.facts == was.facts && Columns(row)
      && event.payload == BookingPayload(was.facts, PassengersOf(db, id))
      && entry.to == row.status && entry.from == Some(was.status)
      && Edge(was.status, row.status) && row.status !in {TICKET_ISSUED, CHECKED_IN}
      && EventTypes(row.status) == EventTypes(was.status) + [event.eventType]
    ensures OkFor(Move(db, row, entry, event, audit), id)
  {
    hide BookingOk;
    MoveWrites(db, row, entry, event, audit);
    if id == row.facts.id {
      MovedRow(db.bookings[id], RowsOf(db, id), row, entry, event);
    }
    WriteKeeps(db, Move(db, row, entry, event, audit), row.facts.id, row, MovedRows(entry, event), id);
  }

  lemma {:induction false} PayKeeps(db: Db, target: Uuid, owner: Owner, attemptId: Uuid, key: string, at: int,
                                    event: Event, id: Uuid)
    requires OkFor(db, id) && OkFor(db, target) && Dispatches(db, target, BookingPaidV1, at, Some(attemptId), event)
    ensures OkFor(MarkPaid(db, target, owner, attemptId, key, at, event).db, id)
  {
    hide BookingOk;
    var row := db.bookings[target];
    if row.facts.owner == owner && row.status == PENDING_PAYMENT {
      ColumnsHold(db, target);
      MoveKeeps(db, row.(status := PAID, paidAttemptId := Some(attemptId), paymentKey := Some(key), paidAt := Some(at)),
                HistoryRow(target, Some(PENDING_PAYMENT), PAID, OwnerActor(owner), at), event,
                [Audit(BOOKING_PAID, target, event.payload.tripId, OwnerActor(owner), at)], id);
    }
  }

  lemma {:induction false} ExpireKeeps(db: Db, target: Uuid, owner: Owner, at: int, actor: Actor, event: Event,
                                       id: Uuid)
    requires OkFor(db, id) && OkFor(db, target) && Dispatches(db, target, BookingExpiredV1, at, None, event)
    ensures OkFor(MarkExpired(db, target, owner, at, actor, event).db, id)
  {
    hide BookingOk;
    var row := db.bookings[target];
    if row.facts.owner == owner && row.status == PENDING_PAYMENT {
      ColumnsHold(db, target);
      MoveKeeps(db, row.(status := EXPIRED, expiredAt := Some(at)),
                HistoryRow(target, Some(PENDING_PAYMENT), EXPIRED, actor, at), event, [], id);
    }
  }

  lemma {:induction false} CancelKeeps(db: Db, target: Uuid, owner: Owner, key: string, at: int, event: Event, id: Uuid)
    requires OkFor(db, id) && OkFor(db, target) && Dispatches(db, target, BookingCancelledV1, at, None, event)
    ensures OkFor(MarkCancelled(db, target, owner, key, at, event).db, id)
  {
    hide BookingOk;
    var row := db.bookings[target];
    if row.facts.owner == owner && (row.status == PAID || row.status == TICKET_ISSUED) {
      ColumnsHold(db, target);
      MoveKeeps(db, row.(status := CANCELLED, cancelledAt := Some(at), cancellationKey := Some(key)),
                HistoryRow(target, Some(row.status), CANCELLED, Actor(OwnerRole(CUSTOMER), owner.id), at), event,
                [Audit(BOOKING_CANCELLED, target, event.payload.tripId, OwnerActor(owner), at)], id);
    }
  }

  lemma SameStatusRow(was: Booking, rows: Rows, row: Booking)
    requires BookingOk(was, rows) && row.facts == was.facts && row.status == was.status && Columns(row)
    ensures BookingOk(row, Plus(rows, NO_ROWS))
  {
    PlusNothing(rows);
  }

  lemma SeatsReleasedKeeps(db: Db, target: Uuid, key: string, at: int, id: Uuid)
    requires OkFor(db, id) && OkFor(db, target)
    ensures OkFor(MarkCancellationSeatsReleased(db, target, key, at), id)
  {
    hide BookingOk;
    var after := MarkCancellationSeatsReleased(db, target, key, at);
    if after != db {
      AppendNothing(db.passengers);
      AppendNothing(db.history);
      AppendNothing(db.outbox);
      AppendNothing(db.tickets);
      AppendNothing(db.checkIns);
      ColumnsHold(db, target);
      SameStatusRow(db.bookings[target], RowsOf(db, target), after.bookings[target]);
      WriteKeeps(db, after, target, after.bookings[target], NO_ROWS, id);
    }
  }

  // ---------------------------------------------------------------- ticket issuance

  lemma {:induction false} InsertedTickets(tickets: seq<TicketRef>, passengers: seq<Passenger>, id: Uuid,
                                           input: seq<TicketInput>) returns (added: seq<TicketRef>)
    requires InsertTickets(tickets, passengers, id, input).Ok?
    ensures InsertTickets(tickets, passengers, id, input).value == tickets + added
    ensures forall t :: t in added ==> t.bookingId == id
    ensures |added| <= |input|
    ensures |added| == |input| ==> forall i :: 0 <= i < |input| ==> added[i] == TicketRef(id, input[i])
  {
    if input == [] {
      added := [];
      AppendNothing(tickets);
    } else {
      var before := InsertedTickets(tickets, passengers, id, input[..|input| - 1]);
      var t := input[|input| - 1];
      if HasTicket(tickets + before, t.ticketId) {
        added := before;
      } else {
        added := before + [TicketRef(id, t)];
        assert tickets + added == tickets + before + [TicketRef(id, t)];
      }
    }
  }

  lemma StoredCount(tickets: seq<TicketRef>, id: Uuid)
    ensures |StoredTickets(tickets, id)| == |Filter(tickets, TicketOf(id))|
    ensures multiset(StoredTickets(tickets, id)) == multiset(Filter(tickets, TicketOf(id)))
  {
    var mine := Filter(tickets, TicketOf(id));
    SortByRows(mine, PassengerOrder);
    assert |multiset(SortBy(mine, PassengerOrder))| == |multiset(mine)|;
  }

  lemma AddedForBooking(tickets: seq<TicketRef>, added: seq<TicketRef>, id: Uuid)
    requires forall t :: t in added ==> t.bookingId == id
    ensures Filter(tickets + added, TicketOf(id)) == Filter(tickets, TicketOf(id)) + added
  {
    FilterConcat(tickets, added, TicketOf(id));
    FilterAll(added, TicketOf(id));
  }

  lemma MatchedTicketsAreBijective(added: seq<TicketRef>, input: seq<TicketInput>, passengers: seq<Passenger>, id: Uuid)
    requires MatchesPassengers(input, passengers) && |added| == |input|
    requires forall i :: 0 <= i < |input| ==> added[i] == TicketRef(id, input[i])
    ensures Bijective(added, passengers)
  {
    var mine, all := Map(added, TicketPassenger), Map(passengers, PassengerId);
    forall x | x in mine ensures x in all {
      var i :| 0 <= i < |mine| && mine[i] == x;
      assert input[i] in input;
      var p :| p in passengers && p.id == input[i].passengerId;
      var j :| 0 <= j < |passengers| && passengers[j] == p;
      assert all[j] == x;
    }
    Pigeonhole(mine, all);
  }

  lemma BijectiveCount(tickets: seq<TicketRef>, passengers: seq<Passenger>)
    requires Bijective(tickets, passengers)
    ensures |tickets| == |passengers|
  {
    assert |multiset(Map(tickets, TicketPassenger))| == |tickets|;
    assert |multiset(Map(passengers, PassengerId))| == |passengers|;
  }

  lemma {:induction false} IssuedRow(was: Booking, rows: Rows, entry: HistoryRow, added: seq<TicketRef>)
    requires BookingOk(was, rows) && was.status == PAID
    requires entry.from == Some(PAID) && entry.to == TICKET_ISSUED
    requires Bijective(added, rows.passengers)
    ensures BookingOk(was.(status := TICKET_ISSUED), Plus(rows, Rows([], [entry], [], added, [])))
  {
    var after := Plus(rows, Rows([], [entry], [], added, []));
    ChainGrows(rows.history, PAID, entry);
    assert after.tickets == added;
    AppendNothing(rows.passengers);
    AppendNothing(rows.outbox);
    AppendNothing(rows.checkIns);
  }

  /** First issuance stores one ticket per passenger; any later call leaves the tables as they were. */
  lemma {:induction false} IssueEffect(db: Db, target: Uuid, at: int, actorId: Uuid, input: seq<TicketInput>)
    returns (added: seq<TicketRef>)
    requires OkFor(db, target) && target in db.bookings && MatchesPassengers(input, PassengersOf(db, target))
    ensures
      var tx := MarkTicketIssued(db, target, at, actorId, input);
      if db.bookings[target].status == PAID && tx.out.Ok? then
        && tx.db.tickets == db.tickets + added
        && (forall t :: t in added ==> t.bookingId == target)
        && Bijective(added, PassengersOf(db, target))
      else tx.db == db
  {
    var tx, status := MarkTicketIssued(db, target, at, actorId, input), db.bookings[target].status;
    var inserted := InsertTickets(db.tickets, db.passengers, target, input);
    added := [];
    if Issuable(status) && inserted.Ok? {
      added := InsertedTickets(db.tickets, db.passengers, target, input);
      AddedForBooking(db.tickets, added, target);
      StoredCount(db.tickets + added, target);
      if SameTicketReferences(StoredTickets(inserted.value, target), input) {
        assert |Filter(db.tickets, TicketOf(target))| + |added| == |input|;
        if status == PAID {
          MatchedTicketsAreBijective(added, input, PassengersOf(db, target), target);
        } else {
          BijectiveCount(RowsOf(db, target).tickets, PassengersOf(db, target));
          AppendNothing(db.tickets);
        }
      }
    }
  }

  lemma IssueWrites(db: Db, target: Uuid, at: int, actorId: Uuid, input: seq<TicketInput>, added: seq<TicketRef>)
    requires target in db.bookings && MarkTicketIssued(db, target, at, actorId, input).db != db
    requires db.bookings[target].status == PAID
    requires MarkTicketIssued(db, target, at, actorId, input).db.tickets == db.tickets + added
    requires forall t :: t in added ==> t.bookingId == target
    ensures Writes(db, MarkTicketIssued(db, target, at, actorId, input).db, target,
                   db.bookings[target].(status := TICKET_ISSUED),
                   Rows([], [IssueEntry(target, at, actorId)], [], added, []))
  {
    AppendNothing(db.passengers);
    AppendNothing(db.outbox);
    AppendNothing(db.checkIns);
  }

  function IssueEntry(id: Uuid, at: int, actorId: Uuid): HistoryRow {
    HistoryRow(id, Some(PAID), TICKET_ISSUED, Actor(SYSTEM, actorId), at)
  }

  lemma {:induction false} IssueKeeps(db: Db, target: Uuid, at: int, actorId: Uuid, input: seq<TicketInput>, id: Uuid)
    requires OkFor(db, id) && OkFor(db, target) && MatchesPassengers(input, PassengersOf(db, target))
    ensures OkFor(MarkTicketIssued(db, target, at, actorId, input).db, id)
  {
    hide BookingOk, Writes;
    var tx := MarkTicketIssued(db, target, at, actorId, input);
    if target in db.bookings {
      var added := IssueEffect(db, target, at, actorId, input);
      if tx.db != db {
        IssueWrites(db, target, at, actorId, input, added);
        var was, entry := db.bookings[target], IssueEntry(target, at, actorId);
        IssuedRow(was, RowsOf(db, target), entry, added);
        WriteKeeps(db, tx.db, target, was.(status := TICKET_ISSUED), Rows([], [entry], [], added, []), id);
      }
    }
  }

  // ---------------------------------------------------------------- check-in

  lemma AdmittedRow(was: Booking, rows: Rows, entry: HistoryRow, checkIn: CheckIn)
    requires BookingOk(was, rows) && was.status in {TICKET_ISSUED, CHECKED_IN}
    requires HasTicket(rows.tickets, checkIn.ticketId)
    requires entry.from == Some(TICKET_ISSUED) && entry.to == CHECKED_IN
    ensures was.status == TICKET_ISSUED ==>
      BookingOk(was.(status := CHECKED_IN), Plus(rows, Rows([], [entry], [], [], [checkIn])))
    ensures was.status == CHECKED_IN ==> BookingOk(was, Plus(rows, Rows([], [], [], [], [checkIn])))
  {
    if was.status == TICKET_ISSUED {
      ChainGrows(rows.history, TICKET_ISSUED, entry);
    }
    AppendNothing(rows.history);
    AppendNothing(rows.passengers);
    AppendNothing(rows.outbox);
    AppendNothing(rows.tickets);
  }

  lemma TargetTicket(db: Db, command: CheckInCommand)
    requires Filter(db.tickets, HasCredential(command.kind, command.credential)) != []
    ensures var ref := Filter(db.tickets, HasCredential(command.kind, command.credential))[0];
      HasTicket(Filter(db.tickets, TicketOf(ref.bookingId)), ref.ticket.ticketId)
  {
    var ref := Filter(db.tickets, HasCredential(command.kind, command.credential))[0];
    FilterMember(db.tickets, ref, HasCredential(command.kind, command.credential));
    FilterMember(db.tickets, ref, TicketOf(ref.bookingId));
  }

  /** The check-in, if this command records one, and the booking it belongs to. */
  lemma AdmitWrites(db: Db, command: CheckInCommand)
    requires CheckInTicket(db, command).db != db
    ensures
      var after := CheckInTicket(db, command).db;
      var ref := Filter(db.tickets, HasCredential(command.kind, command.credential))[0];
      var target, checkIn := ref.bookingId, CheckIn(ref.ticket.ticketId, ref.bookingId, ref.ticket.passengerId,
                                                    command.key, command.actor, command.at);
      && target in db.bookings && db.bookings[target].status in {TICKET_ISSUED, CHECKED_IN}
      && var was := db.bookings[target];
         if was.status == TICKET_ISSUED then
           Writes(db, after, target, was.(status := CHECKED_IN),
                  Rows([], [AdmitEntry(target, command)], [], [], [checkIn]))
         else Writes(db, after, target, was, Rows([], [], [], [], [checkIn]))
  {
    AppendNothing(db.passengers);
    AppendNothing(db.outbox);
    AppendNothing(db.tickets);
    AppendNothing(db.history);
    var ref := Filter(db.tickets, HasCredential(command.kind, command.credential))[0];
    assert db.bookings[ref.bookingId := db.bookings[ref.bookingId]] == db.bookings;
  }

  function AdmitEntry(id: Uuid, command: CheckInCommand): HistoryRow {
    HistoryRow(id, Some(TICKET_ISSUED), CHECKED_IN, command.actor, command.at)
  }

  lemma {:induction false} AdmitKeeps(db: Db, command: CheckInCommand, id: Uuid)
    requires OkFor(db, id)
    requires forall t :: t in db.tickets ==> OkFor(db, t.bookingId)
    ensures OkFor(CheckInTicket(db, command).db, id)
  {
    hide BookingOk, Writes;
    var after := CheckInTicket(db, command).db;
    if after != db {
      AdmitWrites(db, command);
      TargetTicket(db, command);
      var keep := HasCredential(command.kind, command.credential);
      var ref := Filter(db.tickets, keep)[0];
      FilterMember(db.tickets, ref, keep);
      var target := ref.bookingId;
      var checkIn := CheckIn(ref.ticket.ticketId, target, ref.ticket.passengerId, command.key, command.actor,
                             command.at);
      AdmitRow(db, after, target, command, checkIn, id);
    }
  }

  lemma {:induction false} AdmitRow(db: Db, after: Db, target: Uuid, command: CheckInCommand, checkIn: CheckIn,
                                    id: Uuid)
    requires OkFor(db, id) && OkFor(db, target) && target in db.bookings
    requires db.bookings[target].status in {TICKET_ISSUED, CHECKED_IN}
    requires HasTicket(RowsOf(db, target).tickets, checkIn.ticketId)
    requires
      var was := db.bookings[target];
      if was.status == TICKET_ISSUED then
        Writes(db, after, target, was.(status := CHECKED_IN),
               Rows([], [AdmitEntry(target, command)], [], [], [checkIn]))
      else Writes(db, after, target, was, Rows([], [], [], [], [checkIn]))
    ensures OkFor(after, id)
  {
    hide BookingOk, Writes;
    var was, entry := db.bookings[target], AdmitEntry(target, command);
    AdmittedRow(was, RowsOf(db, target), entry, checkIn);
    if was.status == TICKET_ISSUED {
      WriteKeeps(db, after, target, was.(status := CHECKED_IN), Rows([], [entry], [], [], [checkIn]), id);
    } else {
      WriteKeeps(db, after, target, was, Rows([], [], [], [], [checkIn]), id);
    }
  }
}
