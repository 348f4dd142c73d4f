/** Facts that tie whole tables together: keys, event ids, audit rows and money. */
module BookingAccounts {
  import opened Prelude
  import opened Bookings
  import opened BookingLifecycle
  import opened BookingInvariants
  import opened BookingTheorems

  /** The one event a step appends to the log, if it appends any. */
  lemma OutboxOfNext(db: Db, step: Step) returns (event: Option<Event>)
    ensures
      match event
      case None => Next(db, step).outbox == db.outbox
      case Some(e) =>
        && FreshEvent(db, e.eventId)
        && Next(db, step).outbox == db.outbox + DeliveryRows(e)
  {
    if Next(db, step).outbox == db.outbox {
      event := None;
    } else {
      event := Some(step.event);
      EnqueueFresh(db.outbox, step.event);
    }
  }

  // ---------------------------------------------------------------- event ids

  function IdOfEvent(e: Event): Uuid { e.eventId }

  predicate DistinctEvents(outbox: seq<OutboxRow>) {
    Distinct(Map(EventsOf(outbox), IdOfEvent))
  }

  lemma {:induction false} EventsComeFromRows(outbox: seq<OutboxRow>, e: Event)
    requires e in EventsOf(outbox)
    ensures exists o :: o in outbox && o.event == e
  {
    var init, last := outbox[..|outbox| - 1], outbox[|outbox| - 1];
    if e in EventsOf(init) {
      EventsComeFromRows(init, e);
    } else {
      assert last in outbox && last.event == e;
    }
  }

  /** No event id is ever enqueued twice. */
  lemma {:induction false} EventIdsNeverRepeat(steps: seq<Step>)
    ensures DistinctEvents(Run(EMPTY_DB, steps).outbox)
  {
    if steps != [] {
      var db, step := Run(EMPTY_DB, steps[..|steps| - 1]), steps[|steps| - 1];
      EventIdsNeverRepeat(steps[..|steps| - 1]);
      var event := OutboxOfNext(db, step);
      if event.Some? {
        EventsOfDelivery(db.outbox, event.value);
        var events := EventsOf(db.outbox);
        forall i | 0 <= i < |events| ensures events[i].eventId != event.value.eventId {
          EventsComeFromRows(db.outbox, events[i]);
        }
      }
    }
  }

  // ---------------------------------------------------------------- idempotency keys

  function OwnerKeyOf(facts: Facts): (Owner, string) { (facts.owner, facts.idempotencyKey) }

  predicate Indexed(db: Db, id: Uuid) {
    id in db.bookings ==>
      var k := OwnerKeyOf(db.bookings[id].facts);
      k in db.ownerKeys && db.ownerKeys[k] == id
  }

  predicate Names(db: Db, k: (Owner, string)) {
    k in db.ownerKeys ==>
      db.ownerKeys[k] in db.bookings && OwnerKeyOf(db.bookings[db.ownerKeys[k]].facts) == k
  }

  /** The only two things a transaction does to the booking rows that other tables care about. */
  predicate Creates(db: Db, after: Db, facts: Facts) {
    && facts.id !in db.bookings && OwnerKeyOf(facts) !in db.ownerKeys
    && after.bookings == db.bookings[facts.id := NewBooking(facts)]
    && after.ownerKeys == db.ownerKeys[OwnerKeyOf(facts) := facts.id]
  }

  predicate Rewrites(db: Db, after: Db, id: Uuid) {
    && after.ownerKeys == db.ownerKeys
    && (after.bookings == db.bookings
        || (id in db.bookings && id in after.bookings
            && after.bookings == db.bookings[id := after.bookings[id]]
            && after.bookings[id].facts == db.bookings[id].facts))
  }

  function TouchedBy(db: Db, step: Step): Uuid {
    if step.Admit? then
      var target := Filter(db.tickets, HasCredential(step.command.kind, step.command.credential));
      if target == [] then 0 else target[0].bookingId
    else TargetOf(step)
  }

  lemma AdmitRewrites(db: Db, step: Step)
    requires step.Admit?
    ensures Rewrites(db, Next(db, step), TouchedBy(db, step))
  {
    hide CheckedInAt, Filter, HasCredential;
  }

  lemma IssueRewrites(db: Db, step: Step)
    requires step.Issue?
    ensures Rewrites(db, Next(db, step), TouchedBy(db, step))
  {
    hide MatchesPassengers, InsertTickets, SameTicketReferences, Filter;
  }

  lemma {:induction false} CommandRewrites(db: Db, step: Step)
    requires step.SeatsReleased? || ((step.Pay? || step.Expire? || step.Cancel?) && OkFor(db, step.id))
    ensures Rewrites(db, Next(db, step), TouchedBy(db, step))
  {
    hide BookingOk, EnqueueBookingEvent, Dispatches, RowsOf;
  }

  /** A step either creates one booking or rewrites one row without its facts. */
  lemma FactsOfNext(db: Db, step: Step)
    requires AllOk(db)
    ensures
      || Rewrites(db, Next(db, step), TouchedBy(db, step))
      || (step.Create? && Creates(db, Next(db, step), step.input.facts))
  {
    hide OkFor, Next, Rewrites;
    match step
    case Create(_, _) => CreateOnly(db, step);
    case Admit(_) => AdmitRewrites(db, step);
    case Issue(_, _, _, _) => IssueRewrites(db, step);
    case _ => assert OkFor(db, TargetOf(step)); CommandRewrites(db, step);
  }

  lemma CreateOnly(db: Db, step: Step)
    requires step.Create?
    ensures
      || Rewrites(db, Next(db, step), TouchedBy(db, step))
      || Creates(db, Next(db, step), step.input.facts)
  {
    hide CreatesBooking, InsertPassengers, EnqueueBookingEvent;
  }

  lemma IndexAgrees(db: Db, step: Step, id: Uuid, k: (Owner, string))
    requires AllOk(db) && Indexed(db, id) && Names(db, k)
    ensures Indexed(Next(db, step), id) && Names(Next(db, step), k)
  {
    hide OkFor, Next;
    FactsOfNext(db, step);
  }

  lemma {:induction false} IndexAlwaysAgrees(steps: seq<Step>, id: Uuid, k: (Owner, string))
    ensures Indexed(Run(EMPTY_DB, steps), id) && Names(Run(EMPTY_DB, steps), k)
  {
    hide OkFor, Next;
    if steps != [] {
      IndexAlwaysAgrees(steps[..|steps| - 1], id, k);
      RunKeeps(steps[..|steps| - 1]);
      IndexAgrees(Run(EMPTY_DB, steps[..|steps| - 1]), steps[|steps| - 1], id, k);
    }
  }

  /** However many creations run with one owner and key, they leave one booking. */
  lemma {:induction false} OneBookingPerKey(steps: seq<Step>, a: Uuid, b: Uuid)
    requires a in Run(EMPTY_DB, steps).bookings && b in Run(EMPTY_DB, steps).bookings
    requires OwnerKeyOf(Run(EMPTY_DB, steps).bookings[a].facts) == OwnerKeyOf(Run(EMPTY_DB, steps).bookings[b].facts)
    ensures a == b
  {
    var k := OwnerKeyOf(Run(EMPTY_DB, steps).bookings[a].facts);
    IndexAlwaysAgrees(steps, a, k);
    IndexAlwaysAgrees(steps, b, k);
  }

  // ---------------------------------------------------------------- check-ins and their audit rows

  function CheckInTicketId(c: CheckIn): Uuid { c.ticketId }

  /** The tickets named by TICKET_CHECKED_IN audit rows, in order. */
  function AuditedTickets(audit: seq<Audit>): seq<Uuid> {
    if audit == [] then []
    else
      var last := audit[|audit| - 1];
      AuditedTickets(audit[..|audit| - 1]) + if last.action == TICKET_CHECKED_IN then [last.targetId] else []
  }

  lemma {:induction false} AuditedAppend(audit: seq<Audit>, a: Audit)
    ensures AuditedTickets(audit + [a]) ==
      AuditedTickets(audit) + if a.action == TICKET_CHECKED_IN then [a.targetId] else []
  {
    assert (audit + [a])[..|audit|] == audit;
  }

  /** Admissions append a check-in of a ticket that had none, with its audit row. */
  predicate Records(db: Db, after: Db, c: CheckIn) {
    && c.ticketId !in Map(db.checkIns, CheckInTicketId)
    && after.checkIns == db.checkIns + [c]
    && AuditedTickets(after.audit) == AuditedTickets(db.audit) + [c.ticketId]
  }

  predicate RecordsNothing(db: Db, after: Db) {
    after.checkIns == db.checkIns && AuditedTickets(after.audit) == AuditedTickets(db.audit)
  }

  lemma AdmitRecords(db: Db, step: Step)
    requires step.Admit?
    ensures var after := Next(db, step);
      RecordsNothing(db, after) || exists c: CheckIn :: Records(db, after, c)
  {
    hide HasCredential;
    var command, after := step.command, Next(db, step);
    if after != db {
      var ref := Filter(db.tickets, HasCredential(command.kind, command.credential))[0];
      var ticketId := ref.ticket.ticketId;
      var c := CheckIn(ticketId, ref.bookingId, ref.ticket.passengerId, command.key, command.actor, command.at);
      var tripId := db.bookings[ref.bookingId].facts.tripId;
      AuditedAppend(db.audit, Audit(TICKET_CHECKED_IN, ticketId, tripId, command.actor, command.at));
      NotYetCheckedIn(db.checkIns, ticketId);
      assert Records(db, after, c);
    }
  }

  lemma NotYetCheckedIn(checkIns: seq<CheckIn>, ticketId: Uuid)
    requires CheckedInAt(checkIns, ticketId) == None
    ensures ticketId !in Map(checkIns, CheckInTicketId)
  {
    if ticketId in Map(checkIns, CheckInTicketId) {
      var i :| 0 <= i < |checkIns| && checkIns[i].ticketId == ticketId;
      FilterMember(checkIns, checkIns[i], CheckInOfTicket(ticketId));
      assert false;
    }
  }

  lemma OthersRecordNothing(db: Db, step: Step)
    requires !step.Admit?
    ensures RecordsNothing(db, Next(db, step))
  {
    hide Dispatches, CreatesBooking, MatchesPassengers, EnqueueBookingEvent, InsertTickets, InsertPassengers,
         SameTicketReferences, AuditedTickets;
    if Next(db, step).audit != db.audit {
      var row := Next(db, step).audit[|db.audit|];
      AuditedAppend(db.audit, row);
      if step.Expire? {
        AppendNothing(db.audit);
      }
    }
  }

  /** Each ticket is checked in at most once; check-ins and their audit rows pair off, in order. */
  lemma {:induction false} CheckInsAreAudited(steps: seq<Step>)
    ensures
      var db := Run(EMPTY_DB, steps);
      && Distinct(Map(db.checkIns, CheckInTicketId))
      && AuditedTickets(db.audit) == Map(db.checkIns, CheckInTicketId)
  {
    if steps != [] {
      var db, step := Run(EMPTY_DB, steps[..|steps| - 1]), steps[|steps| - 1];
      CheckInsAreAudited(steps[..|steps| - 1]);
      hide Next;
      if step.Admit? {
        AdmitRecords(db, step);
      } else {
        OthersRecordNothing(db, step);
      }
    }
  }

  // ---------------------------------------------------------------- payments and cancellations on record

  function About(action: AuditAction, id: Uuid): Audit -> bool {
    (a: Audit) => a.action == action && a.targetId == id
  }

  /** The audit rows a booking's columns call for. */
  function PaidAudits(b: Booking): seq<Audit> {
    if EverPaid(b.status) && b.paidAt.Some?
    then [Audit(BOOKING_PAID, b.facts.id, b.facts.tripId, OwnerActor(b.facts.owner), b.paidAt.value)] else []
  }

  function CancelAudits(b: Booking): seq<Audit> {
    if b.status == CANCELLED && b.cancelledAt.Some?
    then [Audit(BOOKING_CANCELLED, b.facts.id, b.facts.tripId, OwnerActor(b.facts.owner), b.cancelledAt.value)] else []
  }

  predicate Audited(db: Db, id: Uuid) {
    && Filter(db.audit, About(BOOKING_PAID, id)) == (if id in db.bookings then PaidAudits(db.bookings[id]) else [])
    && Filter(db.audit, About(BOOKING_CANCELLED, id)) ==
      (if id in db.bookings then CancelAudits(db.bookings[id]) else [])
  }

  lemma AuditAppended(audit: seq<Audit>, a: Audit, id: Uuid)
    ensures Filter(audit + [a], About(BOOKING_PAID, id)) ==
      Filter(audit, About(BOOKING_PAID, id)) + if a.action == BOOKING_PAID && a.targetId == id then [a] else []
    ensures Filter(audit + [a], About(BOOKING_CANCELLED, id)) ==
      Filter(audit, About(BOOKING_CANCELLED, id)) +
        if a.action == BOOKING_CANCELLED && a.targetId == id then [a] else []
  {
    FilterAppend(audit, a, About(BOOKING_PAID, id));
    FilterAppend(audit, a, About(BOOKING_CANCELLED, id));
  }

  /** One booking row and one audit row written together. */
  lemma AuditWrites(db: Db, after: Db, target: Uuid, row: Booking, a: Audit, id: Uuid)
    requires Audited(db, id) && target in db.bookings
    requires after.bookings == db.bookings[target := row] && after.audit == db.audit + [a]
    requires
      var was := db.bookings[target];
      && PaidAudits(row) == PaidAudits(was) + (if a.action == BOOKING_PAID then [a] else [])
      && CancelAudits(row) == CancelAudits(was) + (if a.action == BOOKING_CANCELLED then [a] else [])
      && (a.action != TICKET_CHECKED_IN ==> a.targetId == target)
    ensures Audited(after, id)
  {
    AuditAppended(db.audit, a, id);
    hide Filter, About, PaidAudits, CancelAudits;
  }

  lemma PayAudited(db: Db, step: Step, id: Uuid)
    requires Audited(db, id) && step.Pay? && OkFor(db, step.id)
    ensures Audited(Next(db, step), id)
  {
    if Next(db, step) != db {
      ColumnsHold(db, step.id);
      var a := Audit(BOOKING_PAID, step.id, step.event.payload.tripId, OwnerActor(step.owner), step.at);
      hide EnqueueBookingEvent, BookingOk, Filter, RowsOf, Audited, SeatsIn;
      AuditWrites(db, Next(db, step), step.id, Next(db, step).bookings[step.id], a, id);
    }
  }

  lemma {:induction false} CancelAudited(db: Db, step: Step, id: Uuid)
    requires Audited(db, id) && step.Cancel? && OkFor(db, step.id)
    ensures Audited(Next(db, step), id)
  {
    if Next(db, step) != db {
      ColumnsHold(db, step.id);
      var a := Audit(BOOKING_CANCELLED, step.id, step.event.payload.tripId, OwnerActor(step.owner), step.at);
      hide EnqueueBookingEvent, BookingOk, Filter, RowsOf, Audited, SeatsIn;
      AuditWrites(db, Next(db, step), step.id, Next(db, step).bookings[step.id], a, id);
    }
  }

  lemma {:induction false} AdmitAudited(db: Db, step: Step, id: Uuid)
    requires Audited(db, id) && step.Admit?
    ensures Audited(Next(db, step), id)
  {
    var command := step.command;
    if Next(db, step) != db {
      var ref := Filter(db.tickets, HasCredential(command.kind, command.credential))[0];
      var target := ref.bookingId;
      var a := Audit(TICKET_CHECKED_IN, ref.ticket.ticketId, db.bookings[target].facts.tripId, command.actor,
                     command.at);
      hide HasCredential, Filter, CheckedInAt, Audited;
      AuditWrites(db, Next(db, step), target, Next(db, step).bookings[target], a, id);
    }
  }

  lemma CreateAudited(db: Db, step: Step, id: Uuid)
    requires Audited(db, id) && step.Create?
    ensures Audited(Next(db, step), id)
  {
    hide CreatesBooking, InsertPassengers, EnqueueBookingEvent, Filter;
  }

  lemma ExpireAudited(db: Db, step: Step, id: Uuid)
    requires Audited(db, id) && step.Expire?
    ensures Audited(Next(db, step), id)
  {
    AppendNothing(db.audit);
    hide Dispatches, EnqueueBookingEvent, Filter;
  }

  lemma {:induction false} IssueAudited(db: Db, step: Step, id: Uuid)
    requires Audited(db, id) && step.Issue?
    ensures Audited(Next(db, step), id)
  {
    hide MatchesPassengers, InsertTickets, SameTicketReferences, Filter;
  }

  lemma ReleaseAudited(db: Db, step: Step, id: Uuid)
    requires Audited(db, id) && step.SeatsReleased?
    ensures Audited(Next(db, step), id)
  {
    hide Filter;
  }

  lemma {:induction false} EveryBookingIsAudited(steps: seq<Step>, id: Uuid)
    ensures Audited(Run(EMPTY_DB, steps), id)
  {
    if steps != [] {
      var db, step := Run(EMPTY_DB, steps[..|steps| - 1]), steps[|steps| - 1];
      EveryBookingIsAudited(steps[..|steps| - 1], id);
      RunKeeps(steps[..|steps| - 1]);
      hide Next, Audited, OkFor, Run;
      assert OkFor(db, TargetOf(step));
      match step
      case Pay(_, _, _, _, _, _) => PayAudited(db, step, id);
      case Cancel(_, _, _, _, _) => CancelAudited(db, step, id);
      case Admit(_) => AdmitAudited(db, step, id);
      case Create(_, _) => CreateAudited(db, step, id);
      case Expire(_, _, _, _, _) => ExpireAudited(db, step, id);
      case Issue(_, _, _, _) => IssueAudited(db, step, id);
      case SeatsReleased(_, _, _) => ReleaseAudited(db, step, id);
    }
  }

  /**
   A booking that was ever paid has exactly one BOOKING_PAID audit row, a cancelled one exactly
   one BOOKING_CANCELLED row, each naming its trip, its owner and the instant; others have none.
   */
  lemma {:induction false} PaymentsAndCancellationsAreAudited(steps: seq<Step>, id: Uuid)
    requires id in Run(EMPTY_DB, steps).bookings
    ensures
      var db := Run(EMPTY_DB, steps);
      var b := db.bookings[id];
      && Filter(db.audit, About(BOOKING_PAID, id)) ==
           (if b.paidAt.Some?
            then [Audit(BOOKING_PAID, id, b.facts.tripId, OwnerActor(b.facts.owner), b.paidAt.value)] else [])
      && Filter(db.audit, About(BOOKING_CANCELLED, id)) ==
           (if b.cancelledAt.Some?
            then [Audit(BOOKING_CANCELLED, id, b.facts.tripId, OwnerActor(b.facts.owner), b.cancelledAt.value)] else [])
      && (b.paidAt.Some? <==> EverPaid(b.status)) && (b.cancelledAt.Some? <==> b.status == CANCELLED)
  {
    RunKeeps(steps);
    EveryBookingIsAudited(steps, id);
    var db := Run(EMPTY_DB, steps);
    hide Run, Filter;
    assert OkFor(db, id);
    ColumnsHold(db, id);
  }

  // ---------------------------------------------------------------- revenue

  function PaidAmount(trip: Option<Uuid>): Event -> int {
    (e: Event) => if e.eventType == BookingPaidV1 && InScope(trip, e.payload.tripId) then e.payload.totalPriceVnd else 0
  }

  function CancelledAmount(trip: Option<Uuid>): Event -> int {
    (e: Event) =>
      if e.eventType == BookingCancelledV1 && InScope(trip, e.payload.tripId) then e.payload.totalPriceVnd else 0
  }

  lemma RevenueOfWrite(db: Db, after: Db, id: Uuid, row: Booking, trip: Option<Uuid>)
    requires after.bookings == db.bookings[id := row]
    ensures AdminRevenue(after, trip) ==
      AdminRevenue(db, trip) - (if id in db.bookings then RevenueOf(db.bookings[id], trip) else 0)
        + RevenueOf(row, trip)
  {
    TotalUpdate(RevenueMap(db.bookings, trip), id, RevenueOf(row, trip));
    assert RevenueMap(after.bookings, trip) == RevenueMap(db.bookings, trip)[id := RevenueOf(row, trip)];
  }

  ghost predicate Balanced(db: Db, trip: Option<Uuid>) {
    AdminRevenue(db, trip) ==
      SumBy(EventsOf(db.outbox), PaidAmount(trip)) - SumBy(EventsOf(db.outbox), CancelledAmount(trip))
  }

  lemma LogOfDelivery(db: Db, after: Db, e: Event, trip: Option<Uuid>)
    requires after.outbox == db.outbox + DeliveryRows(e)
    ensures SumBy(EventsOf(after.outbox), PaidAmount(trip)) ==
      SumBy(EventsOf(db.outbox), PaidAmount(trip)) + PaidAmount(trip)(e)
    ensures SumBy(EventsOf(after.outbox), CancelledAmount(trip)) ==
      SumBy(EventsOf(db.outbox), CancelledAmount(trip)) + CancelledAmount(trip)(e)
  {
    EventsOfDelivery(db.outbox, e);
    SumByAppend(EventsOf(db.outbox), e, PaidAmount(trip));
    SumByAppend(EventsOf(db.outbox), e, CancelledAmount(trip));
  }

  /** Pay, expire and cancel change the table's revenue by exactly what their event says. */
  lemma MoveBalances(db: Db, row: Booking, entry: HistoryRow, event: Event, audit: seq<Audit>, trip: Option<Uuid>)
    requires Balanced(db, trip) && row.facts.id in db.bookings && FreshEvent(db, event.eventId)
    requires entry.bookingId == row.facts.id
    requires var was := db.bookings[row.facts.id];
      && event.payload.totalPriceVnd == was.facts.totalPriceVnd && event.payload.tripId == was.facts.tripId
      && RevenueOf(row, trip) - RevenueOf(was, trip) == PaidAmount(trip)(event) - CancelledAmount(trip)(event)
    ensures Balanced(Move(db, row, entry, event, audit), trip)
  {
    var after := Move(db, row, entry, event, audit);
    EnqueueFresh(db.outbox, event);
    LogOfDelivery(db, after, event, trip);
    RevenueOfWrite(db, after, row.facts.id, row, trip);
  }

  lemma CreateBalances(db: Db, input: PersistInput, event: Event, trip: Option<Uuid>)
    requires Balanced(db, trip) && CreatesBooking(db, input, event)
    ensures Balanced(CreateOrReplay(db, input, event).db, trip)
  {
    hide SortBy, AllOf, DeliveryRows;
    var after := CreateOrReplay(db, input, event).db;
    if after != db {
      CreateWrites(db, input, event);
      LogOfDelivery(db, after, event, trip);
      assert input.facts.id !in db.bookings;
      RevenueOfWrite(db, after, input.facts.id, NewBooking(input.facts), trip);
    }
  }

  lemma QuietBalances(db: Db, after: Db, id: Uuid, trip: Option<Uuid>)
    requires Balanced(db, trip) && after.outbox == db.outbox && Rewrites(db, after, id)
    requires id in db.bookings && after.bookings != db.bookings ==>
      RevenueOf(after.bookings[id], trip) == RevenueOf(db.bookings[id], trip)
    ensures Balanced(after, trip)
  {
    if after.bookings != db.bookings {
      RevenueOfWrite(db, after, id, after.bookings[id], trip);
    }
  }

  lemma AdmitBalances(db: Db, step: Step, trip: Option<Uuid>)
    requires Balanced(db, trip) && step.Admit?
    ensures Balanced(Next(db, step), trip)
  {
    AdmitRewrites(db, step);
    hide CheckedInAt, Filter, HasCredential, Balanced, CheckInByKey;
    QuietBalances(db, Next(db, step), TouchedBy(db, step), trip);
  }

  lemma IssueBalances(db: Db, step: Step, trip: Option<Uuid>)
    requires Balanced(db, trip) && step.Issue?
    ensures Balanced(Next(db, step), trip)
  {
    IssueRewrites(db, step);
    hide MatchesPassengers, InsertTickets, SameTicketReferences, Filter, Balanced;
    QuietBalances(db, Next(db, step), TouchedBy(db, step), trip);
  }

  lemma ReleaseBalances(db: Db, step: Step, trip: Option<Uuid>)
    requires Balanced(db, trip) && step.SeatsReleased?
    ensures Balanced(Next(db, step), trip)
  {
    CommandRewrites(db, step);
    hide Balanced;
    QuietBalances(db, Next(db, step), TouchedBy(db, step), trip);
  }

  lemma NextBalances(db: Db, step: Step, trip: Option<Uuid>)
    requires Balanced(db, trip) && AllOk(db)
    ensures Balanced(Next(db, step), trip)
  {
    hide BookingOk, Balanced, RowsOf, Filter, SortBy, EnqueueBookingEvent, CreateOrReplay, CreatesBooking, AllOf;
    match step
    case Create(input, event) => if CreatesBooking(db, input, event) { CreateBalances(db, input, event, trip); }
    case Pay(id, owner, attemptId, key, at, event) =>
      if Next(db, step) != db {
        assert OkFor(db, id);
        MoveBalances(db, Next(db, step).bookings[id],
                     HistoryRow(id, Some(PENDING_PAYMENT), PAID, OwnerActor(owner), at),
                     event, [Audit(BOOKING_PAID, id, event.payload.tripId, OwnerActor(owner), at)], trip);
      }
    case Expire(id, owner, at, actor, event) =>
      if Next(db, step) != db {
        assert OkFor(db, id);
        MoveBalances(db, Next(db, step).bookings[id],
                     HistoryRow(id, Some(PENDING_PAYMENT), EXPIRED, actor, at), event, [], trip);
      }
    case Cancel(id, owner, key, at, event) =>
      if Next(db, step) != db {
        assert OkFor(db, id);
        var entry := HistoryRow(id, Some(db.bookings[id].status), CANCELLED, Actor(OwnerRole(CUSTOMER), owner.id), at);
        MoveBalances(db, Next(db, step).bookings[id], entry,
                     event, [Audit(BOOKING_CANCELLED, id, event.payload.tripId, OwnerActor(owner), at)], trip);
      }
    case Issue(_, _, _, _) => IssueBalances(db, step, trip);
    case Admit(_) => AdmitBalances(db, step, trip);
    case SeatsReleased(_, _, _) => ReleaseBalances(db, step, trip);
  }

  /**
   In every reachable state, for every trip and for all trips together, the revenue the
   administration report reads off the booking table is what the enqueued BookingPaid
   events add up to, less what the BookingCancelled events add up to.
   */
  lemma {:induction false} RevenueIsConserved(steps: seq<Step>, trip: Option<Uuid>)
    ensures Balanced(Run(EMPTY_DB, steps), trip)
  {
    if steps == [] {
      TotalZero(RevenueMap(EMPTY_DB.bookings, trip));
    } else {
      hide Next;
      RevenueIsConserved(steps[..|steps| - 1], trip);
      RunKeeps(steps[..|steps| - 1]);
      NextBalances(Run(EMPTY_DB, steps[..|steps| - 1]), steps[|steps| - 1], trip);
    }
  }

  // ---------------------------------------------------------------- revenue by trip

  /** What a trip's bookings that count as revenue are worth. */
  function TripValues(db: Db, trip: Uuid): map<Uuid, int> {
    map id | id in db.bookings ::
      if db.bookings[id].facts.tripId == trip && db.bookings[id].status in {PAID, TICKET_ISSUED, CHECKED_IN}
      then db.bookings[id].facts.totalPriceVnd else 0
  }

  function TripEvents(trip: Uuid, eventType: EventType): Event -> int {
    (e: Event) => if e.eventType == eventType && e.payload.tripId == trip then e.payload.totalPriceVnd else 0
  }

  /** In every reachable state a trip's revenue is what its own BookingPaid events say, less its own cancellations. */
  lemma RevenueOfTrip(steps: seq<Step>, trip: Uuid)
    ensures
      var db := Run(EMPTY_DB, steps);
      && AdminRevenue(db, Some(trip)) == Total(TripValues(db, trip))
      && Total(TripValues(db, trip)) ==
           SumBy(EventsOf(db.outbox), TripEvents(trip, BookingPaidV1)) -
           SumBy(EventsOf(db.outbox), TripEvents(trip, BookingCancelledV1))
  {
    var db := Run(EMPTY_DB, steps);
    RevenueIsConserved(steps, Some(trip));
    RunKeeps(steps);
    hide Run;
    forall id | id in db.bookings ensures RevenueMap(db.bookings, Some(trip))[id] == TripValues(db, trip)[id] {
      assert OkFor(db, id);
      ColumnsHold(db, id);
    }
    assert RevenueMap(db.bookings, Some(trip)) == TripValues(db, trip);
    SameSum(EventsOf(db.outbox), PaidAmount(Some(trip)), TripEvents(trip, BookingPaidV1));
    SameSum(EventsOf(db.outbox), CancelledAmount(Some(trip)), TripEvents(trip, BookingCancelledV1));
  }

  lemma {:induction false} SameSum(log: seq<Event>, f: Event -> int, g: Event -> int)
    requires forall e :: f(e) == g(e)
    ensures SumBy(log, f) == SumBy(log, g)
  {
    if log != [] { SameSum(log[..|log| - 1], f, g); }
  }
}
