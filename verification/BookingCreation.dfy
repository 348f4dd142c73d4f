/** `createBooking`: from a customer's request and a seat hold to one booking. */
module BookingCreation {
  import opened Prelude
  import opened Bookings
  import opened BookingLifecycle
  import opened BookingInvariants
  import opened BookingTheorems
  import opened BookingAccounts
  import opened BookingRepository

  /** A request whose single fields have passed their format checks. */
  datatype Request = Request(
    holdToken: string, owner: Owner, contact: string, key: string, passengers: seq<PassengerInput>)

  /** The seat inventory's answer to `getActiveHold`. */
  datatype Hold = Hold(
    token: string, tripId: Uuid, seatIds: seq<SeatId>, expiresAt: int, unitPriceVnd: int, totalPriceVnd: int)

  /** The catalog's answer to `getBookingSnapshot`. */
  datatype TripSnapshot = TripSnapshot(routeId: Uuid, routeCode: string, departureAt: int)

  /** Ids drawn and clock readings taken while one call runs. */
  datatype Draws = Draws(bookingId: Uuid, passengerIds: seq<Uuid>, eventId: Uuid, checkedAt: int, createdAt: int)

  datatype CreateError =
    | PassengerCount | DuplicateSeat | HoldExpired | SeatMapping | InconsistentPricing
    | IdempotencyConflict | Refused(error: Error)

  datatype Created = Created(db: Db, out: Result<Uuid, CreateError>)

  // ---------------------------------------------------------------- validation

  function InputSeat(p: PassengerInput): int { p.seatId }

  predicate OnePerSeat(passengers: seq<PassengerInput>) {
    forall i, j :: 0 <= i < j < |passengers| ==> passengers[i].seatId != passengers[j].seatId
  }

  /** `normalizePassengers`: one to ten passengers, no seat twice, in seat order. */
  function NormalizePassengers(passengers: seq<PassengerInput>): Result<seq<PassengerInput>, CreateError> {
    if |passengers| < 1 || |passengers| > 10 then Err(PassengerCount)
    else if !OnePerSeat(passengers) then Err(DuplicateSeat)
    else Ok(SortBy(passengers, InputSeat))
  }

  function FingerprintOf(r: Request, normalized: seq<PassengerInput>): Fingerprint {
    Fingerprint(r.holdToken, r.owner, r.contact, normalized)
  }

  function InputSeatId(p: PassengerInput): SeatId { p.seatId }

  /** `validatePassengerSeatMapping`: both lists sorted and compared place by place. */
  predicate MapsToSeats(passengers: seq<PassengerInput>, held: seq<SeatId>) {
    SortBy(Map(passengers, InputSeatId), SeatOrder) == SortBy(held, SeatOrder)
  }

  predicate ConsistentPricing(hold: Hold) {
    hold.unitPriceVnd >= 0 && hold.totalPriceVnd == hold.unitPriceVnd * |hold.seatIds|
  }

  function PassengerRows(bookingId: Uuid, inputs: seq<PassengerInput>, ids: seq<Uuid>): (rows: seq<Passenger>)
    requires |ids| == |inputs|
    ensures |rows| == |inputs|
    ensures forall i :: 0 <= i < |rows| ==>
      rows[i] == Passenger(ids[i], bookingId, inputs[i].seatId, inputs[i].fullName)
  {
    seq(|inputs|, i requires 0 <= i < |inputs| => Passenger(ids[i], bookingId, inputs[i].seatId, inputs[i].fullName))
  }

  /** `toPersistBookingInput` */
  function ToPersistInput(r: Request, inputs: seq<PassengerInput>, hold: Hold, trip: TripSnapshot,
                          d: Draws): PersistInput
    requires |d.passengerIds| == |inputs|
  {
    PersistInput(
      Facts(d.bookingId, r.owner, r.key, FingerprintOf(r, inputs), hold.token, hold.expiresAt, hold.tripId,
            trip.routeId, trip.routeCode, trip.departureAt, hold.unitPriceVnd, |inputs|, hold.totalPriceVnd,
            d.createdAt),
      PassengerRows(d.bookingId, inputs, d.passengerIds))
  }

  function CreatedEvent(input: PersistInput, eventId: Uuid): Event {
    DispatchOf(BookingCreatedV1, input.facts, input.passengers, eventId, input.facts.createdAt, None)
  }

  function FindByIdempotency(db: Db, owner: Owner, key: string): Option<Booking> {
    if (owner, key) in db.ownerKeys && db.ownerKeys[(owner, key)] in db.bookings
    then Some(db.bookings[db.ownerKeys[(owner, key)]]) else None
  }

  /** The answer once a record for this owner and key is known. */
  function Replay(db: Db, found: Booking, fingerprint: Fingerprint): Created {
    if found.facts.fingerprint != fingerprint then Created(db, Err(IdempotencyConflict))
    else Created(db, Ok(found.facts.id))
  }

  /** `createBooking`; `earlier` is what its first lookup saw, `db` what its transaction meets. */
  function CreateBooking(earlier: Db, db: Db, r: Request, hold: Hold, trip: TripSnapshot, d: Draws): Created
    requires |d.passengerIds| == |r.passengers|
  {
    match NormalizePassengers(r.passengers)
    case Err(e) => Created(db, Err(e))
    case Ok(inputs) =>
      SortedLength(r.passengers);
      var fingerprint := FingerprintOf(r, inputs);
      match FindByIdempotency(earlier, r.owner, r.key)
      case Some(found) => Replay(db, found, fingerprint)
      case None =>
        if hold.expiresAt <= d.checkedAt then Created(db, Err(HoldExpired))
        else if !MapsToSeats(inputs, hold.seatIds) then Created(db, Err(SeatMapping))
        else if !ConsistentPricing(hold) then Created(db, Err(InconsistentPricing))
        else if hold.expiresAt <= d.createdAt then Created(db, Err(HoldExpired))
        else
          var input := ToPersistInput(r, inputs, hold, trip, d);
          var tx := CreateOrReplay(db, input, CreatedEvent(input, d.eventId));
          match tx.out
          case Err(e) => Created(tx.db, Err(Refused(e)))
          case Ok(id) =>
            if id in tx.db.bookings then Replay(tx.db, tx.db.bookings[id], fingerprint)
            else Created(tx.db, Err(Refused(NotFound)))
  }

  lemma SortedLength(passengers: seq<PassengerInput>)
    ensures |SortBy(passengers, InputSeat)| == |passengers|
  {
    SortByRows(passengers, InputSeat);
    assert |multiset(SortBy(passengers, InputSeat))| == |multiset(passengers)|;
  }

  // ---------------------------------------------------------------- what the checks mean

  lemma SeatFixesPassenger(passengers: seq<PassengerInput>, x: PassengerInput, y: PassengerInput)
    requires OnePerSeat(passengers) && x in passengers && y in passengers && x.seatId == y.seatId
    ensures x == y
  {
    var i :| 0 <= i < |passengers| && passengers[i] == x;
    var j :| 0 <= j < |passengers| && passengers[j] == y;
  }

  /** Two requests have one fingerprint if and only if they differ at most in the order of their passengers. */
  lemma FingerprintIgnoresOrder(a: Request, b: Request)
    requires NormalizePassengers(a.passengers).Ok? && NormalizePassengers(b.passengers).Ok?
    ensures
      FingerprintOf(a, NormalizePassengers(a.passengers).value) ==
      FingerprintOf(b, NormalizePassengers(b.passengers).value)
      <==> a.holdToken == b.holdToken && a.owner == b.owner && a.contact == b.contact
           && multiset(a.passengers) == multiset(b.passengers)
  {
    SortByRows(a.passengers, InputSeat);
    SortByRows(b.passengers, InputSeat);
    if multiset(a.passengers) == multiset(b.passengers) {
      forall x, y | x in a.passengers && y in a.passengers && InputSeat(x) == InputSeat(y) ensures x == y {
        SeatFixesPassenger(a.passengers, x, y);
      }
      SortOfPermutation(a.passengers, b.passengers, InputSeat);
    }
  }

  /** The mapping check accepts exactly one passenger for every held seat and one held seat for every passenger. */
  lemma MappingIsABijection(passengers: seq<PassengerInput>, held: seq<SeatId>)
    ensures MapsToSeats(passengers, held) <==> multiset(Map(passengers, InputSeatId)) == multiset(held)
    ensures MapsToSeats(passengers, held) ==> |passengers| == |held|
  {
    var seats := Map(passengers, InputSeatId);
    SortByRows(seats, SeatOrder);
    SortByRows(held, SeatOrder);
    if multiset(seats) == multiset(held) {
      SortOfPermutation(seats, held, SeatOrder);
    }
    if MapsToSeats(passengers, held) {
      assert |multiset(seats)| == |multiset(held)|;
    }
  }

  // ---------------------------------------------------------------- what a call does

  /** Every row of the owner-key index names a booking with that owner and key. */
  ghost predicate KeysOk(db: Db) {
    && (forall id {:trigger Indexed(db, id)} :: Indexed(db, id))
    && forall k {:trigger Names(db, k)} :: Names(db, k)
  }

  lemma ReachableKeysOk(steps: seq<Step>)
    ensures KeysOk(Run(EMPTY_DB, steps))
  {
    hide Indexed, Names;
    forall id ensures Indexed(Run(EMPTY_DB, steps), id) {
      IndexAlwaysAgrees(steps, id, (Owner(CUSTOMER, 0), ""));
    }
    forall k ensures Names(Run(EMPTY_DB, steps), k) {
      IndexAlwaysAgrees(steps, 0, k);
    }
  }

  /** The creation step of the booking lifecycle that a call performs, if it gets that far. */
  function StepOf(r: Request, hold: Hold, trip: TripSnapshot, d: Draws): Step
    requires NormalizePassengers(r.passengers).Ok? && |d.passengerIds| == |r.passengers|
  {
    SortedLength(r.passengers);
    var input := ToPersistInput(r, NormalizePassengers(r.passengers).value, hold, trip, d);
    Create(input, CreatedEvent(input, d.eventId))
  }

  /**
   A call changes nothing or is one creation step of the lifecycle; and when it writes, the new
   booking's total is the unit price times its passengers, who sit on the held seats one to one.
   */
  lemma CreationIsALifecycleStep(earlier: Db, db: Db, r: Request, hold: Hold, trip: TripSnapshot, d: Draws)
    requires |d.passengerIds| == |r.passengers| && FreshEvent(db, d.eventId)
    ensures
      var result := CreateBooking(earlier, db, r, hold, trip, d);
      result.db == db ||
      (&& NormalizePassengers(r.passengers).Ok?
       && result.db == Next(db, StepOf(r, hold, trip, d))
       && d.bookingId !in db.bookings && d.bookingId in result.db.bookings
       && var facts := result.db.bookings[d.bookingId].facts;
          && facts.totalPriceVnd == facts.unitPriceVnd * |r.passengers|
          && multiset(Map(r.passengers, InputSeatId)) == multiset(hold.seatIds))
  {
    if CreateBooking(earlier, db, r, hold, trip, d).db != db {
      WritesOnlyAfterChecks(earlier, db, r, hold, trip, d);
      var inputs := NormalizePassengers(r.passengers).value;
      SortedLength(r.passengers);
      SortByRows(r.passengers, InputSeat);
      MapOfPermutation(inputs, r.passengers, InputSeatId);
      MappingIsABijection(inputs, hold.seatIds);
      var input := ToPersistInput(r, inputs, hold, trip, d);
      InputCreates(db, r, inputs, hold, trip, d);
      WritesOneBooking(db, input, CreatedEvent(input, d.eventId));
      NextCreates(db, input, CreatedEvent(input, d.eventId));
      hide CreateBooking, SortBy, CreateOrReplay, CreatesBooking, Next, MapsToSeats, NormalizePassengers, CreatedEvent;
    }
  }

  lemma InputCreates(db: Db, r: Request, inputs: seq<PassengerInput>, hold: Hold, trip: TripSnapshot, d: Draws)
    requires |d.passengerIds| == |inputs| && FreshEvent(db, d.eventId)
    ensures var input := ToPersistInput(r, inputs, hold, trip, d);
      CreatesBooking(db, input, CreatedEvent(input, d.eventId))
  {
    hide SortBy;
  }

  lemma NextCreates(db: Db, input: PersistInput, event: Event)
    requires CreatesBooking(db, input, event)
    ensures Next(db, Create(input, event)) == CreateOrReplay(db, input, event).db
  {
    hide CreatesBooking, CreateOrReplay;
  }

  lemma WritesOneBooking(db: Db, input: PersistInput, event: Event)
    ensures var after := CreateOrReplay(db, input, event).db;
      after == db ||
      (&& input.facts.id !in db.bookings && input.facts.id in after.bookings
       && after.bookings[input.facts.id].facts == input.facts)
  {
    hide EnqueueBookingEvent, InsertPassengers;
  }

  lemma WritesOnlyAfterChecks(earlier: Db, db: Db, r: Request, hold: Hold, trip: TripSnapshot, d: Draws)
    requires |d.passengerIds| == |r.passengers| && CreateBooking(earlier, db, r, hold, trip, d).db != db
    ensures NormalizePassengers(r.passengers).Ok?
    ensures
      var inputs := NormalizePassengers(r.passengers).value;
      && |inputs| == |r.passengers| && MapsToSeats(inputs, hold.seatIds) && ConsistentPricing(hold)
      && var input := ToPersistInput(r, inputs, hold, trip, d);
         CreateBooking(earlier, db, r, hold, trip, d).db == CreateOrReplay(db, input, CreatedEvent(input, d.eventId)).db
  {
    SortedLength(r.passengers);
    hide CreateOrReplay, SortBy, MapsToSeats, FindByIdempotency;
  }

  // ---------------------------------------------------------------- retries and races

  /** Keys and facts, once there, stay. */
  predicate Remembers(earlier: Db, db: Db, owner: Owner, key: string) {
    && ((owner, key) in earlier.ownerKeys ==>
          (owner, key) in db.ownerKeys && db.ownerKeys[(owner, key)] == earlier.ownerKeys[(owner, key)])
    && forall id :: id in earlier.bookings ==>
         id in db.bookings && db.bookings[id].facts == earlier.bookings[id].facts
  }

  lemma {:induction false} RunRemembers(earlier: Db, steps: seq<Step>, owner: Owner, key: string)
    requires AllOk(earlier)
    ensures Remembers(earlier, Run(earlier, steps), owner, key)
  {
    hide OkFor, Next;
    if steps != [] {
      RunRemembers(earlier, steps[..|steps| - 1], owner, key);
      RunKeepsFrom(earlier, steps[..|steps| - 1]);
      FactsOfNext(Run(earlier, steps[..|steps| - 1]), steps[|steps| - 1]);
    }
  }

  lemma {:induction false} RunsJoin(db: Db, a: seq<Step>, b: seq<Step>)
    ensures Run(db, a + b) == Run(Run(db, a), b)
  {
    hide Next;
    if b == [] {
      assert a + b == a;
    } else {
      RunsJoin(db, a, b[..|b| - 1]);
      assert (a + b)[..|a + b| - 1] == a + b[..|b| - 1];
    }
  }

  lemma {:induction false} TransactionReplays(db: Db, r: Request, inputs: seq<PassengerInput>, hold: Hold,
                                              trip: TripSnapshot, d: Draws)
    requires |d.passengerIds| == |inputs| && (r.owner, r.key) in db.ownerKeys
    ensures
      var input := ToPersistInput(r, inputs, hold, trip, d);
      var tx := CreateOrReplay(db, input, CreatedEvent(input, d.eventId));
      tx == Tx(db, Err(ConstraintViolation)) || tx == Tx(db, Ok(db.ownerKeys[(r.owner, r.key)]))
  {
  }

  /**
   Once an owner has used a key, no call with it writes anything, however far its first lookup
   lies back; a call that answers answers with that one booking, and only to the request that
   made it; and a call whose lookup sees the booking answers exactly when the fingerprints agree.
   */
  lemma {:induction false} LaterCallsReplay(a: seq<Step>, b: seq<Step>, r: Request, hold: Hold, trip: TripSnapshot,
                                            d: Draws)
    requires |d.passengerIds| == |r.passengers|
    requires (r.owner, r.key) in Run(Run(EMPTY_DB, a), b).ownerKeys
    ensures
      var earlier := Run(EMPTY_DB, a);
      var db := Run(earlier, b);
      var result, id := CreateBooking(earlier, db, r, hold, trip, d), db.ownerKeys[(r.owner, r.key)];
      var agrees := id in db.bookings && NormalizePassengers(r.passengers).Ok? &&
        FingerprintOf(r, NormalizePassengers(r.passengers).value) == db.bookings[id].facts.fingerprint;
      && result.db == db && id in db.bookings
      && (result.out.Ok? ==> result.out == Ok(id) && agrees)
      && ((r.owner, r.key) in earlier.ownerKeys ==> (result.out.Ok? <==> agrees))
  {
    var earlier := Run(EMPTY_DB, a);
    var db := Run(earlier, b);
    RunsJoin(EMPTY_DB, a, b);
    ReachableKeysOk(a);
    ReachableKeysOk(a + b);
    RunKeeps(a);
    RunKeeps(a + b);
    RunRemembers(earlier, b, r.owner, r.key);
    hide Run;
    KeyNamesBooking(db, r.owner, r.key);
    if (r.owner, r.key) in earlier.ownerKeys { KeyNamesBooking(earlier, r.owner, r.key); }
    if NormalizePassengers(r.passengers).Ok? {
      ReplaysOrRefuses(earlier, db, r, hold, trip, d);
    }
    hide CreateOrReplay, MapsToSeats, ConsistentPricing, SortBy, ToPersistInput, AllOk, KeysOk;
  }

  lemma KeyNamesBooking(db: Db, owner: Owner, key: string)
    requires KeysOk(db) && AllOk(db) && (owner, key) in db.ownerKeys
    ensures var id := db.ownerKeys[(owner, key)];
      id in db.bookings && db.bookings[id].facts.id == id && FindByIdempotency(db, owner, key) == Some(db.bookings[id])
  {
    assert Names(db, (owner, key));
    assert OkFor(db, db.ownerKeys[(owner, key)]);
    hide BookingOk, RowsOf;
  }

  /** The only ways a valid call can end once its key is taken. */
  lemma ReplaysOrRefuses(earlier: Db, db: Db, r: Request, hold: Hold, trip: TripSnapshot, d: Draws)
    requires |d.passengerIds| == |r.passengers| && NormalizePassengers(r.passengers).Ok?
    requires (r.owner, r.key) in db.ownerKeys && db.ownerKeys[(r.owner, r.key)] in db.bookings
    ensures
      var result, id := CreateBooking(earlier, db, r, hold, trip, d), db.ownerKeys[(r.owner, r.key)];
      var fingerprint := FingerprintOf(r, NormalizePassengers(r.passengers).value);
      if FindByIdempotency(earlier, r.owner, r.key).Some?
      then result == Replay(db, FindByIdempotency(earlier, r.owner, r.key).value, fingerprint)
      else result == Replay(db, db.bookings[id], fingerprint) || (result.db == db && result.out.Err?)
  {
    SortedLength(r.passengers);
    TransactionReplays(db, r, NormalizePassengers(r.passengers).value, hold, trip, d);
    hide CreateOrReplay, MapsToSeats, ConsistentPricing, SortBy, ToPersistInput, FindByIdempotency, FingerprintOf,
         Replay;
  }

  function IsFirst(h: HistoryRow): bool { h.from == None }

  function IsCreation(e: Event): bool { e.eventType == BookingCreatedV1 }

  /** However many creations ran, a booking has one initial history row and one creation event, both first. */
  lemma {:induction false} CreatedOnce(steps: seq<Step>, id: Uuid)
    requires id in Run(EMPTY_DB, steps).bookings
    ensures
      var rows := RowsOf(Run(EMPTY_DB, steps), id);
      var events := EventsOf(rows.outbox);
      && (forall i :: 0 <= i < |rows.history| ==> (IsFirst(rows.history[i]) <==> i == 0))
      && (forall i :: 0 <= i < |events| ==> (IsCreation(events[i]) <==> i == 0))
      && rows.history != [] && events != []
  {
    StatusTellsHistoryAndOutbox(steps, id);
    hide Run, RowsOf, EventsOf, Deliveries, Edge, BookingPayload, HasTypes;
    var db := Run(EMPTY_DB, steps);
    var history := RowsOf(db, id).history;
    OneCreation(EventsOf(RowsOf(db, id).outbox), db.bookings[id].status);
    forall i | 0 <= i < |history| ensures IsFirst(history[i]) <==> i == 0 {
      if i > 0 { assert history[i].from == Some(history[i - 1].to); }
    }
  }

  lemma OneCreation(events: seq<Event>, status: Status)
    requires HasTypes(events, EventTypes(status))
    ensures events != [] && forall i :: 0 <= i < |events| ==> (IsCreation(events[i]) <==> i == 0)
  {
  }

  /** In every reachable state the stored total is the unit price times the passengers stored for the booking. */
  lemma {:induction false} TotalIsPricePerPassenger(steps: seq<Step>, id: Uuid)
    requires id in Run(EMPTY_DB, steps).bookings
    ensures
      var db := Run(EMPTY_DB, steps);
      db.bookings[id].facts.totalPriceVnd == db.bookings[id].facts.unitPriceVnd * |PassengersOf(db, id)|
  {
    RunKeeps(steps);
    hide Run;
    assert OkFor(Run(EMPTY_DB, steps), id);
  }

  // ---------------------------------------------------------------- the service

  /** The service method, over the repository's tables; `hold` and `trip` are the remote answers. */
  method CreateBookingIn(repo: Repository, r: Request, hold: Hold, trip: TripSnapshot, d: Draws)
    returns (out: Result<Uuid, CreateError>)
    requires |d.passengerIds| == |r.passengers|
    modifies repo
    ensures Created(repo.Tables(), out) == CreateBooking(old(repo.Tables()), old(repo.Tables()), r, hold, trip, d)
  {
    var normalized := NormalizePassengers(r.passengers);
    if normalized.Err? { return Err(normalized.error); }
    SortedLength(r.passengers);
    var inputs := normalized.value;
    var fingerprint := FingerprintOf(r, inputs);
    var replay := FindByIdempotency(repo.Tables(), r.owner, r.key);
    if replay.Some? {
      return if replay.value.facts.fingerprint != fingerprint then Err(IdempotencyConflict)
        else Ok(replay.value.facts.id);
    }
    if hold.expiresAt <= d.checkedAt { return Err(HoldExpired); }
    if !MapsToSeats(inputs, hold.seatIds) { return Err(SeatMapping); }
    if !ConsistentPricing(hold) { return Err(InconsistentPricing); }
    if hold.expiresAt <= d.createdAt { return Err(HoldExpired); }
    var input := ToPersistInput(r, inputs, hold, trip, d);
    hide CreateOrReplay, SortBy, MapsToSeats, ToPersistInput;
    var persisted := repo.CreateOrReplayRow(input, CreatedEvent(input, d.eventId));
    if persisted.Err? { return Err(Refused(persisted.error)); }
    var id := persisted.value;
    if id !in repo.bookings { return Err(Refused(NotFound)); }
    return if repo.bookings[id].facts.fingerprint != fingerprint then Err(IdempotencyConflict)
           else Ok(repo.bookings[id].facts.id);
  }
}
