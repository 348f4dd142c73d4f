/** Exactly when `createBooking` makes a booking, which refusal it gives otherwise, and what it writes. */
module CreationOutcomes {
  import opened Prelude
  import opened Bookings
  import opened BookingLifecycle
  import opened BookingInvariants
  import opened BookingTheorems
  import opened BookingCreation

  // ---------------------------------------------------------------- the checks, in terms of the request

  predicate DistinctSeats(passengers: seq<PassengerInput>) {
    forall i, j :: 0 <= i < j < |passengers| ==> passengers[i].seatId != passengers[j].seatId
  }

  function SeatsAskedFor(passengers: seq<PassengerInput>): multiset<SeatId> {
    multiset(Map(passengers, (p: PassengerInput) => p.seatId))
  }

  lemma NormalizedSeats(passengers: seq<PassengerInput>)
    ensures
      match NormalizePassengers(passengers)
      case Err(e) =>
        if |passengers| < 1 || 10 < |passengers| then e == PassengerCount
        else e == DuplicateSeat && !DistinctSeats(passengers)
      case Ok(inputs) =>
        && 1 <= |passengers| <= 10 && DistinctSeats(passengers)
        && |inputs| == |passengers| && multiset(inputs) == multiset(passengers) && DistinctSeats(inputs)
        && forall i, j :: 0 <= i < j < |inputs| ==> inputs[i].seatId < inputs[j].seatId
  {
    SortedLength(passengers);
    SortByRows(passengers, InputSeat);
    SortBySorted(passengers, InputSeat);
    if DistinctSeats(passengers) {
      var inputs := SortBy(passengers, InputSeat);
      MapOfPermutation(inputs, passengers, InputSeatId);
      SeatsDiffer(passengers);
      DistinctReordered(Map(passengers, InputSeatId), Map(inputs, InputSeatId));
      forall i, j | 0 <= i < j < |inputs| ensures inputs[i].seatId < inputs[j].seatId {
        assert InputSeat(inputs[i]) <= InputSeat(inputs[j]);
        assert Map(inputs, InputSeatId)[i] != Map(inputs, InputSeatId)[j];
      }
    }
    hide SortBy;
  }

  lemma SeatsDiffer(passengers: seq<PassengerInput>)
    requires DistinctSeats(passengers)
    ensures Distinct(Map(passengers, InputSeatId))
  {
  }

  lemma MapsWhenHeld(passengers: seq<PassengerInput>, held: seq<SeatId>)
    requires NormalizePassengers(passengers).Ok?
    ensures MapsToSeats(NormalizePassengers(passengers).value, held) <==> SeatsAskedFor(passengers) == multiset(held)
    ensures SeatsAskedFor(passengers) == multiset(held) ==> |passengers| == |held|
  {
    var inputs := NormalizePassengers(passengers).value;
    NormalizedSeats(passengers);
    MapOfPermutation(inputs, passengers, InputSeatId);
    MappingIsABijection(inputs, held);
    assert Map(passengers, InputSeatId) == Map(passengers, (p: PassengerInput) => p.seatId);
    hide MapsToSeats, NormalizePassengers;
  }

  // ---------------------------------------------------------------- no constraint stands in the way

  /** The ids drawn for this call have not been drawn before. */
  predicate FreshDraws(db: Db, d: Draws) {
    && d.bookingId !in db.bookings && Distinct(d.passengerIds)
    && forall p :: p in db.passengers ==> p.id !in d.passengerIds
  }

  lemma {:induction false} FreshRowsInsert(table: seq<Passenger>, rows: seq<Passenger>)
    requires forall p, q :: p in table && q in rows ==> p.id != q.id && p.bookingId != q.bookingId
    requires forall i, j :: 0 <= i < j < |rows| ==> rows[i].id != rows[j].id && rows[i].seatId != rows[j].seatId
    ensures InsertPassengers(table, rows) == Ok(table + rows)
  {
    if rows == [] {
      AppendNothing(table);
    } else {
      var init, last := rows[..|rows| - 1], rows[|rows| - 1];
      FreshRowsInsert(table, init);
      assert table + rows == table + init + [last];
    }
  }

  lemma StrangersOnly(steps: seq<Step>, id: Uuid)
    requires id !in Run(EMPTY_DB, steps).bookings
    ensures forall p :: p in Run(EMPTY_DB, steps).passengers ==> p.bookingId != id
  {
    var db := Run(EMPTY_DB, steps);
    RunKeeps(steps);
    hide Run;
    assert OkFor(db, id);
    forall p | p in db.passengers && p.bookingId == id ensures false {
      FilterMember(db.passengers, p, PassengerOf(id));
    }
  }

  lemma NewRowsInsert(db: Db, d: Draws, inputs: seq<PassengerInput>)
    requires FreshDraws(db, d) && |d.passengerIds| == |inputs| && DistinctSeats(inputs)
    requires forall p :: p in db.passengers ==> p.bookingId != d.bookingId
    ensures var rows := PassengerRows(d.bookingId, inputs, d.passengerIds);
      InsertPassengers(db.passengers, rows) == Ok(db.passengers + rows)
  {
    var rows := PassengerRows(d.bookingId, inputs, d.passengerIds);
    FreshRowsInsert(db.passengers, rows);
  }

  // ---------------------------------------------------------------- what is written

  /** The new booking, column by column, from the request, the hold and the trip. */
  predicate Made(db: Db, after: Db, r: Request, hold: Hold, trip: TripSnapshot, d: Draws) {
    && d.bookingId in after.bookings && after.bookings == db.bookings[d.bookingId := after.bookings[d.bookingId]]
    && after.ownerKeys == db.ownerKeys[(r.owner, r.key) := d.bookingId]
    && var b := after.bookings[d.bookingId];
       && b.status == PENDING_PAYMENT && b.facts.id == d.bookingId && b.facts.owner == r.owner
       && b.facts.idempotencyKey == r.key && b.facts.createdAt == d.createdAt
       && b.facts.holdToken == hold.token && b.facts.holdExpiresAt == hold.expiresAt && b.facts.tripId == hold.tripId
       && b.facts.unitPriceVnd == hold.unitPriceVnd && b.facts.totalPriceVnd == hold.totalPriceVnd
       && b.facts.routeId == trip.routeId && b.facts.routeCode == trip.routeCode
       && b.facts.departureAt == trip.departureAt && b.facts.seatCount == |r.passengers|
       && b.paidAt == None && b.expiredAt == None && b.cancelledAt == None && b.seatsReleasedAt == None
  }

  /** One passenger row per passenger asked for, on that seat and in that name, in seat order. */
  predicate Seated(db: Db, after: Db, r: Request, d: Draws) {
    |after.passengers| == |db.passengers| + |r.passengers| &&
    var rows := after.passengers[|db.passengers|..];
    && after.passengers == db.passengers + rows
    && (forall p :: p in r.passengers ==> SitsIn(rows, p))
    && Map(rows, (q: Passenger) => q.id) == d.passengerIds
    && (forall i :: 0 <= i < |rows| ==> rows[i].bookingId == d.bookingId)
    && forall i, j :: 0 <= i < j < |rows| ==> rows[i].seatId < rows[j].seatId
  }

  predicate SitsIn(rows: seq<Passenger>, p: PassengerInput) {
    exists q :: q in rows && q.seatId == p.seatId && q.fullName == p.fullName
  }

  lemma EverybodySits(inputs: seq<PassengerInput>, id: Uuid, ids: seq<Uuid>, p: PassengerInput)
    requires |ids| == |inputs| && p in inputs
    ensures SitsIn(PassengerRows(id, inputs, ids), p)
  {
    var i :| 0 <= i < |inputs| && inputs[i] == p;
    assert PassengerRows(id, inputs, ids)[i] in PassengerRows(id, inputs, ids);
  }

  lemma RowsSeat(db: Db, after: Db, r: Request, d: Draws, inputs: seq<PassengerInput>)
    requires |d.passengerIds| == |inputs| == |r.passengers| && multiset(inputs) == multiset(r.passengers)
    requires forall i, j :: 0 <= i < j < |inputs| ==> inputs[i].seatId < inputs[j].seatId
    requires after.passengers == db.passengers + PassengerRows(d.bookingId, inputs, d.passengerIds)
    ensures Seated(db, after, r, d)
  {
    var rows := PassengerRows(d.bookingId, inputs, d.passengerIds);
    assert after.passengers[|db.passengers|..] == rows;
    forall p | p in r.passengers ensures SitsIn(rows, p) {
      assert p in multiset(inputs);
      EverybodySits(inputs, d.bookingId, d.passengerIds, p);
    }
    hide SitsIn;
  }

  lemma UnitAtMostTotal(unit: int, n: int)
    requires 0 <= unit && 1 <= n
    ensures unit <= unit * n
  {
  }

  lemma Persisted(db: Db, r: Request, inputs: seq<PassengerInput>, hold: Hold, trip: TripSnapshot, d: Draws)
    requires |d.passengerIds| == |inputs| && (r.owner, r.key) !in db.ownerKeys && d.bookingId !in db.bookings
    requires 1 <= |inputs| <= 10 && hold.unitPriceVnd >= 0 && hold.totalPriceVnd == hold.unitPriceVnd * |inputs|
    requires var rows := PassengerRows(d.bookingId, inputs, d.passengerIds);
      InsertPassengers(db.passengers, rows) == Ok(db.passengers + rows)
    ensures
      var input := ToPersistInput(r, inputs, hold, trip, d);
      var tx := CreateOrReplay(db, input, CreatedEvent(input, d.eventId));
      if hold.totalPriceVnd <= 2147483647 then
        && tx.out == Ok(d.bookingId) && tx.db.bookings == db.bookings[d.bookingId := NewBooking(input.facts)]
        && tx.db.ownerKeys == db.ownerKeys[(r.owner, r.key) := d.bookingId]
        && tx.db.passengers == db.passengers + PassengerRows(d.bookingId, inputs, d.passengerIds)
      else tx == Tx(db, Err(ConstraintViolation))
  {
    UnitAtMostTotal(hold.unitPriceVnd, |inputs|);
    hide EnqueueBookingEvent, InsertPassengers, PassengerRows, DispatchOf, FingerprintOf;
  }

  // ---------------------------------------------------------------- theorems

  /** What a first call is answered: the first check that fails, in order, or the new booking's id. */
  function Expected(r: Request, hold: Hold, d: Draws): Result<Uuid, CreateError> {
    if |r.passengers| < 1 || 10 < |r.passengers| then Err(PassengerCount)
    else if !DistinctSeats(r.passengers) then Err(DuplicateSeat)
    else if hold.expiresAt <= d.checkedAt then Err(HoldExpired)
    else if SeatsAskedFor(r.passengers) != multiset(hold.seatIds) then Err(SeatMapping)
    else if hold.unitPriceVnd < 0 || hold.totalPriceVnd != hold.unitPriceVnd * |hold.seatIds|
    then Err(InconsistentPricing)
    else if hold.expiresAt <= d.createdAt then Err(HoldExpired)
    else if 2147483647 < hold.totalPriceVnd then Err(Refused(ConstraintViolation))
    else Ok(d.bookingId)
  }

  /**
   In every reachable state a call with a key its owner has not used is answered by the first check
   that fails, and writes nothing then; if none fails it makes one booking with the columns of the
   request, the hold and the trip, and one passenger row per passenger.
   */
  lemma CreationAnswers(steps: seq<Step>, r: Request, hold: Hold, trip: TripSnapshot, d: Draws)
    requires |d.passengerIds| == |r.passengers| && FreshDraws(Run(EMPTY_DB, steps), d)
    requires (r.owner, r.key) !in Run(EMPTY_DB, steps).ownerKeys
    ensures
      var db := Run(EMPTY_DB, steps);
      var result := CreateBooking(db, db, r, hold, trip, d);
      && result.out == Expected(r, hold, d)
      && (result.out.Err? ==> result.db == db)
      && (result.out.Ok? ==> Made(db, result.db, r, hold, trip, d) && Seated(db, result.db, r, d))
  {
    StrangersOnly(steps, d.bookingId);
    hide Run;
    AnswersIn(Run(EMPTY_DB, steps), r, hold, trip, d);
  }

  lemma AnswersIn(db: Db, r: Request, hold: Hold, trip: TripSnapshot, d: Draws)
    requires |d.passengerIds| == |r.passengers| && FreshDraws(db, d) && (r.owner, r.key) !in db.ownerKeys
    requires forall p :: p in db.passengers ==> p.bookingId != d.bookingId
    ensures
      var result := CreateBooking(db, db, r, hold, trip, d);
      && result.out == Expected(r, hold, d)
      && (result.out.Err? ==> result.db == db)
      && (result.out.Ok? ==> Made(db, result.db, r, hold, trip, d) && Seated(db, result.db, r, d))
  {
    NormalizedSeats(r.passengers);
    CallIs(db, r, hold, trip, d);
    hide CreateBooking, NormalizePassengers, MapsToSeats, DistinctSeats, SeatsAskedFor, PassengerRows, FreshDraws;
    hide InsertPassengers, CreateOrReplay, CreatedEvent, Seated, Made;
    if NormalizePassengers(r.passengers).Ok? {
      MapsWhenHeld(r.passengers, hold.seatIds);
      var inputs := NormalizePassengers(r.passengers).value;
      if MapsToSeats(inputs, hold.seatIds) && ConsistentPricing(hold) {
        Makes(db, r, inputs, hold, trip, d);
      }
    }
  }

  /** The checks in their order, when the first lookup finds nothing. */
  lemma CallIs(db: Db, r: Request, hold: Hold, trip: TripSnapshot, d: Draws)
    requires |d.passengerIds| == |r.passengers| && (r.owner, r.key) !in db.ownerKeys
    ensures
      var result := CreateBooking(db, db, r, hold, trip, d);
      match NormalizePassengers(r.passengers)
      case Err(e) => result == Created(db, Err(e))
      case Ok(inputs) =>
        if hold.expiresAt <= d.checkedAt then result == Created(db, Err(HoldExpired))
        else if !MapsToSeats(inputs, hold.seatIds) then result == Created(db, Err(SeatMapping))
        else if !ConsistentPricing(hold) then result == Created(db, Err(InconsistentPricing))
        else if hold.expiresAt <= d.createdAt then result == Created(db, Err(HoldExpired))
        else |inputs| == |d.passengerIds| && result == Transacted(db, r, inputs, hold, trip, d)
  {
    SortedLength(r.passengers);
    hide CreateOrReplay, SortBy, MapsToSeats, ConsistentPricing, ToPersistInput, CreatedEvent;
  }

  /** The transaction's result and the answer read off it. */
  function Transacted(db: Db, r: Request, inputs: seq<PassengerInput>, hold: Hold, trip: TripSnapshot, d: Draws)
    : Created
    requires |d.passengerIds| == |inputs|
  {
    var input := ToPersistInput(r, inputs, hold, trip, d);
    var tx := CreateOrReplay(db, input, CreatedEvent(input, d.eventId));
    match tx.out
    case Err(e) => Created(tx.db, Err(Refused(e)))
    case Ok(id) =>
      if id in tx.db.bookings then Replay(tx.db, tx.db.bookings[id], FingerprintOf(r, inputs))
      else Created(tx.db, Err(Refused(NotFound)))
  }

  lemma Makes(db: Db, r: Request, inputs: seq<PassengerInput>, hold: Hold, trip: TripSnapshot, d: Draws)
    requires |d.passengerIds| == |inputs| == |r.passengers| && 1 <= |inputs| <= 10 && DistinctSeats(inputs)
    requires multiset(inputs) == multiset(r.passengers)
    requires forall i, j :: 0 <= i < j < |inputs| ==> inputs[i].seatId < inputs[j].seatId
    requires FreshDraws(db, d) && (r.owner, r.key) !in db.ownerKeys
    requires forall p :: p in db.passengers ==> p.bookingId != d.bookingId
    requires ConsistentPricing(hold) && |hold.seatIds| == |inputs|
    ensures
      var result := Transacted(db, r, inputs, hold, trip, d);
      if hold.totalPriceVnd <= 2147483647 then
        result.out == Ok(d.bookingId) && Made(db, result.db, r, hold, trip, d) && Seated(db, result.db, r, d)
      else result == Created(db, Err(Refused(ConstraintViolation)))
  {
    NewRowsInsert(db, d, inputs);
    Persisted(db, r, inputs, hold, trip, d);
    hide CreateOrReplay, InsertPassengers, CreatedEvent, PassengerRows, Seated, DistinctSeats;
    var input := ToPersistInput(r, inputs, hold, trip, d);
    var tx := CreateOrReplay(db, input, CreatedEvent(input, d.eventId));
    if hold.totalPriceVnd <= 2147483647 { RowsSeat(db, tx.db, r, d, inputs); }
  }

  /**
   A call with a new key makes a booking if and only if it names one to ten passengers on different
   seats, exactly the held ones, at a total of unit price times seats that can be stored, and the
   hold has not run out when it is checked nor when the booking is written.
   */
  lemma CreatesIff(steps: seq<Step>, r: Request, hold: Hold, trip: TripSnapshot, d: Draws)
    requires |d.passengerIds| == |r.passengers| && FreshDraws(Run(EMPTY_DB, steps), d)
    requires (r.owner, r.key) !in Run(EMPTY_DB, steps).ownerKeys
    ensures
      var db := Run(EMPTY_DB, steps);
      var result := CreateBooking(db, db, r, hold, trip, d);
      && (result.out == Ok(d.bookingId) <==>
            && 1 <= |r.passengers| <= 10
            && (forall i, j :: 0 <= i < j < |r.passengers| ==> r.passengers[i].seatId != r.passengers[j].seatId)
            && multiset(Map(r.passengers, (p: PassengerInput) => p.seatId)) == multiset(hold.seatIds)
            && 0 <= hold.unitPriceVnd && hold.totalPriceVnd == hold.unitPriceVnd * |hold.seatIds| <= 2147483647
            && d.checkedAt < hold.expiresAt && d.createdAt < hold.expiresAt)
      && (result.db != db <==> result.out == Ok(d.bookingId))
  {
    CreationAnswers(steps, r, hold, trip, d);
    hide Run, CreateBooking;
  }

  /** However the key was used before and whatever ran since the first lookup: a call that writes was in time. */
  lemma WritesOnlyInTime(earlier: Db, db: Db, r: Request, hold: Hold, trip: TripSnapshot, d: Draws)
    requires |d.passengerIds| == |r.passengers|
    requires CreateBooking(earlier, db, r, hold, trip, d).db != db
    ensures d.checkedAt < hold.expiresAt && d.createdAt < hold.expiresAt
  {
    SortedLength(r.passengers);
    hide CreateOrReplay, SortBy, MapsToSeats, FindByIdempotency, ConsistentPricing, ToPersistInput;
  }
}
