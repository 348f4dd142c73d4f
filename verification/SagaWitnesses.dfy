/** Runs from the very beginning that show what can go wrong, step by step, does. */
module SagaWitnesses {
  import opened Prelude
  import opened Bookings
  import opened BookingLifecycle
  import opened BookingInvariants
  import opened Payments
  import opened CheckoutSaga
  import opened SagaInvariants
  import opened SagaTheorems
  import opened SagaRecovery

  // ---------------------------------------------------------------- one booking

  const CUSTOMER_5 := Owner(CUSTOMER, 5)

  /** Booking 1, of one passenger at the given price, held until 10 and departing at 20. */
  function FirstInput(price: int): PersistInput {
    PersistInput(
      Facts(1, CUSTOMER_5, "first", Fingerprint("hold", CUSTOMER_5, "contact", []), "hold", 10, 2, 3, "route", 20,
            price, 1, price, 0),
      [Passenger(4, 1, 6, "name")])
  }

  function FirstEvent(price: int): Event {
    var input := FirstInput(price);
    DispatchOf(BookingCreatedV1, input.facts, input.passengers, 7, 0, None)
  }

  function Booked(price: int): seq<Happening> { [Other(Create(FirstInput(price), FirstEvent(price)))] }

  lemma FirstBooking(price: int)
    requires 0 <= price <= 2147483647
    ensures var db := Next(EMPTY_DB, Create(FirstInput(price), FirstEvent(price)));
      && db.bookings == map[1 := NewBooking(FirstInput(price).facts)]
      && forall eventId :: eventId != 7 ==> FreshEvent(db, eventId)
  {
    var input, event := FirstInput(price), FirstEvent(price);
    hide SortBy;
    assert InsertPassengers([], input.passengers) == Ok([] + input.passengers) by {
      assert input.passengers[..0] == [];
      assert InsertPassengers([], input.passengers[..0]) == Ok([]);
    }
    EnqueueFresh([], event);
    assert CreatesBooking(EMPTY_DB, input, event);
  }

  /** The state after the first booking: it is pending, nobody runs, nothing was sent. */
  lemma AfterBooking(price: int)
    requires 0 <= price <= 2147483647
    ensures var w := DoAll(IDLE, Booked(price));
      && w == IDLE.(db := w.db) && w.db.bookings == map[1 := NewBooking(FirstInput(price).facts)]
      && forall eventId :: eventId != 7 ==> FreshEvent(w.db, eventId)
  {
    FirstBooking(price);
    var e := Other(Create(FirstInput(price), FirstEvent(price)));
    assert Booked(price)[..0] == [];
    assert DoAll(IDLE, Booked(price)) == Do(IDLE, e);
    hide Next, DoAll, FirstInput, FirstEvent;
  }

  /** A booking with total zero can be made, and so can never be paid. */
  lemma FreeBookingsExist()
    ensures exists events, id ::
      && id in DoAll(IDLE, events).db.bookings
      && DoAll(IDLE, events).db.bookings[id].status == PENDING_PAYMENT
      && DoAll(IDLE, events).db.bookings[id].facts.totalPriceVnd == 0
      && forall more :: !PaidIn(Afterwards(events, more), id)
  {
    AfterBooking(0);
    var events := Booked(0);
    hide DoAll, FreshEvent;
    PaidInSomeFutureIffNotFree(events, 1, 1, "pay", 0, 9, 0, 8);
    assert 1 in DoAll(IDLE, events).db.bookings;
  }

  lemma FirstIsPayable(eventId: Uuid)
    requires eventId != 7
    ensures Payable(DoAll(IDLE, Booked(1)), 1, "pay", 0, 9, eventId)
  {
    AfterBooking(1);
    hide DoAll;
  }

  // ---------------------------------------------------------------- expiry overtakes a confirmation

  const SYSTEM_ACTOR := Actor(SYSTEM, 1)

  /** Booked, attempted, confirmation sent, given up by its caller: the lock is free and the request is out. */
  lemma AbandonedConfirmation() returns (events: seq<Happening>, c: ConfirmCall)
    ensures var w := DoAll(IDLE, events);
      && c in w.confirms && c.bookingId == 1 && 1 !in w.lock && 1 !in w.lost && 2 !in w.processes
      && Unpaid(w.db, 1) && w.db.bookings[1].facts == FirstInput(1).facts && FreshEvent(w.db, 8)
  {
    AfterBooking(1);
    FirstIsPayable(8);
    Reachable(Booked(1));
    var w0, command := DoAll(IDLE, Booked(1)), PayCommand(1, CUSTOMER_5, SUCCESS, "pay");
    var a := AsksForConfirmation(w0, 1, 1, "pay", 0, 9, 0, 8);
    var asking := Asking(1, command, 0, 9, 0);
    Splits(IDLE, Booked(1), asking);
    var w1 := DoAll(IDLE, Booked(1) + asking);
    hide Inv, DoAll, Payable, Asking, FreshEvent, PassengersOf, SeatsIn, WillName;
    GivesUp(w1, 1);
    Splits(IDLE, Booked(1) + asking, [Throws(1), Unlock(1)]);
    events := Booked(1) + asking + [Throws(1), Unlock(1)];
    c := ConfirmFor(Record(w0.db.bookings[1], PassengersOf(w0.db, 1)), a);
  }

  /** From the beginning: no lock is lost, and expiry still overtakes a confirmation that is on its way. */
  lemma ExpiryOvertakesFromTheStart()
    ensures exists events, c :: var w := DoAll(IDLE, events);
      && c in w.confirms && c.bookingId in w.db.bookings && w.db.bookings[c.bookingId].status == EXPIRED
      && c.bookingId !in w.lost
      && exists a :: a in w.ledger.attempts && a.status == SUCCEEDED && a.bookingId == c.bookingId && a.id == c.key
  {
    var events, c := AbandonedConfirmation();
    var expire := ExpireCommand(1, CUSTOMER_5);
    ExpiryOvertakesIffLockIsFree(events, c, 2, 10, 8, SYSTEM_ACTOR);
    Splits(IDLE, events, Expiry(2, expire, 10, 8, SYSTEM_ACTOR));
    hide DoAll, Expiry, FreshEvent;
    var all := events + Expiry(2, expire, 10, 8, SYSTEM_ACTOR);
    assert c in DoAll(IDLE, all).confirms;
  }

  // ---------------------------------------------------------------- a lost lock and two keys

  lemma {:induction false} FreshIds(outbox: seq<OutboxRow>) returns (bound: Uuid)
    ensures forall o :: o in outbox ==> o.event.eventId < bound
  {
    if outbox == [] {
      bound := 0;
    } else {
      var init, last := outbox[..|outbox| - 1], outbox[|outbox| - 1];
      assert outbox == init + [last];
      bound := FreshIds(init);
      if bound <= last.event.eventId { bound := last.event.eventId + 1; }
    }
  }

  lemma TwoFreshIds(db: Db) returns (e: Uuid, f: Uuid)
    ensures FreshEvent(db, e) && FreshEvent(db, f) && e != f
  {
    e := FreshIds(db.outbox);
    f := e + 1;
  }

  const MINE := CancelCommand(1, CUSTOMER_5, "mine")
  const OTHER := CancelCommand(1, CUSTOMER_5, "other")

  lemma KeysDiffer()
    ensures MINE.key != OTHER.key
  {
    assert "mine"[0] != "other"[0];
  }

  /** Booked, paid, unlocked: the booking is paid before departure and nobody runs. */
  lemma PaidAndIdle() returns (events: seq<Happening>)
    ensures var w := DoAll(IDLE, events);
      && w.processes == map[] && w.lock == map[]
      && OwnedRow(w.db, 1, CUSTOMER_5).Some? && w.db.bookings[1].status == PAID
      && w.db.bookings[1].facts.departureAt == 20 && w.db.bookings[1].facts.id == 1
  {
    AfterBooking(1);
    FirstIsPayable(8);
    var w0, command := DoAll(IDLE, Booked(1)), PayCommand(1, CUSTOMER_5, SUCCESS, "pay");
    RecoveryPays(Booked(1), 1, 1, "pay", 0, 9, 0, 8);
    var paying := Recovery(1, command, 0, 9, 0, 8);
    Splits(IDLE, Booked(1), paying);
    var w1 := DoAll(IDLE, Booked(1) + paying);
    hide DoAll, Payable, Recovery, FreshEvent, WillName, Do;
    Unlocks(w1, 1);
    OneMoreEvent(IDLE, Booked(1) + paying, Unlock(1));
    events := Booked(1) + paying + [Unlock(1)];
  }

  lemma TwoReleaseKeysFrom(w: World) returns (more: seq<Happening>, r: ReleaseCall, s: ReleaseCall)
    requires w.processes == map[] && w.lock == map[]
    requires OwnedRow(w.db, 1, CUSTOMER_5).Some? && w.db.bookings[1].status == PAID
    requires w.db.bookings[1].facts.departureAt == 20 && w.db.bookings[1].facts.id == 1
    ensures var w2 := DoAll(w, more);
      && r in w2.releases && s in w2.releases && r.bookingId == s.bookingId == 1 && r.key != s.key
      && 1 in w2.db.bookings && w2.db.bookings[1].cancellationKey == Some(r.key)
  {
    var e, f := TwoFreshIds(w.db);
    KeysDiffer();
    hide DoAll, FreshEvent, LostLock;
    r, s := LostLockReleasesUnderTwoKeys(w, 2, 3, MINE, OTHER, 0, e, f);
    more := LostLock(2, 3, MINE, OTHER, 0, e, f);
    BothSent(w.releases, r, s);
  }

  lemma BothSent(before: seq<ReleaseCall>, r: ReleaseCall, s: ReleaseCall)
    ensures r in before + [r] + [s] && s in before + [r] + [s]
  {
  }

  /** From the beginning: a run in which two releases of one booking carry two keys, one of them not the stored one. */
  lemma TwoReleaseKeysFromTheStart()
    ensures exists events, r, s :: var w := DoAll(IDLE, events);
      && r in w.releases && s in w.releases && r.bookingId == s.bookingId && r.key != s.key
      && r.bookingId in w.db.bookings && w.db.bookings[r.bookingId].cancellationKey == Some(r.key)
  {
    var events := PaidAndIdle();
    var more, r, s := TwoReleaseKeysFrom(DoAll(IDLE, events));
    Splits(IDLE, events, more);
    hide DoAll;
    assert r in DoAll(IDLE, events + more).releases && s in DoAll(IDLE, events + more).releases;
  }
}
