/** The reconciler that returns the seats of cancelled bookings to the seat inventory. */
module SeatReleases {
  import opened Prelude
  import opened Bookings
  import opened BookingLifecycle
  import opened BookingInvariants
  import opened BookingTheorems
  import opened BookingRepository

  predicate Unreleased(b: Booking) {
    b.status == CANCELLED && b.facts.owner.kind == CUSTOMER && b.seatsReleasedAt == None
  }

  function Pending(db: Db): set<Uuid> {
    set id | id in db.bookings && Unreleased(db.bookings[id])
  }

  function CancelledAt(db: Db, id: Uuid): int {
    if id in db.bookings && db.bookings[id].cancelledAt.Some? then db.bookings[id].cancelledAt.value else 0
  }

  /** ORDER BY cancelled_at, id */
  predicate Before(db: Db, a: Uuid, b: Uuid) {
    CancelledAt(db, a) < CancelledAt(db, b) || (CancelledAt(db, a) == CancelledAt(db, b) && a < b)
  }

  lemma {:induction false} Oldest(db: Db, ids: set<Uuid>) returns (first: Uuid)
    requires ids != {}
    ensures first in ids && forall id :: id in ids && id != first ==> Before(db, first, id)
    decreases |ids|
  {
    var some :| some in ids;
    first := some;
    if ids != {some} {
      assert ids - {some} != {};
      var other := Oldest(db, ids - {some});
      if Before(db, other, some) { first := other; }
      forall id | id in ids && id != first ensures Before(db, first, id) {
        assert id == some || id in ids - {some};
      }
    }
  }

  function Elements(list: seq<Uuid>): set<Uuid> { set id | id in list }

  /** The first `limit` pending ids, oldest cancellation first. */
  predicate OldestPending(db: Db, list: seq<Uuid>, limit: nat) {
    && |list| == (if |Pending(db)| < limit then |Pending(db)| else limit)
    && Elements(list) <= Pending(db) && |Elements(list)| == |list|
    && (forall i, j :: 0 <= i < j < |list| ==> Before(db, list[i], list[j]))
    && forall i, id :: 0 <= i < |list| && id in Pending(db) - Elements(list) ==> Before(db, list[i], id)
  }

  /** `list` was picked off the front of the pending ids; `rest` are the others. */
  predicate Picked(db: Db, list: seq<Uuid>, rest: set<Uuid>) {
    && Elements(list) + rest == Pending(db) && Elements(list) !! rest && |Elements(list)| == |list|
    && (forall i, j :: 0 <= i < j < |list| ==> Before(db, list[i], list[j]))
    && forall i, id :: 0 <= i < |list| && id in rest ==> Before(db, list[i], id)
  }

  lemma PickNext(db: Db, list: seq<Uuid>, rest: set<Uuid>, first: Uuid)
    requires Picked(db, list, rest) && first in rest
    requires forall id :: id in rest && id != first ==> Before(db, first, id)
    ensures Picked(db, list + [first], rest - {first})
  {
    hide Before, Pending, Elements;
    OneMore(list, first);
  }

  lemma OneMore(list: seq<Uuid>, first: Uuid)
    ensures Elements(list + [first]) == Elements(list) + {first}
  {
  }

  lemma PickedEnough(db: Db, list: seq<Uuid>, rest: set<Uuid>, limit: nat)
    requires Picked(db, list, rest) && |list| <= limit && (|list| == limit || rest == {})
    ensures OldestPending(db, list, limit)
  {
    hide Before, Pending;
    assert rest == Pending(db) - Elements(list);
    assert |Pending(db)| == |Elements(list)| + |rest|;
  }

  method FindCancellationReleaseCandidates(repo: Repository, limit: nat) returns (list: seq<Uuid>)
    ensures OldestPending(repo.Tables(), list, limit)
    ensures forall id :: id in list ==> Owed(repo.Tables(), id)
    ensures |list| < limit ==> forall id :: Owed(repo.Tables(), id) ==> id in list
    ensures forall i, j :: 0 <= i < j < |list| ==> CancelledBefore(repo.Tables(), list[i], list[j])
    ensures |list| == limit ==> forall i, id :: 0 <= i < |list| && Owed(repo.Tables(), id) && id !in list ==>
      CancelledBefore(repo.Tables(), list[i], id)
  {
    var db := repo.Tables();
    var rest := Pending(db);
    list := [];
    hide Picked, OldestPending;
    assert Picked(db, list, rest) by { NothingPicked(db); }
    while |list| < limit && rest != {}
      invariant |list| <= limit && Picked(db, list, rest)
      decreases |rest|
    {
      ghost var oldest := Oldest(db, rest);
      var first :| first in rest && forall id :: id in rest && id != first ==> Before(db, first, id);
      PickNext(db, list, rest, first);
      list, rest := list + [first], rest - {first};
    }
    PickedEnough(db, list, rest, limit);
    PickedAreOwed(db, list, limit);
  }

  /** A customer's booking that is cancelled and whose seats are not back yet. */
  predicate Owed(db: Db, id: Uuid) {
    && id in db.bookings && db.bookings[id].status == CANCELLED
    && db.bookings[id].facts.owner.kind == CUSTOMER && db.bookings[id].seatsReleasedAt == None
  }

  /** The earlier cancellation, by id among those of one instant. */
  predicate CancelledBefore(db: Db, a: Uuid, b: Uuid) {
    a in db.bookings && b in db.bookings &&
    var x, y := db.bookings[a].cancelledAt, db.bookings[b].cancelledAt;
    x.Some? && y.Some? ==> x.value < y.value || (x.value == y.value && a < b)
  }

  lemma PickedAreOwed(db: Db, list: seq<Uuid>, limit: nat)
    requires OldestPending(db, list, limit)
    ensures forall id :: id in list ==> Owed(db, id)
    ensures |list| < limit ==> forall id :: Owed(db, id) ==> id in list
    ensures forall i, j :: 0 <= i < j < |list| ==> CancelledBefore(db, list[i], list[j])
    ensures |list| == limit ==> forall i, id :: 0 <= i < |list| && Owed(db, id) && id !in list ==>
      CancelledBefore(db, list[i], id)
  {
    forall id | id in list ensures id in Pending(db) { assert id in Elements(list); }
    if |list| < limit {
      SameSize(Elements(list), Pending(db));
      forall id | Owed(db, id) ensures id in list { assert id in Pending(db); }
    }
    forall i, j | 0 <= i < j < |list| ensures CancelledBefore(db, list[i], list[j]) {
      assert Before(db, list[i], list[j]) && list[i] in list && list[j] in list;
    }
    forall i, id | 0 <= i < |list| && Owed(db, id) && id !in list ensures CancelledBefore(db, list[i], id) {
      assert id in Pending(db) - Elements(list) && list[i] in list;
    }
  }

  lemma {:induction false} SameSize(a: set<Uuid>, b: set<Uuid>)
    requires a <= b && |a| == |b|
    ensures a == b
  {
    assert b == a + (b - a);
  }

  lemma NothingPicked(db: Db)
    ensures Picked(db, [], Pending(db))
  {
  }

  /** The request a cancelled booking asks for: everything in it was fixed when it was cancelled. */
  function ReleaseOwed(db: Db, id: Uuid): ReleaseCall
    requires id in db.bookings
  {
    var b := db.bookings[id];
    ReleaseRequest(b.facts, PassengersOf(db, id), if b.cancellationKey.Some? then b.cancellationKey.value else "")
  }

  /** `db` with the seats of these bookings recorded as released. */
  predicate Released(before: Db, after: Db, ids: set<Uuid>) {
    && after == before.(bookings := after.bookings)
    && after.bookings.Keys == before.bookings.Keys
    && forall id :: id in before.bookings ==>
         && after.bookings[id].(seatsReleasedAt := None) == before.bookings[id].(seatsReleasedAt := None)
         && (id in ids ==> after.bookings[id].seatsReleasedAt.Some?)
         && (id !in ids ==> after.bookings[id] == before.bookings[id])
  }

  predicate Keyed(db: Db) {
    forall id :: id in db.bookings ==> db.bookings[id].facts.id == id && Columns(db.bookings[id])
  }

  lemma ReachableKeyed(db: Db)
    requires AllOk(db)
    ensures Keyed(db)
  {
    forall id | id in db.bookings ensures db.bookings[id].facts.id == id && Columns(db.bookings[id]) {
      assert OkFor(db, id);
    }
  }

  lemma PendingMembers(db: Db, list: seq<Uuid>, limit: nat)
    requires OldestPending(db, list, limit) && Keyed(db)
    ensures |list| <= limit && Released(db, db, Elements(list[..0]))
    ensures forall i :: 0 <= i < |list| ==>
      && list[i] in db.bookings && db.bookings[list[i]].status == CANCELLED
      && db.bookings[list[i]].cancellationKey.Some?
  {
    forall i | 0 <= i < |list| ensures list[i] in Pending(db) {
      assert list[i] in Elements(list);
    }
  }

  /** Releasing other bookings changes nothing about a booking's own request. */
  lemma SameRequest(db: Db, now: Db, done: set<Uuid>, id: Uuid)
    requires Released(db, now, done) && id in db.bookings
    ensures id in now.bookings && ReleaseOwed(now, id) == ReleaseOwed(db, id)
    ensures now.bookings[id].status == db.bookings[id].status
  {
    assert now.bookings[id].(seatsReleasedAt := None) == db.bookings[id].(seatsReleasedAt := None);
  }

  lemma OneMoreReleased(db: Db, now: Db, list: seq<Uuid>, n: nat, at: int)
    requires n < |list| && Released(db, now, Elements(list[..n])) && list[n] in db.bookings
    requires db.bookings[list[n]].status == CANCELLED && db.bookings[list[n]].cancellationKey.Some?
    ensures Released(db, MarkCancellationSeatsReleased(now, list[n], ReleaseOwed(db, list[n]).key, at),
                     Elements(list[..n + 1]))
  {
    hide SeatsIn, Filter;
    var id := list[n];
    assert Elements(list[..n + 1]) == Elements(list[..n]) + {id};
    assert now.bookings[id].(seatsReleasedAt := None) == db.bookings[id].(seatsReleasedAt := None);
  }

  /** A pass whose every request succeeded, from one snapshot of the tables to the next. */
  ghost predicate FullPass(before: Db, after: Db, limit: nat) {
    exists list :: OldestPending(before, list, limit) && Released(before, after, Elements(list))
  }

  /**
   One pass. `replies[i]` is what the seat inventory answers to the i-th request, `None` when
   it fails; a failure ends the pass. Whatever the replies, exactly the answered candidates
   are marked, and every request carries the booking's own key and seats.
   */
  method ReconcileCancelledSeatReleases(repo: Repository, limit: nat, replies: seq<Option<int>>)
    returns (list: seq<Uuid>, released: nat, calls: seq<ReleaseCall>)
    requires Keyed(repo.Tables()) && |replies| >= limit
    modifies repo
    ensures OldestPending(old(repo.Tables()), list, limit)
    ensures released <= |list|
    ensures released == |list| || replies[released] == None
    ensures forall i :: 0 <= i < released ==> replies[i].Some?
    ensures Released(old(repo.Tables()), repo.Tables(), Elements(list[..released]))
    ensures (forall i :: 0 <= i < |list| ==> replies[i].Some?) ==>
      released == |list| && FullPass(old(repo.Tables()), repo.Tables(), limit)
    ensures |calls| == if released < |list| then released + 1 else released
    ensures forall i :: 0 <= i < |calls| ==>
      list[i] in old(repo.Tables()).bookings && calls[i] == ReleaseOwed(old(repo.Tables()), list[i])
  {
    hide Released, Elements, ReleaseOwed, OldestPending, Keyed, Unreleased, MarkCancellationSeatsReleased, Columns;
    ghost var db := repo.Tables();
    list := FindCancellationReleaseCandidates(repo, limit);
    PendingMembers(db, list, limit);
    released, calls := 0, [];
    while released < |list|
      invariant released == |calls| <= |list|
      invariant forall i :: 0 <= i < released ==> replies[i].Some?
      invariant Released(db, repo.Tables(), Elements(list[..released]))
      invariant forall i :: 0 <= i < |calls| ==> calls[i] == ReleaseOwed(db, list[i])
    {
      var id := list[released];
      SameRequest(db, repo.Tables(), Elements(list[..released]), id);
      var call := ReleaseOwed(repo.Tables(), id);
      calls := calls + [call];
      if replies[released] == None { return; }
      OneMoreReleased(db, repo.Tables(), list, released, replies[released].value);
      repo.MarkCancellationSeatsReleasedRow(id, call.key, replies[released].value);
      released := released + 1;
    }
    assert list[..|list|] == list;
  }

  lemma PassShrinks(before: Db, after: Db, list: seq<Uuid>, limit: nat)
    requires OldestPending(before, list, limit) && Released(before, after, Elements(list))
    ensures |Pending(after)| == if |Pending(before)| < limit then 0 else |Pending(before)| - limit
  {
    assert Pending(after) == Pending(before) - Elements(list);
  }

  lemma {:induction false} PendingAfter(states: seq<Db>, limit: nat, k: nat)
    requires k < |states|
    requires forall i :: 0 <= i < |states| - 1 ==> FullPass(states[i], states[i + 1], limit)
    ensures |Pending(states[k])| ==
      if |Pending(states[0])| < k * limit then 0 else |Pending(states[0])| - k * limit
  {
    if k > 0 {
      PendingAfter(states, limit, k - 1);
      assert FullPass(states[k - 1], states[k - 1 + 1], limit);
      var list :| OldestPending(states[k - 1], list, limit) && Released(states[k - 1], states[k], Elements(list));
      PassShrinks(states[k - 1], states[k], list, limit);
      assert k * limit == (k - 1) * limit + limit;
    }
  }

  /** n unreleased bookings are drained by k passes exactly when k is at least n / limit, rounded up. */
  lemma DrainedExactlyAfter(states: seq<Db>, limit: nat, k: nat)
    requires k < |states| && limit > 0
    requires forall i :: 0 <= i < |states| - 1 ==> FullPass(states[i], states[i + 1], limit)
    ensures Pending(states[k]) == {} <==> k >= (|Pending(states[0])| + limit - 1) / limit
  {
    var n := |Pending(states[0])|;
    PendingAfter(states, limit, k);
    RoundUp(n, limit, k);
  }

  lemma {:induction false} RoundUp(n: nat, limit: nat, k: nat)
    requires limit > 0
    ensures n <= k * limit <==> k >= (n + limit - 1) / limit
  {
    var q := (n + limit - 1) / limit;
    var r := (n + limit - 1) % limit;
    assert n + limit - 1 == q * limit + r;
    if k >= q {
      assert k * limit >= q * limit;
    } else {
      assert (q - 1) * limit == q * limit - limit;
      assert k * limit <= (q - 1) * limit;
    }
  }
}
