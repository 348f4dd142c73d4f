/** The catalog's plain database queries: trip search and the nearest other dates. */
module TripSearch {
  import opened Prelude

  datatype StopKind = PICKUP | DROPOFF | BOTH

  datatype Stop = Stop(kind: StopKind, order: nat, location: string)

  datatype Route = Route(originCityId: Uuid, destinationCityId: Uuid, active: bool, stops: seq<Stop>)

  /** A vehicle with its operator and its type. */
  datatype Vehicle =
    Vehicle(active: bool, operatorActive: bool, operatorCode: string, typeCode: string, seatCapacity: nat)

  datatype TripStatus = DRAFT | SCHEDULED | BOARDING | DEPARTED | COMPLETED | CANCELLED

  datatype Trip = Trip(
    id: Uuid, routeId: Uuid, vehicleId: Uuid, active: bool, status: TripStatus,
    departureAt: int, arrivalAt: int, priceVnd: Option<int>)   // None: no fare row

  datatype Catalog = Catalog(trips: seq<Trip>, routes: map<Uuid, Route>, vehicles: map<Uuid, Vehicle>)

  datatype SortOrder = DEPARTURE_EARLIEST | PRICE_LOWEST | DURATION_SHORTEST

  datatype Criteria = Criteria(
    originCityId: Uuid, destinationCityId: Uuid, travelDate: LocalDate,
    timeFrom: Option<int>, timeTo: Option<int>, priceMin: Option<int>, priceMax: Option<int>,
    operatorCodes: Option<set<string>>, vehicleTypeCodes: Option<set<string>>, minimumSeats: Option<nat>,
    sort: SortOrder)

  datatype Summary = Summary(tripId: Uuid, departureAt: int, arrivalAt: int, priceVnd: int, pickup: string,
                             dropoff: string)

  // ---------------------------------------------------------------- the WHERE clause

  predicate AtLeast(bound: Option<int>, x: int) { bound == None || x >= bound.value }

  predicate AtMost(bound: Option<int>, x: int) { bound == None || x <= bound.value }

  /** The joins and filters the two queries share. */
  predicate Matches(db: Catalog, c: Criteria, trip: Trip) {
    && trip.routeId in db.routes && trip.vehicleId in db.vehicles && trip.priceVnd.Some?
    && var route, vehicle, price := db.routes[trip.routeId], db.vehicles[trip.vehicleId], trip.priceVnd.value;
       && route.originCityId == c.originCityId && route.destinationCityId == c.destinationCityId
       && route.active && trip.active && vehicle.active && vehicle.operatorActive
       && trip.status in {SCHEDULED, BOARDING}
       && AtLeast(c.timeFrom, VietnamLocalTime(trip.departureAt))
       && AtMost(c.timeTo, VietnamLocalTime(trip.departureAt))
       && AtLeast(c.priceMin, price) && AtMost(c.priceMax, price)
       && (c.operatorCodes.Some? ==> vehicle.operatorCode in c.operatorCodes.value)
       && (c.vehicleTypeCodes.Some? ==> vehicle.typeCode in c.vehicleTypeCodes.value)
       && (c.minimumSeats.Some? ==> vehicle.seatCapacity >= c.minimumSeats.value)
  }

  function Boards(s: Stop): bool { s.kind == PICKUP || s.kind == BOTH }

  function Alights(s: Stop): bool { s.kind == DROPOFF || s.kind == BOTH }

  function StopOrder(s: Stop): int { s.order }

  function Pickups(route: Route): seq<Stop> { SortBy(Filter(route.stops, (s: Stop) => Boards(s)), StopOrder) }

  function Dropoffs(route: Route): seq<Stop> { SortBy(Filter(route.stops, (s: Stop) => Alights(s)), StopOrder) }

  /** The two lateral joins: a trip is only listed with a stop to board and a stop to alight. */
  predicate HasStops(route: Route) { Pickups(route) != [] && Dropoffs(route) != [] }

  predicate Listed(db: Catalog, c: Criteria, trip: Trip) {
    Matches(db, c, trip) && HasStops(db.routes[trip.routeId]) && VietnamLocalDate(trip.departureAt) == c.travelDate
  }

  function ListedIn(db: Catalog, c: Criteria): Trip -> bool { (t: Trip) => Listed(db, c, t) }

  predicate Candidate(db: Catalog, c: Criteria, trip: Trip) {
    Matches(db, c, trip) && VietnamLocalDate(trip.departureAt) != c.travelDate
  }

  function CandidateIn(db: Catalog, c: Criteria): Trip -> bool { (t: Trip) => Candidate(db, c, t) }

  // ---------------------------------------------------------------- search

  function TripId(t: Trip): int { t.id }

  function Departure(t: Trip): int { t.departureAt }

  function SortKey(sort: SortOrder): Trip -> int {
    (t: Trip) =>
      match sort
      case PRICE_LOWEST => (if t.priceVnd.Some? then t.priceVnd.value else 0)
      case DURATION_SHORTEST => t.arrivalAt - t.departureAt
      case DEPARTURE_EARLIEST => 0
  }

  function SummaryOf(db: Catalog, trip: Trip): Summary {
    if trip.routeId in db.routes && HasStops(db.routes[trip.routeId]) && trip.priceVnd.Some? then
      var route := db.routes[trip.routeId];
      Summary(trip.id, trip.departureAt, trip.arrivalAt, trip.priceVnd.value,
              Pickups(route)[0].location, Dropoffs(route)[|Dropoffs(route)| - 1].location)
    else Summary(trip.id, trip.departureAt, trip.arrivalAt, 0, "", "")
  }

  function Summarise(db: Catalog): Trip -> Summary { (t: Trip) => SummaryOf(db, t) }

  /** The rows of `search`, in the order of its ORDER BY (stable sorts, last key first). */
  function SearchRows(db: Catalog, c: Criteria): seq<Trip> {
    SortBy(SortBy(SortBy(Filter(db.trips, ListedIn(db, c)), TripId), Departure), SortKey(c.sort))
  }

  function Search(db: Catalog, c: Criteria): seq<Summary> { Map(SearchRows(db, c), Summarise(db)) }

  // ---------------------------------------------------------------- nearest dates

  /** SELECT DISTINCT */
  function DistinctDates(trips: seq<Trip>): (dates: seq<LocalDate>)
    ensures forall d :: d in dates <==> exists t :: t in trips && VietnamLocalDate(t.departureAt) == d
    ensures Distinct(dates)
  {
    if trips == [] then []
    else
      var init, last := trips[..|trips| - 1], trips[|trips| - 1];
      assert trips == init + [last];
      var before := DistinctDates(init);
      if VietnamLocalDate(last.departureAt) in before then before else before + [VietnamLocalDate(last.departureAt)]
  }

  /** ORDER BY abs(date - requested), date: each other date has its own place. */
  function Closeness(requested: LocalDate): LocalDate -> int {
    (d: LocalDate) => if d < requested then 2 * (requested - d) else 2 * (d - requested) + 1
  }

  function CandidateDates(db: Catalog, c: Criteria): seq<LocalDate> {
    DistinctDates(Filter(db.trips, CandidateIn(db, c)))
  }

  function NearestDates(db: Catalog, c: Criteria): seq<LocalDate> {
    var ordered := SortBy(CandidateDates(db, c), Closeness(c.travelDate));
    if |ordered| <= 3 then ordered else ordered[..3]
  }

  // ---------------------------------------------------------------- what the queries promise

  predicate Earlier(a: Trip, b: Trip) {
    a.departureAt < b.departureAt || (a.departureAt == b.departureAt && a.id <= b.id)
  }

  /** What was asked for first, then departure, then id. */
  predicate InOrder(sort: SortOrder, a: Trip, b: Trip) {
    match sort
    case DEPARTURE_EARLIEST => Earlier(a, b)
    case PRICE_LOWEST =>
      a.priceVnd.Some? && b.priceVnd.Some? &&
      (a.priceVnd.value < b.priceVnd.value || (a.priceVnd == b.priceVnd && Earlier(a, b)))
    case DURATION_SHORTEST =>
      var x, y := a.arrivalAt - a.departureAt, b.arrivalAt - b.departureAt;
      x < y || (x == y && Earlier(a, b))
  }

  function ById(): (Trip, Trip) -> bool { (a: Trip, b: Trip) => a.id <= b.id }

  lemma SearchIsOrdered(db: Catalog, c: Criteria)
    ensures forall i, j :: 0 <= i < j < |SearchRows(db, c)| ==>
      InOrder(c.sort, SearchRows(db, c)[i], SearchRows(db, c)[j])
  {
    var found, rows := Filter(db.trips, ListedIn(db, c)), SearchRows(db, c);
    var byId := SortBy(found, TripId);
    SortBySorted(found, TripId);
    SortIsStable(byId, Departure, ById());
    SortIsStable(SortBy(byId, Departure), SortKey(c.sort), Then(Departure, ById()));
    SearchFinds(db, c);
    hide SortBy, Filter, Listed, SearchRows, InOrder;
    forall i, j | 0 <= i < j < |rows| ensures InOrder(c.sort, rows[i], rows[j]) {
      HaveFares(db, c, rows[i]);
      HaveFares(db, c, rows[j]);
      KeysOrder(c.sort, rows[i], rows[j]);
    }
  }

  lemma KeysOrder(sort: SortOrder, a: Trip, b: Trip)
    requires Then(SortKey(sort), Then(Departure, ById()))(a, b) && a.priceVnd.Some? && b.priceVnd.Some?
    ensures InOrder(sort, a, b)
  {
    assert SortKey(sort)(a) < SortKey(sort)(b) ||
      (SortKey(sort)(a) == SortKey(sort)(b) && Then(Departure, ById())(a, b));
    assert Then(Departure, ById())(a, b) ==> Earlier(a, b);
  }

  lemma HaveFares(db: Catalog, c: Criteria, t: Trip)
    requires t in SearchRows(db, c)
    ensures t.priceVnd.Some?
  {
    SearchFinds(db, c);
    assert t in multiset(SearchRows(db, c));
    FilterMember(db.trips, t, ListedIn(db, c));
    hide SearchRows, HasStops, VietnamLocalDate, VietnamLocalTime;
  }

  lemma SearchFinds(db: Catalog, c: Criteria)
    ensures multiset(SearchRows(db, c)) == multiset(Filter(db.trips, ListedIn(db, c)))
    ensures Search(db, c) != [] <==> exists t :: t in db.trips && Listed(db, c, t)
  {
    var rows := Filter(db.trips, ListedIn(db, c));
    SortByRows(rows, TripId);
    SortByRows(SortBy(rows, TripId), Departure);
    SortByRows(SortBy(SortBy(rows, TripId), Departure), SortKey(c.sort));
    assert |multiset(SearchRows(db, c))| == |multiset(rows)|;
    if rows != [] {
      FilterMember(db.trips, rows[0], ListedIn(db, c));
    }
    forall t | t in db.trips && Listed(db, c, t) ensures rows != [] {
      FilterMember(db.trips, t, ListedIn(db, c));
    }
  }

  predicate CandidateDate(db: Catalog, c: Criteria, d: LocalDate) {
    exists t :: t in db.trips && Matches(db, c, t) && VietnamLocalDate(t.departureAt) == d
  }

  lemma CandidateDatesAre(db: Catalog, c: Criteria, d: LocalDate)
    ensures d in CandidateDates(db, c) <==> d != c.travelDate && CandidateDate(db, c, d)
  {
    var rows := Filter(db.trips, CandidateIn(db, c));
    if d in CandidateDates(db, c) {
      var t :| t in rows && VietnamLocalDate(t.departureAt) == d;
      FilterMember(db.trips, t, CandidateIn(db, c));
    }
    if d != c.travelDate && CandidateDate(db, c, d) {
      var t :| t in db.trips && Matches(db, c, t) && VietnamLocalDate(t.departureAt) == d;
      FilterMember(db.trips, t, CandidateIn(db, c));
      assert t in rows;
    }
  }

  predicate Closer(requested: LocalDate, a: LocalDate, b: LocalDate) {
    var x := if a < requested then requested - a else a - requested;
    var y := if b < requested then requested - b else b - requested;
    x < y || (x == y && a < b)
  }

  lemma ClosenessOrders(requested: LocalDate, a: LocalDate, b: LocalDate)
    requires a != requested && b != requested && a != b
    ensures Closeness(requested)(a) <= Closeness(requested)(b) <==> Closer(requested, a, b)
    ensures Closeness(requested)(a) != Closeness(requested)(b)
  {
  }

  lemma SortedDates(db: Catalog, c: Criteria) returns (ordered: seq<LocalDate>)
    ensures ordered == SortBy(CandidateDates(db, c), Closeness(c.travelDate))
    ensures forall d :: d in ordered <==> d != c.travelDate && CandidateDate(db, c, d)
    ensures forall i, j :: 0 <= i < j < |ordered| ==> Closer(c.travelDate, ordered[i], ordered[j])
  {
    var dates := CandidateDates(db, c);
    ordered := SortBy(dates, Closeness(c.travelDate));
    SortByRows(dates, Closeness(c.travelDate));
    SortBySorted(dates, Closeness(c.travelDate));
    forall d ensures d in ordered <==> d != c.travelDate && CandidateDate(db, c, d) {
      assert d in ordered <==> d in multiset(ordered);
      assert d in dates <==> d in multiset(dates);
      CandidateDatesAre(db, c, d);
    }
    DistinctReordered(dates, ordered);
    hide CandidateDate, CandidateDates;
    forall i, j | 0 <= i < j < |ordered| ensures Closer(c.travelDate, ordered[i], ordered[j]) {
      assert ordered[i] in ordered && ordered[j] in ordered;
      ClosenessOrders(c.travelDate, ordered[i], ordered[j]);
    }
  }

  /** Up to three dates, closest first, earlier first among equals; no date left out is closer than one returned. */
  lemma NearestDatesAreClosest(db: Catalog, c: Criteria)
    ensures
      var dates := NearestDates(db, c);
      && |dates| <= 3
      && (forall i :: 0 <= i < |dates| ==> dates[i] != c.travelDate && CandidateDate(db, c, dates[i]))
      && (forall i, j :: 0 <= i < j < |dates| ==> Closer(c.travelDate, dates[i], dates[j]))
      && (forall d :: d != c.travelDate && CandidateDate(db, c, d) && d !in dates ==>
            |dates| == 3 && forall i :: 0 <= i < 3 ==> Closer(c.travelDate, dates[i], d))
  {
    var ordered := SortedDates(db, c);
    var dates := NearestDates(db, c);
    forall d | d != c.travelDate && CandidateDate(db, c, d) && d !in dates
      ensures |dates| == 3 && forall i :: 0 <= i < 3 ==> Closer(c.travelDate, dates[i], d)
    {
      var k :| 0 <= k < |ordered| && ordered[k] == d;
    }
    forall i | 0 <= i < |dates| ensures dates[i] != c.travelDate && CandidateDate(db, c, dates[i]) {
      assert dates[i] == ordered[i] && ordered[i] in ordered;
    }
  }

  /**
   Searching a returned date with the same filters finds a trip exactly when one of that
   date's matching trips runs on a route with a boarding and an alighting stop; if every active
   route has both, it always does.
   */
  lemma NearestDatesAreSearchable(db: Catalog, c: Criteria, d: LocalDate)
    requires d in NearestDates(db, c)
    ensures
      var there := c.(travelDate := d);
      && (Search(db, there) != [] <==>
            exists t :: t in db.trips && Matches(db, c, t) && VietnamLocalDate(t.departureAt) == d
              && HasStops(db.routes[t.routeId]))
      && ((forall r :: r in db.routes && db.routes[r].active ==> HasStops(db.routes[r])) ==> Search(db, there) != [])
  {
    var there := c.(travelDate := d);
    SearchFinds(db, there);
    NearestDatesAreClosest(db, c);
    assert CandidateDate(db, c, d);
    assert forall t :: Matches(db, there, t) == Matches(db, c, t);
    hide SearchRows, NearestDates, HasStops, VietnamLocalTime, VietnamLocalDate;
  }

  // ---------------------------------------------------------------- what is listed, and as what

  predicate CanBoard(s: Stop) { s.kind in {PICKUP, BOTH} }

  predicate CanAlight(s: Stop) { s.kind in {DROPOFF, BOTH} }

  lemma StopsAre(route: Route)
    ensures forall s :: s in Pickups(route) <==> s in route.stops && CanBoard(s)
    ensures forall s :: s in Dropoffs(route) <==> s in route.stops && CanAlight(s)
    ensures forall i, j :: 0 <= i < j < |Pickups(route)| ==> Pickups(route)[i].order <= Pickups(route)[j].order
    ensures forall i, j :: 0 <= i < j < |Dropoffs(route)| ==> Dropoffs(route)[i].order <= Dropoffs(route)[j].order
  {
    var boards, alights := (s: Stop) => Boards(s), (s: Stop) => Alights(s);
    SortedStops(route.stops, boards);
    SortedStops(route.stops, alights);
    assert Pickups(route) == SortBy(Filter(route.stops, (s: Stop) => Boards(s)), StopOrder);
    SameStops(route.stops, (s: Stop) => Boards(s), boards);
    SameStops(route.stops, (s: Stop) => Alights(s), alights);
    hide SortBy;
  }

  lemma {:induction false} SameStops(stops: seq<Stop>, a: Stop -> bool, b: Stop -> bool)
    requires forall s :: a(s) == b(s)
    ensures Filter(stops, a) == Filter(stops, b)
  {
    if stops != [] { SameStops(stops[..|stops| - 1], a, b); }
  }

  lemma SortedStops(stops: seq<Stop>, keep: Stop -> bool)
    ensures var sorted := SortBy(Filter(stops, keep), StopOrder);
      && (forall s :: s in sorted <==> s in stops && keep(s))
      && (forall i, j :: 0 <= i < j < |sorted| ==> sorted[i].order <= sorted[j].order)
  {
    var found := Filter(stops, keep);
    var sorted := SortBy(found, StopOrder);
    SortByRows(found, StopOrder);
    SortBySorted(found, StopOrder);
    hide SortBy, Filter;
    forall s ensures s in sorted <==> s in stops && keep(s) {
      assert s in sorted <==> s in multiset(sorted);
      assert s in found <==> s in multiset(found);
      FilterMember(stops, s, keep);
    }
    forall i, j | 0 <= i < j < |sorted| ensures sorted[i].order <= sorted[j].order {
      assert StopOrder(sorted[i]) <= StopOrder(sorted[j]);
    }
  }

  /**
   A trip is a result if and only if it runs between the two cities on the local day asked for, its
   route, trip, vehicle and operator are active, it is scheduled or boarding, has a fare, a stop to
   board and one to alight, and meets every filter given, bounds included.
   */
  lemma ListedExactly(db: Catalog, c: Criteria, t: Trip)
    ensures t in SearchRows(db, c) <==>
      && t in db.trips && t.routeId in db.routes && t.vehicleId in db.vehicles && t.priceVnd.Some?
      && var route, vehicle, local := db.routes[t.routeId], db.vehicles[t.vehicleId], t.departureAt + 7 * 3600000;
         && route.originCityId == c.originCityId && route.destinationCityId == c.destinationCityId
         && route.active && t.active && vehicle.active && vehicle.operatorActive
         && (t.status == SCHEDULED || t.status == BOARDING)
         && c.travelDate * 86400000 <= local < (c.travelDate + 1) * 86400000
         && (c.timeFrom.Some? ==> c.timeFrom.value <= local - c.travelDate * 86400000)
         && (c.timeTo.Some? ==> local - c.travelDate * 86400000 <= c.timeTo.value)
         && (c.priceMin.Some? ==> c.priceMin.value <= t.priceVnd.value)
         && (c.priceMax.Some? ==> t.priceVnd.value <= c.priceMax.value)
         && (c.operatorCodes.Some? ==> vehicle.operatorCode in c.operatorCodes.value)
         && (c.vehicleTypeCodes.Some? ==> vehicle.typeCode in c.vehicleTypeCodes.value)
         && (c.minimumSeats.Some? ==> c.minimumSeats.value <= vehicle.seatCapacity)
         && (exists s :: s in route.stops && CanBoard(s)) && (exists s :: s in route.stops && CanAlight(s))
  {
    SearchFinds(db, c);
    var rows := SearchRows(db, c);
    assert t in rows <==> t in multiset(rows);
    assert t in Filter(db.trips, ListedIn(db, c)) <==> t in multiset(Filter(db.trips, ListedIn(db, c)));
    FilterMember(db.trips, t, ListedIn(db, c));
    LocalMidnight(t.departureAt, c.travelDate);
    if t.routeId in db.routes { StopsTell(db.routes[t.routeId]); }
    hide SearchRows, HasStops, VietnamLocalDate, VietnamLocalTime, Filter;
  }

  lemma StopsTell(route: Route)
    ensures HasStops(route) <==>
      (exists s :: s in route.stops && CanBoard(s)) && (exists s :: s in route.stops && CanAlight(s))
  {
    StopsAre(route);
    hide Pickups, Dropoffs;
    if HasStops(route) {
      assert Pickups(route)[0] in Pickups(route) && Dropoffs(route)[0] in Dropoffs(route);
    }
  }

  /**
   The i-th summary shows the i-th result: its own times and fare, the first stop of its route where
   one can board and the last where one can alight.
   */
  lemma SummariesTell(db: Catalog, c: Criteria, i: nat)
    requires i < |SearchRows(db, c)|
    ensures |Search(db, c)| == |SearchRows(db, c)|
    ensures
      var t, summary := SearchRows(db, c)[i], Search(db, c)[i];
      && t.routeId in db.routes && t.priceVnd.Some?
      && summary.tripId == t.id && summary.departureAt == t.departureAt && summary.arrivalAt == t.arrivalAt
      && summary.priceVnd == t.priceVnd.value
      && var stops := db.routes[t.routeId].stops;
         && (exists s :: s in stops && CanBoard(s) && s.location == summary.pickup
               && forall other :: other in stops && CanBoard(other) ==> s.order <= other.order)
         && (exists s :: s in stops && CanAlight(s) && s.location == summary.dropoff
               && forall other :: other in stops && CanAlight(other) ==> other.order <= s.order)
  {
    var t := SearchRows(db, c)[i];
    ListedExactly(db, c, t);
    var route := db.routes[t.routeId];
    StopsTell(route);
    EndStops(route);
    hide SearchRows, Pickups, Dropoffs, VietnamLocalDate, VietnamLocalTime;
  }

  lemma EndStops(route: Route)
    requires HasStops(route)
    ensures var first := Pickups(route)[0];
      && first in route.stops && CanBoard(first)
      && forall other :: other in route.stops && CanBoard(other) ==> first.order <= other.order
    ensures var last := Dropoffs(route)[|Dropoffs(route)| - 1];
      && last in route.stops && CanAlight(last)
      && forall other :: other in route.stops && CanAlight(other) ==> other.order <= last.order
  {
    StopsAre(route);
    hide Pickups, Dropoffs, CanBoard, CanAlight;
    var boards, alights := Pickups(route), Dropoffs(route);
    assert boards[0] in boards && alights[|alights| - 1] in alights;
    forall other | other in route.stops && CanBoard(other) ensures boards[0].order <= other.order {
      var k :| 0 <= k < |boards| && boards[k] == other;
    }
    forall other | other in route.stops && CanAlight(other) ensures other.order <= alights[|alights| - 1].order {
      var k :| 0 <= k < |alights| && alights[k] == other;
    }
  }
}
