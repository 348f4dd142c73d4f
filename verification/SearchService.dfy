/** The cache client and `searchTrips` as the service runs them, and the commands that must invalidate. */
module SearchService {
  import opened Prelude
  import opened TripSearch
  import opened SearchCache

  datatype CacheRead = Hit(value: Value) | Miss(generation: nat) | Unavailable

  class TripSearchCache {
    var generation: nat
    var entries: map<(nat, Criteria), Value>

    constructor ()
      ensures generation == 0 && entries == map[]
    {
      generation, entries := 0, map[];
    }

    /** Everything a search can still hit is what the database answers, and nothing is stamped ahead. */
    ghost predicate Coherent(db: Catalog)
      reads this
    {
      forall key :: key in entries && key.0 >= generation ==> key.0 == generation && entries[key] == Plain(db, key.1)
    }

    /** `up` says whether Redis answers, with an entry that parses. */
    method Get(c: Criteria, up: bool) returns (read: CacheRead)
      ensures read == if !up then Unavailable
                      else if (generation, c) in entries then Hit(entries[(generation, c)])
                      else Miss(generation)
    {
      if !up { return Unavailable; }
      var stamp := generation;
      if (stamp, c) in entries { return Hit(entries[(stamp, c)]); }
      return Miss(stamp);
    }

    method Set(c: Criteria, value: Value, stamp: nat, up: bool)
      modifies this
      ensures generation == old(generation)
      ensures entries == if up then old(entries)[(stamp, c) := value] else old(entries)
    {
      if up { entries := entries[(stamp, c) := value]; }
    }

    /** After a successful `invalidate` the cache agrees with every database, whatever has changed. */
    method Invalidate(before: Catalog)
      requires Coherent(before)
      modifies this
      ensures generation == old(generation) + 1 && entries == old(entries)
      ensures forall db :: Coherent(db)
    {
      generation := generation + 1;
    }

    /** Undisturbed, `searchTrips` answers what the plain queries give, and leaves the cache coherent. */
    method SearchTrips(db: Catalog, c: Criteria, readUp: bool, writeUp: bool) returns (value: Value)
      requires Coherent(db)
      modifies this
      ensures value == Plain(db, c)
      ensures Coherent(db) && generation == old(generation)
    {
      var cached := Get(c, readUp);
      if cached.Hit? { return cached.value; }
      var trips := Search(db, c);
      var nearest := [];
      if trips == [] { nearest := NearestDates(db, c); }
      value := Value(trips, nearest);
      if cached.Miss? { Set(c, value, cached.generation, writeUp); }
    }
  }

  // ---------------------------------------------------------------- trip lifecycle commands

  datatype AuditRow = AuditRow(tripId: Uuid, from: TripStatus, to: TripStatus)

  datatype Lifecycle = Lifecycle(status: map<Uuid, TripStatus>, audit: map<(Uuid, string), AuditRow>)

  datatype Command = Command(actorId: Uuid, key: string, tripId: Uuid, target: TripStatus)

  datatype TransitionError = KeyConflict | TripNotFound | NotAllowed

  /** `changed` decides whether the command goes on to invalidate the search cache. */
  datatype Transition = Transition(previous: TripStatus, changed: bool)

  predicate IsAllowed(from: TripStatus, to: TripStatus) {
    (from == SCHEDULED && to == DEPARTED) || (from == DEPARTED && to == COMPLETED)
  }

  function TransitionStatus(s: Lifecycle, c: Command): (Lifecycle, Result<Transition, TransitionError>) {
    var owner := (c.actorId, c.key);
    if owner in s.audit then
      var prior := s.audit[owner];
      if prior.tripId != c.tripId || prior.to != c.target then (s, Err(KeyConflict))
      else (s, Ok(Transition(prior.from, true)))
    else if c.tripId !in s.status then (s, Err(TripNotFound))
    else
      var from := s.status[c.tripId];
      if from == c.target then
        (s.(audit := s.audit[owner := AuditRow(c.tripId, from, from)]), Ok(Transition(from, false)))
      else if !IsAllowed(from, c.target) then (s, Err(NotAllowed))
      else
        (Lifecycle(s.status[c.tripId := c.target], s.audit[owner := AuditRow(c.tripId, from, c.target)]),
         Ok(Transition(from, true)))
  }

  function RunCommands(s: Lifecycle, commands: seq<Command>): Lifecycle {
    if commands == [] then s
    else TransitionStatus(RunCommands(s, commands[..|commands| - 1]), commands[|commands| - 1]).0
  }

  /** The two moves an operator may ask for. */
  predicate Moves(from: TripStatus, to: TripStatus) {
    match from
    case SCHEDULED => to == DEPARTED
    case DEPARTED => to == COMPLETED
    case _ => false
  }

  /**
   Every answer: a key on record repeats its own command and refuses any other; a new key moves a
   scheduled trip to departed or a departed one to completed, records a trip that is already there
   as unchanged, and refuses everything else without writing.
   */
  lemma TransitionAnswers(s: Lifecycle, c: Command)
    ensures
      var owner, (after, out) := (c.actorId, c.key), TransitionStatus(s, c);
      if owner in s.audit then
        && after == s
        && out == (if s.audit[owner].tripId == c.tripId && s.audit[owner].to == c.target
                   then Ok(Transition(s.audit[owner].from, true)) else Err(KeyConflict))
      else if c.tripId !in s.status then after == s && out == Err(TripNotFound)
      else
        var from := s.status[c.tripId];
        && (out.Ok? <==> from == c.target || Moves(from, c.target))
        && (out.Ok? ==>
              && out.value == Transition(from, from != c.target)
              && after.status == s.status[c.tripId := c.target]
              && after.audit == s.audit[owner := AuditRow(c.tripId, from, c.target)])
        && (out.Err? ==> out == Err(NotAllowed) && after == s)
  {
    if c.tripId in s.status { assert s.status[c.tripId := s.status[c.tripId]] == s.status; }
  }

  /** Steps along the two moves. */
  predicate Leads(from: TripStatus, to: TripStatus) {
    from == to || Moves(from, to) || (from == SCHEDULED && to == COMPLETED)
  }

  /** Whatever commands run, a trip only ever moves forward, one recorded step at a time. */
  lemma {:induction false} TripsOnlyMoveForward(s: Lifecycle, commands: seq<Command>, tripId: Uuid)
    requires tripId in s.status && s.audit == map[]
    ensures
      var after := RunCommands(s, commands);
      && tripId in after.status && Leads(s.status[tripId], after.status[tripId])
      && (forall k :: k in after.audit && after.audit[k].tripId == tripId ==>
            && Leads(s.status[tripId], after.audit[k].from) && Leads(after.audit[k].to, after.status[tripId])
            && (after.audit[k].from == after.audit[k].to || Moves(after.audit[k].from, after.audit[k].to)))
  {
    if commands != [] {
      TripsOnlyMoveForward(s, commands[..|commands| - 1], tripId);
      TransitionAnswers(RunCommands(s, commands[..|commands| - 1]), commands[|commands| - 1]);
      hide TransitionStatus;
    }
  }

  predicate Invalidates(s: Lifecycle, c: Command) {
    TransitionStatus(s, c).1.Ok? && TransitionStatus(s, c).1.value.changed
  }

  predicate Recorded(s: Lifecycle, c: Command) {
    var owner := (c.actorId, c.key);
    owner in s.audit && s.audit[owner].tripId == c.tripId && s.audit[owner].to == c.target
  }

  function Progress(s: TripStatus): nat {
    match s case SCHEDULED => 0 case DEPARTED => 1 case COMPLETED => 2 case _ => 3
  }

  predicate Reached(s: Lifecycle, tripId: Uuid, target: TripStatus) {
    tripId in s.status && Progress(s.status[tripId]) >= Progress(target)
  }

  lemma {:induction false} NothingIsUndone(s: Lifecycle, commands: seq<Command>, tripId: Uuid, target: TripStatus)
    requires Reached(s, tripId, target)
    ensures Reached(RunCommands(s, commands), tripId, target)
    ensures forall k :: k in s.audit ==>
      k in RunCommands(s, commands).audit && RunCommands(s, commands).audit[k] == s.audit[k]
  {
    if commands != [] { NothingIsUndone(s, commands[..|commands| - 1], tripId, target); }
  }

  /**
   A transition commits and only then invalidates. If that invalidation failed, whatever commands
   run later, a retry invalidates if and only if its own key is already on record for this very
   transition: the same key always does, a new key does not until it is itself retried.
   */
  lemma RetryInvalidatesIffRecorded(s: Lifecycle, first: Command, later: seq<Command>, retry: Command)
    requires first.target in {DEPARTED, COMPLETED} && Invalidates(s, first) && !Recorded(s, first)
    requires retry.tripId == first.tripId && retry.target == first.target
    ensures
      var s2 := RunCommands(TransitionStatus(s, first).0, later);
      && (Invalidates(s2, retry) <==> Recorded(s2, retry))
      && (retry == first ==> Invalidates(s2, retry))
      && (TransitionStatus(s2, retry).1.Ok? ==> Invalidates(TransitionStatus(s2, retry).0, retry))
  {
    var s1 := TransitionStatus(s, first).0;
    NothingIsUndone(s1, later, first.tripId, first.target);
    hide RunCommands;
  }
}
