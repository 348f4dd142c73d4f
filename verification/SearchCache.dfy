/**
 The generation-stamped search cache. Every database query, every Redis command and every
 commit is one step, interleaved in any way; Redis may fail or drop any entry at any time, but
 keeps its generation counter.
 */
module SearchCache {
  import opened Prelude
  import opened TripSearch

  type SearchId = nat

  type WriterId = nat

  datatype Value = Value(trips: seq<Summary>, nearest: seq<LocalDate>)

  datatype Phase =
    | Begun
    | GenerationRead(generation: nat)
    | Querying(stamp: Option<nat>)          // None: the cache is bypassed
    | TripsRead(stamp: Option<nat>, trips: seq<Summary>)
    | Storing(generation: nat, value: Value)
    | Answered(value: Value)

  /** `since`: the database version that the last invalidation before the search had seen. */
  datatype Searcher = Searcher(criteria: Criteria, since: nat, phase: Phase)

  /** An administrator's command: its commit made a version; `invalidate` has returned or not. */
  datatype Writer = Writer(version: nat, returned: bool)

  datatype World = World(
    versions: seq<Catalog>,                    // the database after each commit
    generation: nat,
    seen: seq<nat>,                            // for every generation, the version its INCR met
    entries: map<(nat, Criteria), Value>,
    searchers: map<SearchId, Searcher>,
    writers: map<WriterId, Writer>)

  datatype Step =
    | Commit(w: WriterId, catalog: Catalog)
    | Invalidate(w: WriterId, answered: bool)  // INCR may run although the reply is lost
    | StartSearch(p: SearchId, criteria: Criteria)
    | ReadGeneration(p: SearchId)
    | ReadEntry(p: SearchId)
    | Bypass(p: SearchId)                      // Redis unavailable, or the entry does not parse
    | QueryTrips(p: SearchId)
    | QueryNearest(p: SearchId)
    | Store(p: SearchId, written: bool)
    | DropEntry(key: (nat, Criteria))          // expiry or eviction

  function Start(catalog: Catalog): World { World([catalog], 0, [0], map[], map[], map[]) }

  function Latest(w: World): nat
    requires w.versions != []
  {
    |w.versions| - 1
  }

  function Goto(w: World, p: SearchId, phase: Phase): World
    requires p in w.searchers
  {
    w.(searchers := w.searchers[p := w.searchers[p].(phase := phase)])
  }

  function Finish(w: World, p: SearchId, stamp: Option<nat>, value: Value): World
    requires p in w.searchers
  {
    Goto(w, p, match stamp case Some(g) => Storing(g, value) case None => Answered(value))
  }

  function DoSearch(w: World, step: Step, p: SearchId): World
    requires p in w.searchers && w.versions != []
  {
    var c := w.searchers[p].criteria;
    match (step, w.searchers[p].phase)
    case (ReadGeneration(_), Begun) => Goto(w, p, GenerationRead(w.generation))
    case (ReadEntry(_), GenerationRead(g)) =>
      if (g, c) in w.entries then Goto(w, p, Answered(w.entries[(g, c)])) else Goto(w, p, Querying(Some(g)))
    case (Bypass(_), Begun) => Goto(w, p, Querying(None))
    case (Bypass(_), GenerationRead(_)) => Goto(w, p, Querying(None))
    case (QueryTrips(_), Querying(stamp)) =>
      var trips := Search(w.versions[Latest(w)], c);
      if trips == [] then Goto(w, p, TripsRead(stamp, trips)) else Finish(w, p, stamp, Value(trips, []))
    case (QueryNearest(_), TripsRead(stamp, trips)) =>
      Finish(w, p, stamp, Value(trips, NearestDates(w.versions[Latest(w)], c)))
    case (Store(_, written), Storing(g, value)) =>
      var w2 := Goto(w, p, Answered(value));
      if written then w2.(entries := w.entries[(g, c) := value]) else w2
    case _ => w
  }

  function Do(w: World, step: Step): World
    requires w.versions != []
  {
    match step
    case Commit(writer, catalog) =>
      if writer in w.writers then w
      else w.(versions := w.versions + [catalog], writers := w.writers[writer := Writer(|w.versions|, false)])
    case Invalidate(writer, answered) =>
      if writer !in w.writers then w
      else
        w.(generation := w.generation + 1, seen := w.seen + [Latest(w)],
           writers := w.writers[writer := w.writers[writer].(returned := w.writers[writer].returned || answered)])
    case StartSearch(p, criteria) =>
      if p in w.searchers || w.generation >= |w.seen| then w
      else w.(searchers := w.searchers[p := Searcher(criteria, w.seen[w.generation], Begun)])
    case DropEntry(key) => w.(entries := w.entries - {key})
    case _ => if step.p in w.searchers then DoSearch(w, step, step.p) else w
  }

  function Run(w: World, steps: seq<Step>): (after: World)
    requires w.versions != []
    ensures after.versions != []
  {
    if steps == [] then w else Do(Run(w, steps[..|steps| - 1]), steps[|steps| - 1])
  }

  /** The search without any cache. */
  function Plain(db: Catalog, c: Criteria): Value {
    var trips := Search(db, c);
    Value(trips, if trips == [] then NearestDates(db, c) else [])
  }

  // ---------------------------------------------------------------- invariant

  predicate TripsFrom(versions: seq<Catalog>, low: nat, high: nat, c: Criteria, trips: seq<Summary>) {
    exists i :: low <= i < high <= |versions| && trips == Search(versions[i], c)
  }

  predicate NearestFrom(versions: seq<Catalog>, low: nat, c: Criteria, value: Value) {
    if value.trips == [] then exists j :: low <= j < |versions| && value.nearest == NearestDates(versions[j], c)
    else value.nearest == []
  }

  /** Trips and nearest dates each come from some version that is at least `low`. */
  predicate NoOlderThan(versions: seq<Catalog>, low: nat, c: Criteria, value: Value) {
    TripsFrom(versions, low, |versions|, c, value.trips) && NearestFrom(versions, low, c, value)
  }

  predicate StampOk(w: World, stamp: Option<nat>, since: nat) {
    stamp.Some? ==> stamp.value < |w.seen| && since <= w.seen[stamp.value]
  }

  /** The oldest version a search with this stamp may rest on. */
  function Floor(w: World, stamp: Option<nat>, since: nat): nat
    requires StampOk(w, stamp, since)
  {
    if stamp.Some? then w.seen[stamp.value] else since
  }

  predicate SearcherOk(w: World, p: SearchId) {
    p in w.searchers ==>
      var s := w.searchers[p];
      && (|w.seen| > 0 ==> s.since <= w.seen[|w.seen| - 1])
      && match s.phase
         case Begun => true
         case GenerationRead(g) => StampOk(w, Some(g), s.since)
         case Querying(stamp) => StampOk(w, stamp, s.since)
         case TripsRead(stamp, trips) =>
           StampOk(w, stamp, s.since) && trips == []
           && TripsFrom(w.versions, Floor(w, stamp, s.since), |w.versions|, s.criteria, trips)
         case Storing(g, value) =>
           StampOk(w, Some(g), s.since) && NoOlderThan(w.versions, w.seen[g], s.criteria, value)
         case Answered(value) => NoOlderThan(w.versions, s.since, s.criteria, value)
  }

  predicate EntryOk(w: World, key: (nat, Criteria)) {
    key in w.entries ==> key.0 < |w.seen| && NoOlderThan(w.versions, w.seen[key.0], key.1, w.entries[key])
  }

  predicate SeenOk(w: World) {
    && w.versions != [] && |w.seen| == w.generation + 1
    && (forall i, j :: 0 <= i < j < |w.seen| ==> w.seen[i] <= w.seen[j])
    && (forall i :: 0 <= i < |w.seen| ==> w.seen[i] < |w.versions|)
    && (forall x :: x in w.writers ==> w.writers[x].version < |w.versions|)
    && (forall x :: x in w.writers && w.writers[x].returned ==> w.writers[x].version <= w.seen[w.generation])
  }

  ghost predicate Inv(w: World) {
    && SeenOk(w)
    && (forall p {:trigger SearcherOk(w, p)} :: SearcherOk(w, p))
    && (forall k {:trigger EntryOk(w, k)} :: EntryOk(w, k))
  }

  // ---------------------------------------------------------------- every step keeps it

  /** The log of versions and the log of generations only grow. */
  predicate Extends(w: World, w2: World) {
    && |w.versions| <= |w2.versions| && w2.versions[..|w.versions|] == w.versions
    && |w.seen| <= |w2.seen| && w2.seen[..|w.seen|] == w.seen
  }

  lemma StillNoOlder(versions: seq<Catalog>, more: seq<Catalog>, low: nat, c: Criteria, value: Value)
    requires |versions| <= |more| && more[..|versions|] == versions && NoOlderThan(versions, low, c, value)
    ensures NoOlderThan(more, low, c, value)
  {
    hide Search, NearestDates;
    var i :| low <= i < |versions| && value.trips == Search(versions[i], c);
    assert more[i] == versions[i];
    if value.trips == [] {
      var j :| low <= j < |versions| && value.nearest == NearestDates(versions[j], c);
      assert more[j] == versions[j];
    }
  }

  lemma Lowered(versions: seq<Catalog>, low: nat, lower: nat, c: Criteria, value: Value)
    requires NoOlderThan(versions, low, c, value) && lower <= low
    ensures NoOlderThan(versions, lower, c, value)
  {
  }

  lemma StillTrips(versions: seq<Catalog>, more: seq<Catalog>, low: nat, c: Criteria, trips: seq<Summary>)
    requires |versions| <= |more| && more[..|versions|] == versions && TripsFrom(versions, low, |versions|, c, trips)
    ensures TripsFrom(more, low, |more|, c, trips)
  {
    hide Search;
    var i :| low <= i < |versions| && trips == Search(versions[i], c);
    assert more[i] == versions[i];
  }

  lemma SearcherLater(w: World, w2: World, p: SearchId)
    requires SeenOk(w) && SeenOk(w2) && Extends(w, w2)
    requires p in w.searchers && p in w2.searchers && w2.searchers[p] == w.searchers[p] && SearcherOk(w, p)
    ensures SearcherOk(w2, p)
  {
    hide NoOlderThan, TripsFrom;
    var s := w.searchers[p];
    assert w2.seen[|w.seen| - 1] == w.seen[|w.seen| - 1];
    match s.phase
    case TripsRead(stamp, trips) => StillTrips(w.versions, w2.versions, Floor(w, stamp, s.since), s.criteria, trips);
    case Storing(g, value) => StillNoOlder(w.versions, w2.versions, w.seen[g], s.criteria, value);
    case Answered(value) => StillNoOlder(w.versions, w2.versions, s.since, s.criteria, value);
    case _ =>
  }

  lemma EntryLater(w: World, w2: World, key: (nat, Criteria))
    requires Extends(w, w2) && EntryOk(w, key) && key in w.entries && key in w2.entries
      && w2.entries[key] == w.entries[key]
    ensures EntryOk(w2, key)
  {
    hide NoOlderThan;
    StillNoOlder(w.versions, w2.versions, w.seen[key.0], key.1, w.entries[key]);
  }

  lemma NoSearcher(w: World, p: SearchId)
    requires p !in w.searchers
    ensures SearcherOk(w, p)
  {
  }

  lemma NoEntry(w: World, key: (nat, Criteria))
    requires key !in w.entries
    ensures EntryOk(w, key)
  {
  }

  /** A query answered now comes from the latest version, which is at least every floor. */
  lemma NowIsNoOlder(w: World, low: nat, c: Criteria)
    requires w.versions != [] && low < |w.versions|
    ensures TripsFrom(w.versions, low, |w.versions|, c, Search(w.versions[Latest(w)], c))
  {
  }

  lemma FinishOk(w: World, p: SearchId, stamp: Option<nat>, value: Value)
    requires p in w.searchers && StampOk(w, stamp, w.searchers[p].since) && SearcherOk(w, p)
    requires NoOlderThan(w.versions, Floor(w, stamp, w.searchers[p].since), w.searchers[p].criteria, value)
    ensures SearcherOk(Finish(w, p, stamp, value), p)
  {
    hide NoOlderThan, TripsFrom;
  }

  lemma TripsStepOk(w: World, p: SearchId)
    requires SeenOk(w) && p in w.searchers && SearcherOk(w, p) && w.searchers[p].phase.Querying?
    ensures SearcherOk(DoSearch(w, QueryTrips(p), p), p)
  {
    hide Search, NearestDates;
    var s, stamp := w.searchers[p], w.searchers[p].phase.stamp;
    var trips := Search(w.versions[Latest(w)], s.criteria);
    NowIsNoOlder(w, Floor(w, stamp, s.since), s.criteria);
    if trips != [] {
      FinishOk(w, p, stamp, Value(trips, []));
    }
    hide SeenOk, Finish, NearestFrom;
  }

  lemma NearestStepOk(w: World, p: SearchId)
    requires SeenOk(w) && p in w.searchers && SearcherOk(w, p) && w.searchers[p].phase.TripsRead?
    ensures SearcherOk(DoSearch(w, QueryNearest(p), p), p)
  {
    hide Search, NearestDates;
    var s, stamp := w.searchers[p], w.searchers[p].phase.stamp;
    var value := Value(s.phase.trips, NearestDates(w.versions[Latest(w)], s.criteria));
    assert NearestFrom(w.versions, Floor(w, stamp, s.since), s.criteria, value);
    FinishOk(w, p, stamp, value);
    hide SearcherOk, Finish;
  }

  lemma OtherStepOk(w: World, step: Step, p: SearchId)
    requires Inv(w) && p in w.searchers && !step.QueryTrips? && !step.QueryNearest?
    ensures SearcherOk(DoSearch(w, step, p), p)
  {
    hide NoOlderThan, TripsFrom, Search, NearestDates;
    var s := w.searchers[p];
    assert SearcherOk(w, p);
    match (step, s.phase)
    case (ReadEntry(_), GenerationRead(g)) =>
      assert EntryOk(w, (g, s.criteria));
      if (g, s.criteria) in w.entries {
        Lowered(w.versions, w.seen[g], s.since, s.criteria, w.entries[(g, s.criteria)]);
      }
    case (Store(_, written), Storing(g, value)) =>
      Lowered(w.versions, w.seen[g], s.since, s.criteria, value);
    case _ =>
  }

  lemma SearchStepOk(w: World, step: Step, p: SearchId)
    requires Inv(w) && p in w.searchers
    ensures SearcherOk(DoSearch(w, step, p), p)
  {
    assert SearcherOk(w, p);
    hide SearcherOk, Inv, Search, NearestDates;
    if step.QueryTrips? && w.searchers[p].phase.Querying? {
      TripsStepOk(w, p);
      SameSearcher(w, step, p);
    } else if step.QueryNearest? && w.searchers[p].phase.TripsRead? {
      NearestStepOk(w, p);
      SameSearcher(w, step, p);
    } else if !step.QueryTrips? && !step.QueryNearest? {
      OtherStepOk(w, step, p);
    }
  }

  lemma SameSearcher(w: World, step: Step, p: SearchId)
    requires p in w.searchers && w.versions != []
    ensures step.QueryTrips? ==> DoSearch(w, step, p) == DoSearch(w, QueryTrips(p), p)
    ensures step.QueryNearest? ==> DoSearch(w, step, p) == DoSearch(w, QueryNearest(p), p)
  {
    hide Search, NearestDates;
  }

  /** Only `Store` writes an entry, under the generation its search read before querying. */
  lemma SearchEntries(w: World, step: Step, p: SearchId, key: (nat, Criteria))
    requires Inv(w) && p in w.searchers
    ensures EntryOk(DoSearch(w, step, p), key)
  {
    hide NoOlderThan, Search, NearestDates;
    assert SearcherOk(w, p) && EntryOk(w, key);
  }

  lemma SearchKeeps(w: World, step: Step, p: SearchId)
    requires Inv(w) && p in w.searchers
    ensures Inv(DoSearch(w, step, p))
  {
    SearchStepOk(w, step, p);
    forall k ensures EntryOk(DoSearch(w, step, p), k) { SearchEntries(w, step, p, k); }
    var w2 := DoSearch(w, step, p);
    SearchFrame(w, step, p);
    hide DoSearch, EntryOk, SearcherOk;
    forall q ensures SearcherOk(w2, q) {
      assert SearcherOk(w, q);
      if q != p {
        if q in w2.searchers { SearcherLater(w, w2, q); } else { NoSearcher(w2, q); }
      }
    }
  }

  lemma SearchFrame(w: World, step: Step, p: SearchId)
    requires p in w.searchers && w.versions != [] && SeenOk(w)
    ensures var w2 := DoSearch(w, step, p);
      && w2.versions == w.versions && w2.seen == w.seen && w2.generation == w.generation && w2.writers == w.writers
      && SeenOk(w2) && Extends(w, w2)
      && forall q :: q in w2.searchers && q != p ==> q in w.searchers && w2.searchers[q] == w.searchers[q]
  {
    hide Search, NearestDates;
  }

  lemma WriterKeeps(w: World, step: Step)
    requires Inv(w) && (step.Commit? || step.Invalidate?)
    ensures Inv(Do(w, step))
  {
    var w2 := Do(w, step);
    assert SeenOk(w2) && Extends(w, w2);
    hide SearcherOk, EntryOk, SeenOk, Extends;
    forall p ensures SearcherOk(w2, p) {
      assert SearcherOk(w, p);
      if p in w.searchers { SearcherLater(w, w2, p); } else { NoSearcher(w2, p); }
    }
    forall k ensures EntryOk(w2, k) {
      assert EntryOk(w, k);
      if k in w.entries { EntryLater(w, w2, k); } else { NoEntry(w2, k); }
    }
  }

  lemma StartKeeps(w: World, step: Step)
    requires Inv(w) && (step.StartSearch? || step.DropEntry?)
    ensures Inv(Do(w, step))
  {
    hide NoOlderThan, TripsFrom;
    var w2 := Do(w, step);
    forall p ensures SearcherOk(w2, p) { assert SearcherOk(w, p); }
    forall k ensures EntryOk(w2, k) { assert EntryOk(w, k); }
  }

  lemma DoKeeps(w: World, step: Step)
    requires Inv(w)
    ensures Inv(Do(w, step))
  {
    if step.Commit? || step.Invalidate? {
      WriterKeeps(w, step);
    } else if step.StartSearch? || step.DropEntry? {
      StartKeeps(w, step);
    } else if step.p in w.searchers {
      SearchKeeps(w, step, step.p);
    }
    hide Inv, DoSearch;
  }

  lemma {:induction false} RunKeeps(w: World, steps: seq<Step>)
    requires Inv(w)
    ensures Inv(Run(w, steps))
  {
    if steps != [] {
      RunKeeps(w, steps[..|steps| - 1]);
      DoKeeps(Run(w, steps[..|steps| - 1]), steps[|steps| - 1]);
    }
    hide Inv, Do;
  }

  lemma StartOk(catalog: Catalog)
    ensures Inv(Start(catalog))
  {
    forall p ensures SearcherOk(Start(catalog), p) {}
    forall k ensures EntryOk(Start(catalog), k) {}
  }

  // ---------------------------------------------------------------- theorems

  lemma {:induction false} SinceStays(w: World, steps: seq<Step>, p: SearchId, version: nat)
    requires Inv(w) && p !in w.searchers && version <= w.seen[w.generation]
    ensures var w2 := Run(w, steps);
      Inv(w2) && version <= w2.seen[w2.generation] && (p in w2.searchers ==> version <= w2.searchers[p].since)
  {
    if steps != [] {
      var before := Run(w, steps[..|steps| - 1]);
      SinceStays(w, steps[..|steps| - 1], p, version);
      DoKeeps(before, steps[|steps| - 1]);
      SinceOfStep(before, steps[|steps| - 1], p, version);
    }
    hide Do, Inv;
  }

  lemma SinceOfStep(w: World, step: Step, p: SearchId, version: nat)
    requires Inv(w) && version <= w.seen[w.generation] && (p in w.searchers ==> version <= w.searchers[p].since)
    ensures var w2 := Do(w, step);
      SeenOk(w2) ==>
        version <= w2.seen[w2.generation] && (p in w2.searchers ==> version <= w2.searchers[p].since)
  {
    hide Search, NearestDates, SearcherOk, EntryOk;
  }

  /**
   A search that begins after some `invalidate` returned never answers with data older than the
   commit before it, from cache or not, however searchers and writers interleave. Its trips and
   its nearest dates may come from two such versions.
   */
  lemma {:induction false} NeverOlderThanTheInvalidation(catalog: Catalog, before: seq<Step>, after: seq<Step>,
                                                         writer: WriterId, p: SearchId)
    requires var w := Run(Start(catalog), before);
      && writer in w.writers && w.writers[writer].returned && p !in w.searchers
      && p in Run(w, after).searchers && Run(w, after).searchers[p].phase.Answered?
    ensures
      var w := Run(Start(catalog), before);
      var w2 := Run(w, after);
      NoOlderThan(w2.versions, w.writers[writer].version, w2.searchers[p].criteria, w2.searchers[p].phase.value)
  {
    StartOk(catalog);
    RunKeeps(Start(catalog), before);
    var w := Run(Start(catalog), before);
    var w2, version := Run(w, after), w.writers[writer].version;
    SinceStays(w, after, p, version);
    assert SearcherOk(w2, p);
    hide Run, NoOlderThan;
    Lowered(w2.versions, w2.searchers[p].since, version, w2.searchers[p].criteria, w2.searchers[p].phase.value);
  }

  /**
   If every commit had been invalidated when a search began, and none happened until it
   answered, the answer is exactly what the plain queries give.
   */
  lemma SettledSearchIsPlain(catalog: Catalog, steps: seq<Step>, p: SearchId)
    requires var w := Run(Start(catalog), steps);
      && p in w.searchers && w.searchers[p].phase.Answered? && w.searchers[p].since == Latest(w)
    ensures
      var w := Run(Start(catalog), steps);
      w.searchers[p].phase.value == Plain(w.versions[Latest(w)], w.searchers[p].criteria)
  {
    StartOk(catalog);
    RunKeeps(Start(catalog), steps);
    var w := Run(Start(catalog), steps);
    SearcherAnswered(w, p);
    hide Run, NoOlderThan, Plain, Inv;
    OnlyTheLatest(w.versions, w.searchers[p].criteria, w.searchers[p].phase.value);
  }

  lemma SearcherAnswered(w: World, p: SearchId)
    requires Inv(w) && p in w.searchers && w.searchers[p].phase.Answered?
    ensures NoOlderThan(w.versions, w.searchers[p].since, w.searchers[p].criteria, w.searchers[p].phase.value)
  {
    assert SearcherOk(w, p);
    hide NoOlderThan;
  }

  lemma OnlyTheLatest(versions: seq<Catalog>, c: Criteria, value: Value)
    requires versions != [] && NoOlderThan(versions, |versions| - 1, c, value)
    ensures value == Plain(versions[|versions| - 1], c)
  {
    hide Search, NearestDates;
  }

  // ---------------------------------------------------------------- a commit becomes visible

  lemma {:induction false} OneMoreStep(w: World, steps: seq<Step>, step: Step)
    requires w.versions != []
    ensures Run(w, steps + [step]) == Do(Run(w, steps), step)
  {
    assert (steps + [step])[..|steps|] == steps;
  }

  /** An administrator's command that commits and then invalidates. */
  function Publishing(x: WriterId, catalog: Catalog): seq<Step> { [Commit(x, catalog)] + [Invalidate(x, true)] }

  /** A search that finds nothing cached and stores what it found. */
  function Searching(p: SearchId, c: Criteria): seq<Step> {
    [StartSearch(p, c)] + [ReadGeneration(p)] + [ReadEntry(p)] + [QueryTrips(p)] + [QueryNearest(p)] + [Store(p, true)]
  }

  /** One that only looks in the cache. */
  function Looking(p: SearchId, c: Criteria): seq<Step> { [StartSearch(p, c)] + [ReadGeneration(p)] + [ReadEntry(p)] }

  lemma {:induction false} Published(w: World, x: WriterId, catalog: Catalog)
    requires Inv(w) && x !in w.writers
    ensures
      var w2 := Run(w, Publishing(x, catalog));
      && w2.versions == w.versions + [catalog] && w2.generation == w.generation + 1
      && x in w2.writers && w2.writers[x] == Writer(|w.versions|, true)
      && w2.seen == w.seen + [|w.versions|] && w2.entries == w.entries && w2.searchers == w.searchers
  {
    OneMoreStep(w, [], Commit(x, catalog));
    OneMoreStep(w, [Commit(x, catalog)], Invalidate(x, true));
    assert [] + [Commit(x, catalog)] == [Commit(x, catalog)];
    hide SearcherOk, EntryOk;
  }

  lemma DoesStart(w: World, p: SearchId, c: Criteria)
    requires w.versions != [] && p !in w.searchers && w.generation < |w.seen|
    ensures Do(w, StartSearch(p, c)) ==
      w.(searchers := w.searchers[p := Searcher(c, w.seen[w.generation], Begun)])
  {
  }

  lemma DoesReadGeneration(w: World, p: SearchId)
    requires w.versions != [] && p in w.searchers && w.searchers[p].phase == Begun
    ensures Do(w, ReadGeneration(p)) == Goto(w, p, GenerationRead(w.generation))
  {
  }

  lemma DoesReadEntry(w: World, p: SearchId)
    requires w.versions != [] && p in w.searchers && w.searchers[p].phase.GenerationRead?
    ensures
      var key := (w.searchers[p].phase.generation, w.searchers[p].criteria);
      Do(w, ReadEntry(p)) ==
        Goto(w, p, if key in w.entries then Answered(w.entries[key]) else Querying(Some(key.0)))
  {
  }

  lemma DoesQueryTrips(w: World, p: SearchId)
    requires w.versions != [] && p in w.searchers && w.searchers[p].phase.Querying? && w.searchers[p].phase.stamp.Some?
    ensures
      var g, trips := w.searchers[p].phase.stamp.value, Search(w.versions[Latest(w)], w.searchers[p].criteria);
      Do(w, QueryTrips(p)) ==
        Goto(w, p, if trips == [] then TripsRead(Some(g), trips) else Storing(g, Value(trips, [])))
  {
    hide Search;
  }

  lemma DoesQueryNearest(w: World, p: SearchId)
    requires w.versions != [] && p in w.searchers
    ensures
      var phase := w.searchers[p].phase;
      && (phase.TripsRead? && phase.stamp.Some? ==>
            Do(w, QueryNearest(p)) == Goto(w, p, Storing(phase.stamp.value, Value(
              phase.trips, NearestDates(w.versions[Latest(w)], w.searchers[p].criteria)))))
      && (phase.Storing? ==> Do(w, QueryNearest(p)) == w)
  {
    hide NearestDates;
  }

  lemma DoesStore(w: World, p: SearchId)
    requires w.versions != [] && p in w.searchers && w.searchers[p].phase.Storing?
    ensures
      var s := w.searchers[p];
      Do(w, Store(p, true)) ==
        Goto(w, p, Answered(s.phase.value)).(entries := w.entries[(s.phase.generation, s.criteria) := s.phase.value])
  {
  }

  /** A new searcher at the current generation. */
  lemma {:induction false} Looks(w: World, p: SearchId, c: Criteria)
    requires w.versions != [] && p !in w.searchers && |w.seen| == w.generation + 1
    ensures
      var w2 := Run(w, Looking(p, c));
      && w2.versions == w.versions && w2.entries == w.entries && p in w2.searchers
      && w2.searchers[p] == Searcher(c, w.seen[w.generation],
           if (w.generation, c) in w.entries then Answered(w.entries[(w.generation, c)])
           else Querying(Some(w.generation)))
      && w2.generation == w.generation && w2.seen == w.seen
  {
    ThreeSteps(w, StartSearch(p, c), ReadGeneration(p), ReadEntry(p));
    hide Run, Do, DoSearch;
    DoesStart(w, p, c);
    var w1 := Do(w, StartSearch(p, c));
    DoesReadGeneration(w1, p);
    DoesReadEntry(Do(w1, ReadGeneration(p)), p);
  }

  lemma {:induction false} ThreeSteps(w: World, a: Step, b: Step, c: Step)
    requires w.versions != []
    ensures Run(w, [a] + [b] + [c]) == Do(Run(w, [a] + [b]), c)
    ensures Run(w, [a]) == Do(w, a) && Run(w, [a] + [b]) == Do(Run(w, [a]), b)
  {
    hide Do;
    OneMoreStep(w, [], a);
    assert [] + [a] == [a];
    OneMoreStep(w, [a], b);
    OneMoreStep(w, [a] + [b], c);
  }

  lemma {:induction false} Stores(w: World, p: SearchId, steps: seq<Step>)
    requires w.versions != [] && var w1 := Run(w, steps);
      p in w1.searchers && w1.searchers[p].phase == Querying(Some(w1.generation))
    ensures
      var w1 := Run(w, steps);
      var w2 := Run(w, steps + [QueryTrips(p)] + [QueryNearest(p)] + [Store(p, true)]);
      var c := w1.searchers[p].criteria;
      var value := Plain(w1.versions[Latest(w1)], c);
      && p in w2.searchers && w2.searchers[p].phase == Answered(value)
      && w2.entries == w1.entries[(w1.generation, c) := value]
      && w2.versions == w1.versions && w2.generation == w1.generation && w2.seen == w1.seen
  {
    OneMoreStep(w, steps, QueryTrips(p));
    OneMoreStep(w, steps + [QueryTrips(p)], QueryNearest(p));
    OneMoreStep(w, steps + [QueryTrips(p)] + [QueryNearest(p)], Store(p, true));
    hide Plain, Run, Do;
    StoresNow(Run(w, steps), p);
  }

  /** Whether it finds trips or has to look for the nearest dates. */
  lemma StoresNow(w: World, p: SearchId)
    requires w.versions != [] && p in w.searchers && w.searchers[p].phase == Querying(Some(w.generation))
    ensures Do(w, QueryTrips(p)).versions != [] && Do(Do(w, QueryTrips(p)), QueryNearest(p)).versions != []
    ensures
      var w2, c := Do(Do(Do(w, QueryTrips(p)), QueryNearest(p)), Store(p, true)), w.searchers[p].criteria;
      var value := Plain(w.versions[Latest(w)], c);
      && p in w2.searchers && w2.searchers[p].phase == Answered(value)
      && w2.entries == w.entries[(w.generation, c) := value]
      && w2.versions == w.versions && w2.generation == w.generation && w2.seen == w.seen
  {
    hide Search, NearestDates, Do, DoSearch;
    DoesQueryTrips(w, p);
    var w1 := Do(w, QueryTrips(p));
    DoesQueryNearest(w1, p);
    DoesStore(Do(w1, QueryNearest(p)), p);
  }

  /**
   From every reachable state: once a command has committed and its invalidation returned, a search
   answers what the plain queries give on the new data and leaves it in the cache, where the next
   search finds it without a query.
   */
  lemma PublishedDataIsFound(catalog: Catalog, steps: seq<Step>, x: WriterId, next: Catalog, p: SearchId, q: SearchId,
                             c: Criteria)
    requires var w := Run(Start(catalog), steps);
      x !in w.writers && p !in w.searchers && q !in w.searchers && p != q
    ensures
      var w1 := Run(Run(Start(catalog), steps), Publishing(x, next));
      var w2 := Run(w1, Searching(p, c));
      var w3 := Run(w2, Looking(q, c));
      && x in w1.writers && w1.writers[x].returned
      && p in w2.searchers && w2.searchers[p].phase == Answered(Plain(next, c))
      && q in w3.searchers && w3.searchers[q].phase == Answered(Plain(next, c))
  {
    StartOk(catalog);
    RunKeeps(Start(catalog), steps);
    var w := Run(Start(catalog), steps);
    Published(w, x, next);
    NoEntryYet(w, w.generation + 1, c);
    hide Run, Plain, Do, Inv, SeenOk;
    var w1 := Run(w, Publishing(x, next));
    Looks(w1, p, c);
    Stores(w1, p, Looking(p, c));
    assert Searching(p, c) == Looking(p, c) + [QueryTrips(p)] + [QueryNearest(p)] + [Store(p, true)];
    OnlyOne(w1, p, c, q);
    Looks(Run(w1, Searching(p, c)), q, c);
  }

  lemma NoEntryYet(w: World, generation: nat, c: Criteria)
    requires Inv(w) && generation > w.generation
    ensures (generation, c) !in w.entries && |w.seen| == w.generation + 1
  {
    assert EntryOk(w, (generation, c));
    hide NoOlderThan, SearcherOk;
  }

  lemma {:induction false} OnlyOne(w: World, p: SearchId, c: Criteria, q: SearchId)
    requires w.versions != [] && q !in w.searchers && p != q
    ensures q !in Run(w, Searching(p, c)).searchers
  {
    var all := Searching(p, c);
    StillAbsent(w, all, q);
  }

  lemma {:induction false} StillAbsent(w: World, steps: seq<Step>, q: SearchId)
    requires w.versions != [] && q !in w.searchers
    requires forall k :: 0 <= k < |steps| && steps[k].StartSearch? ==> steps[k].p != q
    ensures q !in Run(w, steps).searchers
  {
    if steps != [] {
      StillAbsent(w, steps[..|steps| - 1], q);
      AbsentStep(Run(w, steps[..|steps| - 1]), steps[|steps| - 1], q);
    }
  }

  lemma AbsentStep(w: World, step: Step, q: SearchId)
    requires w.versions != [] && q !in w.searchers && !(step.StartSearch? && step.p == q)
    ensures q !in Do(w, step).searchers
  {
    hide Search, NearestDates;
  }
}
