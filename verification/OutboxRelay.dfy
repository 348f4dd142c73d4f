/**
 The transactional outbox and the relays that compete for its rows with time-limited leases.
 Every SQL statement is one step; a relay may crash, a broker or database reply may be lost,
 and leases may expire between any two steps.
 */
module OutboxRelay {
  import opened Prelude

  type RelayId = nat   // the lock owner a relay draws when it starts, never drawn twice

  datatype Lease = Lease(owner: RelayId, lockedAt: int)

  /** One outbox row; `failures` counts the recorded publish failures, which the table does not store. */
  datatype Row<T> = Row(
    content: T, attempts: nat, availableAt: int, lease: Option<Lease>,
    published: bool, deadLettered: bool, failures: nat)

  /** A claimed row as the relay carries it: its place in the table and the attempt count it was given. */
  datatype Message = Message(row: nat, attempt: nat)

  datatype Phase = Publishing | Marking | Failing

  /** `drainOnce` in flight: the messages still to deliver, the first of them in `phase`. */
  datatype Relay = Relay(batch: seq<Message>, phase: Phase)

  datatype Config = Config(maxAttempts: nat, batchSize: nat, lockTimeout: nat)

  datatype Outbox<T> = Outbox(
    rows: seq<Row<T>>, now: int, relays: map<RelayId, Relay>, everStarted: set<RelayId>,
    sent: seq<nat>)   // a row's place, for every copy the broker took

  /** A statement may run although its answer is lost. */
  datatype Reply = Answered | AnswerLost | NotRun

  datatype Step<T> =
    | Enqueue(content: T)
    | Tick(elapsed: nat)
    | StartRelay(r: RelayId)
    | Claim(r: RelayId, picked: seq<nat>)
    | Publish(r: RelayId)
    | PublishFails(r: RelayId, reached: bool)   // the broker may have taken the copy all the same
    | MarkPublished(r: RelayId, reply: Reply)
    | MarkFailed(r: RelayId, backoff: nat, reply: Reply)
    | CrashRelay(r: RelayId)

  // ---------------------------------------------------------------- one row

  predicate Live<T>(row: Row<T>) { !row.published && !row.deadLettered }

  predicate LeaseExpired(lease: Option<Lease>, now: int, timeout: nat) {
    match lease case None => true case Some(l) => l.lockedAt < now - timeout
  }

  predicate Claimable<T>(row: Row<T>, now: int, timeout: nat) {
    Live(row) && row.availableAt <= now && LeaseExpired(row.lease, now, timeout)
  }

  function ClaimRow<T>(row: Row<T>, r: RelayId, now: int): Row<T> {
    row.(lease := Some(Lease(r, now)), attempts := row.attempts + 1)
  }

  predicate OwnedBy<T>(row: Row<T>, r: RelayId) { row.lease.Some? && row.lease.value.owner == r }

  /** `markPublished`, on the row it names. */
  function PublishRow<T>(row: Row<T>, r: RelayId): Row<T> {
    if OwnedBy(row, r) && !row.published then row.(published := true, lease := None) else row
  }

  /** `markFailed`, on the row it names. */
  function FailRow<T>(row: Row<T>, r: RelayId, now: int, maxAttempts: nat, backoff: nat): Row<T> {
    if OwnedBy(row, r) && !row.published then
      row.(lease := None, failures := row.failures + 1,
           deadLettered := row.attempts >= maxAttempts,
           availableAt := if row.attempts >= maxAttempts then row.availableAt else now + backoff)
    else row
  }

  // ---------------------------------------------------------------- steps

  predicate MayClaim<T>(s: Outbox<T>, picked: seq<nat>, c: Config) {
    && |picked| <= c.batchSize && Distinct(picked)
    && forall k :: 0 <= k < |picked| ==> picked[k] < |s.rows| && Claimable(s.rows[picked[k]], s.now, c.lockTimeout)
  }

  function ClaimRows<T>(s: Outbox<T>, r: RelayId, picked: seq<nat>): (rows: seq<Row<T>>)
    ensures |rows| == |s.rows|
    ensures forall i :: 0 <= i < |rows| ==> rows[i] == if i in picked then ClaimRow(s.rows[i], r, s.now) else s.rows[i]
  {
    seq(|s.rows|, i requires 0 <= i < |s.rows| => if i in picked then ClaimRow(s.rows[i], r, s.now) else s.rows[i])
  }

  function Messages<T>(rows: seq<Row<T>>, picked: seq<nat>): (batch: seq<Message>)
    requires forall k :: 0 <= k < |picked| ==> picked[k] < |rows|
    ensures |batch| == |picked|
    ensures forall k :: 0 <= k < |picked| ==> batch[k].row == picked[k] && batch[k].attempt == rows[picked[k]].attempts
  {
    seq(|picked|, k requires 0 <= k < |picked| => Message(picked[k], rows[picked[k]].attempts))
  }

  /** A busy relay in the given phase whose first message names a row. */
  predicate Delivering<T>(s: Outbox<T>, r: RelayId, phase: Phase) {
    && r in s.relays && s.relays[r].batch != [] && s.relays[r].phase == phase
    && s.relays[r].batch[0].row < |s.rows|
  }

  function Head<T>(s: Outbox<T>, r: RelayId): nat
    requires r in s.relays && s.relays[r].batch != []
  {
    s.relays[r].batch[0].row
  }

  function GotoPhase<T>(s: Outbox<T>, r: RelayId, phase: Phase): Outbox<T>
    requires r in s.relays
  {
    s.(relays := s.relays[r := s.relays[r].(phase := phase)])
  }

  /** The next message of the batch, or an idle relay. */
  function NextMessage<T>(s: Outbox<T>, r: RelayId): Outbox<T>
    requires r in s.relays && s.relays[r].batch != []
  {
    s.(relays := s.relays[r := Relay(s.relays[r].batch[1..], Publishing)])
  }

  function SetRow<T>(s: Outbox<T>, i: nat, row: Row<T>): Outbox<T>
    requires i < |s.rows|
  {
    s.(rows := s.rows[i := row])
  }

  function Do<T>(s: Outbox<T>, step: Step<T>, c: Config): Outbox<T> {
    match step
    case Enqueue(content) => s.(rows := s.rows + [Row(content, 0, s.now, None, false, false, 0)])
    case Tick(elapsed) => s.(now := s.now + elapsed)
    case StartRelay(r) =>
      if r in s.everStarted then s
      else s.(relays := s.relays[r := Relay([], Publishing)], everStarted := s.everStarted + {r})
    case Claim(r, picked) =>
      if r in s.relays && s.relays[r].batch == [] && MayClaim(s, picked, c) then   // single flight
        var rows := ClaimRows(s, r, picked);
        s.(rows := rows, relays := s.relays[r := Relay(Messages(rows, picked), Publishing)])
      else s
    case Publish(r) =>
      if Delivering(s, r, Publishing) then GotoPhase(s, r, Marking).(sent := s.sent + [Head(s, r)]) else s
    case PublishFails(r, reached) =>
      if Delivering(s, r, Publishing) then
        GotoPhase(s, r, Failing).(sent := s.sent + if reached then [Head(s, r)] else [])
      else s
    case MarkPublished(r, reply) =>
      if Delivering(s, r, Marking) then
        var s2 := if reply.NotRun? then s else SetRow(s, Head(s, r), PublishRow(s.rows[Head(s, r)], r));
        if reply.Answered? then NextMessage(s2, r) else GotoPhase(s2, r, Failing)
      else s
    case MarkFailed(r, backoff, reply) =>
      if Delivering(s, r, Failing) then
        var row := FailRow(s.rows[Head(s, r)], r, s.now, c.maxAttempts, backoff);
        var s2 := if reply.NotRun? then s else SetRow(s, Head(s, r), row);
        // an error here ends the pass: the rest of the batch waits for its lease to expire
        if reply.Answered? then NextMessage(s2, r) else s2.(relays := s.relays[r := Relay([], Publishing)])
      else s
    case CrashRelay(r) => s.(relays := s.relays - {r})
  }

  function Run<T>(s: Outbox<T>, steps: seq<Step<T>>, c: Config): Outbox<T> {
    if steps == [] then s else Do(Run(s, steps[..|steps| - 1], c), steps[|steps| - 1], c)
  }

  function Empty<T>(now: int): Outbox<T> { Outbox([], now, map[], {}, []) }

  // ---------------------------------------------------------------- invariant

  predicate RowOk<T>(s: Outbox<T>, i: nat, c: Config) {
    i < |s.rows| ==>
      var row := s.rows[i];
      && !(row.published && row.deadLettered)
      && (row.published ==> i in s.sent)
      && (!Live(row) ==> row.lease == None)
      && row.failures + (if row.lease.Some? then 1 else 0) <= row.attempts
      && row.failures + (if row.deadLettered then 0 else 1) <= c.maxAttempts
      && (row.deadLettered ==> row.attempts >= c.maxAttempts)
      && (row.lease.Some? ==> row.lease.value.owner in s.everStarted)
  }

  /** What a relay still has to deliver: its own latest claims, whenever it still holds the lease. */
  predicate RelayOk<T>(s: Outbox<T>, r: RelayId) {
    r in s.relays ==>
      var batch := s.relays[r].batch;
      && r in s.everStarted
      && (forall k :: 0 <= k < |batch| ==> Carried(s, r, batch[k]))
      && (forall j, k :: 0 <= j < k < |batch| ==> batch[j].row != batch[k].row)
      && (s.relays[r].phase == Marking && batch != [] ==> batch[0].row in s.sent)
  }

  predicate Carried<T>(s: Outbox<T>, r: RelayId, m: Message) {
    && m.row < |s.rows| && m.attempt <= s.rows[m.row].attempts
    && (OwnedBy(s.rows[m.row], r) ==> m.attempt == s.rows[m.row].attempts)
  }

  ghost predicate Inv<T>(s: Outbox<T>, c: Config) {
    && (forall i {:trigger RowOk(s, i, c)} :: RowOk(s, i, c))
    && (forall r {:trigger RelayOk(s, r)} :: RelayOk(s, r))
  }

  /** Table rows only gain attempts, and a lease taken over by a relay comes with a new attempt. */
  predicate RowLater<T>(before: Row<T>, after: Row<T>, r: RelayId) {
    && before.attempts <= after.attempts
    && (OwnedBy(after, r) ==> OwnedBy(before, r) && after.attempts == before.attempts)
  }

  lemma RelayLater<T>(s: Outbox<T>, s2: Outbox<T>, r: RelayId)
    requires RelayOk(s, r)
    requires r in s2.relays ==> r in s.relays && s2.relays[r] == s.relays[r]
    requires |s.rows| <= |s2.rows| && s.everStarted <= s2.everStarted
    requires forall i :: i in s.sent ==> i in s2.sent
    requires forall i :: 0 <= i < |s.rows| ==> RowLater(s.rows[i], s2.rows[i], r)
    ensures RelayOk(s2, r)
  {
  }

  // ---------------------------------------------------------------- every step keeps it

  lemma {:induction false} ClaimKeeps<T>(s: Outbox<T>, r: RelayId, picked: seq<nat>, c: Config)
    requires Inv(s, c)
    ensures Inv(Do(s, Claim(r, picked), c), c)
  {
    var s2 := Do(s, Claim(r, picked), c);
    if s2 != s {
      assert RelayOk(s, r);
      forall i ensures RowOk(s2, i, c) { assert RowOk(s, i, c); }
      forall q ensures RelayOk(s2, q) {
        assert RelayOk(s, q);
        if q != r { RelayLater(s, s2, q); }
      }
    }
  }

  /** A step of relay `r` that rewrites one row and goes on to another phase or message. */
  lemma MarkKeeps<T>(s: Outbox<T>, s2: Outbox<T>, r: RelayId, row: Row<T>, c: Config)
    requires Inv(s, c) && r in s.relays && s.relays[r].batch != [] && Head(s, r) < |s.rows|
    requires r in s2.relays && s2 == s.(rows := s.rows[Head(s, r) := row], relays := s.relays[r := s2.relays[r]])
    requires (s2.relays[r].batch == [] || s2.relays[r].batch == s.relays[r].batch[1..]
                                || s2.relays[r].batch == s.relays[r].batch)
    requires s2.relays[r].phase != Marking
    requires row == s.rows[Head(s, r)] || (row == PublishRow(s.rows[Head(s, r)], r) && Head(s, r) in s.sent)
             || exists backoff: nat :: row == FailRow(s.rows[Head(s, r)], r, s.now, c.maxAttempts, backoff)
    ensures Inv(s2, c)
  {
    assert RelayOk(s, r);
    forall i ensures RowOk(s2, i, c) { assert RowOk(s, i, c); }
    forall q ensures RelayOk(s2, q) {
      assert RelayOk(s, q);
      if q != r {
        RelayLater(s, s2, q);
      } else {
        assert forall i :: 0 <= i < |s.rows| ==> RowLater(s.rows[i], s2.rows[i], r);
      }
    }
  }

  lemma DoKeeps<T>(s: Outbox<T>, step: Step<T>, c: Config)
    requires Inv(s, c) && c.maxAttempts > 0
    ensures Inv(Do(s, step, c), c)
  {
    var s2 := Do(s, step, c);
    match step
    case Claim(r, picked) => ClaimKeeps(s, r, picked, c);
    case MarkPublished(r, reply) =>
      if Delivering(s, r, Marking) {
        assert RelayOk(s, r);
        var row := if reply.NotRun? then s.rows[Head(s, r)] else PublishRow(s.rows[Head(s, r)], r);
        assert s.rows[Head(s, r) := s.rows[Head(s, r)]] == s.rows;
        MarkKeeps(s, s2, r, row, c);
      }
    case MarkFailed(r, backoff, reply) =>
      if Delivering(s, r, Failing) {
        var row :=
          if reply.NotRun? then s.rows[Head(s, r)]
          else FailRow(s.rows[Head(s, r)], r, s.now, c.maxAttempts, backoff);
        assert s.rows[Head(s, r) := s.rows[Head(s, r)]] == s.rows;
        MarkKeeps(s, s2, r, row, c);
      }
    case _ => QuietKeeps(s, step, c);
  }

  lemma QuietKeeps<T>(s: Outbox<T>, step: Step<T>, c: Config)
    requires Inv(s, c) && c.maxAttempts > 0 && !step.Claim? && !step.MarkPublished? && !step.MarkFailed?
    ensures Inv(Do(s, step, c), c)
  {
    var s2 := Do(s, step, c);
    forall i ensures RowOk(s2, i, c) { assert RowOk(s, i, c); }
    forall q ensures RelayOk(s2, q) { assert RelayOk(s, q); }
  }

  lemma {:induction false} RunKeeps<T>(s: Outbox<T>, steps: seq<Step<T>>, c: Config)
    requires Inv(s, c) && c.maxAttempts > 0
    ensures Inv(Run(s, steps, c), c)
  {
    hide Inv, Do;
    if steps != [] {
      RunKeeps(s, steps[..|steps| - 1], c);
      DoKeeps(Run(s, steps[..|steps| - 1], c), steps[|steps| - 1], c);
    }
  }

  lemma EmptyOk<T>(now: int, c: Config)
    ensures Inv<T>(Empty(now), c)
  {
    forall i ensures RowOk<T>(Empty(now), i, c) {}
    forall r ensures RelayOk<T>(Empty(now), r) {}
  }

  // ---------------------------------------------------------------- theorems

  predicate IsMark<T>(step: Step<T>) { step.MarkPublished? || step.MarkFailed? }

  /** The mark a relay is about to send. */
  predicate Marks<T>(s: Outbox<T>, step: Step<T>) {
    || (step.MarkPublished? && Delivering(s, step.r, Marking))
    || (step.MarkFailed? && Delivering(s, step.r, Failing))
  }

  /**
   A mark that the database runs takes effect if and only if it comes from the latest claim of
   its row and that claim still holds the lease; a relay whose lease was taken over, even if it
   was a relay with a stale batch, changes nothing.
   */
  lemma {:induction false} OnlyTheLatestClaimMarks<T>(start: int, steps: seq<Step<T>>, step: Step<T>, c: Config)
    requires c.maxAttempts > 0 && Marks(Run(Empty(start), steps, c), step) && !step.reply.NotRun?
    ensures
      var s := Run(Empty(start), steps, c);
      var m := s.relays[step.r].batch[0];
      && (Do(s, step, c).rows != s.rows <==> OwnedBy(s.rows[m.row], step.r))
      && (Do(s, step, c).rows != s.rows ==> m.attempt == s.rows[m.row].attempts)
  {
    EmptyOk<T>(start, c);
    RunKeeps(Empty(start), steps, c);
    var s := Run(Empty(start), steps, c);
    hide Run;
    assert RelayOk(s, step.r);
    var i := s.relays[step.r].batch[0].row;
    assert RowOk(s, i, c);
    assert Do(s, step, c).rows[i] != s.rows[i] <==> OwnedBy(s.rows[i], step.r);
    assert s.rows[i := s.rows[i]] == s.rows;
  }

  /** No row is both published and dead-lettered, and a published row reached the broker. */
  lemma PublishedWasSent<T>(start: int, steps: seq<Step<T>>, i: nat, c: Config)
    requires c.maxAttempts > 0 && i < |Run(Empty(start), steps, c).rows|
    ensures
      var s := Run(Empty(start), steps, c);
      && !(s.rows[i].published && s.rows[i].deadLettered)
      && (s.rows[i].published ==> i in s.sent)
      && s.rows[i].failures <= c.maxAttempts
      && (s.rows[i].deadLettered ==> s.rows[i].attempts >= c.maxAttempts)
  {
    EmptyOk<T>(start, c);
    RunKeeps(Empty(start), steps, c);
    assert RowOk(Run(Empty(start), steps, c), i, c);
  }

  lemma FinishedStays<T>(s: Outbox<T>, step: Step<T>, i: nat, c: Config)
    requires Inv(s, c) && i < |s.rows| && !Live(s.rows[i])
    ensures var s2 := Do(s, step, c); i < |s2.rows| && s2.rows[i] == s.rows[i]
  {
    assert RowOk(s, i, c);
  }

  /** A finished row is never claimed, marked or changed again. */
  lemma {:induction false} FinishedIsForever<T>(start: int, steps: seq<Step<T>>, more: seq<Step<T>>, i: nat, c: Config)
    requires c.maxAttempts > 0 && i < |Run(Empty(start), steps, c).rows| && !Live(Run(Empty(start), steps, c).rows[i])
    ensures
      var s := Run(Empty(start), steps, c);
      i < |Run(s, more, c).rows| && Run(s, more, c).rows[i] == s.rows[i]
  {
    hide Inv, Do;
    var s := Run(Empty(start), steps, c);
    EmptyOk<T>(start, c);
    RunKeeps(Empty(start), steps, c);
    if more != [] {
      FinishedIsForever(start, steps, more[..|more| - 1], i, c);
      RunKeeps(s, more[..|more| - 1], c);
      FinishedStays(Run(s, more[..|more| - 1], c), more[|more| - 1], i, c);
    }
  }

  // ---------------------------------------------------------------- the measure

  function Remaining<T>(c: Config): Row<T> -> int {
    (row: Row<T>) => if Live(row) then c.maxAttempts - row.failures else 0
  }

  /** How many marks the live rows can still take. */
  function Measure<T>(s: Outbox<T>, c: Config): int { SumBy(s.rows, Remaining(c)) }

  ghost predicate TakesEffect<T>(s: Outbox<T>, step: Step<T>, c: Config) {
    IsMark(step) && Do(s, step, c).rows != s.rows
  }

  lemma {:induction false} SumOfClaimed<T>(rows: seq<Row<T>>, after: seq<Row<T>>, c: Config)
    requires |after| == |rows|
    requires forall i :: 0 <= i < |rows| ==> Remaining(c)(after[i]) == Remaining(c)(rows[i])
    ensures SumBy(after, Remaining(c)) == SumBy(rows, Remaining(c))
  {
    if rows != [] {
      SumOfClaimed(rows[..|rows| - 1], after[..|rows| - 1], c);
    }
  }

  lemma MarkLowers<T>(s: Outbox<T>, step: Step<T>, c: Config)
    requires Inv(s, c) && IsMark(step)
    ensures Measure(Do(s, step, c), c) <= Measure(s, c) - if TakesEffect(s, step, c) then 1 else 0
  {
    var s2 := Do(s, step, c);
    if s2.rows != s.rows {
      var i := Head(s, step.r);
      assert RowOk(s, i, c);
      assert s2.rows == s.rows[i := s2.rows[i]];
      assert s.rows[i := s.rows[i]] == s.rows;
      SumByUpdate(s.rows, i, s2.rows[i], Remaining(c));
    }
  }

  lemma {:induction false} StepMeasure<T>(s: Outbox<T>, step: Step<T>, c: Config)
    requires Inv(s, c) && c.maxAttempts > 0
    ensures
      var s2 := Do(s, step, c);
      Measure(s2, c) <=
        Measure(s, c) + c.maxAttempts * (|s2.rows| - |s.rows|) - if TakesEffect(s, step, c) then 1 else 0
  {
    if IsMark(step) {
      MarkLowers(s, step, c);
      MarkKeepsLength(s, step, c);
    } else if step.Enqueue? {
      SumByAppend(s.rows, Do(s, step, c).rows[|s.rows|], Remaining(c));
    } else if step.Claim? {
      ClaimMeasure(s, step.r, step.picked, c);
    } else {
      OthersLeaveRows(s, step, c);
    }
    hide Inv, Do, SumBy, Remaining;
  }

  lemma MarkKeepsLength<T>(s: Outbox<T>, step: Step<T>, c: Config)
    requires IsMark(step)
    ensures |Do(s, step, c).rows| == |s.rows|
  {
  }

  lemma OthersLeaveRows<T>(s: Outbox<T>, step: Step<T>, c: Config)
    requires !IsMark(step) && !step.Enqueue? && !step.Claim?
    ensures Do(s, step, c).rows == s.rows
  {
  }

  lemma ClaimMeasure<T>(s: Outbox<T>, r: RelayId, picked: seq<nat>, c: Config)
    ensures Measure(Do(s, Claim(r, picked), c), c) == Measure(s, c)
    ensures |Do(s, Claim(r, picked), c).rows| == |s.rows|
  {
    SumOfClaimed(s.rows, Do(s, Claim(r, picked), c).rows, c);
  }

  ghost function EffectiveMarks<T>(s: Outbox<T>, steps: seq<Step<T>>, c: Config): nat {
    if steps == [] then 0
    else
      var before := Run(s, steps[..|steps| - 1], c);
      EffectiveMarks(s, steps[..|steps| - 1], c) + if TakesEffect(before, steps[|steps| - 1], c) then 1 else 0
  }

  /**
   Every mark that takes effect strictly decreases the measure, and nothing but a new row
   increases it; so in any run at most `maxAttempts` marks per enqueued row take effect.
   */
  lemma {:induction false} MarksAreBounded<T>(start: int, steps: seq<Step<T>>, c: Config)
    requires c.maxAttempts > 0
    ensures
      var s := Run(Empty(start), steps, c);
      EffectiveMarks(Empty(start), steps, c) + Measure(s, c) <= c.maxAttempts * |s.rows|
  {
    hide Inv, Do, TakesEffect;
    if steps != [] {
      var before := Run(Empty<T>(start), steps[..|steps| - 1], c);
      MarksAreBounded(start, steps[..|steps| - 1], c);
      EmptyOk<T>(start, c);
      RunKeeps(Empty(start), steps[..|steps| - 1], c);
      StepMeasure(before, steps[|steps| - 1], c);
      var after := Run(Empty<T>(start), steps, c);
      assert c.maxAttempts * |after.rows| ==
        c.maxAttempts * |before.rows| + c.maxAttempts * (|after.rows| - |before.rows|);
    }
  }

  // ---------------------------------------------------------------- backoff

  /** `base * 2 ** n` */
  function Doubled(base: nat, n: nat): nat { if n == 0 then base else 2 * Doubled(base, n - 1) }

  /** `retryBackoff`; `hex` is the number in the first four digits of the event id. */
  function RetryBackoff(hex: nat, attempt: nat, base: nat): nat {
    var exponential := Doubled(base, if attempt <= 1 then 0 else attempt - 1);
    (if exponential < 30000 then exponential else 30000) + hex % (if base > 1 then base else 1)
  }

  lemma {:induction false} DoubledGrows(base: nat, m: nat, n: nat)
    requires m <= n
    ensures Doubled(base, m) <= Doubled(base, n)
    decreases n
  {
    if m < n { DoubledGrows(base, m, n - 1); }
  }

  lemma {:induction false} FourTimes(base: nat, n: nat)
    ensures Doubled(base, n + 2) == 4 * Doubled(base, n)
  {
    assert Doubled(base, n + 2) == 2 * Doubled(base, n + 1);
  }

  lemma {:induction false} FifteenDoublings(base: nat)
    ensures Doubled(base, 15) == 32768 * base
  {
    FourTimes(base, 1);
    FourTimes(base, 3);
    FourTimes(base, 5);
    FourTimes(base, 7);
    FourTimes(base, 9);
    FourTimes(base, 11);
    FourTimes(base, 13);
    assert Doubled(base, 1) == 2 * Doubled(base, 0);
  }

  /** Later attempts never wait less, no wait exceeds the ceiling plus the jitter, and the sixteenth reaches it. */
  lemma {:induction false} BackoffIsMonotoneAndBounded(hex: nat, attempt: nat, later: nat, base: nat)
    requires attempt <= later && base > 0
    ensures RetryBackoff(hex, attempt, base) <= RetryBackoff(hex, later, base) <= 30000 + base - 1
    ensures attempt >= 16 ==> RetryBackoff(hex, attempt, base) >= 30000
  {
    var a, b := if attempt <= 1 then 0 else attempt - 1, if later <= 1 then 0 else later - 1;
    DoubledGrows(base, a, b);
    if attempt >= 16 {
      DoubledGrows(base, 15, a);
      FifteenDoublings(base);
    }
    hide Doubled;
  }

  /**
   The wait is jitter below the base plus an exponential part: the base for a first attempt, doubled
   by every further one, and cut off at thirty seconds.
   */
  lemma BackoffDoubles(hex: nat, attempt: nat, base: nat)
    requires base > 0
    ensures
      var jitter := hex % base;
      && (attempt <= 1 ==> RetryBackoff(hex, attempt, base) == (if base < 30000 then base else 30000) + jitter)
      && (attempt >= 1 ==>
            var part := RetryBackoff(hex, attempt, base) - jitter;
            RetryBackoff(hex, attempt + 1, base) == (if 2 * part < 30000 then 2 * part else 30000) + jitter)
  {
    assert attempt >= 1 ==> Doubled(base, attempt) == 2 * Doubled(base, attempt - 1);
  }

  // ---------------------------------------------------------------- progress

  /** The steps that get one live row published, once every lease on it has run out. */
  function Rescue<T>(i: nat, wait: nat, r: RelayId): seq<Step<T>> {
    [Tick(wait)] + [StartRelay(r)] + [Claim(r, [i])] + [Publish(r)] + [MarkPublished(r, Answered)]
  }

  lemma {:induction false} OneMore<T>(s: Outbox<T>, steps: seq<Step<T>>, step: Step<T>, c: Config)
    ensures Run(s, steps + [step], c) == Do(Run(s, steps, c), step, c)
  {
    assert (steps + [step])[..|steps|] == steps;
  }

  lemma RescueRun<T>(s: Outbox<T>, i: nat, wait: nat, r: RelayId, c: Config)
    ensures Run(s, Rescue(i, wait, r), c) ==
      Do(Do(Do(Do(Do(s, Tick(wait), c), StartRelay(r), c), Claim(r, [i]), c), Publish(r), c),
         MarkPublished(r, Answered), c)
  {
    hide Do;
    var a: seq<Step<T>> := [Tick(wait)];
    assert [] + a == a;
    OneMore(s, [], Tick(wait), c);
    OneMore(s, a, StartRelay(r), c);
    OneMore(s, a + [StartRelay(r)], Claim(r, [i]), c);
    OneMore(s, a + [StartRelay(r)] + [Claim(r, [i])], Publish(r), c);
    OneMore(s, a + [StartRelay(r)] + [Claim(r, [i])] + [Publish(r)], MarkPublished(r, Answered), c);
  }

  lemma ClaimsOne<T>(s: Outbox<T>, i: nat, r: RelayId, c: Config)
    requires r in s.relays && s.relays[r].batch == [] && MayClaim(s, [i], c)
    ensures var s2 := Do(s, Claim(r, [i]), c);
      && Delivering(s2, r, Publishing) && Head(s2, r) == i
      && OwnedBy(s2.rows[i], r) && Live(s2.rows[i])
  {
  }

  lemma DeliversOne<T>(s: Outbox<T>, i: nat, r: RelayId, c: Config)
    requires Delivering(s, r, Publishing) && Head(s, r) == i && OwnedBy(s.rows[i], r) && Live(s.rows[i])
    ensures
      var s2 := Do(Do(s, Publish(r), c), MarkPublished(r, Answered), c);
      i < |s2.rows| && s2.rows[i].published && i in s2.sent
  {
    var s1 := Do(s, Publish(r), c);
    assert Delivering(s1, r, Marking) && Head(s1, r) == i && s1.rows == s.rows;
  }

  /** However the run went, no live row is stuck: one new relay, after a long enough wait, can publish it. */
  lemma LiveRowsCanBePublished<T>(s: Outbox<T>, i: nat, wait: nat, r: RelayId, c: Config)
    requires c.batchSize > 0 && i < |s.rows| && Live(s.rows[i]) && r !in s.everStarted
    requires s.rows[i].availableAt <= s.now + wait
    requires s.rows[i].lease.Some? ==> s.rows[i].lease.value.lockedAt < s.now + wait - c.lockTimeout
    ensures
      var s2 := Run(s, Rescue(i, wait, r), c);
      i < |s2.rows| && s2.rows[i].published && i in s2.sent
  {
    RescueRun(s, i, wait, r, c);
    var s1 := Do(Do(s, Tick(wait), c), StartRelay(r), c);
    assert MayClaim(s1, [i], c);
    ClaimsOne(s1, i, r, c);
    hide Do, Run;
    DeliversOne(Do(s1, Claim(r, [i]), c), i, r, c);
  }
}
