/** What a lease is for: who may claim a row, and when, in every run of the relays. */
module OutboxLeases {
  import opened Prelude
  import opened OutboxRelay

  // ---------------------------------------------------------------- one claim

  /** A claim of one row changes it exactly when the row is due, and then gives a new lease and one more attempt. */
  lemma ClaimTakesWhatIsDue<T>(s: Outbox<T>, r: RelayId, i: nat, c: Config)
    requires r in s.relays && s.relays[r].batch == [] && c.batchSize > 0 && i < |s.rows|
    ensures
      var row, after := s.rows[i], Do(s, Claim(r, [i]), c).rows[i];
      && (after != row <==>
            && !row.published && !row.deadLettered && row.availableAt <= s.now
            && (row.lease == None || row.lease.value.lockedAt + c.lockTimeout < s.now))
      && (after != row ==> after == row.(lease := Some(Lease(r, s.now)), attempts := row.attempts + 1))
  {
  }

  /** No claim, of whatever rows, touches a row under a lease that is not older than the timeout, or one not due yet. */
  lemma ClaimSparesTheRest<T>(s: Outbox<T>, r: RelayId, picked: seq<nat>, i: nat, c: Config)
    requires i < |s.rows|
    requires
      || (s.rows[i].lease.Some? && s.now <= s.rows[i].lease.value.lockedAt + c.lockTimeout)
      || s.now < s.rows[i].availableAt || s.rows[i].published || s.rows[i].deadLettered
    ensures Do(s, Claim(r, picked), c).rows[i] == s.rows[i]
  {
  }

  // ---------------------------------------------------------------- between two claims

  ghost predicate Touches<T>(s: Outbox<T>, step: Step<T>, i: nat, c: Config) {
    i < |s.rows| && i < |Do(s, step, c).rows| && Do(s, step, c).rows[i] != s.rows[i]
  }

  /** No mark changes the row while these steps run. */
  ghost predicate Unmarked<T>(s: Outbox<T>, steps: seq<Step<T>>, i: nat, c: Config) {
    forall k :: 0 <= k < |steps| && (steps[k].MarkPublished? || steps[k].MarkFailed?) ==>
      !Touches(Run(s, steps[..k], c), steps[k], i, c)
  }

  lemma {:induction false} UnmarkedFront<T>(s: Outbox<T>, steps: seq<Step<T>>, i: nat, c: Config)
    requires steps != [] && Unmarked(s, steps, i, c)
    ensures Unmarked(s, steps[..|steps| - 1], i, c)
    ensures
      var last := steps[|steps| - 1];
      (last.MarkPublished? || last.MarkFailed?) ==> !Touches(Run(s, steps[..|steps| - 1], c), last, i, c)
  {
    hide Run, Touches;
    var init := steps[..|steps| - 1];
    forall k | 0 <= k < |init| && (init[k].MarkPublished? || init[k].MarkFailed?)
      ensures !Touches(Run(s, init[..k], c), init[k], i, c)
    {
      assert init[..k] == steps[..k] && init[k] == steps[k];
    }
  }

  /** The row is held since `since` at the earliest, and the clock has not gone back. */
  predicate HeldSince<T>(s: Outbox<T>, i: nat, since: int) {
    && i < |s.rows| && since <= s.now
    && s.rows[i].lease.Some? && since <= s.rows[i].lease.value.lockedAt
  }

  lemma StepHolds<T>(s: Outbox<T>, step: Step<T>, i: nat, since: int, c: Config)
    requires HeldSince(s, i, since)
    requires step.MarkPublished? || step.MarkFailed? ==> !Touches(s, step, i, c)
    ensures HeldSince(Do(s, step, c), i, since)
  {
    hide RetryBackoff, FailRow, PublishRow;
  }

  lemma {:induction false} StaysHeld<T>(s: Outbox<T>, steps: seq<Step<T>>, i: nat, since: int, c: Config)
    requires HeldSince(s, i, since) && Unmarked(s, steps, i, c)
    ensures HeldSince(Run(s, steps, c), i, since)
  {
    hide Do, HeldSince, Unmarked, Touches;
    if steps != [] {
      UnmarkedFront(s, steps, i, c);
      StaysHeld(s, steps[..|steps| - 1], i, since, c);
      StepHolds(Run(s, steps[..|steps| - 1], c), steps[|steps| - 1], i, since, c);
    }
  }

  /**
   In every run: two claims of one row without an effective mark of it in between are more than
   the lock timeout apart, whichever relays claim and whatever else happens meanwhile.
   */
  lemma {:induction false} ClaimsAreApart<T>(start: int, steps: seq<Step<T>>, first: Step<T>, between: seq<Step<T>>,
                                             second: Step<T>, i: nat, c: Config)
    requires first.Claim? && second.Claim?
    requires Touches(Run(Empty(start), steps, c), first, i, c)
    requires Unmarked(Do(Run(Empty(start), steps, c), first, c), between, i, c)
    requires Touches(Run(Do(Run(Empty(start), steps, c), first, c), between, c), second, i, c)
    ensures
      var s := Run(Empty<T>(start), steps, c);
      Run(Do(s, first, c), between, c).now > s.now + c.lockTimeout
  {
    var s := Run(Empty<T>(start), steps, c);
    hide Run, Unmarked;
    var s1 := Do(s, first, c);
    assert HeldSince(s1, i, s.now);
    StaysHeld(s1, between, i, s.now, c);
    var s2 := Run(s1, between, c);
    if s2.now <= s.now + c.lockTimeout { ClaimSparesTheRest(s2, second.r, second.picked, i, c); }
  }

  // ---------------------------------------------------------------- after a failed mark

  /** The row was not claimed since the failed mark, and its wait has not been shortened. */
  predicate WaitsUntil<T>(s: Outbox<T>, i: nat, until: int) {
    i < |s.rows| && s.rows[i].lease == None && s.rows[i].availableAt == until && s.now < until
  }

  lemma StepWaits<T>(s: Outbox<T>, step: Step<T>, i: nat, until: int, c: Config)
    requires WaitsUntil(s, i, until) && Do(s, step, c).now < until
    ensures WaitsUntil(Do(s, step, c), i, until) && Do(s, step, c).rows[i] == s.rows[i]
  {
    hide RetryBackoff;
  }

  lemma ClockForward<T>(s: Outbox<T>, step: Step<T>, c: Config)
    ensures s.now <= Do(s, step, c).now
  {
    hide ClaimRows, Messages, MayClaim, PublishRow, FailRow;
  }

  lemma {:induction false} StaysWaiting<T>(s: Outbox<T>, steps: seq<Step<T>>, i: nat, until: int, c: Config)
    requires WaitsUntil(s, i, until) && Run(s, steps, c).now < until
    ensures WaitsUntil(Run(s, steps, c), i, until) && Run(s, steps, c).rows[i] == s.rows[i]
  {
    hide Do, WaitsUntil;
    if steps != [] {
      var init, last := Run(s, steps[..|steps| - 1], c), steps[|steps| - 1];
      ClockForward(init, last, c);
      StaysWaiting(s, steps[..|steps| - 1], i, until, c);
      StepWaits(init, last, i, until, c);
    } else {
      assert WaitsUntil(s, i, until);
    }
  }

  /**
   A failed delivery that is recorded frees the row. At its last attempt the row is given up; before
   that nothing at all happens to it until the backoff is over, in any continuation.
   */
  lemma {:induction false} FailedRowWaits<T>(start: int, steps: seq<Step<T>>, r: RelayId, backoff: nat, reply: Reply,
                                             more: seq<Step<T>>, i: nat, c: Config)
    requires Touches(Run(Empty(start), steps, c), MarkFailed(r, backoff, reply), i, c)
    ensures
      var s := Run(Empty<T>(start), steps, c);
      var s2 := Do(s, MarkFailed(r, backoff, reply), c);
      && s2.rows[i].lease == None && !s2.rows[i].published
      && (s2.rows[i].deadLettered <==> s.rows[i].attempts >= c.maxAttempts)
      && (!s2.rows[i].deadLettered && Run(s2, more, c).now < s.now + backoff ==>
            i < |Run(s2, more, c).rows| && Run(s2, more, c).rows[i] == s2.rows[i])
  {
    var s := Run(Empty<T>(start), steps, c);
    hide Run;
    FailedAt(s, r, backoff, reply, i, c);
    var s2 := Do(s, MarkFailed(r, backoff, reply), c);
    ClockRuns(s2, more, c);
    if !s2.rows[i].deadLettered && Run(s2, more, c).now < s.now + backoff {
      StaysWaiting(s2, more, i, s.now + backoff, c);
    }
  }

  lemma FailedAt<T>(s: Outbox<T>, r: RelayId, backoff: nat, reply: Reply, i: nat, c: Config)
    requires Touches(s, MarkFailed(r, backoff, reply), i, c)
    ensures
      var row, s2 := s.rows[i], Do(s, MarkFailed(r, backoff, reply), c);
      && s2.now == s.now && s2.rows[i].lease == None && !s2.rows[i].published
      && (s2.rows[i].deadLettered <==> row.attempts >= c.maxAttempts)
      && (!s2.rows[i].deadLettered ==> s2.rows[i].availableAt == s.now + backoff)
  {
  }

  lemma {:induction false} ClockRuns<T>(s: Outbox<T>, steps: seq<Step<T>>, c: Config)
    ensures s.now <= Run(s, steps, c).now
  {
    hide Do;
    if steps != [] {
      ClockRuns(s, steps[..|steps| - 1], c);
      ClockForward(Run(s, steps[..|steps| - 1], c), steps[|steps| - 1], c);
    }
  }

  // ---------------------------------------------------------------- what the counters of a row count

  /** The steps of one kind that changed the row, in the order of the run. */
  ghost function Count<T>(start: int, steps: seq<Step<T>>, kind: Step<T> -> bool, i: nat, c: Config): nat {
    if steps == [] then 0
    else
      var init, last := steps[..|steps| - 1], steps[|steps| - 1];
      Count(start, init, kind, i, c) + if kind(last) && Touches(Run(Empty(start), init, c), last, i, c) then 1 else 0
  }

  function IsClaim<T>(): Step<T> -> bool { (step: Step<T>) => step.Claim? }

  function IsFailure<T>(): Step<T> -> bool { (step: Step<T>) => step.MarkFailed? }

  function IsPublication<T>(): Step<T> -> bool { (step: Step<T>) => step.MarkPublished? }

  lemma CountersOfStep<T>(s: Outbox<T>, step: Step<T>, i: nat, c: Config)
    requires Inv(s, c) && i < |Do(s, step, c).rows|
    ensures
      var row, touched := Do(s, step, c).rows[i], Touches(s, step, i, c);
      if i >= |s.rows| then row.attempts == 0 && row.failures == 0 && !row.published
      else
        && row.attempts == s.rows[i].attempts + (if step.Claim? && touched then 1 else 0)
        && row.failures == s.rows[i].failures + (if step.MarkFailed? && touched then 1 else 0)
        && row.published == (s.rows[i].published || (step.MarkPublished? && touched))
        && (touched ==> step.Claim? || step.MarkFailed? || step.MarkPublished?)
        && (step.MarkPublished? && touched ==> !s.rows[i].published)
  {
    assert RowOk(s, i, c);
  }

  lemma {:induction false} NoCount<T>(start: int, steps: seq<Step<T>>, kind: Step<T> -> bool, i: nat, c: Config)
    requires i >= |Run(Empty<T>(start), steps, c).rows|
    ensures Count(start, steps, kind, i, c) == 0
  {
    if steps != [] {
      RowsRemain(Run(Empty<T>(start), steps[..|steps| - 1], c), steps[|steps| - 1], c);
      NoCount(start, steps[..|steps| - 1], kind, i, c);
    }
    hide Do;
  }

  lemma RowsRemain<T>(s: Outbox<T>, step: Step<T>, c: Config)
    ensures |s.rows| <= |Do(s, step, c).rows|
  {
  }

  /**
   In every run a row's attempts are the claims that took it, its failures the failed marks that took
   effect, and it is published exactly when one published mark did.
   */
  lemma {:induction false} CountersCount<T>(start: int, steps: seq<Step<T>>, i: nat, c: Config)
    requires c.maxAttempts > 0 && i < |Run(Empty<T>(start), steps, c).rows|
    ensures
      var row := Run(Empty<T>(start), steps, c).rows[i];
      && row.attempts == Count(start, steps, IsClaim(), i, c)
      && row.failures == Count(start, steps, IsFailure(), i, c)
      && (if row.published then 1 else 0) == Count(start, steps, IsPublication(), i, c)
  {
    var init, last := steps[..|steps| - 1], steps[|steps| - 1];
    var s := Run(Empty<T>(start), init, c);
    EmptyOk<T>(start, c);
    RunKeeps(Empty(start), init, c);
    CountersOfStep(s, last, i, c);
    if i < |s.rows| {
      CountersCount(start, init, i, c);
    } else {
      NoCount(start, init, IsClaim<T>(), i, c);
      NoCount(start, init, IsFailure<T>(), i, c);
      NoCount(start, init, IsPublication<T>(), i, c);
    }
    hide Do, Inv;
  }

  /** A new row is due at once, and what the broker took is recorded copy by copy. */
  lemma RowsAndCopies<T>(s: Outbox<T>, step: Step<T>, c: Config)
    ensures step.Enqueue? ==>
      var after := Do(s, step, c);
      && |after.rows| == |s.rows| + 1 && after.rows[..|s.rows|] == s.rows
      && var row := after.rows[|s.rows|];
         row.content == step.content && row.availableAt <= s.now && row.lease == None && Live(row)
    ensures
      var took := (step.Publish? || (step.PublishFails? && step.reached)) && Delivering(s, step.r, Publishing);
      Do(s, step, c).sent == s.sent + if took then [s.relays[step.r].batch[0].row] else []
  {
    AppendNothing(s.sent);
  }
}
