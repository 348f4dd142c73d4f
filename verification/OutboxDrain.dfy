/** The relay's own loop, `drainOnce` and `deliver`, over a table updated in place. */
module OutboxDrain {
  import opened Prelude
  import opened OutboxRelay

  /** What the broker and the database answer while one message is delivered. */
  datatype Replies = Replies(publish: Option<bool>, markPublished: Reply, markFailed: Reply)

  function CanClaim<T>(s: Outbox<T>, c: Config): nat -> bool {
    (i: nat) => i < |s.rows| && Claimable(s.rows[i], s.now, c.lockTimeout)
  }

  function FirstOf<T>(list: seq<T>, n: nat): seq<T> { if |list| <= n then list else list[..n] }

  lemma ClaimableRows<T>(s: Outbox<T>, visible: seq<nat>, k: nat, c: Config)
    requires k <= |visible| && Distinct(visible) && |Filter(visible[..k], CanClaim(s, c))| <= c.batchSize
    ensures MayClaim(s, Filter(visible[..k], CanClaim(s, c)), c)
  {
    var seen, keep := visible[..k], CanClaim(s, c);
    FilterDistinct(seen, keep);
    forall i | 0 <= i < |Filter(seen, keep)| ensures keep(Filter(seen, keep)[i]) {
      FilterMember(seen, Filter(seen, keep)[i], keep);
    }
  }

  /** What `CanClaim` says of a row, column by column. */
  lemma DueRows<T>(s: Outbox<T>, c: Config)
    ensures forall i: nat :: CanClaim(s, c)(i) <==>
      && i < |s.rows| && !s.rows[i].published && !s.rows[i].deadLettered && s.rows[i].availableAt <= s.now
      && (s.rows[i].lease == None || s.rows[i].lease.value.lockedAt + c.lockTimeout < s.now)
  {
  }

  lemma {:induction false} FilterDistinct<T>(s: seq<T>, keep: T -> bool)
    requires Distinct(s)
    ensures Distinct(Filter(s, keep))
  {
    if s != [] {
      var init, last := s[..|s| - 1], s[|s| - 1];
      FilterDistinct(init, keep);
      FilterMember(init, last, keep);
    }
  }

  lemma OneMoreSeen<T>(s: Outbox<T>, visible: seq<nat>, k: nat, c: Config)
    requires k < |visible| && visible[k] < |s.rows|
    ensures Filter(visible[..k + 1], CanClaim(s, c)) ==
      Filter(visible[..k], CanClaim(s, c)) +
        if Claimable(s.rows[visible[k]], s.now, c.lockTimeout) then [visible[k]] else []
  {
    assert visible[..k + 1] == visible[..k] + [visible[k]];
    FilterAppend(visible[..k], visible[k], CanClaim(s, c));
  }

  lemma NothingSeen(visible: seq<nat>, keep: nat -> bool)
    ensures Filter(visible[..0], keep) == []
  {
  }

  /** Reading on past a full batch would not change which rows come first. */
  lemma SeenEnough(visible: seq<nat>, k: nat, keep: nat -> bool, batchSize: nat)
    requires k <= |visible| && (k == |visible| || |Filter(visible[..k], keep)| == batchSize)
    requires |Filter(visible[..k], keep)| <= batchSize
    ensures Filter(visible[..k], keep) == FirstOf(Filter(visible, keep), batchSize)
  {
    assert visible == visible[..k] + visible[k..];
    FilterConcat(visible[..k], visible[k..], keep);
    assert k == |visible| ==> visible[k..] == [];
  }

  class OutboxTable<T> {
    const config: Config
    const baseBackoffMs: nat
    const hexOf: nat -> nat   // first four digits of a row's event id
    var rows: seq<Row<T>>
    var now: int
    var relays: map<RelayId, Relay>
    var everStarted: set<RelayId>
    var sent: seq<nat>

    constructor (config: Config, baseBackoffMs: nat, hexOf: nat -> nat, start: int)
      ensures State() == Empty(start) && this.config == config
    {
      this.config, this.baseBackoffMs, this.hexOf := config, baseBackoffMs, hexOf;
      rows, now, relays, everStarted, sent := [], start, map[], {}, [];
    }

    function State(): Outbox<T>
      reads this
    {
      Outbox(rows, now, relays, everStarted, sent)
    }

    /** Neither sent nor given up, the wait over, and so is any earlier lease. */
    predicate IsDue(row: Row<T>, at: int) {
      && !row.published && !row.deadLettered && row.availableAt <= at
      && (row.lease == None || row.lease.value.lockedAt + config.lockTimeout < at)
    }

    /**
     `claimBatch`. `visible` lists, in the order of the query, the rows no other transaction has locked:
     the first claimable ones of them are taken, up to the size of a batch.
     */
    method ClaimBatch(r: RelayId, visible: seq<nat>) returns (picked: seq<nat>)
      requires r in relays && relays[r].batch == []
      requires Distinct(visible) && forall k :: 0 <= k < |visible| ==> visible[k] < |rows|
      modifies this
      ensures MayClaim(old(State()), picked, config)
      ensures State() == Do(old(State()), Claim(r, picked), config)
      ensures picked == FirstOf(Filter(visible, CanClaim(old(State()), config)), config.batchSize)
      ensures forall i :: i in picked ==> i in visible && IsDue(old(rows)[i], old(now))
      ensures |picked| < config.batchSize ==> forall i :: i in visible && IsDue(old(rows)[i], old(now)) ==> i in picked
    {
      hide Filter, CanClaim, Claimable, FirstOf, ClaimRow, Distinct;
      ghost var table := State();
      ghost var keep := CanClaim(table, config);
      picked := [];
      NothingSeen(visible, keep);
      var k := 0;
      while k < |visible| && |picked| < config.batchSize
        invariant 0 <= k <= |visible| && |picked| <= config.batchSize
        invariant State() == table && picked == Filter(visible[..k], keep)
      {
        OneMoreSeen(table, visible, k, config);
        if Claimable(rows[visible[k]], now, config.lockTimeout) {
          picked := picked + [visible[k]];
        }
        k := k + 1;
      }
      SeenEnough(visible, k, keep, config.batchSize);
      ClaimableRows(table, visible, k, config);
      forall i ensures i in picked <==> i in visible[..k] && keep(i) { FilterMember(visible[..k], i, keep); }
      DueRows(table, config);
      rows := ClaimRows(State(), r, picked);
      relays := relays[r := Relay(Messages(rows, picked), Publishing)];
    }

    method MarkPublishedRow(r: RelayId, reply: Reply)
      requires Delivering(State(), r, Marking)
      modifies this
      ensures State() == Do(old(State()), MarkPublished(r, reply), config)
    {
      var relay := relays[r];
      var i := relay.batch[0].row;
      if !reply.NotRun? && OwnedBy(rows[i], r) && !rows[i].published {
        rows := rows[i := rows[i].(published := true, lease := None)];
      } else {
        assert rows[i := rows[i]] == rows;
      }
      relays := relays[r := if reply.Answered? then Relay(relay.batch[1..], Publishing) else relay.(phase := Failing)];
    }

    method MarkFailedRow(r: RelayId, reply: Reply)
      requires Delivering(State(), r, Failing)
      modifies this
      ensures State() == Do(old(State()), MarkFailed(r, Backoff(old(relays[r].batch[0])), reply), config)
    {
      var relay := relays[r];
      var i := relay.batch[0].row;
      if !reply.NotRun? && OwnedBy(rows[i], r) && !rows[i].published {
        var dead := rows[i].attempts >= config.maxAttempts;
        rows := rows[i := rows[i].(
          lease := None, failures := rows[i].failures + 1, deadLettered := dead,
          availableAt := if dead then rows[i].availableAt else now + Backoff(relay.batch[0]))];
      } else {
        assert rows[i := rows[i]] == rows;
      }
      relays := relays[r := if reply.Answered? then Relay(relay.batch[1..], Publishing) else Relay([], Publishing)];
    }

    function Backoff(m: Message): nat { RetryBackoff(hexOf(m.row), m.attempt, baseBackoffMs) }

    /** What publishing amounts to: `None` is success, otherwise whether the broker took the copy anyway. */
    function Sending(r: RelayId, error: Option<bool>): Step<T> {
      match error case None => Publish(r) case Some(reached) => PublishFails(r, reached)
    }

    method SendCopy(r: RelayId, error: Option<bool>)
      requires Delivering(State(), r, Publishing)
      modifies this
      ensures State() == Do(old(State()), Sending(r, error), config)
    {
      var relay := relays[r];
      if error != Some(false) {
        sent := sent + [relay.batch[0].row];
      } else {
        AppendNothing(sent);
      }
      relays := relays[r := relay.(phase := if error.None? then Marking else Failing)];
    }

    /** `deliver`: publish, then mark; any error on the way is recorded as a failure. */
    method Deliver(r: RelayId, replies: Replies) returns (threw: bool, ghost steps: seq<Step<T>>)
      requires Delivering(State(), r, Publishing)
      modifies this
      ensures State() == Run(old(State()), steps, config)
      ensures |rows| == |old(rows)| && everStarted == old(everStarted)
      ensures r in relays && relays[r] == Relay(if threw then [] else old(relays[r].batch[1..]), Publishing)
      ensures threw <==> !replies.markFailed.Answered? && !(replies.publish == None && replies.markPublished.Answered?)
    {
      ghost var begin := State();
      steps := [];
      var failed := replies.publish.Some?;
      SendCopy(r, replies.publish);
      steps := Did(begin, steps, Sending(r, replies.publish), State());
      if !failed {
        MarkPublishedRow(r, replies.markPublished);
        steps := Did(begin, steps, MarkPublished(r, replies.markPublished), State());
        failed := !replies.markPublished.Answered?;
      }
      if failed {
        var backoff := Backoff(relays[r].batch[0]);
        MarkFailedRow(r, replies.markFailed);
        steps := Did(begin, steps, MarkFailed(r, backoff, replies.markFailed), State());
      }
      threw := failed && !replies.markFailed.Answered?;
    }

    ghost function Did(begin: Outbox<T>, steps: seq<Step<T>>, step: Step<T>, after: Outbox<T>): (more: seq<Step<T>>)
      requires after == Do(Run(begin, steps, config), step, config)
      ensures after == Run(begin, more, config)
    {
      OneMore(begin, steps, step, config);
      steps + [step]
    }

    /**
     `drainOnce`, alone on the table while it runs: whatever the broker and the database answer,
     it makes a run of the relay protocol and leaves the relay idle, ready for the next poll.
     */
    method DrainOnce(r: RelayId, visible: seq<nat>, replies: seq<Replies>)
      returns (claimed: nat, ghost steps: seq<Step<T>>)
      requires r in relays && relays[r] == Relay([], Publishing) && |replies| >= config.batchSize
      requires Distinct(visible) && forall k :: 0 <= k < |visible| ==> visible[k] < |rows|
      modifies this
      ensures State() == Run(old(State()), steps, config)
      ensures r in relays && relays[r] == Relay([], Publishing)
      ensures claimed <= config.batchSize
    {
      ghost var begin := State();
      var picked := ClaimBatch(r, visible);
      steps := Did(begin, [], Claim(r, picked), State());
      claimed := |picked|;
      var k := 0;
      var threw := false;
      while k < claimed && !threw
        invariant 0 <= k <= claimed == |picked| && State() == Run(begin, steps, config)
        invariant r in relays && relays[r].phase == Publishing
        invariant threw ==> relays[r].batch == []
        invariant !threw ==> |relays[r].batch| == claimed - k && forall m :: m in relays[r].batch ==> m.row < |rows|
        decreases claimed - k
      {
        ghost var before, soFar := State(), steps;
        ghost var did;
        threw, did := Deliver(r, replies[k]);
        Joined(begin, soFar, did, config);
        steps := soFar + did;
        k := k + 1;
      }
    }
  }

  lemma {:induction false} Joined<T>(s: Outbox<T>, a: seq<Step<T>>, b: seq<Step<T>>, c: Config)
    ensures Run(s, a + b, c) == Run(Run(s, a, c), b, c)
  {
    if b == [] {
      assert a + b == a;
    } else {
      var init, last := b[..|b| - 1], b[|b| - 1];
      assert a + b == (a + init) + [last];
      OneMore(s, a + init, last, c);
      Joined(s, a, init, c);
    }
  }
}
