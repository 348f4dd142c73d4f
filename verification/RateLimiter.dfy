/** The fixed-window rate limiter: one Lua script over a counter that expires. */
module RateLimiter {
  import opened Prelude

  datatype Bucket = PUBLIC | BOOKING_LOOKUP

  /** SHA-256 of the identifier is taken as injective. */
  datatype Key = Key(identifier: string, bucket: Bucket)

  /** A Redis counter and the instant its key expires, in milliseconds. */
  datatype Window = Window(count: nat, expiresAt: int)

  type Redis = map<Key, Window>

  datatype Decision = Decision(allowed: bool, limit: nat, remaining: nat, retryAfterSeconds: nat)

  datatype Call = Call(key: Key, now: int)

  const WINDOW_MS := 60000

  function LimitOf(bucket: Bucket): nat { if bucket == BOOKING_LOOKUP then 5 else 30 }

  /** INCR, and PEXPIRE on the first hit. Redis counts a key as missing once the clock is past its expiry. */
  function Script(redis: Redis, key: Key, now: int): Redis {
    if key in redis && now <= redis[key].expiresAt then redis[key := redis[key].(count := redis[key].count + 1)]
    else redis[key := Window(1, now + WINDOW_MS)]
  }

  function Max(a: int, b: int): int { if a < b then b else a }

  function CeilDiv(a: int, b: int): int
    requires b > 0
  {
    (a + b - 1) / b
  }

  function Decide(window: Window, limit: nat, now: int): Decision {
    var ttlMs := Max(0, window.expiresAt - now);
    Decision(window.count <= limit, limit, Max(0, limit - window.count), Max(1, CeilDiv(ttlMs, 1000)))
  }

  function Run(calls: seq<Call>): Redis {
    if calls == [] then map[]
    else Script(Run(calls[..|calls| - 1]), calls[|calls| - 1].key, calls[|calls| - 1].now)
  }

  /** The answer to the last call of a sequence. */
  function Answer(calls: seq<Call>): Decision
    requires calls != []
  {
    var last := calls[|calls| - 1];
    Decide(Run(calls)[last.key], LimitOf(last.key.bucket), last.now)
  }

  predicate InTimeOrder(calls: seq<Call>) {
    forall i, j :: 0 <= i < j < |calls| ==> calls[i].now <= calls[j].now
  }

  /** How many calls of one key were allowed between two instants, both included. */
  function AllowedBetween(calls: seq<Call>, key: Key, from: int, to: int): nat {
    if calls == [] then 0
    else
      var last := calls[|calls| - 1];
      AllowedBetween(calls[..|calls| - 1], key, from, to) +
      if last.key == key && from <= last.now <= to && Answer(calls).allowed then 1 else 0
  }

  function Min(a: int, b: int): int { if a < b then a else b }

  function StartOf(w: Window): int { w.expiresAt - WINDOW_MS }

  // ---------------------------------------------------------------- invariant

  /** What the current window of a key says about the calls so far. */
  predicate Counted(calls: seq<Call>, key: Key) {
    if key !in Run(calls) then forall i :: 0 <= i < |calls| ==> calls[i].key != key
    else
      var w := Run(calls)[key];
      && w.count >= 1
      && (forall i :: 0 <= i < |calls| && calls[i].key == key ==> calls[i].now <= w.expiresAt)
      && (exists i :: 0 <= i < |calls| && calls[i].now == StartOf(w))
  }

  lemma {:induction false} NoneBefore(calls: seq<Call>, key: Key, from: int, to: int)
    requires forall i :: 0 <= i < |calls| && calls[i].key == key ==> calls[i].now < from
    ensures AllowedBetween(calls, key, from, to) == 0
  {
    if calls != [] {
      var init := calls[..|calls| - 1];
      assert forall i :: 0 <= i < |init| ==> init[i] == calls[i];
      NoneBefore(init, key, from, to);
    }
  }

  lemma {:induction false} WindowsCount(calls: seq<Call>, key: Key)
    requires InTimeOrder(calls)
    ensures Counted(calls, key)
  {
    if calls != [] {
      var init, last := calls[..|calls| - 1], calls[|calls| - 1];
      assert forall i :: 0 <= i < |init| ==> init[i] == calls[i];
      WindowsCount(init, key);
      if key in Run(calls) {
        var w := Run(calls)[key];
        if last.key == key && !(key in Run(init) && last.now <= Run(init)[key].expiresAt) {
          assert calls[|calls| - 1].now == StartOf(w);
        } else {
          var i :| 0 <= i < |init| && init[i].now == StartOf(w);
          assert calls[i].now == StartOf(w);
        }
      }
    }
  }

  /** Since `from`, how many calls were allowed, against the window that is current after them. */
  predicate WithinLimits(calls: seq<Call>, key: Key, from: int, to: int) {
    key in Run(calls) ==>
      var w, limit, allowed := Run(calls)[key], LimitOf(key.bucket), AllowedBetween(calls, key, from, to);
      && (from >= StartOf(w) ==> allowed <= Min(w.count, limit))
      && (from == StartOf(w) ==> allowed == Min(w.count, limit))
      && (from >= StartOf(w) - WINDOW_MS ==> allowed <= Min(w.count, limit) + limit)
  }

  predicate OpensWindow(before: Redis, call: Call) {
    call.key !in before || call.now > before[call.key].expiresAt
  }

  lemma SameWindow(calls: seq<Call>, last: Call, key: Key, from: int, to: int)
    requires WithinLimits(calls, key, from, to) && last.now <= to
    requires key == last.key ==>
      !OpensWindow(Run(calls), last) && StartOf(Run(calls)[key]) <= last.now
    ensures WithinLimits(calls + [last], key, from, to)
  {
    assert (calls + [last])[..|calls|] == calls;
  }

  lemma NextWindow(calls: seq<Call>, last: Call, from: int, to: int)
    requires WithinLimits(calls, last.key, from, to) && OpensWindow(Run(calls), last) && last.now <= to
    requires last.key in Run(calls) && from >= last.now - WINDOW_MS ==> from >= StartOf(Run(calls)[last.key])
    requires from >= last.now || last.key !in Run(calls) ==> AllowedBetween(calls, last.key, from, to) == 0
    ensures WithinLimits(calls + [last], last.key, from, to)
  {
    assert (calls + [last])[..|calls|] == calls;
  }

  /**
   From the start of the current window on, exactly the first `limit` calls are allowed; from
   one window length earlier on, at most a second window's worth.
   */
  lemma {:induction false} AllowedSince(calls: seq<Call>, key: Key, from: int, to: int)
    requires InTimeOrder(calls) && forall i :: 0 <= i < |calls| ==> calls[i].now <= to
    ensures WithinLimits(calls, key, from, to)
  {
    if calls != [] {
      var init, last := calls[..|calls| - 1], calls[|calls| - 1];
      assert calls == init + [last];
      WindowsCount(init, key);
      AllowedSince(init, key, from, to);
      if last.key == key && OpensWindow(Run(init), last) {
        if from >= last.now || key !in Run(init) { NoneBefore(init, key, from, to); }
        NextWindow(init, last, from, to);
      } else {
        SameWindow(init, last, key, from, to);
      }
    }
  }

  // ---------------------------------------------------------------- theorems

  /** In any sixty seconds of any request sequence, a key is allowed at most twice its limit. */
  lemma {:induction false} AtMostTwiceTheLimit(calls: seq<Call>, key: Key, from: int, to: int)
    requires InTimeOrder(calls) && to - from <= 60000
    ensures AllowedBetween(calls, key, from, to) <= 2 * LimitOf(key.bucket)
  {
    if calls != [] {
      var init, last := calls[..|calls| - 1], calls[|calls| - 1];
      assert forall i :: 0 <= i < |init| ==> init[i] == calls[i];
      if last.key == key && from <= last.now <= to {
        WindowsCount(calls, key);
        AllowedSince(calls, key, from, to);
      } else {
        AtMostTwiceTheLimit(init, key, from, to);
      }
    }
  }

  /** Inside one window exactly the first `limit` calls are allowed. */
  lemma WindowAllowsItsLimit(calls: seq<Call>, key: Key)
    requires InTimeOrder(calls) && key in Run(calls)
    ensures
      var w := Run(calls)[key];
      AllowedBetween(calls, key, StartOf(w), calls[|calls| - 1].now) == Min(w.count, LimitOf(key.bucket))
  {
    AllowedSince(calls, key, StartOf(Run(calls)[key]), calls[|calls| - 1].now);
  }

  /** Of a public tool 30 calls are allowed in a window, of a booking lookup 5. */
  function Allowance(bucket: Bucket): nat { match bucket case PUBLIC => 30 case BOOKING_LOOKUP => 5 }

  /**
   Every answer: a call is allowed if and only if fewer than its allowance were allowed before it in
   its window; it is told how many more the window will allow, and to wait until the window ends,
   in seconds rounded up and at least one.
   */
  lemma AnswerTells(calls: seq<Call>)
    requires calls != [] && InTimeOrder(calls)
    ensures
      var last, init := calls[|calls| - 1], calls[..|calls| - 1];
      var answer, w := Answer(calls), Run(calls)[last.key];
      var before := AllowedBetween(init, last.key, StartOf(w), last.now);
      && answer.limit == Allowance(last.key.bucket)
      && (answer.allowed <==> before < Allowance(last.key.bucket))
      && answer.remaining == Allowance(last.key.bucket) - AllowedBetween(calls, last.key, StartOf(w), last.now)
      && (exists i :: 0 <= i < |calls| && calls[i].now + 60000 == w.expiresAt)
      && answer.retryAfterSeconds >= 1 && last.now + 1000 * answer.retryAfterSeconds >= w.expiresAt
      && (answer.retryAfterSeconds > 1 ==> last.now + 1000 * (answer.retryAfterSeconds - 1) < w.expiresAt)
  {
    var last := calls[|calls| - 1];
    AllowedBefore(calls);
    WindowsCount(calls, last.key);
    WindowAllowsItsLimit(calls, last.key);
    Rounded(Run(calls)[last.key].expiresAt - last.now);
    hide AllowedBetween, Run, InTimeOrder, CeilDiv;
  }

  lemma AllowedBefore(calls: seq<Call>)
    requires calls != [] && InTimeOrder(calls)
    ensures
      var last, init := calls[|calls| - 1], calls[..|calls| - 1];
      var w := Run(calls)[last.key];
      w.count >= 1 && AllowedBetween(init, last.key, StartOf(w), last.now) == Min(w.count - 1, LimitOf(last.key.bucket))
  {
    var last := calls[|calls| - 1];
    WindowsCount(calls, last.key);
    WindowAllowsItsLimit(calls, last.key);
    var w := Run(calls)[last.key];
    var i :| 0 <= i < |calls| && calls[i].now == StartOf(w);
    OneMoreAllowed(calls, last.key, StartOf(w), last.now);
    hide AllowedBetween, Run;
  }

  lemma OneMoreAllowed(calls: seq<Call>, key: Key, from: int, to: int)
    requires calls != []
    ensures
      var last := calls[|calls| - 1];
      AllowedBetween(calls, key, from, to) ==
        AllowedBetween(calls[..|calls| - 1], key, from, to) +
        if last.key == key && from <= last.now <= to && Answer(calls).allowed then 1 else 0
  {
    hide Answer;
  }

  lemma Rounded(ttlMs: int)
    ensures var seconds := Max(1, CeilDiv(Max(0, ttlMs), 1000));
      seconds >= 1 && 1000 * seconds >= ttlMs && (seconds > 1 ==> 1000 * (seconds - 1) < ttlMs)
  {
  }

  lemma {:induction false} WindowOrLater(calls: seq<Call>, more: seq<Call>, key: Key)
    requires key in Run(calls)
    ensures
      var w := Run(calls)[key];
      && key in Run(calls + more)
      && var w2 := Run(calls + more)[key];
         && ((w2.expiresAt == w.expiresAt && w2.count >= w.count) || StartOf(w2) > w.expiresAt)
         && ((forall c :: c in more ==> c.now <= w.expiresAt) ==> w2.expiresAt == w.expiresAt)
  {
    if more == [] {
      assert calls + more == calls;
    } else {
      var init, last := more[..|more| - 1], more[|more| - 1];
      assert more == init + [last];
      assert (calls + more)[..|calls + more| - 1] == calls + init;
      WindowOrLater(calls, init, key);
    }
  }

  /**
   A refused caller that waits `retryAfterSeconds` finds the refused window gone, whatever others
   called in between, except at one instant: when the remaining time was a whole number of seconds
   and the caller is back at the very millisecond of expiry. If nobody called in between, it is
   allowed exactly then.
   */
  lemma {:induction false} RetryAfterIsEnough(calls: seq<Call>, between: seq<Call>, later: Call)
    requires calls != [] && !Answer(calls).allowed && InTimeOrder(calls + between + [later])
    requires later.key == calls[|calls| - 1].key
    requires later.now >= calls[|calls| - 1].now + 1000 * Answer(calls).retryAfterSeconds
    ensures Answer(calls).retryAfterSeconds <= 60
    ensures
      var refused, now := Run(calls)[later.key], calls[|calls| - 1].now;
      var current := Run(calls + between + [later])[later.key];
      && (StartOf(current) > refused.expiresAt <==> later.now != refused.expiresAt)
      && (later.now == refused.expiresAt ==>
            (refused.expiresAt - now) % 1000 == 0 && later.now == now + 1000 * Answer(calls).retryAfterSeconds)
      && (between == [] ==> (Answer(calls + between + [later]).allowed <==> later.now != refused.expiresAt))
  {
    var last, all := calls[|calls| - 1], calls + between;
    var refused := Run(calls)[last.key];
    Prefix(calls, between, later);
    RefusedWindowIsFull(calls);
    WindowOrLater(calls, between, last.key);
    if between == [] { assert all == calls; }
    if later.now <= refused.expiresAt { NobodyLater(calls, between, later, refused.expiresAt); }
    hide Run, Answer, InTimeOrder;
    CallsBack(all, later, refused);
  }

  lemma Prefix(calls: seq<Call>, between: seq<Call>, later: Call)
    requires InTimeOrder(calls + between + [later])
    ensures InTimeOrder(calls)
  {
    assert forall i :: 0 <= i < |calls| ==> calls[i] == (calls + between + [later])[i];
  }

  lemma NobodyLater(calls: seq<Call>, between: seq<Call>, later: Call, expiresAt: int)
    requires InTimeOrder(calls + between + [later]) && later.now <= expiresAt
    ensures forall c :: c in between ==> c.now <= expiresAt
  {
    var all := calls + between + [later];
    forall c | c in between ensures c.now <= expiresAt {
      var i :| 0 <= i < |between| && between[i] == c;
      assert all[|calls| + i] == c && all[|calls| + |between|] == later;
    }
  }

  /** The returning call, against the window it was refused in and the one that is current now. */
  lemma CallsBack(all: seq<Call>, later: Call, refused: Window)
    requires later.key in Run(all) && refused.count > LimitOf(later.key.bucket)
    requires
      var w := Run(all)[later.key];
      && ((w.expiresAt == refused.expiresAt && w.count >= refused.count) || StartOf(w) > refused.expiresAt)
      && (later.now <= refused.expiresAt ==> w.expiresAt == refused.expiresAt)
    ensures
      var w, current := Run(all)[later.key], Run(all + [later])[later.key];
      && (StartOf(current) > refused.expiresAt <==> later.now > refused.expiresAt)
      && (w.expiresAt == refused.expiresAt ==> (Answer(all + [later]).allowed <==> later.now > refused.expiresAt))
  {
    assert (all + [later])[..|all + [later]| - 1] == all;
  }

  lemma {:induction false} RefusedWindowIsFull(calls: seq<Call>)
    requires calls != [] && InTimeOrder(calls) && !Answer(calls).allowed
    ensures
      var last := calls[|calls| - 1];
      var w := Run(calls)[last.key];
      && w.count > LimitOf(last.key.bucket) && last.now <= w.expiresAt <= last.now + WINDOW_MS
      && last.now + 1000 * Answer(calls).retryAfterSeconds >= w.expiresAt
  {
    var last := calls[|calls| - 1];
    WindowsCount(calls, last.key);
    var w := Run(calls)[last.key];
    var i :| 0 <= i < |calls| && calls[i].now == StartOf(w);
  }

  lemma OneMoreCall(calls: seq<Call>, call: Call)
    requires InTimeOrder(calls) && forall c :: c in calls ==> c.now <= call.now
    ensures InTimeOrder(calls + [call]) && Run(calls + [call]) == Script(Run(calls), call.key, call.now)
    ensures Answer(calls + [call]) ==
      Decide(Script(Run(calls), call.key, call.now)[call.key], LimitOf(call.key.bucket), call.now)
  {
    assert (calls + [call])[..|calls + [call]| - 1] == calls;
    hide Decide;
  }

  /** The limiter of one process, over the Redis counters it shares with the others. */
  class RedisMcpRateLimiter {
    var windows: Redis
    ghost var calls: seq<Call>

    constructor ()
      ensures Valid() && calls == []
    {
      windows, calls := map[], [];
    }

    ghost predicate Valid()
      reads this
    {
      InTimeOrder(calls) && windows == Run(calls)
    }

    method Consume(identifier: string, bucket: Bucket, now: int) returns (result: Decision)
      requires Valid() && forall c :: c in calls ==> c.now <= now
      modifies this
      ensures Valid() && calls == old(calls) + [Call(Key(identifier, bucket), now)]
      ensures result == Answer(calls)
      ensures result.allowed <==> windows[Key(identifier, bucket)].count <= LimitOf(bucket)
    {
      var key := Key(identifier, bucket);
      OneMoreCall(calls, Call(key, now));
      hide Run, Answer, InTimeOrder;
      calls := calls + [Call(key, now)];
      var current := 1;
      var expiresAt := now + WINDOW_MS;
      if key in windows && now <= windows[key].expiresAt {
        current := windows[key].count + 1;
        expiresAt := windows[key].expiresAt;
      }
      windows := windows[key := Window(current, expiresAt)];
      var limit := LimitOf(bucket);
      var ttlMs := Max(0, expiresAt - now);
      result := Decision(current <= limit, limit, Max(0, limit - current), Max(1, CeilDiv(ttlMs, 1000)));
    }
  }
}
