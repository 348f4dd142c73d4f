/**
 The bounded push iterator behind a seat-status subscription. A `next()` call is named by a
 ticket, a pushed value by its place among the accepted ones.
 */
module PushIterator {
  import opened Prelude

  const CAPACITY := 100

  /** How one `next()` promise was resolved: with an accepted value, or with `done`. */
  datatype Settled = Settled(ticket: nat, place: Option<nat>)

  datatype Model<T> = Model(
    accepted: seq<T>,       // values pushed while open
    queue: seq<nat>,        // places of the queued values
    waiting: seq<nat>,      // tickets of the pending next() calls
    closed: bool,
    tickets: nat,           // next() calls so far
    log: seq<Settled>)      // resolutions, in order

  datatype Call<T> = Push(value: T) | Next | Close   // return() and throw() close

  function Opened<T>(): Model<T> { Model([], [], [], false, 0, []) }

  function Finish(tickets: seq<nat>): seq<Settled> {
    seq(|tickets|, i requires 0 <= i < |tickets| => Settled(tickets[i], None))
  }

  function Step<T>(m: Model<T>, call: Call<T>): Model<T> {
    match call
    case Push(value) =>
      if m.closed then m
      else
        var place, m2 := |m.accepted|, m.(accepted := m.accepted + [value]);
        if m.waiting != [] then
          m2.(waiting := m.waiting[1..], log := m.log + [Settled(m.waiting[0], Some(place))])
        else
          m2.(queue := (if |m.queue| >= CAPACITY then m.queue[1..] else m.queue) + [place])
    case Next =>
      var m2 := m.(tickets := m.tickets + 1);
      if m.queue != [] then m2.(queue := m.queue[1..], log := m.log + [Settled(m.tickets, Some(m.queue[0]))])
      else if m.closed then m2.(log := m.log + [Settled(m.tickets, None)])
      else m2.(waiting := m.waiting + [m.tickets])
    case Close =>
      if m.closed then m
      else m.(closed := true, log := m.log + Finish(m.waiting), waiting := [], queue := [])
  }

  function Run<T>(calls: seq<Call<T>>): Model<T> {
    if calls == [] then Opened() else Step(Run(calls[..|calls| - 1]), calls[|calls| - 1])
  }

  // ---------------------------------------------------------------- invariant

  /** The places delivered, in the order of delivery. */
  function Delivered(log: seq<Settled>): seq<nat> {
    if log == [] then []
    else
      var last := log[|log| - 1];
      Delivered(log[..|log| - 1]) + if last.place.Some? then [last.place.value] else []
  }

  lemma {:induction false} DeliveredAppend(log: seq<Settled>, x: Settled)
    ensures Delivered(log + [x]) == Delivered(log) + if x.place.Some? then [x.place.value] else []
  {
    assert (log + [x])[..|log|] == log;
  }

  lemma {:induction false} NothingDelivered(log: seq<Settled>, tickets: seq<nat>)
    ensures Delivered(log + Finish(tickets)) == Delivered(log)
  {
    if tickets == [] {
      assert log + Finish(tickets) == log;
    } else {
      var init, last := tickets[..|tickets| - 1], tickets[|tickets| - 1];
      NothingDelivered(log, init);
      assert log + Finish(tickets) == (log + Finish(init)) + [Settled(last, None)];
      DeliveredAppend(log + Finish(init), Settled(last, None));
    }
  }

  /** Where the queue starts: every place from here on is queued. */
  function Front<T>(m: Model<T>): int { |m.accepted| - |m.queue| }

  predicate Increasing(s: seq<nat>) { forall i, j :: 0 <= i < j < |s| ==> s[i] < s[j] }

  predicate Inv<T>(m: Model<T>) {
    && (m.queue == [] || m.waiting == [])
    && (m.closed ==> m.queue == [] && m.waiting == [])
    && |m.queue| <= CAPACITY && Front(m) >= 0
    && (forall i :: 0 <= i < |m.queue| ==> m.queue[i] == Front(m) + i)
    && Increasing(Delivered(m.log))
    && (forall i :: 0 <= i < |Delivered(m.log)| ==> Delivered(m.log)[i] < Front(m))
    && (!m.closed ==> forall p :: 0 <= p < Front(m) ==> p in Delivered(m.log) || p + CAPACITY < |m.accepted|)
  }

  /** Tickets are resolved in order, each exactly once, and the rest wait in order. */
  predicate TicketsInv<T>(m: Model<T>) {
    && |m.log| + |m.waiting| == m.tickets
    && (forall i :: 0 <= i < |m.log| ==> m.log[i].ticket == i)
    && (forall i :: 0 <= i < |m.waiting| ==> m.waiting[i] == |m.log| + i)
  }

  lemma PushKeeps<T>(m: Model<T>, value: T)
    requires Inv(m)
    ensures Inv(Step(m, Push(value)))
  {
    if m.waiting != [] { DeliveredAppend(m.log, Settled(m.waiting[0], Some(|m.accepted|))); }
  }

  lemma NextKeeps<T>(m: Model<T>)
    requires Inv(m)
    ensures Inv(Step(m, Next))
  {
    if m.queue != [] {
      DeliveredAppend(m.log, Settled(m.tickets, Some(m.queue[0])));
    } else {
      DeliveredAppend(m.log, Settled(m.tickets, None));
    }
  }

  lemma StepKeeps<T>(m: Model<T>, call: Call<T>)
    requires Inv(m)
    ensures Inv(Step(m, call))
  {
    match call
    case Push(value) => PushKeeps(m, value);
    case Next => NextKeeps(m);
    case Close => NothingDelivered(m.log, m.waiting);
  }

  lemma StepTickets<T>(m: Model<T>, call: Call<T>)
    requires Inv(m) && TicketsInv(m)
    ensures TicketsInv(Step(m, call))
  {
  }

  lemma {:induction false} RunKeeps<T>(calls: seq<Call<T>>)
    ensures Inv(Run(calls)) && TicketsInv(Run(calls))
  {
    if calls != [] {
      RunKeeps(calls[..|calls| - 1]);
      StepKeeps(Run(calls[..|calls| - 1]), calls[|calls| - 1]);
      StepTickets(Run(calls[..|calls| - 1]), calls[|calls| - 1]);
    }
    hide Step, Inv, TicketsInv;
  }

  // ---------------------------------------------------------------- theorems

  /** Values are delivered in push order, each at most once, and queue and waiters are never both non-empty. */
  lemma DeliveredInOrder<T>(calls: seq<Call<T>>)
    ensures
      var m := Run(calls);
      && (forall i, j :: 0 <= i < j < |Delivered(m.log)| ==> Delivered(m.log)[i] < Delivered(m.log)[j] < |m.accepted|)
      && (m.queue == [] || m.waiting == [])
      && |m.queue| <= 100
  {
    RunKeeps(calls);
  }

  /** While open, a value is lost only if at least a full queue of newer ones was accepted after it. */
  lemma OnlyTheOldestAreDropped<T>(calls: seq<Call<T>>, place: nat)
    requires !Run(calls).closed && place < |Run(calls).accepted|
    ensures
      var m := Run(calls);
      place in Delivered(m.log) || place in m.queue || place + 100 < |m.accepted|
  {
    RunKeeps(calls);
    var m := Run(calls);
    if place >= Front(m) { assert m.queue[place - Front(m)] == place; }
  }

  /** Each `next()` is resolved at most once, in the order of the calls, and by `close()` at the latest. */
  lemma EveryNextIsSettledOnce<T>(calls: seq<Call<T>>, ticket: nat)
    requires ticket < Run(calls).tickets
    ensures
      var m := Run(calls);
      && (forall i, j :: 0 <= i < j < |m.log| ==> m.log[i].ticket < m.log[j].ticket)
      && (ticket in m.waiting <==> forall i :: 0 <= i < |m.log| ==> m.log[i].ticket != ticket)
      && (m.closed ==> exists i :: 0 <= i < |m.log| && m.log[i].ticket == ticket)
  {
    RunKeeps(calls);
    var m := Run(calls);
    if ticket < |m.log| {
      assert m.log[ticket].ticket == ticket;
    } else {
      assert m.waiting[ticket - |m.log|] == ticket;
    }
  }

  /** Nothing is accepted, delivered, queued or pending any more. */
  predicate Over<T(==)>(before: Model<T>, m: Model<T>) {
    && m.closed && m.accepted == before.accepted && m.queue == [] && m.waiting == [] && |m.log| == m.tickets
    && |before.log| <= |m.log| && m.log[..|before.log|] == before.log
    && (!before.closed ==> forall i :: |before.log| <= i < |m.log| ==> m.log[i].place == None)
  }

  lemma CloseEnds<T>(m: Model<T>)
    requires Inv(m) && TicketsInv(m)
    ensures Over(m, Step(m, Close))
  {
    assert m.log[..|m.log|] == m.log;
    assert (m.log + Finish(m.waiting))[..|m.log|] == m.log;
  }

  lemma StaysOver<T>(before: Model<T>, m: Model<T>, call: Call<T>)
    requires Over(before, m)
    ensures Over(before, Step(m, call))
  {
    var m2 := Step(m, call);
    if call.Next? { assert m2.log[..|m.log|] == m.log && m2.log[..|before.log|] == m.log[..|before.log|]; }
  }

  /**
   Closing an iterator, at whatever moment, settles every pending `next()` with done and drops what is
   queued; afterwards nothing is accepted or delivered, and each further `next()` is done at once.
   */
  lemma {:induction false} CloseIsFinal<T>(calls: seq<Call<T>>, more: seq<Call<T>>)
    ensures
      var before, m := Run(calls), Run(calls + [Close] + more);
      && m.closed && m.accepted == before.accepted && m.queue == [] && m.waiting == [] && |m.log| == m.tickets
      && |before.log| <= |m.log| && m.log[..|before.log|] == before.log
      && (!before.closed ==> forall i :: |before.log| <= i < |m.log| ==> m.log[i].place == None)
  {
    OverSoon(calls, more);
    hide Run;
  }

  lemma {:induction false} OverSoon<T>(calls: seq<Call<T>>, more: seq<Call<T>>)
    ensures Over(Run(calls), Run(calls + [Close] + more))
  {
    hide Step, Over, Inv, TicketsInv;
    if more == [] {
      assert calls + [Close] + more == calls + [Close] && (calls + [Close])[..|calls|] == calls;
      RunKeeps(calls);
      CloseEnds(Run(calls));
    } else {
      var all, init := calls + [Close] + more, more[..|more| - 1];
      assert all[..|all| - 1] == calls + [Close] + init;
      OverSoon(calls, init);
      StaysOver(Run(calls), Run(calls + [Close] + init), more[|more| - 1]);
    }
  }

  // ---------------------------------------------------------------- the iterator

  /** A promise handed out by `next()` and what it was resolved with; `None` is `done`. */
  datatype Resolution<+T> = Resolution(ticket: nat, value: Option<T>)

  predicate QueueShown<T(==)>(queue: seq<T>, places: seq<nat>, accepted: seq<T>) {
    |queue| == |places| && forall i :: 0 <= i < |queue| ==> places[i] < |accepted| && queue[i] == accepted[places[i]]
  }

  predicate Shows<T(==)>(r: Resolution<T>, s: Settled, accepted: seq<T>) {
    r.ticket == s.ticket &&
    match s.place
    case None => r.value == None
    case Some(place) => place < |accepted| && r.value == Some(accepted[place])
  }

  predicate LogShown<T(==)>(resolved: seq<Resolution<T>>, log: seq<Settled>, accepted: seq<T>) {
    |resolved| == |log| && forall i :: 0 <= i < |resolved| ==> Shows(resolved[i], log[i], accepted)
  }

  lemma Accepting<T>(queue: seq<T>, places: seq<nat>, resolved: seq<Resolution<T>>, log: seq<Settled>,
                     accepted: seq<T>, v: T)
    requires QueueShown(queue, places, accepted) && LogShown(resolved, log, accepted)
    ensures QueueShown(queue, places, accepted + [v]) && LogShown(resolved, log, accepted + [v])
    ensures QueueShown(queue + [v], places + [|accepted|], accepted + [v])
    ensures queue != [] ==> QueueShown(queue[1..] + [v], places[1..] + [|accepted|], accepted + [v])
  {
  }

  lemma Shifting<T>(queue: seq<T>, places: seq<nat>, accepted: seq<T>)
    requires QueueShown(queue, places, accepted)
    ensures |queue| == |places|
    ensures queue != [] ==>
      QueueShown(queue[1..], places[1..], accepted) && places[0] < |accepted| && queue[0] == accepted[places[0]]
  {
  }

  lemma Resolving<T>(resolved: seq<Resolution<T>>, log: seq<Settled>, accepted: seq<T>, r: Resolution<T>, s: Settled)
    requires LogShown(resolved, log, accepted) && Shows(r, s, accepted)
    ensures LogShown(resolved + [r], log + [s], accepted)
  {
  }

  function Ended<T>(tickets: seq<nat>): seq<Resolution<T>> {
    seq(|tickets|, i requires 0 <= i < |tickets| => Resolution(tickets[i], None))
  }

  lemma Ending<T>(resolved: seq<Resolution<T>>, log: seq<Settled>, accepted: seq<T>, tickets: seq<nat>)
    requires LogShown(resolved, log, accepted)
    ensures LogShown(resolved + Ended(tickets), log + Finish(tickets), accepted)
  {
  }

  lemma OneMoreEnded<T>(tickets: seq<nat>, i: nat)
    requires i < |tickets|
    ensures Ended<T>(tickets[..i + 1]) == Ended(tickets[..i]) + [Resolution(tickets[i], None)]
  {
  }

  lemma NoneEnded<T>(tickets: seq<nat>)
    ensures Ended<T>(tickets[..0]) == []
  {
  }

  class PushAsyncIterator<T(==)> {
    var queue: seq<T>
    var waiting: seq<nat>
    var closed: bool
    var nextTicket: nat
    var resolved: seq<Resolution<T>>
    ghost var model: Model<T>

    constructor ()
      ensures Valid() && model == Opened()
    {
      queue, waiting, closed, nextTicket, resolved, model := [], [], false, 0, [], Opened();
    }

    /** The fields hold the values that the model names by place. */
    ghost predicate Valid()
      reads this
    {
      && Inv(model) && TicketsInv(model)
      && waiting == model.waiting && closed == model.closed && nextTicket == model.tickets
      && QueueShown(queue, model.queue, model.accepted) && LogShown(resolved, model.log, model.accepted)
    }

    method PushValue(value: T)
      requires Valid()
      modifies this
      ensures Valid() && model == Step(old(model), Push(value))
    {
      StepKeeps(model, Push(value));
      StepTickets(model, Push(value));
      Accepting(queue, model.queue, resolved, model.log, model.accepted, value);
      Shifting(queue, model.queue, model.accepted);
      hide Inv, TicketsInv, QueueShown, LogShown;
      model := Step(model, Push(value));
      if closed { return; }
      if waiting != [] {
        var outcome := Resolution(waiting[0], Some(value));
        Resolving(resolved, old(model).log, model.accepted, outcome, Settled(waiting[0], Some(|old(model).accepted|)));
        resolved := resolved + [outcome];
        waiting := waiting[1..];
      } else {
        if |queue| >= CAPACITY { queue := queue[1..]; }
        queue := queue + [value];
      }
    }

    method NextValue() returns (ticket: nat)
      requires Valid()
      modifies this
      ensures Valid() && model == Step(old(model), Next) && ticket == old(nextTicket)
    {
      StepKeeps(model, Next);
      StepTickets(model, Next);
      Shifting(queue, model.queue, model.accepted);
      hide Inv, TicketsInv, QueueShown, LogShown;
      model := Step(model, Next);
      ticket, nextTicket := nextTicket, nextTicket + 1;
      if queue != [] {
        var outcome := Resolution(ticket, Some(queue[0]));
        Resolving(resolved, old(model).log, model.accepted, outcome, Settled(ticket, Some(old(model).queue[0])));
        resolved := resolved + [outcome];
        queue := queue[1..];
      } else if closed {
        Resolving(resolved, old(model).log, model.accepted, Resolution(ticket, None), Settled(ticket, None));
        resolved := resolved + [Resolution(ticket, None)];
      } else {
        waiting := waiting + [ticket];
      }
    }

    /** Resolves every pending promise with done. */
    method EndWaiting()
      modifies this`resolved
      ensures resolved == old(resolved) + Ended(waiting)
    {
      hide Ended;
      NoneEnded<T>(waiting);
      AppendNothing(resolved);
      for i := 0 to |waiting|
        invariant resolved == old(resolved) + Ended(waiting[..i])
      {
        OneMoreEnded<T>(waiting, i);
        resolved := resolved + [Resolution(waiting[i], None)];
      }
      assert waiting[..|waiting|] == waiting;
    }

    method CloseIterator()
      requires Valid()
      modifies this
      ensures Valid() && model == Step(old(model), Close)
      ensures closed && (old(closed) || (queue == [] && waiting == []))
    {
      StepKeeps(model, Close);
      StepTickets(model, Close);
      Ending(resolved, model.log, model.accepted, waiting);
      assert QueueShown([], [], model.accepted);
      hide Inv, TicketsInv, QueueShown, LogShown, Ended, Finish;
      model := Step(model, Close);
      if closed { return; }
      closed := true;
      EndWaiting();
      waiting, queue := [], [];
    }
  }
}
