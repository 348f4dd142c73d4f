/**
 From the outbox to the notification inbox: the booking outbox and its relays, one work queue
 with its retry and dead-letter queues, and workers whose channel may close while a handler is
 still running. The queue is bound before anything is published; queue order is not modelled.
 */
module RabbitPipeline {
  import opened Prelude
  import opened Bookings
  import opened OutboxRelay

  type Tag = nat

  /** One copy of a message in RabbitMQ; `retries` is its `x-retry-count` header. */
  datatype Copy = Copy(event: Event, retries: nat)

  datatype Progress =
    | Received
    | NotSeen            // hasProcessed answered no; the recipient is being fetched
    | Recording(skip: bool)
    | Handled            // the handler returned; about to ack
    | Failed             // the handler threw; about to publish a copy elsewhere
    | Republished        // the broker took that copy; about to ack the message

  /** A message handed to a worker. While its channel is open the broker still holds it, unacked. */
  datatype Delivery = Delivery(copy: Copy, progress: Progress, open: bool)

  datatype InboxRow = InboxRow(eventId: Uuid, bookingId: Uuid)

  datatype Pipeline = Pipeline(
    outbox: Outbox<OutboxRow>,
    main: multiset<Copy>, waiting: multiset<Copy>, deadLetters: multiset<Copy>,
    deliveries: map<Tag, Delivery>,
    inbox: seq<InboxRow>, emails: seq<Uuid>)   // a booking id for every row of email_delivery_logs

  datatype Happening =
    | Relaying(step: OutboxRelay.Step<OutboxRow>)
    | Deliver(tag: Tag, copy: Copy)
    | LookUp(tag: Tag)                       // hasProcessed
    | RecipientFound(tag: Tag, cancelled: bool)
    | Record(tag: Tag, answered: bool)       // the transaction may commit although its answer is lost
    | Throw(tag: Tag)                        // a lookup, a call or a rolled-back transaction fails
    | Republish(tag: Tag)
    | Ack(tag: Tag)
    | ChannelCloses(tag: Tag)                // the broker takes the unacked message back
    | WorkerEnds(tag: Tag)                   // the process holding a closed channel dies or gives up
    | RetryDue(copy: Copy)

  // ---------------------------------------------------------------- steps

  /** The copies RabbitMQ routes to the work queue: BookingPaid rows bound for it. */
  predicate Routed(row: OutboxRow) {
    row.target == Target(RABBITMQ, BOOKING_DOMAIN_EXCHANGE, RoutingKey("booking.paid.v1"))
  }

  function Arrivals(outbox: Outbox<OutboxRow>, sent: seq<nat>): multiset<Copy> {
    if sent == [] then multiset{}
    else
      var i := sent[|sent| - 1];
      Arrivals(outbox, sent[..|sent| - 1]) +
      if i < |outbox.rows| && Routed(outbox.rows[i].content) then multiset{Copy(outbox.rows[i].content.event, 0)}
      else multiset{}
  }

  function NewlySent(before: Outbox<OutboxRow>, after: Outbox<OutboxRow>): seq<nat> {
    if |before.sent| <= |after.sent| then after.sent[|before.sent|..] else []
  }

  predicate Processed(inbox: seq<InboxRow>, eventId: Uuid) { exists r :: r in inbox && r.eventId == eventId }

  /** `recordSimulatedEmail` and `recordSkippedEvent`. */
  function RecordRows(p: Pipeline, event: Event, skip: bool): Pipeline {
    if Processed(p.inbox, event.eventId) then p   // ON CONFLICT (event_id) DO NOTHING
    else
      p.(inbox := p.inbox + [InboxRow(event.eventId, event.aggregateId)],
         emails := if skip || event.aggregateId in p.emails then p.emails else p.emails + [event.aggregateId])
  }

  function Goto(p: Pipeline, tag: Tag, progress: Progress): Pipeline
    requires tag in p.deliveries
  {
    p.(deliveries := p.deliveries[tag := p.deliveries[tag].(progress := progress)])
  }

  function Drop(p: Pipeline, tag: Tag): Pipeline { p.(deliveries := p.deliveries - {tag}) }

  /** `routeFailure`: one more retry, or the dead-letter queue once `maxAttempts` is reached. */
  function RepublishStep(p: Pipeline, tag: Tag, maxAttempts: nat): Pipeline
    requires tag in p.deliveries
  {
    var copy := p.deliveries[tag].copy;
    var next := copy.(retries := copy.retries + 1);
    var p2 := Goto(p, tag, Republished);
    if next.retries >= maxAttempts then p2.(deadLetters := p.deadLetters + multiset{next})
    else p2.(waiting := p.waiting + multiset{next})
  }

  predicate At(p: Pipeline, tag: Tag, progress: Progress) {
    tag in p.deliveries && p.deliveries[tag].progress == progress
  }

  function Do(p: Pipeline, h: Happening, c: Config, maxAttempts: nat): Pipeline {
    match h
    case Relaying(step) =>
      var after := OutboxRelay.Do(p.outbox, step, c);
      p.(outbox := after, main := p.main + Arrivals(after, NewlySent(p.outbox, after)))
    case Deliver(tag, copy) =>
      if tag !in p.deliveries && copy in p.main then
        p.(main := p.main - multiset{copy}, deliveries := p.deliveries[tag := Delivery(copy, Received, true)])
      else p
    case LookUp(tag) =>
      if At(p, tag, Received) then
        Goto(p, tag, if Processed(p.inbox, p.deliveries[tag].copy.event.eventId) then Handled else NotSeen)
      else p
    case RecipientFound(tag, cancelled) => if At(p, tag, NotSeen) then Goto(p, tag, Recording(cancelled)) else p
    case Record(tag, answered) =>
      if tag in p.deliveries && p.deliveries[tag].progress.Recording? then
        Goto(RecordRows(p, p.deliveries[tag].copy.event, p.deliveries[tag].progress.skip), tag,
             if answered then Handled else Failed)
      else p
    case Throw(tag) =>
      if tag in p.deliveries
        && (p.deliveries[tag].progress in {Received, NotSeen} || p.deliveries[tag].progress.Recording?)
      then Goto(p, tag, Failed)
      else p
    case Republish(tag) =>
      if At(p, tag, Failed) && p.deliveries[tag].open then RepublishStep(p, tag, maxAttempts) else p
    case Ack(tag) =>
      if tag in p.deliveries && p.deliveries[tag].open && p.deliveries[tag].progress in {Handled, Republished}
      then Drop(p, tag) else p
    case ChannelCloses(tag) =>
      if tag in p.deliveries && p.deliveries[tag].open then
        p.(main := p.main + multiset{p.deliveries[tag].copy},
           deliveries := p.deliveries[tag := p.deliveries[tag].(open := false)])
      else p
    case WorkerEnds(tag) => if tag in p.deliveries && !p.deliveries[tag].open then Drop(p, tag) else p
    case RetryDue(copy) =>
      if copy in p.waiting then p.(waiting := p.waiting - multiset{copy}, main := p.main + multiset{copy}) else p
  }

  function Run(p: Pipeline, events: seq<Happening>, c: Config, maxAttempts: nat): Pipeline {
    if events == [] then p
    else Do(Run(p, events[..|events| - 1], c, maxAttempts), events[|events| - 1], c, maxAttempts)
  }

  function Idle(now: int): Pipeline {
    Pipeline(OutboxRelay.Empty(now), multiset{}, multiset{}, multiset{}, map[], [], [])
  }

  // ---------------------------------------------------------------- nothing is lost

  predicate Queued(copies: multiset<Copy>, eventId: Uuid) {
    exists k :: k in copies && k.event.eventId == eventId
  }

  /** An unacked message that its worker will not ack before the event is safe elsewhere. */
  predicate HeldBy(d: Delivery, eventId: Uuid) {
    d.open && d.copy.event.eventId == eventId && d.progress != Republished
  }

  predicate Held(p: Pipeline, eventId: Uuid) {
    exists tag :: tag in p.deliveries && HeldBy(p.deliveries[tag], eventId)
  }

  /** The event is in the inbox, in one of the three queues, or unacked. */
  predicate Safe(p: Pipeline, eventId: Uuid) {
    || Processed(p.inbox, eventId)
    || Queued(p.main, eventId) || Queued(p.waiting, eventId) || Queued(p.deadLetters, eventId)
    || Held(p, eventId)
  }

  predicate SentIsSafe(p: Pipeline, i: nat) {
    i in p.outbox.sent && i < |p.outbox.rows| && Routed(p.outbox.rows[i].content) ==>
      Safe(p, p.outbox.rows[i].content.event.eventId)
  }

  predicate HandledIsProcessed(p: Pipeline, tag: Tag) {
    At(p, tag, Handled) ==> Processed(p.inbox, p.deliveries[tag].copy.event.eventId)
  }

  predicate Deduplicated(p: Pipeline) {
    && (forall i, j :: 0 <= i < j < |p.inbox| ==> p.inbox[i].eventId != p.inbox[j].eventId)
    && Distinct(p.emails)
    && (forall b :: b in p.emails ==> exists r :: r in p.inbox && r.bookingId == b)
  }

  predicate Between(copies: multiset<Copy>, low: nat, high: nat) {
    forall k :: k in copies ==> low <= k.retries < high
  }

  predicate HandedOut(deliveries: map<Tag, Delivery>, maxAttempts: nat) {
    forall t :: t in deliveries ==> deliveries[t].copy.retries < maxAttempts
  }

  /** A copy is retried fewer than `maxAttempts` times; the dead-letter queue holds those at the limit. */
  predicate RetriesOk(p: Pipeline, maxAttempts: nat) {
    && Between(p.main, 0, maxAttempts) && Between(p.waiting, 0, maxAttempts)
    && Between(p.deadLetters, maxAttempts, maxAttempts + 1)
    && HandedOut(p.deliveries, maxAttempts)
  }

  ghost predicate Inv(p: Pipeline, c: Config, maxAttempts: nat) {
    && OutboxRelay.Inv(p.outbox, c)
    && (forall i :: i in p.outbox.sent ==> i < |p.outbox.rows|)
    && (forall i {:trigger SentIsSafe(p, i)} :: SentIsSafe(p, i))
    && (forall t {:trigger HandledIsProcessed(p, t)} :: HandledIsProcessed(p, t))
    && Deduplicated(p) && RetriesOk(p, maxAttempts)
  }

  lemma {:induction false} ArrivalOf(outbox: Outbox<OutboxRow>, sent: seq<nat>, i: nat)
    requires i in sent && i < |outbox.rows| && Routed(outbox.rows[i].content)
    ensures Copy(outbox.rows[i].content.event, 0) in Arrivals(outbox, sent)
  {
    if sent[|sent| - 1] != i {
      ArrivalOf(outbox, sent[..|sent| - 1], i);
    }
  }

  lemma {:induction false} ArrivalsAreNew(outbox: Outbox<OutboxRow>, sent: seq<nat>)
    ensures Between(Arrivals(outbox, sent), 0, 1)
  {
    if sent != [] { ArrivalsAreNew(outbox, sent[..|sent| - 1]); }
  }

  // ---------------------------------------------------------------- every step keeps it

  lemma Moved(from: multiset<Copy>, copy: Copy, eventId: Uuid)
    requires Queued(from, eventId) && copy.event.eventId != eventId
    ensures Queued(from - multiset{copy}, eventId)
  {
    var k :| k in from && k.event.eventId == eventId;
    assert k in from - multiset{copy};
  }

  lemma Added(queue: multiset<Copy>, more: multiset<Copy>, eventId: Uuid)
    ensures Queued(queue, eventId) || Queued(more, eventId) ==> Queued(queue + more, eventId)
  {
    if Queued(queue, eventId) {
      var k :| k in queue && k.event.eventId == eventId;
      assert k in queue + more;
    }
    if Queued(more, eventId) {
      var k :| k in more && k.event.eventId == eventId;
      assert k in queue + more;
    }
  }

  lemma StillHeld(p: Pipeline, p2: Pipeline, tag: Tag, eventId: Uuid)
    requires Held(p, eventId)
    requires forall t :: t in p.deliveries && t != tag ==> t in p2.deliveries && p2.deliveries[t] == p.deliveries[t]
    requires tag in p.deliveries && HeldBy(p.deliveries[tag], eventId) ==>
      (tag in p2.deliveries && HeldBy(p2.deliveries[tag], eventId)) || Safe(p2, eventId)
    ensures Safe(p2, eventId)
  {
    var t :| t in p.deliveries && HeldBy(p.deliveries[t], eventId);
    if t != tag {
      assert t in p2.deliveries && HeldBy(p2.deliveries[t], eventId);
    }
  }

  lemma TakeStays(p: Pipeline, tag: Tag, copy: Copy, eventId: Uuid, c: Config, maxAttempts: nat)
    requires Safe(p, eventId)
    ensures Safe(Do(p, Deliver(tag, copy), c, maxAttempts), eventId)
  {
    var p2 := Do(p, Deliver(tag, copy), c, maxAttempts);
    if p2 != p {
      if copy.event.eventId == eventId {
        assert tag in p2.deliveries && HeldBy(p2.deliveries[tag], eventId);
      } else if Queued(p.main, eventId) {
        Moved(p.main, copy, eventId);
      } else if Held(p, eventId) {
        StillHeld(p, p2, tag, eventId);
      }
    }
  }

  lemma RetryStays(p: Pipeline, copy: Copy, eventId: Uuid, c: Config, maxAttempts: nat)
    requires Safe(p, eventId)
    ensures Safe(Do(p, RetryDue(copy), c, maxAttempts), eventId)
  {
    var p2 := Do(p, RetryDue(copy), c, maxAttempts);
    if copy in p.waiting {
      Added(p.main, multiset{copy}, eventId);
      if copy.event.eventId == eventId {
        assert copy in multiset{copy};
      } else if Queued(p.waiting, eventId) {
        Moved(p.waiting, copy, eventId);
      } else if Held(p, eventId) {
        StillHeld(p, p2, 0, eventId);
      }
    }
  }

  lemma CloseStays(p: Pipeline, tag: Tag, eventId: Uuid, c: Config, maxAttempts: nat)
    requires Safe(p, eventId)
    ensures Safe(Do(p, ChannelCloses(tag), c, maxAttempts), eventId)
  {
    var p2 := Do(p, ChannelCloses(tag), c, maxAttempts);
    if p2 != p {
      var copy := p.deliveries[tag].copy;
      Added(p.main, multiset{copy}, eventId);
      if copy.event.eventId == eventId {
        assert copy in multiset{copy};
      } else if Held(p, eventId) {
        StillHeld(p, p2, tag, eventId);
      }
    }
  }

  lemma QueuedAlone(copy: Copy)
    ensures Queued(multiset{copy}, copy.event.eventId)
  {
    assert copy in multiset{copy};
  }

  lemma RepublishStays(p: Pipeline, tag: Tag, eventId: Uuid, c: Config, maxAttempts: nat)
    requires Safe(p, eventId)
    ensures Safe(Do(p, Republish(tag), c, maxAttempts), eventId)
  {
    Republishes(p, tag, c, maxAttempts);
    hide Do, Processed, Queued;
    var p2 := Do(p, Republish(tag), c, maxAttempts);
    if p2 != p {
      var next := p.deliveries[tag].copy.(retries := p.deliveries[tag].copy.retries + 1);
      Added(p.waiting, multiset{next}, eventId);
      Added(p.deadLetters, multiset{next}, eventId);
      if next.event.eventId == eventId {
        QueuedAlone(next);
      } else if Held(p, eventId) {
        StillHeld(p, p2, tag, eventId);
      }
    }
  }

  /** Steps that only move one handler along, or remove a delivery nothing depends on. */
  lemma HandlerStays(p: Pipeline, h: Happening, eventId: Uuid, c: Config, maxAttempts: nat)
    requires Safe(p, eventId)
    requires h.LookUp? || h.RecipientFound? || h.Record? || h.Throw? || h.Ack? || h.WorkerEnds?
    requires HandledIsProcessed(p, h.tag)
    ensures Safe(Do(p, h, c, maxAttempts), eventId)
  {
    var p2 := Do(p, h, c, maxAttempts);
    if Processed(p.inbox, eventId) {
      var r :| r in p.inbox && r.eventId == eventId;
      assert r in p2.inbox;
    } else if Held(p, eventId) {
      StillHeld(p, p2, h.tag, eventId);
    }
  }

  lemma SafeStays(p: Pipeline, h: Happening, eventId: Uuid, c: Config, maxAttempts: nat)
    requires Inv(p, c, maxAttempts) && Safe(p, eventId)
    ensures Safe(Do(p, h, c, maxAttempts), eventId)
  {
    hide Safe, Inv;
    match h
    case Relaying(step) => RelayingStays(p, step, eventId, c, maxAttempts);
    case Deliver(tag, copy) => TakeStays(p, tag, copy, eventId, c, maxAttempts);
    case Republish(tag) => RepublishStays(p, tag, eventId, c, maxAttempts);
    case ChannelCloses(tag) => CloseStays(p, tag, eventId, c, maxAttempts);
    case RetryDue(copy) => RetryStays(p, copy, eventId, c, maxAttempts);
    case _ => InvHandled(p, h.tag, c, maxAttempts); HandlerStays(p, h, eventId, c, maxAttempts);
  }

  lemma InvHandled(p: Pipeline, tag: Tag, c: Config, maxAttempts: nat)
    requires Inv(p, c, maxAttempts)
    ensures HandledIsProcessed(p, tag)
  {
  }

  lemma RelayingStays(p: Pipeline, step: OutboxRelay.Step<OutboxRow>, eventId: Uuid, c: Config, maxAttempts: nat)
    requires Safe(p, eventId)
    ensures Safe(Do(p, Relaying(step), c, maxAttempts), eventId)
  {
    var p2 := Do(p, Relaying(step), c, maxAttempts);
    Added(p.main, Arrivals(p2.outbox, NewlySent(p.outbox, p2.outbox)), eventId);
    if Held(p, eventId) {
      var t :| t in p.deliveries && HeldBy(p.deliveries[t], eventId);
      assert t in p2.deliveries && HeldBy(p2.deliveries[t], eventId);
    }
  }

  /** A relay step keeps every row's content and only appends to the log of copies sent. */
  lemma RelayAppends(s: Outbox<OutboxRow>, step: OutboxRelay.Step<OutboxRow>, c: Config)
    requires forall i :: i in s.sent ==> i < |s.rows|
    ensures
      var s2 := OutboxRelay.Do(s, step, c);
      && |s.rows| <= |s2.rows| && (forall i :: 0 <= i < |s.rows| ==> s2.rows[i].content == s.rows[i].content)
      && s2.sent == s.sent + NewlySent(s, s2)
      && (forall i :: i in s2.sent ==> i < |s2.rows|)
  {
    var s2 := OutboxRelay.Do(s, step, c);
    if s2.sent == s.sent {
      assert NewlySent(s, s2) == [];
    } else {
      assert s2.sent == s.sent + [s2.sent[|s.sent|]];
    }
  }

  lemma SentStaysSafe(p: Pipeline, h: Happening, i: nat, c: Config, maxAttempts: nat)
    requires Inv(p, c, maxAttempts)
    ensures SentIsSafe(Do(p, h, c, maxAttempts), i)
  {
    var p2 := Do(p, h, c, maxAttempts);
    assert SentIsSafe(p, i);
    hide Safe, OutboxRelay.Inv, OutboxRelay.Do, Deduplicated, RetriesOk, Routed;
    if h.Relaying? {
      RelayAppends(p.outbox, h.step, c);
      if i in p2.outbox.sent && i < |p2.outbox.rows| && Routed(p2.outbox.rows[i].content) {
        var eventId := p2.outbox.rows[i].content.event.eventId;
        if i in p.outbox.sent {
          SafeStays(p, h, eventId, c, maxAttempts);
        } else {
          Arrived(p, p2, i);
        }
      }
    } else {
      assert p2.outbox == p.outbox;
      if i in p.outbox.sent && i < |p.outbox.rows| && Routed(p.outbox.rows[i].content) {
        SafeStays(p, h, p.outbox.rows[i].content.event.eventId, c, maxAttempts);
      }
    }
  }

  lemma Arrived(p: Pipeline, p2: Pipeline, i: nat)
    requires p2.main == p.main + Arrivals(p2.outbox, NewlySent(p.outbox, p2.outbox))
    requires i in NewlySent(p.outbox, p2.outbox) && i < |p2.outbox.rows| && Routed(p2.outbox.rows[i].content)
    ensures Safe(p2, p2.outbox.rows[i].content.event.eventId)
  {
    ArrivalOf(p2.outbox, NewlySent(p.outbox, p2.outbox), i);
    assert Copy(p2.outbox.rows[i].content.event, 0) in p2.main;
  }

  lemma InboxOnlyGrows(p: Pipeline, h: Happening, eventId: Uuid, c: Config, maxAttempts: nat)
    requires Processed(p.inbox, eventId)
    ensures Processed(Do(p, h, c, maxAttempts).inbox, eventId)
  {
    hide OutboxRelay.Do, Arrivals;
    var r :| r in p.inbox && r.eventId == eventId;
    assert r in Do(p, h, c, maxAttempts).inbox;
  }

  /** Only its own handler's steps change a delivery's progress. */
  lemma {:induction false} OthersProgress(p: Pipeline, h: Happening, tag: Tag, c: Config, maxAttempts: nat)
    requires tag in Do(p, h, c, maxAttempts).deliveries
    requires h.Relaying? || h.RetryDue? || h.Deliver? || h.tag != tag || h.ChannelCloses? || h.WorkerEnds? || h.Ack?
    ensures At(Do(p, h, c, maxAttempts), tag, Handled) ==>
      At(p, tag, Handled) && p.deliveries[tag].copy == Do(p, h, c, maxAttempts).deliveries[tag].copy
  {
    hide OutboxRelay.Do, Arrivals, Processed, RecordRows;
    RecordedElsewhere(p, h);
  }

  lemma RecordedElsewhere(p: Pipeline, h: Happening)
    ensures h.Record? && h.tag in p.deliveries && p.deliveries[h.tag].progress.Recording? ==>
      RecordRows(p, p.deliveries[h.tag].copy.event, p.deliveries[h.tag].progress.skip).deliveries == p.deliveries
  {
  }

  lemma HandledBecause(p: Pipeline, h: Happening, tag: Tag, c: Config, maxAttempts: nat)
    requires At(Do(p, h, c, maxAttempts), tag, Handled)
    ensures tag in p.deliveries && p.deliveries[tag].copy == Do(p, h, c, maxAttempts).deliveries[tag].copy
    ensures
      || p.deliveries[tag].progress == Handled
      || (h == LookUp(tag) && Processed(p.inbox, p.deliveries[tag].copy.event.eventId))
      || (h.Record? && h.tag == tag && p.deliveries[tag].progress.Recording?)
  {
    if h.Relaying? || h.RetryDue? || h.Deliver? || h.tag != tag || h.ChannelCloses? || h.WorkerEnds? || h.Ack? {
      OthersProgress(p, h, tag, c, maxAttempts);
      hide Do;
    } else {
      RecordedElsewhere(p, h);
      hide Processed, RecordRows;
    }
  }

  lemma Recorded(p: Pipeline, tag: Tag, answered: bool, c: Config, maxAttempts: nat)
    requires tag in p.deliveries && p.deliveries[tag].progress.Recording?
    ensures Processed(Do(p, Record(tag, answered), c, maxAttempts).inbox, p.deliveries[tag].copy.event.eventId)
  {
    var p2, e := Do(p, Record(tag, answered), c, maxAttempts), p.deliveries[tag].copy.event;
    if !Processed(p.inbox, e.eventId) {
      assert InboxRow(e.eventId, e.aggregateId) in p2.inbox;
    }
  }

  lemma HandledStays(p: Pipeline, h: Happening, tag: Tag, c: Config, maxAttempts: nat)
    requires HandledIsProcessed(p, tag)
    ensures HandledIsProcessed(Do(p, h, c, maxAttempts), tag)
  {
    hide Do, Processed;
    if At(Do(p, h, c, maxAttempts), tag, Handled) {
      HandledBecause(p, h, tag, c, maxAttempts);
      if h.Record? && h.tag == tag && p.deliveries[tag].progress.Recording? {
        Recorded(p, tag, h.answered, c, maxAttempts);
      } else {
        InboxOnlyGrows(p, h, p.deliveries[tag].copy.event.eventId, c, maxAttempts);
      }
    }
  }

  lemma DeduplicatedStays(p: Pipeline, h: Happening, c: Config, maxAttempts: nat)
    requires Deduplicated(p)
    ensures Deduplicated(Do(p, h, c, maxAttempts))
  {
    hide OutboxRelay.Do, Arrivals;
    var p2 := Do(p, h, c, maxAttempts);
    if h.Record? && p2.inbox != p.inbox {
      var e := p.deliveries[h.tag].copy.event;
      var row := InboxRow(e.eventId, e.aggregateId);
      assert forall r :: r in p.inbox ==> r.eventId != e.eventId;
      forall b | b in p2.emails ensures exists r :: r in p2.inbox && r.bookingId == b {
        if b in p.emails {
          var r :| r in p.inbox && r.bookingId == b;
          assert r in p2.inbox;
        } else {
          assert row in p2.inbox;
        }
      }
    }
  }

  lemma BetweenStays(a: multiset<Copy>, b: multiset<Copy>, low: nat, high: nat)
    ensures Between(a, low, high) && Between(b, low, high) ==> Between(a + b, low, high)
    ensures Between(a, low, high) ==> Between(a - b, low, high)
  {
  }

  lemma Singleton(copy: Copy, low: nat, high: nat)
    ensures Between(multiset{copy}, low, high) <==> low <= copy.retries < high
  {
    assert copy in multiset{copy};
  }

  lemma Taken(copies: multiset<Copy>, copy: Copy, low: nat, high: nat)
    requires Between(copies, low, high) && copy in copies
    ensures Between(multiset{copy}, low, high) && low <= copy.retries < high
  {
  }

  lemma {:induction false} RetriesOfQueues(p: Pipeline, h: Happening, c: Config, maxAttempts: nat)
    requires RetriesOk(p, maxAttempts) && maxAttempts > 0
    requires h.Relaying? || h.Deliver? || h.RetryDue?
    ensures RetriesOk(Do(p, h, c, maxAttempts), maxAttempts)
  {
    hide OutboxRelay.Do, Arrivals, Processed, Between;
    var p2 := Do(p, h, c, maxAttempts);
    if h.Relaying? {
      var more := Arrivals(p2.outbox, NewlySent(p.outbox, p2.outbox));
      ArrivalsAreNew(p2.outbox, NewlySent(p.outbox, p2.outbox));
      Widened(more, maxAttempts);
      BetweenStays(p.main, more, 0, maxAttempts);
    } else if p2 != p {
      Taken(if h.Deliver? then p.main else p.waiting, h.copy, 0, maxAttempts);
      BetweenStays(p.main, multiset{h.copy}, 0, maxAttempts);
      BetweenStays(p.waiting, multiset{h.copy}, 0, maxAttempts);
    }
  }

  lemma {:induction false} Widened(copies: multiset<Copy>, high: nat)
    requires Between(copies, 0, 1) && high > 0
    ensures Between(copies, 0, high)
  {
  }

  lemma {:induction false} RetriesOfRepublish(p: Pipeline, tag: Tag, maxAttempts: nat)
    requires RetriesOk(p, maxAttempts) && tag in p.deliveries
    ensures RetriesOk(RepublishStep(p, tag, maxAttempts), maxAttempts)
  {
    hide Between;
    var next := p.deliveries[tag].copy.(retries := p.deliveries[tag].copy.retries + 1);
    Singleton(next, 0, maxAttempts);
    Singleton(next, maxAttempts, maxAttempts + 1);
    BetweenStays(p.waiting, multiset{next}, 0, maxAttempts);
    BetweenStays(p.deadLetters, multiset{next}, maxAttempts, maxAttempts + 1);
  }

  lemma {:induction false} RetriesOfClose(p: Pipeline, tag: Tag, c: Config, maxAttempts: nat)
    requires RetriesOk(p, maxAttempts)
    ensures RetriesOk(Do(p, ChannelCloses(tag), c, maxAttempts), maxAttempts)
  {
    hide Between;
    if tag in p.deliveries {
      Singleton(p.deliveries[tag].copy, 0, maxAttempts);
      BetweenStays(p.main, multiset{p.deliveries[tag].copy}, 0, maxAttempts);
    }
  }

  lemma {:induction false} RetriesOfHandler(p: Pipeline, h: Happening, c: Config, maxAttempts: nat)
    requires RetriesOk(p, maxAttempts)
    requires h.LookUp? || h.RecipientFound? || h.Record? || h.Throw? || h.Ack? || h.WorkerEnds?
    ensures RetriesOk(Do(p, h, c, maxAttempts), maxAttempts)
  {
    hide Between, Processed;
  }

  lemma {:induction false} Republishes(p: Pipeline, tag: Tag, c: Config, maxAttempts: nat)
    ensures var p2 := Do(p, Republish(tag), c, maxAttempts);
      p2 == p || (tag in p.deliveries && p2 == RepublishStep(p, tag, maxAttempts))
  {
    hide RepublishStep;
  }

  lemma {:induction false} RetriesStay(p: Pipeline, h: Happening, c: Config, maxAttempts: nat)
    requires RetriesOk(p, maxAttempts) && maxAttempts > 0
    ensures RetriesOk(Do(p, h, c, maxAttempts), maxAttempts)
  {
    hide Do, RetriesOk;
    if h.Relaying? || h.Deliver? || h.RetryDue? {
      RetriesOfQueues(p, h, c, maxAttempts);
    } else if h.ChannelCloses? {
      RetriesOfClose(p, h.tag, c, maxAttempts);
    } else if h.Republish? {
      Republishes(p, h.tag, c, maxAttempts);
      if h.tag in p.deliveries { RetriesOfRepublish(p, h.tag, maxAttempts); }
    } else {
      RetriesOfHandler(p, h, c, maxAttempts);
    }
  }

  lemma {:induction false} DoKeeps(p: Pipeline, h: Happening, c: Config, maxAttempts: nat)
    requires Inv(p, c, maxAttempts) && maxAttempts > 0 && c.maxAttempts > 0
    ensures Inv(Do(p, h, c, maxAttempts), c, maxAttempts)
  {
    var p2 := Do(p, h, c, maxAttempts);
    DeduplicatedStays(p, h, c, maxAttempts);
    RetriesStay(p, h, c, maxAttempts);
    hide OutboxRelay.Do, OutboxRelay.Inv, Arrivals, HandledIsProcessed, SentIsSafe, Deduplicated, RetriesOk;
    if h.Relaying? {
      OutboxRelay.DoKeeps(p.outbox, h.step, c);
      RelayAppends(p.outbox, h.step, c);
    }
    forall i ensures SentIsSafe(p2, i) { SentStaysSafe(p, h, i, c, maxAttempts); }
    forall t ensures HandledIsProcessed(p2, t) {
      assert HandledIsProcessed(p, t);
      HandledStays(p, h, t, c, maxAttempts);
    }
  }

  lemma {:induction false} RunKeeps(start: int, events: seq<Happening>, c: Config, maxAttempts: nat)
    requires maxAttempts > 0 && c.maxAttempts > 0
    ensures Inv(Run(Idle(start), events, c, maxAttempts), c, maxAttempts)
  {
    if events == [] {
      EmptyOk<OutboxRow>(start, c);
      forall i ensures SentIsSafe(Idle(start), i) {}
      forall t ensures HandledIsProcessed(Idle(start), t) {}
    } else {
      RunKeeps(start, events[..|events| - 1], c, maxAttempts);
      hide Inv, Do;
      DoKeeps(Run(Idle(start), events[..|events| - 1], c, maxAttempts), events[|events| - 1], c, maxAttempts);
    }
  }

  // ---------------------------------------------------------------- theorems

  /**
   No BookingPaid event is lost, whatever crashes, closes, times out or is delivered twice:
   its outbox row is pending or dead-lettered, or the event is in the inbox, in the work queue,
   in the retry queue, in the dead-letter queue, or unacked.
   */
  lemma {:induction false} NoPaidEventIsLost(start: int, events: seq<Happening>, i: nat, c: Config, maxAttempts: nat)
    requires maxAttempts > 0 && c.maxAttempts > 0
    requires var rows := Run(Idle(start), events, c, maxAttempts).outbox.rows; i < |rows| && Routed(rows[i].content)
    ensures
      var p := Run(Idle(start), events, c, maxAttempts);
      var row := p.outbox.rows[i];
      Live(row) || row.deadLettered || Safe(p, row.content.event.eventId)
  {
    RunKeeps(start, events, c, maxAttempts);
    hide Run, Safe;
    var p := Run(Idle(start), events, c, maxAttempts);
    assert RowOk(p.outbox, i, c);
    assert SentIsSafe(p, i);
  }

  /** However often an event is delivered, it has at most one inbox row, and its booking at most one email. */
  lemma {:induction false} EffectsHappenOnce(start: int, events: seq<Happening>, c: Config, maxAttempts: nat)
    requires maxAttempts > 0 && c.maxAttempts > 0
    ensures
      var p := Run(Idle(start), events, c, maxAttempts);
      && (forall i, j :: 0 <= i < j < |p.inbox| ==> p.inbox[i].eventId != p.inbox[j].eventId)
      && Distinct(p.emails)
      && (forall b :: b in p.emails ==> exists r :: r in p.inbox && r.bookingId == b)
  {
    RunKeeps(start, events, c, maxAttempts);
  }

  /** A message is retried fewer than `maxAttempts` times, and is dead-lettered exactly at the limit. */
  lemma {:induction false} RetriesAreBounded(start: int, events: seq<Happening>, c: Config, maxAttempts: nat)
    requires maxAttempts > 0 && c.maxAttempts > 0
    ensures
      var p := Run(Idle(start), events, c, maxAttempts);
      && (forall k :: k in p.main + p.waiting ==> k.retries < maxAttempts)
      && (forall k :: k in p.deadLetters ==> k.retries == maxAttempts)
      && (forall t :: t in p.deliveries ==> p.deliveries[t].copy.retries < maxAttempts)
  {
    RunKeeps(start, events, c, maxAttempts);
  }
}
