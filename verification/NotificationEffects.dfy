/** What the inbox and the emails of the notification worker record, and that every queued copy can take effect. */
module NotificationEffects {
  import opened Prelude
  import opened Bookings
  import OutboxRelay
  import opened RabbitPipeline

  // ---------------------------------------------------------------- what is on record

  /** At this step a worker's transaction records the event for the first time, with an email or without. */
  predicate Records(p: Pipeline, h: Happening, row: InboxRow, skip: bool) {
    && h.Record? && h.tag in p.deliveries && p.deliveries[h.tag].progress == Recording(skip)
    && row == InboxRow(p.deliveries[h.tag].copy.event.eventId, p.deliveries[h.tag].copy.event.aggregateId)
    && forall r :: r in p.inbox ==> r.eventId != row.eventId
  }

  predicate RecordedIn(start: int, events: seq<Happening>, c: OutboxRelay.Config, maxAttempts: nat,
                       row: InboxRow, skip: bool) {
    exists k :: 0 <= k < |events| && Records(Run(Idle(start), events[..k], c, maxAttempts), events[k], row, skip)
  }

  lemma RecordedStays(start: int, events: seq<Happening>, h: Happening, c: OutboxRelay.Config, maxAttempts: nat,
                      row: InboxRow, skip: bool)
    ensures RecordedIn(start, events + [h], c, maxAttempts, row, skip) <==>
      RecordedIn(start, events, c, maxAttempts, row, skip)
      || Records(Run(Idle(start), events, c, maxAttempts), h, row, skip)
  {
    hide Run, Records;
    var more := events + [h];
    assert more[..|events|] == events;
    if RecordedIn(start, events, c, maxAttempts, row, skip) {
      var k :| 0 <= k < |events| && Records(Run(Idle(start), events[..k], c, maxAttempts), events[k], row, skip);
      assert more[..k] == events[..k] && more[k] == events[k];
    }
    if Records(Run(Idle(start), events, c, maxAttempts), h, row, skip) {
      assert more[|events|] == h;
    }
    if RecordedIn(start, more, c, maxAttempts, row, skip) {
      var k :| 0 <= k < |more| && Records(Run(Idle(start), more[..k], c, maxAttempts), more[k], row, skip);
      if k < |events| { assert more[..k] == events[..k] && more[k] == events[k]; }
    }
  }

  /** What one step adds to the two tables. */
  lemma StepRecords(p: Pipeline, h: Happening, c: OutboxRelay.Config, maxAttempts: nat)
    ensures
      var p2 := Do(p, h, c, maxAttempts);
      && (forall row :: row in p2.inbox <==> row in p.inbox || Records(p, h, row, false) || Records(p, h, row, true))
      && forall b :: b in p2.emails <==> b in p.emails || exists row :: Records(p, h, row, false) && row.bookingId == b
  {
    hide OutboxRelay.Do, Arrivals, NewlySent;
    var p2 := Do(p, h, c, maxAttempts);
    if h.Record? && h.tag in p.deliveries && p.deliveries[h.tag].progress.Recording? {
      var event := p.deliveries[h.tag].copy.event;
      var row := InboxRow(event.eventId, event.aggregateId);
      if !Processed(p.inbox, event.eventId) {
        assert Records(p, h, row, p.deliveries[h.tag].progress.skip);
      }
    }
  }

  /**
   In every run an inbox row is there exactly when some transaction recorded its event, and a booking
   has an email exactly when one of those transactions was not told to skip it.
   */
  lemma {:induction false} TablesTellRecordings(start: int, events: seq<Happening>, c: OutboxRelay.Config,
                                                maxAttempts: nat)
    ensures
      var p := Run(Idle(start), events, c, maxAttempts);
      && (forall row :: row in p.inbox <==>
            || RecordedIn(start, events, c, maxAttempts, row, false)
            || RecordedIn(start, events, c, maxAttempts, row, true))
      && forall b :: b in p.emails <==>
           exists row :: RecordedIn(start, events, c, maxAttempts, row, false) && row.bookingId == b
  {
    if events == [] {
      assert forall row, skip :: !RecordedIn(start, [], c, maxAttempts, row, skip);
    } else {
      var init, h := events[..|events| - 1], events[|events| - 1];
      assert events == init + [h];
      TablesTellRecordings(start, init, c, maxAttempts);
      StepRecords(Run(Idle(start), init, c, maxAttempts), h, c, maxAttempts);
      forall row, skip
        ensures RecordedIn(start, events, c, maxAttempts, row, skip) <==>
          RecordedIn(start, init, c, maxAttempts, row, skip)
          || Records(Run(Idle(start), init, c, maxAttempts), h, row, skip)
      {
        RecordedStays(start, init, h, c, maxAttempts, row, skip);
      }
      hide Do, Records, RecordedIn;
      var p, p2 := Run(Idle(start), init, c, maxAttempts), Run(Idle(start), events, c, maxAttempts);
      forall b ensures b in p2.emails <==>
        exists row :: RecordedIn(start, events, c, maxAttempts, row, false) && row.bookingId == b
      {
        if b in p2.emails {
          if b in p.emails {
            var row :| RecordedIn(start, init, c, maxAttempts, row, false) && row.bookingId == b;
            assert RecordedIn(start, events, c, maxAttempts, row, false);
          } else {
            var row :| Records(p, h, row, false) && row.bookingId == b;
            assert RecordedIn(start, events, c, maxAttempts, row, false);
          }
        }
        if row :| RecordedIn(start, events, c, maxAttempts, row, false) && row.bookingId == b {
          assert RecordedIn(start, init, c, maxAttempts, row, false) || Records(p, h, row, false);
        }
      }
    }
  }

  // ---------------------------------------------------------------- a queued copy can take effect

  lemma {:induction false} OneMoreHappening(p: Pipeline, events: seq<Happening>, h: Happening, c: OutboxRelay.Config,
                                            maxAttempts: nat)
    ensures Run(p, events + [h], c, maxAttempts) == Do(Run(p, events, c, maxAttempts), h, c, maxAttempts)
  {
    assert (events + [h])[..|events|] == events;
  }

  /** One worker's handling of one message, undisturbed. */
  function Handling(tag: Tag, copy: Copy, cancelled: bool): seq<Happening> {
    [Deliver(tag, copy)] + [LookUp(tag)] + [RecipientFound(tag, cancelled)] + [Record(tag, true)] + [Ack(tag)]
  }

  /** The message is gone, its event is on record, and its booking has an email unless it was cancelled. */
  predicate TookEffect(p: Pipeline, p2: Pipeline, copy: Copy, cancelled: bool) {
    var e := copy.event;
    && p2.main == p.main - multiset{copy} && p2.waiting == p.waiting && p2.deadLetters == p.deadLetters
    && p2.deliveries == p.deliveries && p2.outbox == p.outbox
    && if exists r :: r in p.inbox && r.eventId == e.eventId then p2.inbox == p.inbox && p2.emails == p.emails
       else
         && p2.inbox == p.inbox + [InboxRow(e.eventId, e.aggregateId)]
         && p2.emails == p.emails + (if cancelled || e.aggregateId in p.emails then [] else [e.aggregateId])
  }

  lemma {:induction false} QueuedCopyTakesEffect(p: Pipeline, tag: Tag, copy: Copy, cancelled: bool,
                                                 c: OutboxRelay.Config, maxAttempts: nat)
    requires copy in p.main && tag !in p.deliveries
    ensures TookEffect(p, Run(p, Handling(tag, copy, cancelled), c, maxAttempts), copy, cancelled)
  {
    HandlingRun(p, tag, copy, cancelled, c, maxAttempts);
    HandledStep(p, tag, copy, cancelled, c, maxAttempts);
    hide Run, TookEffect;
  }

  lemma {:induction false} HandlingRun(p: Pipeline, tag: Tag, copy: Copy, cancelled: bool, c: OutboxRelay.Config,
                                       maxAttempts: nat)
    ensures
      var p1 := Do(p, Deliver(tag, copy), c, maxAttempts);
      var p2 := Do(Do(p1, LookUp(tag), c, maxAttempts), RecipientFound(tag, cancelled), c, maxAttempts);
      Run(p, Handling(tag, copy, cancelled), c, maxAttempts) ==
        Do(Do(p2, Record(tag, true), c, maxAttempts), Ack(tag), c, maxAttempts)
  {
    hide Do;
    var a := [Deliver(tag, copy)];
    OneMoreHappening(p, [], Deliver(tag, copy), c, maxAttempts);
    assert [] + a == a;
    OneMoreHappening(p, a, LookUp(tag), c, maxAttempts);
    OneMoreHappening(p, a + [LookUp(tag)], RecipientFound(tag, cancelled), c, maxAttempts);
    var b := a + [LookUp(tag)] + [RecipientFound(tag, cancelled)];
    OneMoreHappening(p, b, Record(tag, true), c, maxAttempts);
    OneMoreHappening(p, b + [Record(tag, true)], Ack(tag), c, maxAttempts);
  }

  lemma HandledStep(p: Pipeline, tag: Tag, copy: Copy, cancelled: bool, c: OutboxRelay.Config, maxAttempts: nat)
    requires copy in p.main && tag !in p.deliveries
    ensures
      var p1 := Do(p, Deliver(tag, copy), c, maxAttempts);
      var p2 := Do(Do(p1, LookUp(tag), c, maxAttempts), RecipientFound(tag, cancelled), c, maxAttempts);
      TookEffect(p, Do(Do(p2, Record(tag, true), c, maxAttempts), Ack(tag), c, maxAttempts), copy, cancelled)
  {
    hide Do, Processed;
    Takes(p, tag, copy, c, maxAttempts);
    var p1 := Do(p, Deliver(tag, copy), c, maxAttempts);
    LooksUp(p1, tag, c, maxAttempts);
    var p2 := Do(p1, LookUp(tag), c, maxAttempts);
    HearsRecipient(p2, tag, cancelled, c, maxAttempts);
    var p3 := Do(p2, RecipientFound(tag, cancelled), c, maxAttempts);
    RecordsEvent(p3, tag, c, maxAttempts);
    var p4 := Do(p3, Record(tag, true), c, maxAttempts);
    Acks(p4, tag, c, maxAttempts);
    Replaced(p.deliveries, tag, p4.deliveries);
    ProcessedMeans(p, copy.event.eventId);
  }

  lemma ProcessedMeans(p: Pipeline, eventId: Uuid)
    ensures Processed(p.inbox, eventId) <==> exists r :: r in p.inbox && r.eventId == eventId
  {
  }

  lemma Replaced(before: map<Tag, Delivery>, tag: Tag, after: map<Tag, Delivery>)
    requires tag !in before && after.Keys == before.Keys + {tag}
    requires forall t :: t in before ==> after[t] == before[t]
    ensures after - {tag} == before
  {
  }

  lemma Takes(p: Pipeline, tag: Tag, copy: Copy, c: OutboxRelay.Config, maxAttempts: nat)
    requires copy in p.main && tag !in p.deliveries
    ensures Do(p, Deliver(tag, copy), c, maxAttempts) ==
      p.(main := p.main - multiset{copy}, deliveries := p.deliveries[tag := Delivery(copy, Received, true)])
  {
  }

  lemma LooksUp(p: Pipeline, tag: Tag, c: OutboxRelay.Config, maxAttempts: nat)
    requires tag in p.deliveries && p.deliveries[tag].progress == Received
    ensures Do(p, LookUp(tag), c, maxAttempts) ==
      Goto(p, tag, if Processed(p.inbox, p.deliveries[tag].copy.event.eventId) then Handled else NotSeen)
  {
    hide Processed;
  }

  lemma HearsRecipient(p: Pipeline, tag: Tag, cancelled: bool, c: OutboxRelay.Config, maxAttempts: nat)
    requires tag in p.deliveries && p.deliveries[tag].progress in {NotSeen, Handled}
    ensures Do(p, RecipientFound(tag, cancelled), c, maxAttempts) ==
      if p.deliveries[tag].progress == NotSeen then Goto(p, tag, Recording(cancelled)) else p
  {
  }

  lemma RecordsEvent(p: Pipeline, tag: Tag, c: OutboxRelay.Config, maxAttempts: nat)
    requires tag in p.deliveries && (p.deliveries[tag].progress.Recording? || p.deliveries[tag].progress == Handled)
    ensures
      var d := p.deliveries[tag];
      Do(p, Record(tag, true), c, maxAttempts) ==
        if d.progress.Recording? then Goto(RecordRows(p, d.copy.event, d.progress.skip), tag, Handled) else p
  {
    hide RecordRows;
  }

  lemma Acks(p: Pipeline, tag: Tag, c: OutboxRelay.Config, maxAttempts: nat)
    requires tag in p.deliveries && p.deliveries[tag].open && p.deliveries[tag].progress in {Handled, Republished}
    ensures Do(p, Ack(tag), c, maxAttempts) == p.(deliveries := p.deliveries - {tag})
  {
  }

  lemma Fails(p: Pipeline, tag: Tag, c: OutboxRelay.Config, maxAttempts: nat)
    requires tag in p.deliveries && p.deliveries[tag].progress == Received
    ensures Do(p, Throw(tag), c, maxAttempts) == Goto(p, tag, Failed)
  {
  }

  lemma SendsOn(p: Pipeline, tag: Tag, c: OutboxRelay.Config, maxAttempts: nat)
    requires tag in p.deliveries && p.deliveries[tag].progress == Failed && p.deliveries[tag].open
    ensures Do(p, Republish(tag), c, maxAttempts) == RepublishStep(p, tag, maxAttempts)
  {
    hide RepublishStep;
  }

  /** A handler that fails sends its message on with one more retry, to wait or to the dead letters. */
  function Failing(tag: Tag, copy: Copy): seq<Happening> {
    [Deliver(tag, copy)] + [Throw(tag)] + [Republish(tag)] + [Ack(tag)]
  }

  lemma {:induction false} FailedCopyMovesOn(p: Pipeline, tag: Tag, copy: Copy, c: OutboxRelay.Config,
                                             maxAttempts: nat)
    requires copy in p.main && tag !in p.deliveries
    ensures
      var p2, next := Run(p, Failing(tag, copy), c, maxAttempts), Copy(copy.event, copy.retries + 1);
      && p2.main == p.main - multiset{copy} && p2.deliveries == p.deliveries
      && p2.inbox == p.inbox && p2.emails == p.emails
      && (if copy.retries + 1 < maxAttempts
          then p2.waiting == p.waiting + multiset{next} && p2.deadLetters == p.deadLetters
          else p2.waiting == p.waiting && p2.deadLetters == p.deadLetters + multiset{next})
  {
    FailingRun(p, tag, copy, c, maxAttempts);
    FailedStep(p, tag, copy, c, maxAttempts);
    hide Run, Do;
  }

  lemma {:induction false} FailingRun(p: Pipeline, tag: Tag, copy: Copy, c: OutboxRelay.Config, maxAttempts: nat)
    ensures
      var p1 := Do(Do(p, Deliver(tag, copy), c, maxAttempts), Throw(tag), c, maxAttempts);
      Run(p, Failing(tag, copy), c, maxAttempts) ==
        Do(Do(p1, Republish(tag), c, maxAttempts), Ack(tag), c, maxAttempts)
  {
    hide Do;
    var a := [Deliver(tag, copy)];
    OneMoreHappening(p, [], Deliver(tag, copy), c, maxAttempts);
    assert [] + a == a;
    OneMoreHappening(p, a, Throw(tag), c, maxAttempts);
    OneMoreHappening(p, a + [Throw(tag)], Republish(tag), c, maxAttempts);
    OneMoreHappening(p, a + [Throw(tag)] + [Republish(tag)], Ack(tag), c, maxAttempts);
  }

  lemma FailedStep(p: Pipeline, tag: Tag, copy: Copy, c: OutboxRelay.Config, maxAttempts: nat)
    requires copy in p.main && tag !in p.deliveries
    ensures
      var p1 := Do(Do(p, Deliver(tag, copy), c, maxAttempts), Throw(tag), c, maxAttempts);
      var p2 := Do(Do(p1, Republish(tag), c, maxAttempts), Ack(tag), c, maxAttempts);
      var next := Copy(copy.event, copy.retries + 1);
      && p2.main == p.main - multiset{copy} && p2.deliveries == p.deliveries
      && p2.inbox == p.inbox && p2.emails == p.emails
      && (if copy.retries + 1 < maxAttempts
          then p2.waiting == p.waiting + multiset{next} && p2.deadLetters == p.deadLetters
          else p2.waiting == p.waiting && p2.deadLetters == p.deadLetters + multiset{next})
  {
    hide Do;
    Takes(p, tag, copy, c, maxAttempts);
    var p1 := Do(p, Deliver(tag, copy), c, maxAttempts);
    Fails(p1, tag, c, maxAttempts);
    var p2 := Do(p1, Throw(tag), c, maxAttempts);
    SendsOn(p2, tag, c, maxAttempts);
    var p3 := Do(p2, Republish(tag), c, maxAttempts);
    Acks(p3, tag, c, maxAttempts);
    Replaced(p.deliveries, tag, p3.deliveries);
  }

  /** A copy that failed once, and not for the last time, comes back and can still take effect. */
  lemma {:induction false} FailedCopyCanStillTakeEffect(p: Pipeline, tag: Tag, copy: Copy, cancelled: bool,
                                                        c: OutboxRelay.Config, maxAttempts: nat)
    requires copy in p.main && tag !in p.deliveries && copy.retries + 1 < maxAttempts
    ensures
      var p2, next := Run(p, Failing(tag, copy), c, maxAttempts), Copy(copy.event, copy.retries + 1);
      var p3 := Do(p2, RetryDue(next), c, maxAttempts);
      && next in p3.main && tag !in p3.deliveries
      && TookEffect(p3, Run(p3, Handling(tag, next, cancelled), c, maxAttempts), next, cancelled)
  {
    FailedCopyMovesOn(p, tag, copy, c, maxAttempts);
    var p2, next := Run(p, Failing(tag, copy), c, maxAttempts), Copy(copy.event, copy.retries + 1);
    hide Run, TookEffect;
    Returns(p2, next, c, maxAttempts);
    QueuedCopyTakesEffect(Do(p2, RetryDue(next), c, maxAttempts), tag, next, cancelled, c, maxAttempts);
  }

  lemma Returns(p: Pipeline, copy: Copy, c: OutboxRelay.Config, maxAttempts: nat)
    requires copy in p.waiting
    ensures Do(p, RetryDue(copy), c, maxAttempts) ==
      p.(waiting := p.waiting - multiset{copy}, main := p.main + multiset{copy})
  {
  }

  /** Once a handler has returned, or its message has been sent on, all that is left to do is the ack. */
  lemma HandledIsOnlyAcked(p: Pipeline, h: Happening, tag: Tag, c: OutboxRelay.Config, maxAttempts: nat)
    requires tag in p.deliveries && p.deliveries[tag].progress in {Handled, Republished}
    ensures
      var p2 := Do(p, h, c, maxAttempts);
      tag in p2.deliveries ==>
        p2.deliveries[tag].progress == p.deliveries[tag].progress && p2.deliveries[tag].copy == p.deliveries[tag].copy
  {
    RecordedElsewhere(p, h);
    if h.Republish? {
      SendsOther(p, h.tag, tag, c, maxAttempts);
    } else {
      MovesOther(p, h, tag, c, maxAttempts);
    }
    hide Do;
  }

  lemma SendsOther(p: Pipeline, other: Tag, tag: Tag, c: OutboxRelay.Config, maxAttempts: nat)
    requires tag in p.deliveries && p.deliveries[tag].progress in {Handled, Republished}
    ensures var p2 := Do(p, Republish(other), c, maxAttempts);
      tag in p2.deliveries && p2.deliveries[tag] == p.deliveries[tag]
  {
  }

  lemma MovesOther(p: Pipeline, h: Happening, tag: Tag, c: OutboxRelay.Config, maxAttempts: nat)
    requires tag in p.deliveries && p.deliveries[tag].progress in {Handled, Republished} && !h.Republish?
    requires h.Record? && h.tag in p.deliveries && p.deliveries[h.tag].progress.Recording? ==>
      RecordRows(p, p.deliveries[h.tag].copy.event, p.deliveries[h.tag].progress.skip).deliveries == p.deliveries
    ensures
      var p2 := Do(p, h, c, maxAttempts);
      tag in p2.deliveries ==>
        p2.deliveries[tag].progress == p.deliveries[tag].progress && p2.deliveries[tag].copy == p.deliveries[tag].copy
  {
    hide OutboxRelay.Do, Arrivals, NewlySent, Processed, RecordRows, RepublishStep;
  }
}
