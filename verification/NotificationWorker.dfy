/** The notification worker as it runs: the inbox check, the recording transaction, and what becomes of a message. */
module NotificationWorker {
  import opened Prelude
  import opened Bookings
  import opened OutboxRelay
  import opened RabbitPipeline

  /** The booking service's answer about a recipient. */
  datatype Recipient = Recipient(bookingId: Uuid, cancelled: bool)

  class Worker {
    const maxAttempts: nat
    var inbox: seq<InboxRow>
    var emails: seq<Uuid>
    var waiting: multiset<Copy>
    var deadLetters: multiset<Copy>

    constructor (maxAttempts: nat)
      ensures this.maxAttempts == maxAttempts && inbox == [] && emails == []
      ensures waiting == multiset{} && deadLetters == multiset{}
    {
      this.maxAttempts, inbox, emails, waiting, deadLetters := maxAttempts, [], [], multiset{}, multiset{};
    }

    /** The worker's tables and queues, in an otherwise empty pipeline. */
    function View(): Pipeline
      reads this
    {
      Idle(0).(inbox := inbox, emails := emails, waiting := waiting, deadLetters := deadLetters)
    }

    method HasProcessed(eventId: Uuid) returns (found: bool)
      ensures found <==> Processed(inbox, eventId)
    {
      found := exists r :: r in inbox && r.eventId == eventId;
    }

    method RecordSimulatedEmail(event: Event) returns (inserted: bool)
      modifies this
      ensures View() == RecordRows(old(View()), event, false)
      ensures inserted <==> !Processed(old(inbox), event.eventId)
    {
      inserted := !Processed(inbox, event.eventId);
      if !inserted { return; }
      inbox := inbox + [InboxRow(event.eventId, event.aggregateId)];
      if event.aggregateId !in emails { emails := emails + [event.aggregateId]; }
    }

    method RecordSkippedEvent(event: Event)
      modifies this
      ensures View() == RecordRows(old(View()), event, true)
    {
      if !Processed(inbox, event.eventId) {
        inbox := inbox + [InboxRow(event.eventId, event.aggregateId)];
      }
    }

    /** `processBookingPaid`; `reply` is the recipient lookup's answer, or `None` when it fails. */
    method ProcessBookingPaid(event: Event, reply: Option<Recipient>) returns (threw: bool)
      modifies this
      ensures threw <==>
        !Processed(old(inbox), event.eventId) && (reply == None || reply.value.bookingId != event.aggregateId)
      ensures View() ==
        if threw then old(View()) else RecordRows(old(View()), event, reply.Some? && reply.value.cancelled)
    {
      var done := HasProcessed(event.eventId);
      if done { return false; }
      if reply == None || reply.value.bookingId != event.aggregateId { return true; }
      if reply.value.cancelled {
        RecordSkippedEvent(event);
      } else {
        var _ := RecordSimulatedEmail(event);
      }
      return false;
    }

    /** `routeFailure`: the copy goes to the retry queue, or to the dead-letter queue at the limit. */
    method RouteFailure(copy: Copy)
      modifies this
      ensures
        var p := old(View()).(deliveries := map[0 := Delivery(copy, Failed, true)]);
        View() == RepublishStep(p, 0, maxAttempts).(deliveries := map[])
    {
      var nextAttempt := copy.retries + 1;
      var next := copy.(retries := nextAttempt);
      if nextAttempt >= maxAttempts {
        deadLetters := deadLetters + multiset{next};
      } else {
        waiting := waiting + multiset{next};
      }
    }

    /** `consume`: the message takes effect once, or moves on with one more retry; it is acked in both cases. */
    method Consume(copy: Copy, reply: Option<Recipient>) returns (handled: bool)
      modifies this
      ensures handled <==>
        Processed(old(inbox), copy.event.eventId) || (reply.Some? && reply.value.bookingId == copy.event.aggregateId)
      ensures handled ==> View() == RecordRows(old(View()), copy.event, reply.Some? && reply.value.cancelled)
      ensures handled ==>
        Processed(inbox, copy.event.eventId) && waiting == old(waiting) && deadLetters == old(deadLetters)
      ensures !handled ==> inbox == old(inbox) && emails == old(emails)
      ensures !handled ==>
        var next := copy.(retries := copy.retries + 1);
        if next.retries >= maxAttempts then deadLetters == old(deadLetters) + multiset{next} && waiting == old(waiting)
        else waiting == old(waiting) + multiset{next} && deadLetters == old(deadLetters)
    {
      ghost var before := View();
      var threw := ProcessBookingPaid(copy.event, reply);
      handled := !threw;
      if threw {
        assert View() == before;
        RouteFailure(copy);
      } else {
        RecordedIsProcessed(before, copy.event, reply.Some? && reply.value.cancelled);
        assert View().inbox == inbox && before.inbox == old(inbox);
      }
    }
  }

  lemma RecordedIsProcessed(p: Pipeline, event: Event, skip: bool)
    ensures Processed(RecordRows(p, event, skip).inbox, event.eventId)
    ensures RecordRows(p, event, skip).waiting == p.waiting && RecordRows(p, event, skip).deadLetters == p.deadLetters
  {
    if !Processed(p.inbox, event.eventId) {
      assert InboxRow(event.eventId, event.aggregateId) in RecordRows(p, event, skip).inbox;
    }
  }

  /** Handling an event again, whatever else was recorded meanwhile, changes nothing. */
  lemma RedeliveryChangesNothing(p: Pipeline, event: Event, skip: bool, again: bool)
    ensures RecordRows(RecordRows(p, event, skip), event, again) == RecordRows(p, event, skip)
  {
    if !Processed(p.inbox, event.eventId) {
      assert InboxRow(event.eventId, event.aggregateId) in RecordRows(p, event, skip).inbox;
    }
  }
}
