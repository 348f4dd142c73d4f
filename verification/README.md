# Durable protocols of the bus ticketing platform, in Dafny

This project models how the platform keeps its promises when processes crash, replies are
lost, messages arrive twice and several workers compete for the same rows, and proves those
promises for every run.

One SQL transaction, one Lua script, one Redis command and one broker operation is one atomic
step; a transaction that throws leaves the tables as it found them. Between any two steps
another process may run, a process may crash, a call may time out although it took effect, a
lease may expire and the advisory lock may be lost. Tables are sequences of rows (or maps by
primary key), and each table operation is given twice: as a function from the tables before to
the tables after and an outcome, about which the invariants are proved, and as a method that
updates a table field by field in place and is proved equal to that function. Runs are
sequences of steps from the empty state, so a statement about `Run(EMPTY_DB, steps)` is a
statement about every reachable state.

| Modules | What they model |
|---|---|
| `Prelude` | Results, table scans, sums, stable sorting, local dates |
| `Bookings`, `BookingRepository` | The booking schema and its transactions; the repository in place |
| `BookingLifecycle`, `BookingInvariants`, `BookingTheorems`, `BookingAccounts`, `BookingRecords` | Every run of those transactions: history, outbox, tickets, check-ins, keys, audit, money, and what each event and history row says |
| `TicketIssuance`, `TicketAdmission` | Exactly when tickets are issued and passengers admitted, and every answer |
| `BookingCreation`, `CreationOutcomes`, `BookingPaging`, `SeatReleases` | Creation from a hold and every answer to it, keyset paging, the seat-release reconciler |
| `Payments`, `CheckoutSaga`, `SagaInvariants`, `SagaSteps`, `SagaTheorems`, `SagaRecovery`, `SagaWitnesses`, `CheckoutMoments`, `CheckoutOutcomes` | Payment attempts; pay, expire, cancel and release as concurrent processes under the per-booking lock; the moments at which a booking may move, and exactly when each command succeeds; runs from the empty state that reach the failures below |
| `OutboxRelay`, `OutboxLeases`, `OutboxDrain` | Competing relays; what leases, waits and counters promise; the relay's loop in place |
| `RabbitPipeline`, `NotificationEffects`, `NotificationWorker` | Work, retry and dead-letter queues; what inbox and emails record; the worker in place |
| `Analytics`, `AnalyticsReports`, `AnalyticsService` | The projection, its reports, the service in place |
| `EndToEnd`, `SalesAccounts` | Booking tables, event log, worker and analytics together; the reports by day and route against the bookings |
| `TripSearch`, `SearchCache`, `SearchService` | The plain queries, the generation-stamped cache under interleaving, the cache client in place, lifecycle commands |
| `RefreshSessions` | Rotation chains, reuse detection, token validation, the session table in place |
| `PushIterator`, `RateLimiter` | The bounded iterator and the fixed-window limiter, as models and as classes |

## Findings

- A cancellation sends the stored key with its release as long as the booking's lock is kept.
  If the lock is lost between reading and cancelling, two releases of one booking can carry two
  different keys. `SagaTheorems.CancellationReleasesUnderStoredKey` says exactly when a cancelling
  step is safe, `SagaRecovery.LostLockReleasesUnderTwoKeys` gives the run from any state with a
  paid booking before departure, and `SagaWitnesses.TwoReleaseKeysFromTheStart` reaches it from
  the empty state.
- docs/CONTRACTS.md:405 promises that expiry cannot overtake an in-flight durable confirmation.
  In every reachable state in which a confirmation was sent for a booking that is still pending
  and whose window is over, expiry overtakes it if and only if the booking's lock is free
  (`SagaRecovery.ExpiryOvertakesIffLockIsFree`), whoever sent it and whether its sender gave up,
  crashed or still waits without its lock. A lock that was never lost is taken exactly while some
  process is inside it (`SagaTheorems.LockIsTakenExactlyWhileInside`), so the promise is kept
  while the payer waits and broken once its timeout makes it leave:
  `SagaWitnesses.ExpiryOvertakesFromTheStart` reaches an EXPIRED booking beside a successful
  attempt and its confirmation with no lock lost.
- A total of zero passes every booking check but is refused by the payment service. A pending
  booking that a process could pay is paid in some continuation if and only if its total is not
  zero (`SagaRecovery.PaidInSomeFutureIffNotFree`), and `SagaWitnesses.FreeBookingsExist` makes a
  free one. The catalog allows positive fares only (003_trip_search_foundation.sql:65,
  catalog.service.ts:471-475 and :627), so only a seat-inventory answer with price 0 could
  produce it; the booking service does not rule that answer out.
- A caller of the rate limiter that waits `retryAfterSeconds` finds its window gone except at one
  instant: when the remaining time was a whole number of seconds and it is back at the very
  millisecond of expiry, at which Redis still counts the key (`RateLimiter.RetryAfterIsEnough`).
- Analytics never subtracts cancellations: its revenue equals what was paid, while the
  administration report is that less what was cancelled (`EndToEnd.RevenueAcrossServices`).
- A trip transition whose invalidation failed is not healed by a first retry under a new key:
  it reports no change and skips the invalidation. The same key heals it, and so does the second
  use of any key (`SearchService.RetryInvalidatesIffRecorded`).

## Assumptions

SHA-256 is injective, so a fingerprint is the content it is taken over. `randomUUID` never
repeats an id. The unique indexes and checks of `infra/postgres/migrations` hold, among them the
one-success index on payment attempts (008_payment_foundation.sql:24-26). The payment service is
called by the booking service only. The work queue is bound before the first publish. Redis may
fail or drop any search entry but keeps the generation counter, and counts a key as expired once
the clock is past its expiry. An integer column holds values up to 2147483647. `Asia/Ho_Chi_Minh` is UTC+7 all
year. Seat inventory, catalog and recipient lookups answer anything they like.

## Model

| member | source | states |
|---|---|---|
| `BookingRepository.Repository.CreateOrReplayRow` | services/booking-service/src/booking.repository.ts:809-904 | In place, one transaction inserts the booking, its passengers, its first history row and its event, or replays the owner's key, and rolls back on any constraint |
| `BookingRepository.Repository.MarkPaidRow` | services/booking-service/src/booking.repository.ts:589-642 | Paying in place: exactly the guarded row, its history, event and audit row change |
| `BookingRepository.Repository.MarkExpiredRow` | services/booking-service/src/booking.repository.ts:644-684 | Expiry in place, and whether it transitioned |
| `BookingRepository.Repository.MarkCancelledRow` | services/booking-service/src/booking.repository.ts:686-745 | Cancellation in place from PAID or TICKET_ISSUED only |
| `BookingRepository.Repository.MarkCancellationSeatsReleasedRow` | services/booking-service/src/booking.repository.ts:747-759 | The release instant is written once, only for the stored key of a cancelled booking |
| `BookingRepository.Repository.MarkTicketIssuedRow` | services/booking-service/src/booking.repository.ts:425-488 | Ticket rows are inserted one by one; a conflicting reference or constraint rolls all of them back |
| `BookingRepository.Repository.CheckInTicketRow` | services/booking-service/src/booking.repository.ts:503-587 | Check-in in place: replay by actor key, wrong trip, wrong state, already checked in, or one check-in with its audit row |
| `BookingRepository.Repository.EnqueueBookingEventRows` | services/booking-service/src/booking-outbox.repository.ts:46-72 | The loop over delivery targets inserts each event and destination at most once |
| `BookingTheorems.StatusTellsHistoryAndOutbox` | services/booking-service/src/booking.repository.ts:589-904 | In every reachable state the history is one chain of legal moves from nothing to the status, at most four rows, no status twice; the status alone fixes the events and their exact delivery rows |
| `BookingTheorems.RunKeepsFrom` | services/booking-service/src/booking.repository.ts:425-904 | Every run of booking transactions, in any order and with or without locks, keeps the whole booking invariant |
| `BookingTheorems.StatusTellsTicketsAndCheckIns` | services/booking-service/src/booking.repository.ts:425-587 | No tickets before issuance, a bijection with the passengers after it; CHECKED_IN exactly when there is a check-in; a cancelled booking has none |
| `BookingTheorems.TicketsAreForever` | services/booking-service/src/booking.repository.ts:425-488 | Once issued, the ticket references never change, whatever runs later |
| `BookingTheorems.ReissueOutcome` | services/booking-service/src/booking.repository.ts:1029-1047 | A later issuance writes nothing and succeeds if and only if it repeats the stored references, in any order |
| `TicketIssuance.IssuesIff` | services/booking-service/src/booking.repository.ts:425-488 | The tickets of a paid booking are issued, all of them in the order given, if and only if each is for one of its passengers, ids, codes and QR payloads are new and no two share any of the four; otherwise the call fails and writes nothing |
| `TicketIssuance.NotIssuable` | services/booking-service/src/booking.repository.ts:425-488 | A booking that is unknown or in no issuable status gets nothing written, only its status reported |
| `TicketAdmission.CredentialNamesOneTicket` | services/booking-service/src/booking.repository.ts:490-501 | In every reachable state a code or QR payload belongs to at most one ticket |
| `TicketAdmission.AdmitsIff` | services/booking-service/src/booking.repository.ts:503-587 | A credential under an unused key admits its passenger if and only if the trip is the booking's, the booking is issued or checked in and the ticket has no check-in; exactly one check-in, its audit row and the status are written |
| `TicketAdmission.AdmissionAnswers` | services/booking-service/src/booking.repository.ts:503-587 | Every answer in order: wrong trip, key used for another ticket, replay of the same key, wrong state, already checked in, admitted |
| `TicketAdmission.UnknownCredential` | services/booking-service/src/booking.repository.ts:503-587 | Without a ticket that bears the credential nothing is found or written |
| `TicketAdmission.CheckInsAreForTheTrip` | services/booking-service/src/booking.repository.ts:503-587 | Each stored check-in was made by a command of the run that presented the credential of an existing ticket for the trip of its booking, and names that booking and one of its passengers |
| `BookingAccounts.CheckInsAreAudited` | services/booking-service/src/booking.repository.ts:539-565 | Each ticket is checked in at most once, and check-ins and TICKET_CHECKED_IN audit rows pair off in order |
| `BookingAccounts.PaymentsAndCancellationsAreAudited` | services/booking-service/src/booking.repository.ts:589-745 | Exactly one BOOKING_PAID row for a booking ever paid and one BOOKING_CANCELLED row for a cancelled one, with owner, trip and instant; none otherwise |
| `BookingAccounts.EventIdsNeverRepeat` | services/booking-service/src/booking-outbox.repository.ts:46-72 | No event id is enqueued twice in any run |
| `BookingAccounts.OneBookingPerKey` | services/booking-service/src/booking.repository.ts:809-904 | Two bookings with the same owner and idempotency key are the same booking |
| `BookingAccounts.RevenueIsConserved` | services/booking-service/src/booking.repository.ts:311-319 | In every reachable state, for each trip and overall, admin revenue is the sum of enqueued BookingPaid totals less the BookingCancelled totals |
| `BookingAccounts.RevenueOfTrip` | services/booking-service/src/booking.repository.ts:311-319 | A trip's admin revenue is the totals of its own paid, issued and checked-in bookings, and equally its own BookingPaid totals less its own BookingCancelled totals |
| `BookingRecords.EventsDescribeTheirBooking` | services/booking-service/src/booking.events.ts:146-156 | In every reachable state each event carries its booking's id, trip, route and total, the number of its stored passengers, exactly their seats in order, and the stored instant and paying attempt |
| `BookingRecords.HistoryNamesWhoAndWhen` | services/booking-service/src/booking.repository.ts:425-904 | Each history row names who moved the booking and the instant stored for that move |
| `BookingRecords.RowsGoWhereTheyBelong` | services/booking-service/src/booking-outbox.repository.ts:147-168 | A row goes to the booking-events topic under the booking id, or to the bus.domain exchange under the routing key of its event type |
| `BookingRecords.EventsReachEveryDestination` | services/booking-service/src/booking-outbox.repository.ts:46-72 | An event with any row has its Kafka row and, unless it is a creation, its RabbitMQ row |
| `BookingRecords.OneRowPerDestination` | services/booking-service/src/booking-outbox.repository.ts:46-72 | No event has two rows for one destination, whatever runs |
| `BookingRecords.PassengersStayUnique` | services/booking-service/src/booking.repository.ts:868-887 | No passenger id is stored twice and no seat of a booking is given twice |
| `BookingCreation.FingerprintIgnoresOrder` | services/booking-service/src/booking.service.ts:1007-1043 | Two valid requests share a fingerprint if and only if they differ at most in passenger order |
| `BookingCreation.MappingIsABijection` | services/booking-service/src/booking.service.ts:1045-1057 | The seat check passes exactly when passengers and held seats correspond one to one |
| `BookingCreation.CreationIsALifecycleStep` | services/booking-service/src/booking.service.ts:299-345 | A call that writes is one lifecycle step; its total is unit price times passengers, who sit on exactly the held seats |
| `BookingCreation.LaterCallsReplay` | services/booking-service/src/booking.service.ts:299-345 | After the first use of a key no call writes; only the same fingerprint is answered, always with that booking, for every run between the call's first lookup and its transaction |
| `BookingCreation.CreatedOnce` | services/booking-service/src/booking.repository.ts:868-887 | However many creations ran, a booking has one initial history row and one creation event, each first |
| `BookingCreation.TotalIsPricePerPassenger` | services/booking-service/src/booking.service.ts:1059-1094 | In every reachable state the stored total is unit price times stored passengers |
| `BookingCreation.CreateBookingIn` | services/booking-service/src/booking.service.ts:299-345 | The service method over the tables in place, with its checks in order |
| `CreationOutcomes.CreatesIff` | services/booking-service/src/booking.service.ts:299-345 | A call with a new key makes a booking if and only if it names one to ten passengers on different seats, exactly the held ones, at a storable total of unit price times seats, and the hold outlasts both checks |
| `CreationOutcomes.CreationAnswers` | services/booking-service/src/booking.service.ts:299-345 | Every answer to a new key: the first check that fails, in order, with nothing written, or the new booking with each column and passenger row taken from request, hold and trip |
| `CreationOutcomes.WritesOnlyInTime` | services/booking-service/src/booking.service.ts:317-332 | Whatever happened to the key before, a call that writes read the clock before the end of the hold both times |
| `BookingPaging.ListCustomerBookings` | services/booking-service/src/booking.repository.ts:255-287 | A page is the newest rows after the cursor in order; it has a successor exactly when rows remain |
| `BookingPaging.PagingListsEverythingOnce` | services/booking-service/src/booking.repository.ts:255-287 | Following cursors to the end lists every booking of the first page's table exactly once, in order, for every page size and whatever is inserted meanwhile |
| `BookingPaging.PagingAFixedTable` | services/booking-service/src/booking.repository.ts:255-287 | On a fixed table the pages together are the whole sorted list |
| `BookingPaging.PagingOverARun` | services/booking-service/src/booking.repository.ts:255-287 | Whatever booking transactions run between the requests, the pages list every booking the customer had at the first one exactly once, in order, and only bookings of that customer |
| `SeatReleases.FindCancellationReleaseCandidates` | services/booking-service/src/booking.repository.ts:761-785 | Exactly the cancelled, unreleased bookings of customers, oldest cancellation first, up to the limit |
| `SeatReleases.ReconcileCancelledSeatReleases` | services/booking-service/src/booking.service.ts:569-587 | A pass marks exactly the answered candidates; every request carries the booking's stored key and sorted seats; a failure ends the pass, and with no failure it is a full pass |
| `SeatReleases.DrainedExactlyAfter` | services/booking-service/src/booking.service.ts:569-662 | n unreleased bookings are drained by k full passes if and only if k is at least n divided by the limit, rounded up |
| `Payments.AttemptKeeps` | services/payment-service/src/payment.repository.ts:39-87 | Whatever a call answers, keys and successes stay unique, one event per attempt, and the table only grows |
| `Payments.StaleLookupIsHarmless` | services/payment-service/src/payment.service.ts:71-99 | Two-step create-or-replay answers as one atomic step would, whatever ran after its first lookup |
| `Payments.RetryGetsTheSuccess` | services/payment-service/src/payment.repository.ts:39-87 | A later request is answered with the booking's one success exactly when it asks for the same and its key names no other attempt; nothing is added |
| `Payments.AttemptAnswers` | services/payment-service/src/payment.service.ts:71-111 | Every answer of a call: invalid amount, the attempt its key names or a conflict, the booking's success or a conflict, or the new attempt with the fields asked for |
| `Payments.PaymentService.Create` | services/payment-service/src/payment.service.ts:71-99 | The service in place keeps at most one success per booking |
| `SagaTheorems.SagaIsALifecycleRun` | services/booking-service/src/booking.service.ts:536-836 | However pay, expire, cancel and release processes interleave, crash and lose locks, the booking tables see a run of lifecycle transactions |
| `SagaTheorems.PaidNamesItsAttempt` | services/booking-service/src/booking.service.ts:664-767 | A booking ever paid names the unique successful attempt, with its owner and total, whose confirmation was sent and granted |
| `SagaTheorems.ConfirmationsAgree` | services/booking-service/src/booking.service.ts:719-735 | All confirmSeats requests of a booking are one request: one key, one seat set |
| `SagaTheorems.RetryIsAnsweredAlike` | services/booking-service/src/booking.service.ts:696-703 | After any crash a retry gets the same successful attempt exactly when its key names no other attempt |
| `SagaTheorems.PaymentHoldsTheBooking` | services/booking-service/src/booking.database.ts:63-106 | While a payment is in progress and keeps its lock the booking stays pending |
| `SagaTheorems.LockIsTakenExactlyWhileInside` | services/booking-service/src/booking.database.ts:63-106 | In every reachable state a lock never lost is taken if and only if some process is inside it |
| `SagaTheorems.ConfirmedPaymentIsRecorded` | services/booking-service/src/booking.service.ts:737-767 | A granted confirmation whose process keeps the lock always ends in PAID with its attempt |
| `SagaTheorems.UnpayableIsNeverPaid` | services/payment-service/src/payment.service.ts:108-111 | A total outside 1 to 2147483647 is never paid in any run |
| `SagaTheorems.ReleasesAreSafe` | services/booking-service/src/booking.service.ts:589-662 | Booked seats are released only for a cancelled booking, with its seats, and under the stored key unless the lock was lost |
| `SagaTheorems.ReleasesAgree` | services/booking-service/src/booking.service.ts:644-662 | While the lock is kept every release of a booking is the same request, across crashes and retries |
| `SagaTheorems.CancellationReleasesUnderStoredKey` | services/booking-service/src/booking.service.ts:589-642 | A cancelling step releases under the stored key if and only if the booking was not already cancelled under another |
| `SagaTheorems.CheckedInSeatsAreNeverReleased` | services/booking-service/src/booking.repository.ts:686-745 | A checked-in booking is never cancelled or released, even by a process that read it earlier |
| `CheckoutMoments.MovesHaveTheirMoment` | services/booking-service/src/booking.service.ts:536-767 | In every reachable state a booking ever paid was read pending by a payment under the stored key before the hold's end and the departure, a cancelled one paid or issued by a cancellation under the stored key before the departure, an expired one past one of the two or refused by the seat inventory |
| `CheckoutMoments.ReadDecides` | services/booking-service/src/booking.service.ts:536-735 | What a command goes on to do after its read, and what it sends, as an if-and-only-if on row and clock for each of the four commands |
| `CheckoutMoments.CallsNameTheSeats` | services/booking-service/src/booking.service.ts:644-735 | Each confirmation carries its booking's hold, owner, trip, sorted seats and a successful attempt of its total; each release that trip and those seats |
| `CheckoutOutcomes.CancelsIff` | services/booking-service/src/booking.service.ts:589-642 | From every reachable state an undisturbed cancellation cancels if and only if the booking is the customer's own, paid or issued, and read before its departure; it then stores its key and releases its seats |
| `CheckoutOutcomes.ExpiresIff` | services/booking-service/src/booking.service.ts:536-567 | From every reachable state an undisturbed expiry expires if and only if the booking is pending and its hold or its departure has passed |
| `CheckoutOutcomes.PaysIff` | services/booking-service/src/booking.service.ts:664-767 | From every reachable state an undisturbed, confirmed payment pays if and only if the booking is the owner's, pending and in its window, the payment is to succeed, the total is payable and the key names no failed attempt |
| `CheckoutOutcomes.ReleasesOnce` | services/booking-service/src/booking.service.ts:569-662 | An answered release by the reconciler has sent one request with the stored key and the booking's seats, and the first instant stays |
| `SagaRecovery.RecoveryPays` | services/booking-service/src/booking.service.ts:664-767 | From any reachable state of a pending booking in its window whose total can be paid, a new process can pay it, naming the earlier success if there was one |
| `SagaRecovery.LostLockReleasesUnderTwoKeys` | services/booking-service/src/booking.service.ts:589-642 | From any state with a paid booking before departure, a run with a lost lock in which two releases carry two keys, one the stored one |
| `SagaRecovery.ExpiryOvertakesIffLockIsFree` | services/booking-service/src/booking.service.ts:719-735 | In every reachable state, expiry overtakes a confirmation sent for a pending booking past its window if and only if the booking's lock is free |
| `SagaRecovery.PaidInSomeFutureIffNotFree` | services/payment-service/src/payment.service.ts:108-111 | A payable booking is paid in some continuation if and only if its total is not zero |
| `SagaWitnesses.ExpiryOvertakesFromTheStart` | services/booking-service/src/booking.service.ts:719-735 | From the empty state a run with no lost lock reaches an EXPIRED booking beside its successful attempt and confirmation |
| `SagaWitnesses.TwoReleaseKeysFromTheStart` | services/booking-service/src/booking.service.ts:589-642 | From the empty state a run reaches two releases of one booking under two keys |
| `SagaWitnesses.FreeBookingsExist` | services/booking-service/src/booking.service.ts:1059-1094 | A booking with total zero can be made, and no continuation pays it |
| `OutboxRelay.OnlyTheLatestClaimMarks` | services/booking-service/src/booking-outbox.repository.ts:78-145 | A mark takes effect if and only if its relay still holds the lease, and then its message is the row's latest claim |
| `OutboxRelay.PublishedWasSent` | services/booking-service/src/booking-outbox.repository.ts:113-145 | Never both published and dead-lettered; published implies a copy reached the broker; failures never exceed maxAttempts |
| `OutboxRelay.FinishedIsForever` | services/booking-service/src/booking-outbox.repository.ts:78-111 | A finished row is never claimed or changed again |
| `OutboxRelay.MarksAreBounded` | services/booking-service/src/booking-outbox.relay.ts:60-122 | Effective marks plus what live rows can still take never exceed maxAttempts per row |
| `OutboxRelay.MarkLowers` | services/booking-service/src/booking-outbox.repository.ts:113-145 | Every mark that takes effect strictly decreases the measure over live rows |
| `OutboxRelay.LiveRowsCanBePublished` | services/booking-service/src/booking-outbox.relay.ts:44-52 | No live row is stuck: after its lease runs out a new relay can publish it |
| `OutboxRelay.BackoffIsMonotoneAndBounded` | services/booking-service/src/booking-outbox.relay.ts:149-153 | The backoff is monotone in the attempt, at most 30000 + base - 1, and at the ceiling from the sixteenth attempt |
| `OutboxRelay.BackoffDoubles` | services/booking-service/src/booking-outbox.relay.ts:149-153 | The wait is jitter below the base plus the base for the first attempt, doubled by each further one and cut off at 30000 |
| `OutboxLeases.ClaimTakesWhatIsDue` | services/booking-service/src/booking-outbox.repository.ts:78-111 | A claim changes a row if and only if it is neither published nor dead-lettered, its wait is over and its lease, if any, is older than the timeout; it then gets the new lease and one more attempt |
| `OutboxLeases.ClaimSparesTheRest` | services/booking-service/src/booking-outbox.repository.ts:78-111 | No claim, of whatever rows, touches a row under a current lease, before its instant, or finished |
| `OutboxLeases.ClaimsAreApart` | services/booking-service/src/booking-outbox.repository.ts:78-111 | In every run two claims of one row with no effective mark in between are more than the lock timeout apart |
| `OutboxLeases.FailedRowWaits` | services/booking-service/src/booking-outbox.repository.ts:125-145 | A recorded failure gives the row up exactly at its last attempt; before that nothing happens to it until the backoff is over, in any continuation |
| `OutboxLeases.CountersCount` | services/booking-service/src/booking-outbox.repository.ts:78-145 | In every run a row's attempts are the claims that took it, its failures the failed marks that took effect, and it is published exactly when one published mark did |
| `OutboxDrain.OutboxTable.ClaimBatch` | services/booking-service/src/booking-outbox.repository.ts:78-111 | Claims exactly the first due visible rows, up to the batch size, in the order of the query; each was neither published nor dead-lettered, past its wait and free of a current lease, and a batch that is not full has all of them |
| `OutboxDrain.OutboxTable.Deliver` | services/booking-service/src/booking-outbox.relay.ts:60-122 | Publish then mark, with every error path, is a run of the relay protocol |
| `OutboxDrain.OutboxTable.DrainOnce` | services/booking-service/src/booking-outbox.relay.ts:44-52 | Whatever broker and database answer, a pass is a run of the protocol and leaves the relay idle |
| `RabbitPipeline.NoPaidEventIsLost` | packages/worker-runtime/src/index.ts:93-173 | The BookingPaid row is pending or dead-lettered, or the event is in the inbox, a queue, or unacked, in every run |
| `RabbitPipeline.EffectsHappenOnce` | services/notification-worker/src/notification.repository.ts:20-85 | At most one inbox row per event and one email per booking, in every run |
| `RabbitPipeline.RetriesAreBounded` | packages/worker-runtime/src/index.ts:126-150 | A message is retried fewer than maxAttempts times and dead-lettered exactly at the limit |
| `NotificationEffects.TablesTellRecordings` | services/notification-worker/src/notification.repository.ts:20-85 | In every run an inbox row is there exactly when a transaction recorded its event, and a booking has an email exactly when one of those was not told to skip it |
| `NotificationEffects.QueuedCopyTakesEffect` | packages/worker-runtime/src/index.ts:93-125 | Any queued copy, handled undisturbed, leaves the queue, its event on record and its email sent once unless cancelled |
| `NotificationEffects.FailedCopyMovesOn` | packages/worker-runtime/src/index.ts:126-150 | A copy whose handler fails leaves the tables alone and waits with one more retry, or is dead-lettered at the limit |
| `NotificationEffects.FailedCopyCanStillTakeEffect` | packages/worker-runtime/src/index.ts:93-173 | A copy that failed below the limit comes back and can still take effect |
| `NotificationEffects.HandledIsOnlyAcked` | packages/worker-runtime/src/index.ts:93-173 | A handled or sent-on message is never failed or sent on again, whatever happens |
| `NotificationWorker.Worker.ProcessBookingPaid` | services/notification-worker/src/notification.service.ts:16-57 | Check, look up, then record or skip, in place; throws exactly on an unprocessed event without a matching recipient |
| `NotificationWorker.Worker.Consume` | packages/worker-runtime/src/index.ts:93-150 | A handled message leaves the tables as one recording of its event, a failed one moves on with one more retry or is dead-lettered; it fails exactly on an unprocessed event without a matching recipient |
| `NotificationWorker.RedeliveryChangesNothing` | services/notification-worker/src/notification.repository.ts:20-85 | Recording an event again changes nothing |
| `Analytics.ProjectionIsAggregate` | services/analytics-service/src/analytics.service.ts:24-140 | After any deliveries the tables are the aggregate of the distinct events; daily revenue is the paid facts grouped by date |
| `Analytics.OnlyTheSetOfEventsMatters` | services/analytics-service/src/analytics.service.ts:24-140 | Order and duplication of deliveries do not matter |
| `Analytics.FactsTellTheirEvents` | services/analytics-service/src/analytics.service.ts:24-140 | Each delivered event has left exactly what it says on its local day: route, passengers and price of a payment, outcome and amount of an attempt, result count and first caption per route of a search |
| `Analytics.ReplayRepairs` | services/analytics-service/src/analytics.service.ts:47-72 | Replaying the paid events restores the aggregate from any paid facts that are missing or hold outdated columns, without counting anything twice |
| `AnalyticsReports.TicketSalesExist` | services/analytics-service/src/analytics.service.ts:312-360 | For every date range and limit there are rows that meet the ticket sales report: best routes first, each with its exact totals |
| `AnalyticsReports.SalesMatchRevenue` | services/analytics-service/src/analytics.service.ts:312-360 | For every date range, ticket sales sum to at most the revenue summary, and to all of it when the limit cuts nothing off |
| `AnalyticsReports.GroupsPartition` | services/analytics-service/src/analytics.service.ts:325-343 | Group totals add up to the whole for any grouping |
| `AnalyticsService.Service.ApplyBooking` | services/analytics-service/src/analytics.service.ts:24-73 | The insert-or-increment in place |
| `AnalyticsService.Service.ApplyPayment` | services/analytics-service/src/analytics.service.ts:75-104 | The payment fact in place, also for an event already processed |
| `AnalyticsService.Service.ApplySearch` | services/analytics-service/src/analytics.service.ts:106-140 | The search fact and its route matches in place, first label kept |
| `AnalyticsService.Service.ApplyDelivered` | services/analytics-service/src/analytics.service.ts:24-140 | Applying deliveries one by one leaves the aggregate of the distinct events |
| `AnalyticsService.Service.GetRevenueSummary` | services/analytics-service/src/analytics.service.ts:142-178 | Exactly the days of the range with sales, in order, and the totals of revenue, bookings and tickets over the facts of the range |
| `EndToEnd.RevenueAcrossServices` | services/analytics-service/src/analytics.service.ts:24-73 | Once every paid event is applied, analytics revenue is the BookingPaid sum, and admin revenue is that less cancellations |
| `SalesAccounts.SalesAcrossServices` | services/analytics-service/src/analytics.service.ts:142-360 | Once every paid event is applied, for every range of local days the summary is the prices, number and passengers of the bookings paid on those days, and each route's row the same for its bookings |
| `EndToEnd.PaidBookingsAreAccountedFor` | services/booking-service/src/booking-outbox.repository.ts:147-168 | Every booking ever paid has its RabbitMQ row, pending, dead-lettered, or safe in the pipeline |
| `TripSearch.SearchFinds` | services/catalog-service/src/trip.repository.ts:1026-1112 | Search returns exactly the listed trips and is non-empty exactly when one exists |
| `TripSearch.ListedExactly` | services/catalog-service/src/trip.repository.ts:1026-1112 | A trip is a result if and only if cities, local day, activity, status, fare, stops and every given filter fit, bounds included |
| `TripSearch.SummariesTell` | services/catalog-service/src/trip.repository.ts:1026-1112 | Each summary shows its trip's times and fare, the first stop to board and the last to alight |
| `TripSearch.SearchIsOrdered` | services/catalog-service/src/trip.repository.ts:1084-1089 | Rows are ordered by the requested key, then departure, then id |
| `TripSearch.NearestDatesAreClosest` | services/catalog-service/src/trip.repository.ts:1114-1151 | Up to three other dates, closest first, earlier first among equals, and none left out is closer |
| `TripSearch.NearestDatesAreSearchable` | services/catalog-service/src/trip.repository.ts:1026-1151 | Searching a returned date is non-empty exactly when a matching trip there has stops; always, if every active route has them |
| `SearchCache.NeverOlderThanTheInvalidation` | services/catalog-service/src/trip-search-cache.ts:48-108 | A search begun after an invalidation returned never answers with data older than the commit before it, for all interleavings |
| `SearchCache.SettledSearchIsPlain` | services/catalog-service/src/catalog.service.ts:705-727 | With every commit invalidated and none meanwhile, the answer is exactly the plain queries' |
| `SearchCache.PublishedDataIsFound` | services/catalog-service/src/catalog.service.ts:679-746 | From every reachable state, after a commit and its invalidation a search answers the plain queries on the new data and leaves it in the cache for the next one |
| `SearchService.TripSearchCache.SearchTrips` | services/catalog-service/src/catalog.service.ts:679-746 | Undisturbed, the cached search answers as the plain queries and keeps the cache coherent |
| `SearchService.TripSearchCache.Invalidate` | services/catalog-service/src/trip-search-cache.ts:99-108 | After an invalidation the cache is coherent with every database |
| `SearchService.RetryInvalidatesIffRecorded` | services/catalog-service/src/trip.repository.ts:652-740 | A retried transition invalidates exactly when its key is already on record for it |
| `SearchService.TransitionAnswers` | services/catalog-service/src/trip.repository.ts:652-740 | Every answer of a transition: replay or conflict of a key on record, unknown trip, refused move, unchanged, or moved and recorded |
| `SearchService.TripsOnlyMoveForward` | services/catalog-service/src/trip.repository.ts:652-740 | Whatever commands run, a trip moves from scheduled to departed to completed only, one recorded step at a time |
| `RefreshSessions.FamiliesAreChains` | services/identity-service/src/identity.repository.ts:92-131 | In every run a family is one acyclic rotation chain of one user with at most one unrevoked session, its last |
| `RefreshSessions.ReuseKillsTheFamily` | services/identity-service/src/identity.repository.ts:98-113 | Presenting a rotated token is refused and revokes its whole family |
| `RefreshSessions.DeadFamiliesNeverRevive` | services/identity-service/src/identity.service.ts:94-171 | A dead family stays dead: no refresh, and every access token bound to it is rejected from then on |
| `RefreshSessions.RotationReplacesTheSession` | services/identity-service/src/identity.service.ts:94-119 | Rotation needs the unrevoked, unexpired session and its token, keeps the owner, and leaves only the new session's tokens accepted |
| `RefreshSessions.AcceptedIff` | services/identity-service/src/identity.service.ts:139-171 | In every run an access token is accepted if and only if it is unexpired, its user active in its role, and its session the user's, unrevoked and unexpired |
| `RefreshSessions.RefreshSucceedsIff` | services/identity-service/src/identity.repository.ts:92-131 | A refresh succeeds if and only if session, token, user and the drawn credential allow it; it adds the continuing session, revokes the old one in its favour and touches nothing else |
| `RefreshSessions.ReuseRevokes` | services/identity-service/src/identity.repository.ts:98-113 | Reuse revokes exactly the family's rows that were not revoked yet |
| `RefreshSessions.LoginOpensIff` | services/identity-service/src/identity.repository.ts:76-90 | A login opens exactly one new session, if and only if the user is active and family, id and token are new |
| `RefreshSessions.LogoutRevokesIff` | services/identity-service/src/identity.repository.ts:133-144 | A logout revokes a row if and only if id and token are its own and it could still be used |
| `RefreshSessions.Repository.RotateRefreshSession` | services/identity-service/src/identity.repository.ts:92-131 | The rotation transaction row by row in place, with reuse detection |
| `RefreshSessions.Repository.RevokeRefreshSession` | services/identity-service/src/identity.repository.ts:133-144 | Logout revokes exactly the matching unexpired session |
| `PushIterator.DeliveredInOrder` | apps/graphql-gateway/src/seat-status-subscription.service.ts:155-200 | Values are delivered in push order, each at most once; queue and waiters are never both non-empty; at most 100 queued |
| `PushIterator.OnlyTheOldestAreDropped` | apps/graphql-gateway/src/seat-status-subscription.service.ts:162-170 | While open a value is lost only after a full queue of newer ones |
| `PushIterator.EveryNextIsSettledOnce` | apps/graphql-gateway/src/seat-status-subscription.service.ts:172-200 | Each next() is resolved at most once, in order, and by close() at the latest |
| `PushIterator.CloseIsFinal` | apps/graphql-gateway/src/seat-status-subscription.service.ts:172-200 | After close everything pending is done, nothing more is accepted or delivered, and each further next() is done at once |
| `PushIterator.PushAsyncIterator.PushValue` | apps/graphql-gateway/src/seat-status-subscription.service.ts:162-170 | push in place |
| `PushIterator.PushAsyncIterator.NextValue` | apps/graphql-gateway/src/seat-status-subscription.service.ts:172-177 | next in place |
| `PushIterator.PushAsyncIterator.CloseIterator` | apps/graphql-gateway/src/seat-status-subscription.service.ts:189-195 | close in place: every waiter is finished and the queue emptied |
| `RateLimiter.AtMostTwiceTheLimit` | apps/mcp-server/src/rate-limit.ts:5-10 | In any sixty seconds of any request sequence a key is allowed at most twice its limit |
| `RateLimiter.WindowAllowsItsLimit` | apps/mcp-server/src/rate-limit.ts:56-78 | Inside one window exactly the first limit calls are allowed |
| `RateLimiter.AnswerTells` | apps/mcp-server/src/rate-limit.ts:56-78 | A call is allowed if and only if fewer than 30 (public) or 5 (booking lookup) were allowed before it in its window; remaining and wait are what the window still allows and the seconds to its end, rounded up |
| `RateLimiter.RetryAfterIsEnough` | apps/mcp-server/src/rate-limit.ts:56-78 | Back after retryAfterSeconds, whatever others called meanwhile, a caller meets a later window if and only if it is not back at the very millisecond of expiry; alone, it is allowed exactly then |
| `RateLimiter.RedisMcpRateLimiter.Consume` | apps/mcp-server/src/rate-limit.ts:56-78 | The script and the decision in place |

## Left out

- Statement interleavings inside one transaction: each transaction is one atomic step. Family-wide revocation and the check-in join rely on it.
- Seat inventory, catalog and recipient services: an environment that answers anything.
- Order inside RabbitMQ queues, and Kafka: copies are counted, not ordered; no claim depends on order.
- The order in which competing relays claim: `SKIP LOCKED` lets a claim skip rows, so any set of claimable rows may be picked.
- Payment and search outboxes and the ticket worker's inbox: the same protocols, modelled once.
- DRAFT and COMPLETED bookings: no code writes them; the invariant proves they never occur.
- The releaseHold call after expiry: its failure is logged and ignored, and no table depends on it.
- Popular routes, search conversion and payment summary reports: single counts over tables whose contents are proved.
- Losing the Redis generation key: entries of a reused generation could then be stale.
- The expiry reconciler's own loop: each candidate it finds is an expire process of the checkout saga, in any order and at any time.
- Delivery of one seat event to the streams of its trip, MCP tools, gRPC and GraphQL mapping, health, logging and metrics.
- Format checks on names, phones, emails and codes, role checks, password hashing and token signatures.
- Admin catalog saves: the booking creation pattern in an easier form; only what makes them invalidate the cache is modelled.
