# Seat and payment saga: a verified model

Two services share a booking. The seat service keeps `seats`, `holds`, `consumed_events` and an
outbox; the payment service keeps `payment_intents`, `webhook_inbox` and an outbox. They meet only
through at-least-once messages. This project models both databases, both outbox relays and both
queues as one labelled transition system, models the classes that write the tables as Dafny classes
proved against that system, and proves what holds over every run: no reservation without a payment,
no lost event, a hold ledger, exactly-once effect, one outcome per intent, and termination of the
compensation loop. Three smaller machines stand beside it: refresh-token families, the sliding
rate limit and the circuit breaker.

## How it is laid out

| files | content |
|---|---|
| `Base`, `Events` | identifiers, sums over finite tables, the messages |
| `SeatDb`, `SeatLedger`, `SeatTheorems`, `SeatRaces` | the seat database as a value, its invariant, the hold ledger and the races over a hold |
| `HoldsRepository` | the writers of the seat database over mutable tables |
| `Outbox`, `OutboxRetries`, `RelayTermination`, `OutboxWorker` | the relay as interleaved steps, its retry schedule, why it ends, and one worker's `tick` |
| `PayDb`, `PayService`, `PayTheorems`, `PayOutcomes` | the payment database, its interleaved requests, what runs of them keep, and which request caused what |
| `PaymentIntentsRepository` | the writers of the payment database, the reprocessor and a checkout amid interference |
| `Saga`, `SagaTheorems`, `SagaRuns`, `SagaTermination`, `SagaCauses`, `SagaGaps` | both services together: the invariant, what runs keep, exactly-once effect, termination, causes across the services, and runs that surprise |
| `Sessions`, `SessionCutoff`, `SessionOverlap`, `SessionExpiry`, `SessionsRepository`, `AuthController` | refresh-token rotation |
| `RateLimit`, `CircuitBreaker` | the two guards against their histories |

## How to read the model

- One SQL transaction is one step; a rollback, a failed constraint included, is a step that changes
  nothing. Checkout, webhook handling, outbox ticks, refresh and `exec` are split where they await,
  and their parts interleave. A crash drops any set of in-memory tasks.
- What the database, the broker or the clock decides is a parameter: which rows a batch returns and
  in what order, which row is `rows[0]`, whether a publication is confirmed, whether a key has been
  expired yet. Theorems hold for every choice. The saga places no order on clock readings at all.
- A publication that was not confirmed may still have reached its queue; a confirmed one has.
  A delivery may be handled without being acknowledged and is then delivered again.
- A worker holds a row, and a reprocessor an event, at most once at a time: a batch has nothing twice,
  and while a tick runs or hangs its replica's next ticks return at once (the `running` flag). That
  is all the model uses of the number of replicas, and only termination needs the number.
- Random ids are fresh: a new hold id is named by no row and no request in flight.
- An outbox is split in two. `outbox` in a database value is the log of every event row ever
  appended; `Outbox.Box` holds the rows still in the table.
- Refresh-token rows are never deleted, so a row's position in creation order stands for its id.
- `traceOk` marks an event whose trace id is a UUID. Only the reprocessor breaks that: its trace id
  is `reprocess-` and a UUID, which the event schema refuses.

## Where the code does less than its comments say

The model follows the code. Each gap has an exact condition and a run from a fresh start that shows it.

- A sold seat can be held and sold again, because the insert never reads the seat's status
  (`SeatRaces.OneWinnerExactly`, `SoldSeatSellsAgain`, `TwoWinners`).
- Lazy cleanup releases a stale hold silently; the ledger counts that as a lapse, told only by the
  `seat.held` that replaces it (`SeatTheorems.HoldLedger`, `SagaGaps.LapsesSilently`).
- Cancelling by seat may fail several intents but tells about one (`PayTheorems.CancelTellsExactly`,
  `SagaGaps.CancelsUntold`).
- The comment of the release consumer speaks of a hold, the statement of a seat: a late release hits
  the next holder (`SagaRuns.CancelsOwnHoldExactly`, `SagaGaps.ReleaseHitsNextHolder`).
- A webhook handled before its intent is inserted is marked processed without effect
  (`PayTheorems.PendingExactly`, `EarlyWebhookIsLost`).
- An outcome produced by the reprocessor never ends its hold (`SagaTheorems.DeliveryEndsHoldExactly`,
  `SagaGaps.ReprocessedIsUnreadable`).
- A payment can complete after its hold has ended (`SagaRuns.ReservedExactly`, `SagaGaps.PaidNotSeated`),
  and a hold can be paid for twice (`PayTheorems.ChargesOnceExactly`, `SagaGaps.ChargedTwice`).
- Nobody compares the seat a checkout names with the seat of the hold it names: the price and the
  user are those of the request (`SagaRuns.ReservedByWhomNamed`, `SagaGaps.ReservedCheaply`).
- DEAD is not final: a replica still holding a re-queued row overwrites it
  (`OutboxRetries.DeadStaysExactly`, `DeadRevived`). Claiming does not move `next_attempt_at`, so a
  slow replica is overtaken, by every other replica at most
  (`OutboxRetries.OvertakenExactly`, `OvertakenByAll`).
- `rotate` locks the row but does not look at `revoked_at` again; that look is exactly what
  separates a safe rotation from a forked family (`SessionCutoff.RotateSafeExactly`, `OverlapForks`),
  and a session ended for good from one a refresh in flight brings back
  (`SessionOverlap.RunSafeExactly`, `LogOutAllUndone`).

## Model

| member | source | states |
|---|---|---|
| SeatTheorems.ReachableInv | apps/seat-reservation/src/holds/holds.repository.ts:43-244 | in every run of holds, releases, sweeps and payment events over a fresh database the seat invariant holds: at most one HELD hold per seat and per user, and both tables are the projection of the event log |
| SeatLedger.StepKeepsInv | apps/seat-reservation/src/holds/holds.repository.ts:55-244 | each transaction, whole sweeps included, keeps that invariant |
| SeatLedger.SweepUnfolds | apps/seat-reservation/src/holds/hold-sweeper.ts:48-87 | releasing a batch in one statement and then looping over its seats equals releasing the holds one at a time, in any batch order |
| SeatTheorems.SeatColumn | apps/seat-reservation/src/holds/holds.repository.ts:72-77 | `seats.status` is HELD iff the seat has a HELD hold, of which there is then exactly one, and RESERVED iff the seat's last event is a reservation |
| SeatTheorems.HoldLedger | apps/seat-reservation/src/holds/holds.repository.ts:60-235 | a hold has exactly one `seat.held`, first, and at most one ending; it is RESERVED iff it has a `seat.reserved`, and RELEASED iff it has a `seat.released` or lapsed to lazy cleanup, never both |
| SeatRaces.InsertOutcomeExact | apps/seat-reservation/src/holds/holds.repository.ts:55-122 | a hold is inserted iff the seat exists, has no live hold, and the user has no other HELD hold; otherwise the database, cleanup included, is untouched, and the reason is the first that applies |
| SeatRaces.ReleaseWrites | apps/seat-reservation/src/holds/holds.repository.ts:141-175 | a release of an active hold always frees its seat, because no other active hold can be there to keep it; any other release changes nothing |
| SeatRaces.PaymentWrites | apps/seat-reservation/src/events/payment-events.consumer.ts:48-84 | a readable, unconsumed success for an active hold reserves it and its seat, consumes its id and tells it; a readable failure releases it and its seat, blaming the payment; any other event changes nothing |
| SeatRaces.SweepWrites | apps/seat-reservation/src/holds/hold-sweeper.ts:48-87 | a sweep releases exactly its batch, appends one event per row in batch order, frees exactly the batch's seats and no other |
| SeatRaces.EndedIsFinal | apps/seat-reservation/src/holds/holds.repository.ts:141-217 | whatever happens next, a hold that has ended is never touched again |
| SeatRaces.UnexpiredSurvives | apps/seat-reservation/src/holds/hold-sweeper.ts:48-59 | in every run, until its time has passed an active hold is untouched unless its user releases it or a payment event names it |
| SeatRaces.ExpiredGoes | apps/seat-reservation/src/holds/holds.repository.ts:60-77 | an active hold can be swept, and stops keeping others off its seat, exactly from the moment its time has passed |
| SeatRaces.DeliveryEndsHold | apps/seat-reservation/src/events/payment-events.consumer.ts:59-79 | after any readable payment event for an existing hold that hold is no longer HELD |
| SeatRaces.ExactlyOnce | apps/seat-reservation/src/holds/holds.repository.ts:133-244 | a run of the seat service with repeated, reordered or contradictory payment events ends in the same database as the run that keeps only each hold's first |
| SeatRaces.OneWinnerExactly | apps/seat-reservation/src/holds/holds.repository.ts:60-77 | a step keeps "one RESERVED hold per seat, and the seat column says so" iff it does not insert a hold on a RESERVED seat |
| SeatRaces.SoldSeatSellsAgain | apps/seat-reservation/src/migrations/20240101000000_init.sql:27-31 | any RESERVED seat can be held by another user and paid for again: the unique index covers HELD only |
| SeatRaces.TwoWinners | apps/seat-reservation/src/holds/holds.repository.ts:60-77 | a concrete run from a fresh database that reserves one seat twice |
| HoldsRepository.HoldsRepository.InsertHoldTx | apps/seat-reservation/src/holds/holds.repository.ts:43-122 | the statement sequence with its rollback has the outcome and the database of the specification |
| HoldsRepository.HoldsRepository.Release | apps/seat-reservation/src/holds/holds.repository.ts:133-184 | releases iff the hold is HELD, and then as specified |
| HoldsRepository.HoldsRepository.Reserve | apps/seat-reservation/src/holds/holds.repository.ts:187-244 | reserves iff the event is unconsumed and the hold HELD; otherwise the idempotency row is rolled back too |
| HoldsRepository.HoldsRepository.SweepTick | apps/seat-reservation/src/holds/hold-sweeper.ts:41-92 | the batch update and its loop compute the specified sweep |
| HoldsRepository.HoldsRepository.ConsumePayment | apps/seat-reservation/src/events/payment-events.consumer.ts:48-84 | an unreadable message is refused without effect; after any acknowledged one the hold it names is no longer active, given that consumed ids name the holds they were delivered for |
| Outbox.NextKeepsInv | apps/seat-reservation/src/outbox/outbox.worker.ts:59-127 | each step of any replica keeps every row's and every claimed job's payload and attempt bounds, and DEAD iff ten attempts |
| Outbox.NothingLost | apps/payment/src/outbox/outbox.worker.ts:43-110 | over any interleaving of inserts, recoveries, claims, publications, records and crashes, every row ever appended is still in the table with its payload or was confirmed |
| OutboxRetries.WaitTable | apps/seat-reservation/src/outbox/outbox.worker.ts:113-114 | the nine waits are 2, 4, 8, 16, 32, 64, 128, 256 and 256 s and total 766 s |
| OutboxRetries.PublishedExactly | apps/seat-reservation/src/outbox/outbox.worker.ts:95-127 | over every run of any replicas in which no publication of the row succeeds and its worker neither crashes nor is recovered from, each publication is charged exactly once, so a new row is published exactly ten times when it is DEAD and never more |
| OutboxRetries.RetryWaits | apps/seat-reservation/src/outbox/outbox.worker.ts:113-125 | in every such run, after its k-th failure is recorded the row can next be claimed from exactly the k-th wait later on |
| OutboxRetries.NewRowIsDue | apps/seat-reservation/src/outbox/outbox.worker.ts:67-73 | a new row can be claimed from exactly the moment it is inserted |
| OutboxRetries.OvertakenLate | apps/seat-reservation/src/outbox/outbox.worker.ts:62-81 | over every run with a clock that never runs back, a row claimed by one worker that then neither records nor crashes is claimed by another only more than 300000 ms after it fell due |
| OutboxRetries.NeverSooner | apps/seat-reservation/src/outbox/outbox.worker.ts:112-125 | in every such run with a clock that never runs back, the tenth attempt, and so DEAD, comes at least 766 s after the row first fell due |
| OutboxRetries.OvertakenExactly | apps/seat-reservation/src/outbox/outbox.worker.ts:53-81 | over every run of a given number of workers without a verdict on a row or a crash of its holders, however often the row is recovered from under them, holders before and claims make holders after, so it is claimed at most once by each |
| OutboxRetries.OvertakenByAll | apps/seat-reservation/src/outbox/outbox.worker.ts:62-81 | a run from an empty outbox that attains the bound: every worker comes to hold the row, and none has published it |
| RelayTermination.RelayFalls | apps/payment/src/outbox/outbox.worker.ts:43-110 | with a given number of workers, every step of the relay but a crash lowers a weight, recovery of a row a worker still holds included |
| OutboxRetries.DeadStaysExactly | apps/seat-reservation/src/outbox/outbox.worker.ts:108-126 | a step leaves a DEAD row DEAD iff it is not a stale replica recording a success or an earlier attempt |
| OutboxRetries.DeadRevived | apps/seat-reservation/src/outbox/outbox.worker.ts:62-81 | a concrete run: claim, recovery by another replica, ten failures to DEAD, and the first replica's verdict sets the row back to PENDING with one attempt |
| OutboxWorker.OutboxWorker.ProcessRow | apps/seat-reservation/src/outbox/outbox.worker.ts:95-127 | one publication and its record, as the two steps of the relay; a failure makes the row DEAD for an hour at ten attempts and PENDING after its backoff before |
| OutboxWorker.OutboxWorker.ProcessBatch | apps/seat-reservation/src/outbox/outbox.worker.ts:84-86 | the loop, each record with its own clock reading, is a run of relay steps; each confirmed row is gone and each other row has one more attempt on record |
| OutboxWorker.OutboxWorker.Tick | apps/seat-reservation/src/outbox/outbox.worker.ts:53-93 | an undisturbed tick, every statement with its own clock reading, is a run of relay steps, does nothing when one is already running, and leaves the worker holding nothing; outside its batch it re-queues exactly the PROCESSING rows more than 300000 ms past due and touches no other row |
| OutboxWorker.OutboxWorker.TickAmid | apps/seat-reservation/src/outbox/outbox.worker.ts:53-93 | a tick with other replicas acting between any two of its statements is part of a run of relay steps: first every row it found stuck is recovered, then what is due by then, and nothing less, is claimed in one go, then each claimed row is published and its answer recorded, and the worker holds nothing |
| OutboxWorker.EveryRowAfterTick | apps/seat-reservation/src/outbox/outbox.worker.ts:62-127 | what any tick makes of any row: unclaimed, it is re-queued iff PROCESSING and more than five minutes overdue, else untouched; claimed, it was due, and is gone if confirmed and charged one attempt if not |
| PayDb.PspIdsUnique | apps/payment/src/psps/psp.client.ts:49-53 | provider ids are unique because they are an injective function of the unique idempotency key |
| PayDb.MatchesOne | apps/payment/src/checkout/payment-intents.repository.ts:75-85 | the update by provider id matches at most one row |
| PayDb.SettleKeepsInv | apps/payment/src/checkout/payment-intents.repository.ts:171-211 | settling any set of pending rows keeps one recorded outcome per intent, although only the first row gets an event |
| PayDb.EffectKeepsInv | apps/payment/src/webhooks/webhooks.controller.ts:116-136 | so does the effect of any provider event |
| PayDb.CreateKeepsInv | apps/payment/src/checkout/payment-intents.repository.ts:49-64 | so does inserting an intent under a free key |
| PayService.NextKeepsInv | apps/payment/src/webhooks/webhooks.controller.ts:87-139 | every step of overlapping checkouts, webhooks, reprocessing, cancellations and crashes keeps the payment invariant; rows are never removed and no status returns to PENDING |
| PayTheorems.SingleOutcome | apps/payment/src/checkout/payment-intents.repository.ts:67-211 | in any run an intent has at most one outcome event, is COMPLETED iff exactly one `payment.succeeded` with its amount and hold was appended, a `payment.failed` means FAILED, and a settled row never changes again |
| PayTheorems.CancelTellsExactly | apps/payment/src/checkout/payment-intents.repository.ts:171-211 | a cancellation by seat fails every pending intent of the seat, and tells about all of them iff there is at most one |
| PayTheorems.ChargesOnceExactly | apps/payment/src/checkout/payment-intents.repository.ts:67-108 | a success leaves its hold paid for once iff no other payment for that hold had gone through |
| PayTheorems.IntentAsNamed | apps/payment/src/checkout/checkout.controller.ts:67-117 | in every run a stored intent has the key, seat, hold and user that its own checkout request named |
| PayTheorems.AckedWebhookTakesEffect | apps/payment/src/webhooks/webhooks.controller.ts:87-139 | a processed webhook was handled by some step of the run; and whichever step handles a success or failure, every intent of its provider id that is stored by then is no longer PENDING, crashes notwithstanding |
| PayTheorems.PendingExactly | apps/payment/src/checkout/payment-intents.repository.ts:67-211 | in every run an intent is still PENDING iff, since it was stored, no success or failure of its provider id was handled and no release of its seat was consumed |
| PayOutcomes.InboxAsReported | apps/payment/src/webhooks/webhooks.controller.ts:87-114 | the inbox holds exactly the events reported, each with the kind and provider id of its first report |
| PayOutcomes.OutcomeExactly | apps/payment/src/webhooks/webhooks.controller.ts:116-139 | in every run, by the first step since an intent was stored that handled a verdict about it or a release of its seat: COMPLETED iff that step handled an event reported as a success of its provider id, FAILED iff one reported as a failure, or the release; PENDING iff there is none |
| PayOutcomes.EventsTellWhy | apps/payment/src/checkout/payment-intents.repository.ts:67-211 | every event in the log is of the kind and reason of the step that decided its intent, and readable iff no reprocessor took that step |
| PayOutcomes.StoredWasAccepted | apps/payment/src/checkout/checkout.controller.ts:92-117 | no intent is stored unless the provider accepted a call under its key, and its secret is that answer |
| PayOutcomes.CreatedOnce | apps/payment/src/checkout/checkout.controller.ts:145-151 | every stored intent is answered with `idempotent: false` exactly once |
| PayOutcomes.LoserIsAnswered | apps/payment/src/checkout/checkout.controller.ts:118-136 | in every run a checkout that lost the race for its key, or finds its key taken, is answered with the stored row and never with an error |
| PayOutcomes.RetryNeverCalls | apps/payment/src/checkout/checkout.controller.ts:71-82 | once a key has its row and no request under it is past its first look, no run ever calls the provider for that key again |
| PayTheorems.EarlyWebhookIsLost | apps/payment/src/checkout/checkout.controller.ts:91-117 | a run in which the success arrives, is handled and is marked processed between the provider's answer and the insert: the intent stays PENDING |
| PayTheorems.CheckoutLinearizes | apps/payment/src/checkout/checkout.controller.ts:67-151 | all replies under one key agree on intent, secret, amount and currency, at most one claims to have created it, one row exists, its amount is the seat's price, and a success event repeats it |
| PaymentIntentsRepository.PaymentIntentsRepository.MarkCompleted | apps/payment/src/checkout/payment-intents.repository.ts:67-108 | succeeds iff a pending row matches; then exactly the matching row is COMPLETED and one `payment.succeeded` repeats its columns, otherwise nothing changes |
| PaymentIntentsRepository.PaymentIntentsRepository.MarkFailed | apps/payment/src/checkout/payment-intents.repository.ts:111-150 | succeeds iff a pending row matches; then exactly the matching row is FAILED and one `payment.failed` gives the decline as its reason, otherwise nothing changes |
| PaymentIntentsRepository.PaymentIntentsRepository.MarkFailedBySeatId | apps/payment/src/checkout/payment-intents.repository.ts:171-211 | exactly the pending rows of the seat are FAILED, with one `payment.failed` for one of them, for the release |
| PaymentIntentsRepository.PaymentIntentsRepository.ProcessEvent | apps/payment/src/webhooks/webhooks.controller.ts:116-139 | a success completes, a failure fails, exactly the pending rows of its provider id; any other kind touches none; then this event, and no other, is marked processed |
| PaymentIntentsRepository.PaymentIntentsRepository.Webhook | apps/payment/src/webhooks/webhooks.controller.ts:87-139 | a repeated event changes nothing; a new one, with anything at all running between its receipt and its handling, ends processed, gives its verdict to exactly the rows pending when it is handled, and leaves none of its provider id stored by its receipt PENDING |
| PaymentIntentsRepository.PaymentIntentsRepository.ReprocessTick | apps/payment/src/webhooks/webhook-reprocessor.ts:42-76 | whichever rows of the batch throw, before or after their effect, exactly the others stop being unprocessed, one each of min(50, n) when none throws; each pending intent gets exactly the verdict of the first effect reached about it, and every event emitted is unreadable downstream |
| PaymentIntentsRepository.TicksDrain | apps/payment/src/webhooks/webhook-reprocessor.ts:46-57 | k ticks leave n - 50k of n events, and after ceil(n / 50) none is left and every one has had its effect |
| PaymentIntentsRepository.PaymentIntentsRepository.CreateIntent | apps/payment/src/checkout/payment-intents.repository.ts:49-64 | the insert succeeds iff id and key are free; either way the key has a row afterwards, still only one, with the provider id and price that belong to it |
| PaymentIntentsRepository.PaymentIntentsRepository.FindByIdempotencyKey | apps/payment/src/checkout/payment-intents.repository.ts:40-46 | finds the row iff the key is taken |
| PaymentIntentsRepository.PaymentIntentsRepository.InsertOrRefetch | apps/payment/src/checkout/checkout.controller.ts:106-136 | under a free key and id the reply is the new row, not idempotent; under a taken key it repeats the winner's row, idempotent; it fails only when the id itself was taken |
| PaymentIntentsRepository.PaymentIntentsRepository.Checkout | apps/payment/src/checkout/checkout.controller.ts:67-151 | with anything at all running between its statements, every reply repeats a stored row, a new intent is claimed only if the key was free, a taken key always yields the idempotent reply, and each error has its cause |
| Saga.StepKeepsInv | apps/seat-reservation/src/events/payment-events.consumer.ts:59-83 | every step of either service, either relay or either queue keeps the saga's invariant |
| SagaTheorems.NoReservationWithoutPayment | apps/payment/src/checkout/payment-intents.repository.ts:67-151 | in every run a RESERVED hold has a COMPLETED intent with its success event, and a release blamed on a payment has a FAILED intent |
| SagaTheorems.ConsumedBijection | apps/seat-reservation/src/holds/holds.repository.ts:195-237 | `consumed_events` is in bijection with the RESERVED holds |
| SagaTheorems.DecidedPaymentsArrive | apps/payment/src/outbox/outbox.worker.ts:43-110 | a decided payment whose hold is still HELD is in its outbox row or in the queue, never gone |
| SagaTheorems.DeliveryEndsHoldExactly | packages/contracts/src/events.ts:9-13 | delivering a queued outcome ends its hold iff the trace id is a UUID |
| SagaTheorems.DeliveriesAreOwned | apps/seat-reservation/src/events/payment-events.consumer.ts:59-79 | in every reachable state, of every queued message: the hypothesis under which `HoldsRepository.ConsumePayment` ends its hold |
| SagaCauses.OnlyReleasesQueued | apps/payment/src/events/rabbit.service.ts:41 | in every run, nothing but releases that are in the seat log waits for the payment service |
| SagaCauses.OutcomesHaveCauses | apps/payment/src/events/seat-events.consumer.ts:38-66 | in every run of both services a COMPLETED intent was reported a success, and a FAILED one was reported a failure or a release of its seat is in the seat log |
| SagaCauses.FailuresGiveTheirReason | apps/payment/src/checkout/payment-intents.repository.ts:111-211 | each failure on record names its real reason: a reported decline, or a logged release of the seat |
| SagaCauses.ReservedWasReported | apps/payment/src/webhooks/webhooks.controller.ts:116-125 | no hold is RESERVED unless the provider reported a success of a payment for it |
| SagaCauses.ReleasesArrive | apps/seat-reservation/src/outbox/outbox.worker.ts:59-127 | in every run each release logged is in its outbox row, or confirmed and then in the queue or consumed |
| SagaCauses.IdleReleasesConsumed | apps/payment/src/events/seat-events.consumer.ts:38-66 | where the services fall idle, every release logged has been consumed, unless its row is DEAD |
| SagaRuns.ExactlyOnce | apps/seat-reservation/src/events/payment-events.consumer.ts:59-83 | over every run of both services, the seat database equals the one reached had only the first outcome delivered for each hold been delivered |
| SagaRuns.ReservedExactly | apps/seat-reservation/src/holds/holds.repository.ts:187-237 | in every run a hold is RESERVED iff a readable success for it was delivered while it was HELD |
| SagaRuns.CancelsOwnHoldExactly | apps/payment/src/events/seat-events.consumer.ts:15-19 | a release touches only its own hold's intents iff every intent pending on the seat is for that hold, and fails all of its hold's iff each of them is on the seat |
| SagaRuns.ReservedByWhomNamed | apps/payment/src/checkout/checkout.controller.ts:85-117 | in every run, behind a RESERVED hold is a payment by the user and at the price of the seat that a checkout request under its key named for the hold |
| SagaGaps.ReservedCheaply | apps/payment/src/checkout/checkout.controller.ts:85-117 | a run in which a hold on a dear seat is RESERVED by another user's payment at a cheap seat's price |
| SagaGaps.ChargedTwice | apps/payment/src/checkout/checkout.controller.ts:71-82 | a run in which two checkouts of one hold under different keys both complete |
| SagaGaps.ReprocessedIsUnreadable | apps/payment/src/webhooks/webhook-reprocessor.ts:62-71 | a run from a fresh start: the reprocessor completes a payment, and its unreadable success is queued while the hold is still HELD |
| SagaGaps.CancelsUntold | apps/payment/src/checkout/payment-intents.repository.ts:180-202 | a run with two checkouts of one seat and one release: both intents FAILED, one failure announced |
| SagaGaps.LapsesSilently | apps/seat-reservation/src/holds/holds.repository.ts:60-64 | a run in which a stale hold is replaced: RELEASED with no `seat.released` |
| SagaGaps.ReleaseHitsNextHolder | apps/payment/src/events/seat-events.consumer.ts:49-54 | a run without any webhook in which the late release of one user's hold fails the next user's payment, for that reason, and so releases that user's unexpired hold |
| SagaGaps.PaidNotSeated | apps/seat-reservation/src/holds/holds.repository.ts:207-215 | a run after which neither service has anything left to do, the intent is COMPLETED and its hold RELEASED |
| SagaTermination.StepFalls | apps/payment/src/events/seat-events.consumer.ts:49-66 | the weighted sum of active holds, pending intents, checkouts by stage, webhook tasks, rereadings to come, outbox attempts and queued messages falls with every step any number of replicas take on their own, recovery and rereading of what another replica is still busy with included |
| SagaTermination.CompensationTerminates | apps/payment/src/webhooks/webhook-reprocessor.ts:42-57 | no run of such steps is longer than that sum, and one that cannot go on but by sweeping has drained everything: failure, release and cancellation cannot chase each other for ever, whatever is under way |
| SagaTermination.StaysCrewed | apps/seat-reservation/src/outbox/outbox.worker.ts:53-55 | what the replicas hold stays within their number through every step of either service, so the measure applies to every reachable state |
| SagaTermination.AlwaysDrains | apps/payment/src/webhooks/webhook-reprocessor.ts:42-57 | from every reachable state some run of own steps, sweeps not needed, leaves nothing to do |
| SagaTermination.IdleExactly | apps/payment/src/webhooks/webhook-reprocessor.ts:42-57 | sweeps aside, none of the services' own steps, recovery, rereading and in-flight checkouts included, is left iff queues, tasks, checkouts and unprocessed provider events are gone and only DEAD rows remain |
| SagaTermination.QuiescentExactly | apps/seat-reservation/src/holds/hold-sweeper.ts:48-59 | no step is left at any clock reading exactly when in addition no hold is HELD |
| SagaTermination.IdleIsSettled | apps/seat-reservation/src/events/payment-events.consumer.ts:59-83 | in any run, where the services fall idle, a readable outcome whose hold is still HELD sits in a DEAD outbox row |
| SagaTermination.IdleHandledAll | apps/payment/src/webhooks/webhook-reprocessor.ts:42-76 | in any run, where the services fall idle, every acknowledged webhook has been handled and has settled every intent of its provider id stored by then |
| Sessions.NextKeepsInv | apps/auth/src/sessions/sessions.repository.ts:29-119 | under overlapping refreshes, logouts and crashes the rotation graph stays well formed and identity, expiry and revocation of a row are permanent |
| Sessions.ChainsAscend | apps/auth/src/sessions/sessions.repository.ts:58-89 | following `rotated_to` moves to later rows of the same family and user, never to an earlier expiry and never back |
| Sessions.RotationGraph | apps/auth/src/sessions/sessions.repository.ts:29-119 | in every run: links are acyclic, stay in family and user, exist iff a grace window does, and imply revocation |
| SessionCutoff.RotateSafeExactly | apps/auth/src/sessions/sessions.repository.ts:53-89 | a rotation keeps a family to one active token and a dead family dead iff the locked row is still unrevoked |
| SessionCutoff.OverlapForks | apps/auth/src/sessions/sessions.repository.ts:58-89 | two overlapping refreshes of one token leave two active tokens |
| SessionCutoff.OneActivePerFamily | apps/auth/src/auth/auth.controller.ts:132-225 | when refreshes do not overlap a family never has two active tokens |
| SessionCutoff.DeadStaysDead | apps/auth/src/auth/auth.controller.ts:132-225 | a family without an active token never gains one, nor a later grace window |
| SessionCutoff.FamilyCutOff | apps/auth/src/auth/auth.controller.ts:164-176 | if a family is dead at t0, none of its tokens yields an access token after t0 + RT_GRACE_SECONDS, whatever is requested in between |
| SessionCutoff.ReuseKillsFamily | apps/auth/src/auth/auth.controller.ts:178-188 | reuse past the grace window is refused, leaves the family dead and every other family as it was |
| SessionCutoff.LogOutAllKills | apps/auth/src/auth/auth.controller.ts:210-225 | after any history, logging out everywhere leaves every family of the user without an active token, whatever is served later |
| SessionOverlap.RunSafeExactly | apps/auth/src/sessions/sessions.repository.ts:53-89 | over every interleaved run, all families keep to one active token and dead ones stay dead at every step iff each rotation that commits finds its row unrevoked |
| SessionOverlap.OneActiveAmid | apps/auth/src/auth/auth.controller.ts:132-189 | in such a run a family ends with at most one active token |
| SessionOverlap.DeadAmid | apps/auth/src/auth/auth.controller.ts:132-225 | in such a run a dead family gains neither an active token nor a later grace window |
| SessionOverlap.CutOffAmid | apps/auth/src/auth/auth.controller.ts:164-176 | whatever overlapped before a family was dead, a grace window after that moment no step of such a run grants it an access token, refreshes in flight included |
| SessionOverlap.LogOutAllAmid | apps/auth/src/auth/auth.controller.ts:210-225 | whatever overlapped before, logging out everywhere kills every family of the user, and in such a run for good |
| SessionOverlap.LogOutAllUndone | apps/auth/src/auth/auth.controller.ts:210-225 | a run in which a refresh that read its row before the logout leaves the user an active token after it |
| SessionOverlap.HistoryIsRun | apps/auth/src/auth/auth.controller.ts:132-225 | every history of requests served one after another is such a run |
| SessionExpiry.ReadExactly | apps/auth/src/auth/auth.controller.ts:144-188 | what reading a token leads to: nothing once expired, else an exchange iff unrevoked, an access token iff within grace, the end of the family otherwise |
| SessionExpiry.CommitWrites | apps/auth/src/sessions/sessions.repository.ts:58-89 | an exchange gives the successor a full lifetime and the old row a full grace window, and touches no other row |
| SessionExpiry.ExpiredForGood | apps/auth/src/auth/auth.controller.ts:144-148 | in every run, an expired token that no earlier request still has in hand is never again answered with an access token nor exchanged |
| SessionExpiry.GrantedWasUsable | apps/auth/src/auth/auth.controller.ts:144-176 | every access token of every run goes to a token read unexpired: within its grace window, or unrevoked and exchanged |
| SessionExpiry.GraceHonoured | apps/auth/src/auth/auth.controller.ts:164-176 | whatever is requested meanwhile, a retry within the grace window of a token that has not expired is answered |
| SessionsRepository.SessionsRepository.IssueNewFamily | apps/auth/src/sessions/sessions.repository.ts:29-41 | a fresh family's first token is its only active one |
| SessionsRepository.SessionsRepository.Rotate | apps/auth/src/sessions/sessions.repository.ts:58-98 | where the rotated token was the family's one active token, its successor now is; in general the specified table |
| SessionsRepository.SessionsRepository.Revoke | apps/auth/src/sessions/sessions.repository.ts:101-103 | the row is inactive afterwards and every other row is untouched |
| SessionsRepository.SessionsRepository.RevokeFamily | apps/auth/src/sessions/sessions.repository.ts:106-112 | stamps exactly the family's unrevoked rows |
| SessionsRepository.SessionsRepository.RevokeAllForUser | apps/auth/src/sessions/sessions.repository.ts:114-119 | stamps exactly the user's unrevoked rows |
| AuthController.AuthController.Refresh | apps/auth/src/auth/auth.controller.ts:132-189 | every exit told by the columns: no row or an expired token gets nothing and changes nothing; an unexpired, unrevoked token of a known user gets an access token, a cookie and a successor of full lifetime; one revoked within its grace window an access token alone; any other costs its family |
| AuthController.AuthController.LogoutAll | apps/auth/src/auth/auth.controller.ts:210-225 | where a known token is presented, no token of its user is active afterwards; nothing else ever changes |
| RateLimit.RateLimitGuard.CanActivate | apps/auth/src/common/rate-limit.guard.ts:48-68 | the pruned, expiring set lets a request through iff fewer than max of all earlier requests, refused ones included, are less than a window old, whether or not the key was already dropped |
| RateLimit.WindowBound | apps/auth/src/common/rate-limit.guard.ts:48-68 | no window of the configured length, wherever it ends, admits more than max requests |
| RateLimit.AllowedExactly | apps/auth/src/common/rate-limit.guard.ts:48-68 | every request ever made was let through iff fewer than max others were less than a window old |
| CircuitBreaker.CircuitBreaker.Begin | apps/payment/src/psps/circuit-breaker.ts:18-27 | a call is admitted exactly when the trace of completions says so |
| CircuitBreaker.CircuitBreaker.End | apps/payment/src/psps/circuit-breaker.ts:28-39 | a completion is recorded; the counter stays the trailing run of failures, closed iff twice that is below the threshold |
| CircuitBreaker.OpenHolds | apps/payment/src/psps/circuit-breaker.ts:18-40 | once a failure has opened the breaker, no call is admitted until more than the reset time after the latest failure, unless an earlier-admitted call succeeds |
| CircuitBreaker.RefusedExactly | apps/payment/src/psps/circuit-breaker.ts:18-40 | a call is refused iff twice the failures since the last success reach the threshold and some failure is at most the reset time ago |

## Left out

- Statement-level isolation, row locks, SKIP LOCKED, serialization failures and retries: a transaction commits atomically or has no effect.
- Message brokers, connections, topology and the dead-letter queue's content: only "reached the queue or not", "confirmed or not", "acknowledged or not".
- SagaTheorems.DeliveryEndsHoldExactly: the dead-letter queue is not modelled; taking an unreadable message off the queue without effect stands for moving it there.
- SagaTermination.CompensationTerminates: user requests, new webhooks, crashes (a task that throws included) and redeliveries are not own steps; a run that repeats those for ever is not bounded.
- PayTheorems.AckedWebhookTakesEffect: claims nothing for an intent inserted after its event was handled; `PayTheorems.PendingExactly` says exactly when such an intent stays PENDING.
- SessionCutoff.OneActivePerFamily: is about requests served one after another; `SessionCutoff.OverlapForks` shows that it fails for overlapping refreshes, and `SessionOverlap.RunSafeExactly` says exactly when.
- PaymentIntentsRepository.TicksDrain: is about undisturbed ticks in which no row throws.
- PaymentIntentsRepository.PaymentIntentsRepository.Checkout: `Elsewhere` stands for everything other requests may do between two statements; its callers may use its contract alone, which `PayService.NextKeepsInv` proves of every step. The breaker's verdict and the provider's answer are the parameter `pspOk`.
- OutboxWorker.OutboxWorker.TickAmid: `Others` stands for the other replicas, whose contract is a run of relay steps that leaves this worker's jobs alone, and `SelectDue` for the claiming SELECT, of which callers know the contract alone; what the table holds afterwards is stated by `OutboxWorker.OutboxWorker.Tick`, for a tick nobody interferes with.
- HoldsRepository.HoldsRepository.SweepTick: the batch size limit is not stated; the theorems hold for a batch of any size.
- Columns no decision reads (`created_at`, `released_at`, `reserved_at`, `completed_at`, seat labels) and the ids and trace ids of seat events.
- Clock skew between `Date.now()` and the database's `NOW()`: one reading per statement or transaction; in the sessions machine a nondecreasing clock, and one reading for the expiry and the grace window of a rotation, which the code computes on adjacent lines.
- HTTP status codes, rate-limit headers, cookies, JWT signing, password hashing, HMAC verification, webhook freshness, JSON and schema parsing beyond the trace id.
- `constructEventFromWebhook`, user registration, login and `token_version` bumping: foreign cryptography or thin wrappers over one statement.
- The rate limiter's key derivation and its copies in the other two services, which are identical; a positive window is assumed, as the environment schema demands.
- Metrics, logging, audit records, the event bus to browsers, health checks, migrations, seeding and deployment.
