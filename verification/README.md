# Payments: a verified model

This project models the behaviour of a payments platform made of two services that share one database,
and proves properties of it. The API creates payments under an idempotency key and lets people approve or
reject payments in review. A worker takes events from an outbox table, calls a payment provider behind a
circuit breaker and a retry loop, finishes the payment and publishes its outcome. Around them stand the
counters that limit and score payments, and the sanitiser of the logs.

`dafny verify dfyconfig.toml` checks all modules.

## How it is built

*The protocol.* `Contracts` holds the rows of the three tables, `Store` what each statement and each
handled event does to them, and `Protocol` the whole system as a state machine: create requests in any
number, reviews, and workers in any number, each with its own batch of rows fetched earlier. A step is what
happens between two points at which another actor can interfere. A read, a lock and a commit of a create
request are separate steps; a worker's read of the payment is a step of its own, and everything from its
compare-and-set to its commit is one step, because the row is locked that long. A worker may crash before
any of its commits, a request may vanish at any time. The provider, the bus, the clock, the control
decisions and the lock answer as they like.

`Ledger` and `SingleWorker` prove what holds with one worker, `Liveness`, `Tick` and `Draining` that work
ends, is not starved and drains, `Fleet`, `FleetOutcomes` and `FleetProgress` what holds with many workers, and
`Idempotency` what many concurrent requests for one key get. Four modules tell every row by the answers that made
it, without naming what computes it: `Clearance` a payment by its two decisions, `Verdicts` by the provider's last
answer, `Publications` an outcome event by what the bus did, and `Waiting` a request by the lock and the controls.
`Punctual` says when an event is handled.

*The statements.* `Sessions`, `ProcessorRepositories`, `ProcessorCommands`, `OutboxWorker`,
`ApiRepositories`, `CreatePayment`, `ReviewPayment` and `IdempotencyService` are the classes and loops of the
services. A create request and an iteration of the worker each record a journey (`Journeys`): at every access
they take an enabled step of the state machine on the tables as the others left them. `Interleaving` weaves
such a journey together with whatever all other actors do in between into a run of the state machine, and so
what is proved of all runs holds of it.

*Resilience.* `Breaker`, `Retry`, `Backoff` and `CallProvider`: the breaker against its plain history, the
retry loop, the delays, and how often a failing provider is called.

*Counters and logs.* `DailyLimit`, `Velocity`, `LimitsService`, `RateLimiter`, `AmlEntry` and `AmlHistory`
compare each incremental structure with the full log it stands for, with its windows, rounding (`Rounding`)
and expiry. `Redaction` and `Sanitizer` treat the log output.

## Where the code does less than expected

Each of these is a theorem with its exact condition, and mostly a concrete run.

- With several workers no payment gets more outcomes than its status says, and terminal statuses are final, if
  and only if no worker wins the compare-and-set on a terminal payment, that is, goes on with a payment it read
  as terminal (`FleetOutcomes.OneOutcomeExactlyWhen`, `FleetOutcomes.WinnerReadTheRow`). The code does not look
  at the status, and it can happen (`Fleet.TwoWorkersConfirmTwice`); with one worker it cannot.
- That does not mean that a payment gets an outcome at all. With several workers every payment in work keeps a
  pending request if and only if no attempt loses the compare-and-set on an open payment, which closes its
  request, and none puts off a request that another worker has closed
  (`FleetProgress.RequestedThroughoutExactlyWhen`). It can happen without a crash, when a loser closes a request
  that was put off for a retry, and then the payment stays PROCESSING for ever
  (`FleetProgress.LoserStrandsARetry`, `FleetProgress.StrandedIsForEver`); with one worker it cannot.
- The AML history keeps 501 entries where the constant says 500. A payment of the window is out of sight also
  when the time to live has passed at the read, and when a recording straddles the expiry of the key: its push
  comes before and its `expire` after (`AmlHistory.LostOnlyWhen`, `AmlHistory.ExpiryLosesTheLastSecond`,
  `AmlHistory.LateReadLosesMore`, `AmlHistory.StraddlingLosesItself`).
- The velocity limit reads the clock once, and its key can expire in front of any later command of the request.
  Nothing that counts is lost if and only if no request that reads the clock inside the window of the admission
  before it ends after the time to live that admission set (`Velocity.NothingIsLostExactlyWhen`). Otherwise a
  window can hold the limit once more for each loss (`Velocity.LateCountAdmitsAgain`,
  `Velocity.EveryWindowWithinLosses`).
- From 23:59:58 on the daily counter can be gone, and a request that finds it gone starts it again. The sum of
  a day is within the limit times the starts, and the counter is the sum exactly while nothing that counts
  passed before its last start (`DailyLimit.TotalWithinStarts`, `DailyLimit.ReadsTheSumExactlyWhen`,
  `DailyLimit.LimitSpentTwice`).
- A rate limit is exact for a bucket if and only if its increments are within the limit or its counter is
  never restarted, and only an increment that arrives after its bucket and finds the counter expired restarts
  it (`RateLimiter.PassedExactlyWhen`, `RateLimiter.RestartIsLate`, `RateLimiter.LateIncrementPassesAgain`).
- Different merchants can share an idempotency lock (`IdempotencyService.LocksCollideExactlyWhen`).
- An open breaker makes the payment FAILED without a provider call and without a retry
  (`OutboxWorker.RefusedIsFinal`, `Tick.OtherFailureIsFinal`), because its error is no processor error.
- Finalising adds 2 to the version of the payment object at hand. If the session refreshes that object after
  the compare-and-set, the version grows by 3 from the one read; both cases are covered by a setting.

## Model

| member | source | states |
|---|---|---|
| `SingleWorker.LedgerInvariant` | services/payments-processor/payments_processor/workers/outbox_worker.py:71-141 | In every state of every run with one worker, any number of API requests and reviews and crashes at any point: each event belongs to a payment (so the missing-payment branch is dead); each status fixes the number of pending, sent and failed requests and the number of each outcome event; status and attempts of the request event fix the version; pending attempts are below the limit; VALIDATED never occurs |
| `SingleWorker.StepKeepsInv` | services/payments-processor/payments_processor/workers/outbox_worker.py:61-89 | The inductive step of that invariant for every kind of step, together with: every payment keeps its scope and decisions and its status only climbs |
| `SingleWorker.AttemptWins` | services/payments-processor/payments_processor/repositories/payment_repository.py:20-29 | With one worker the row read before the compare-and-set is still current, is RECEIVED or PROCESSING, and the compare-and-set succeeds, although it compares no status |
| `SingleWorker.StatusOnlyClimbs` | services/payments-processor/payments_processor/repositories/payment_repository.py:20-47 | Between any two states of a run no payment disappears, its status climbs a fixed order, and BLOCKED, CONFIRMED and FAILED are for ever, although no statement of the worker looks at the status |
| `SingleWorker.OnlyClearedPaymentsAreCharged` | services/payments-api/payments_api/use_cases/create_payment.py:473-497 | Whenever the provider was called for a payment, the payment was created as RECEIVED or approved earlier, was not created as BLOCKED, and is neither blocked nor in review at any later time |
| `Clearance.BlockIsForEver` | services/payments-api/payments_api/use_cases/create_payment.py:597-605 | With any number of workers, on the columns of the row: a payment with a Block in either decision is BLOCKED from then on for ever, never has a request event, and the provider is never called for it |
| `Clearance.OnlyClearedAreCalled` | services/payments-api/payments_api/use_cases/create_payment.py:597-605 | A payment the provider was called for has both decisions Allow, or has no Block and was approved |
| `Clearance.ReviewIsNeededExactlyWhen` | services/payments-api/payments_api/use_cases/create_payment.py:597-605 | A payment is past review if and only if both decisions are Allow or it was approved; one in review has a Review and no Block; a BLOCKED one without a Block was rejected, with that reason |
| `Clearance.FirstRepliesFollow` | services/payments-api/payments_api/use_cases/create_payment.py:529-541 | The status of every reply that is not built from the payment row, replays included, is the one its two decisions call for: BLOCKED if either blocks, RECEIVED if both allow, IN_REVIEW otherwise |
| `Clearance.LaterReplyShowsRow` | services/payments-api/payments_api/use_cases/create_payment.py:564-586 | A reply built from the payment row shows the status and decisions of that row at that access |
| `Clearance.StepKeepsClearance` | services/payments-api/payments_api/use_cases/create_payment.py:473-497 | The inductive step, for every step of every actor: status, error and approval agree with the decisions, requests and calls exist for cleared payments only, and no decision changes |
| `SingleWorker.ProviderCallBudget` | services/payments-processor/payments_processor/workers/outbox_worker.py:199-206 | Over every run at most 3 * (attempt limit + crashed attempts) provider calls per payment |
| `Ledger.RequestEffect` | services/payments-processor/payments_processor/workers/outbox_worker.py:102-141 | What handling a request leaves behind: either a final status, exactly one matching outcome event and a closed request, or a PROCESSING payment whose request is pending again with one more attempt, still below the limit |
| `Ledger.RequestKeepsSound` | services/payments-processor/payments_processor/workers/outbox_worker.py:84-141 | Handling a current request finds its payment and keeps the ledger balanced, for every provider result |
| `Ledger.FanoutKeepsSound` | services/payments-processor/payments_processor/workers/outbox_worker.py:153-189 | Publishing an outcome event, or failing to, keeps the ledger balanced |
| `Ledger.CreateKeepsSound` | services/payments-api/payments_api/use_cases/create_payment.py:439-497 | Creating a payment with its outbox event and snapshot keeps the ledger balanced, for every pair of decisions |
| `Ledger.ReviewKeepsSound` | services/payments-api/payments_api/use_cases/review_payment.py:55-97 | Approving or rejecting a payment in review keeps the ledger balanced |
| `Ledger.PendingMeansOpen` | services/payments-processor/payments_processor/workers/outbox_worker.py:79-89 | A payment with a pending request is RECEIVED or PROCESSING and has no outcome event |
| `Ledger.FinishedVersion` | services/payments-processor/payments_processor/repositories/payment_repository.py:31-47 | A CONFIRMED or FAILED payment has a closed request, and its version is the final bump over the version of its last attempt |
| `Publications.SentExactlyWhen` | services/payments-processor/payments_processor/workers/outbox_worker.py:153-189 | In every run with one worker: an outcome or review event is SENT if and only if the bus took it in one of its tries, FAILED if and only if it was tried as often as allowed and never taken, and pending otherwise, with its failed tries as attempts and due at the last failure's time plus its delay; it is never tried again after it was taken |
| `Publications.RunTells` | services/payments-processor/payments_processor/workers/outbox_worker.py:153-189 | The induction behind it: the row of the event at every state, told by its tries |
| `Punctual.NeverEarly` | services/payments-processor/payments_processor/repositories/outbox_repository.py:16-49 | In every run with one worker no event, request or outcome, is handled by a query from before the time its last failure put it off to |
| `Punctual.PendingIsPutOff` | services/payments-processor/payments_processor/workers/outbox_worker.py:178-206 | That time is in the row: a pending event is due at the clock plus the delay of the last step that handled it, or at the clock of the step that added it |
| `Punctual.HeldRowsWereDue` | services/payments-processor/payments_processor/repositories/outbox_repository.py:16-49 | With any number of workers: whatever a worker still has to handle was pending and due at its last query, is of the kind that query asks for, and no batch is larger than the limit |
| `Punctual.NoneIsPassedOver` | services/payments-processor/payments_processor/repositories/outbox_repository.py:16-29 | A batch that is not full holds every due event of its kind, and a full one leaves out only events that are no older than all it holds |
| `Tick.OtherFailureIsFinal` | services/payments-processor/payments_processor/workers/outbox_worker.py:124-141 | A failed call that is no processor error, such as one refused by an open breaker, makes the payment FAILED with an outcome event at once, however few attempts were made |
| `Liveness.RequestShrinks` | services/payments-processor/payments_processor/workers/outbox_worker.py:102-141 | Handling a request strictly decreases the work measure (twice the attempts left per pending request, the attempts left per pending outcome event), even when it adds an outcome event |
| `Liveness.FanoutShrinks` | services/payments-processor/payments_processor/workers/outbox_worker.py:153-189 | So does publishing, or failing to publish, an outcome event |
| `Liveness.WorkIsBounded` | services/payments-processor/payments_processor/workers/outbox_worker.py:61-69 | Over a run from any state that keeps the invariant, the events handled plus the work left are at most the work at the start plus twice the attempt limit for each commit or review |
| `Liveness.EveryRunComesToRest` | services/payments-processor/payments_processor/workers/outbox_worker.py:50-69 | Over a run from the empty tables the worker handles at most 2 * attempt limit events for each commit or review, whatever the provider and the bus do |
| `Liveness.NothingPendingNothingOpen` | services/payments-processor/payments_processor/workers/outbox_worker.py:102-141 | Without pending events no payment is RECEIVED or PROCESSING |
| `Liveness.BoundedWaiting` | services/payments-processor/payments_processor/repositories/outbox_repository.py:16-29 | A due request with n other pending requests created no later is passed over by at most floor(n * attempt limit / batch size) crash-free batches, with API calls interfering at any point |
| `Tick.TickWorks` | services/payments-processor/payments_processor/workers/outbox_worker.py:61-69 | One iteration keeps the invariant and works off at least one unit for each event it takes |
| `Draining.DueTickWorks` | services/payments-processor/payments_processor/workers/outbox_worker.py:61-69 | One due event, a request or an outcome event, is enough for an iteration to make progress, whatever else is put off in it |
| `Draining.WorksWithin` | services/payments-processor/payments_processor/workers/outbox_worker.py:50-69 | Once the fetch times have advanced by the longest delay, the measure has fallen, however many retries were put off meanwhile |
| `Draining.Drains` | services/payments-processor/payments_processor/workers/outbox_worker.py:50-69 | With the API quiet, a publisher configured, fetches at least P apart and delays of at most D: after measure * (ceil(D / P) + 1) iterations no event is pending and no payment RECEIVED or PROCESSING, whatever the provider and the bus do |
| `Tick.TickIsRun` | services/payments-processor/payments_processor/workers/outbox_worker.py:61-69 | One iteration is a run of the state machine with one worker, so everything proved of such runs holds of iterations |
| `Fleet.FleetAccounting` | services/payments-processor/payments_processor/repositories/payment_repository.py:20-47 | With any number of workers and every interleaving: version = 1 + rescheduling wins + 2 for each finalising win (3 if the session refreshes), outcome events = finalising wins, and no two wins of one payment at the same version |
| `Fleet.SwapDecides` | services/payments-processor/payments_processor/workers/outbox_worker.py:84-89 | Of an attempt: the winner of the compare-and-set raises the version of its payment and no other; a loser changes no payment and adds no outcome event |
| `Fleet.LoserEffect` | services/payments-processor/payments_processor/workers/outbox_worker.py:84-87 | A loser rewrites nothing but its own event row |
| `Fleet.TerminalRewrittenExactlyWhen` | services/payments-processor/payments_processor/repositories/payment_repository.py:20-29 | Terminal statuses are not absorbing with several workers: an attempt rewrites a terminal payment if and only if the row its worker read is that payment's and still has the current version |
| `Fleet.TwoWorkersConfirmTwice` | services/payments-processor/payments_processor/workers/outbox_worker.py:66-69 | A crash-free run with two workers in which one payment is charged twice and confirmed twice: the second worker holds a stale batch and reads the payment after it was confirmed |
| `Verdicts.ConfirmedExactlyWhen` | services/payments-processor/payments_processor/workers/outbox_worker.py:110-120 | In every run with any number of workers: a payment is CONFIRMED if and only if some attempt claimed it and the last provider call of its last claim was let through and answered as confirmed and not partial |
| `Verdicts.FailedExactlyWhen` | services/payments-processor/payments_processor/workers/outbox_worker.py:110-141 | Likewise, on that last call alone: it is PROCESSING if and only if the call failed as a processor error and the attempts are not used up, and otherwise, unless confirmed, FAILED, with "Partial failure" after an answer, with the processor's message at the attempt limit, with "Unexpected processor failure" else; without a claim it is RECEIVED, IN_REVIEW or BLOCKED |
| `Verdicts.AnswerDecides` | services/payments-processor/payments_processor/workers/outbox_worker.py:84-141 | The single attempt: what the payment becomes, by the last of its calls, the breaker's refusal and the attempts used |
| `Verdicts.AnswerClosesRequest` | services/payments-processor/payments_processor/workers/outbox_worker.py:112-141 | With it: the request is closed as sent after any answer, put off with one more attempt after a processor error below the limit, and closed as failed otherwise; and exactly one outcome event is added, of the kind of the final status, or none |
| `Verdicts.CallsUntilAnswered` | services/payments-processor/payments_processor/commands/call_provider.py:26-48 | An attempt the breaker refuses calls nobody; any other calls until a call is no processor error, and three times at most |
| `Verdicts.IterationEndsAsAnswered` | services/payments-processor/payments_processor/workers/outbox_worker.py:61-69 | Each attempt of an iteration that claims its payment leaves it as the last of the calls made through the breaker and the retry loop tells |
| `FleetOutcomes.OneOutcomeExactlyWhen` | services/payments-processor/payments_processor/workers/outbox_worker.py:71-89 | In every run with any number of workers: at every point each payment has exactly one outcome event when CONFIRMED or FAILED and none otherwise, if and only if no attempt of the run won on a terminal payment |
| `FleetOutcomes.TerminalIsForEverExactlyWhen` | services/payments-processor/payments_processor/repositories/payment_repository.py:20-47 | Under the same condition, and only under it, the row of a terminal payment never changes again along the run |
| `FleetOutcomes.WinnerReadTheRow` | services/payments-processor/payments_processor/workers/outbox_worker.py:78-84 | The condition can be read off the row the worker holds: an attempt that wins has read the very row it overwrites, so it wins on a terminal payment if and only if it read a terminal status |
| `FleetOutcomes.StepKeepsFleetSound` | services/payments-processor/payments_processor/workers/outbox_worker.py:61-89 | The inductive step: no payment that was ever requested is in review or blocked, and every row a worker holds is outdated or current |
| `FleetOutcomes.OneWorkerNeverWinsOnTerminal` | services/payments-processor/payments_processor/workers/outbox_worker.py:61-69 | A run with a single worker always meets the condition |
| `FleetOutcomes.SkippingFinishedPaymentsSuffices` | services/payments-processor/payments_processor/workers/outbox_worker.py:78-84 | So does every run in which no worker goes on with a payment it read as terminal, with any number of workers |
| `FleetProgress.RequestedThroughoutExactlyWhen` | services/payments-processor/payments_processor/workers/outbox_worker.py:71-89 | In every run with any number of workers: at every point each RECEIVED or PROCESSING payment has a pending request, if and only if no attempt of the run loses the compare-and-set on an open payment and no non-finalising attempt wins with its own request closed |
| `FleetProgress.StepStrandsExactlyWhen` | services/payments-processor/payments_processor/workers/outbox_worker.py:84-89 | The inductive step, for every kind of step: the requests of all open payments stay pending if and only if the step is no such attempt |
| `FleetProgress.StepKeepsOrderly` | services/payments-processor/payments_processor/workers/outbox_worker.py:61-69 | With any number of workers each payment has at most one request event ever, and what a worker publishes is no request |
| `FleetProgress.StrandedIsForEver` | services/payments-processor/payments_processor/workers/outbox_worker.py:61-69 | A payment in work without a pending request and in no batch keeps its row and its number of outcomes for ever, whatever requests, reviews and workers do |
| `FleetProgress.LoserStrandsARetry` | services/payments-processor/payments_processor/workers/outbox_worker.py:84-87 | A crash-free run with two workers, without a win on a terminal payment, that ends with such a payment: the winner puts its request off after a provider failure, and the loser marks it as sent |
| `FleetProgress.OneWorkerStrandsNothing` | services/payments-processor/payments_processor/workers/outbox_worker.py:61-69 | A run with a single worker never strands a payment |
| `Idempotency.OnePaymentPerScope` | shared/contracts/persistence.py:59-61 | Under every interleaving of any number of requests, with the lock free to admit all of them, each merchant and key has at most one payment; it exists exactly when its snapshot does, with the same identifier |
| `Idempotency.AllRepliesAgree` | services/payments-api/payments_api/use_cases/create_payment.py:529-586 | All replies a key ever gets name the same payment, risk and AML decisions; those that are not built from the payment row are equal, status included |
| `Idempotency.LoserLeavesNothingAndFindsWinner` | services/payments-api/payments_api/use_cases/create_payment.py:411-437 | A failed commit changes no table; it fails by the key exactly when the key has a snapshot, and every later lookup finds that snapshot |
| `Idempotency.KeyLosersAreNeverRefused` | services/payments-api/payments_api/use_cases/create_payment.py:413-420 | No request that lost its commit to the owner of its key is ever answered with a conflict |
| `Idempotency.SnapshotsAreForEver` | services/payments-api/payments_api/repositories/idempotency_repository.py:15-42 | No snapshot is ever changed or removed |
| `Idempotency.StepKeepsIdem` | services/payments-api/payments_api/use_cases/create_payment.py:127-146 | The inductive step: every step of every actor keeps payments and snapshots paired and keeps every request's view consistent with them |
| `Waiting.EveryPaymentWasGranted` | services/payments-api/payments_api/use_cases/create_payment.py:127-146 | In every run each payment was committed by a request that had been granted the lock and had passed the controls with the scope, identifier and decisions of that row |
| `Waiting.RefusedExactlyWhen` | services/payments-api/payments_api/use_cases/create_payment.py:138-146 | A request ends as denied if and only if the controls gave no verdict, and as waited too long if and only if the lock was refused to it and five polls went by without a reply; who decides or commits holds the lock, who polls does not |
| `Waiting.RequestsDoAsTold` | services/payments-api/payments_api/use_cases/create_payment.py:127-146 | The induction behind both: the phase of every request, told by the answers it got |
| `Waiting.FifthPollDecides` | services/payments-api/payments_api/use_cases/create_payment.py:543-562 | The fifth poll refuses if and only if no payment has the scope at that access, and replies with one otherwise |
| `Sessions.Session.Commit` | services/payments-api/payments_api/use_cases/create_payment.py:411-414 | All changes of the transaction become visible, or none if a unique constraint is violated |
| `Sessions.Session.AddPayment` | shared/contracts/persistence.py:57-94 | A payment row is refused exactly when its identifier or its merchant and key are taken |
| `Sessions.Session.AddSnapshot` | shared/contracts/persistence.py:121-135 | A snapshot row is refused exactly when its merchant and key are taken |
| `ProcessorRepositories.PaymentRepository.MarkProcessing` | services/payments-processor/payments_processor/repositories/payment_repository.py:20-29 | The compare-and-set: true exactly when the payment has the version read, and then status and version are rewritten; otherwise nothing |
| `ProcessorRepositories.PaymentRepository.MarkConfirmed` | services/payments-processor/payments_processor/repositories/payment_repository.py:31-38 | Writes the final status, version + 2 and no error, whatever the row holds, and nothing else |
| `ProcessorRepositories.PaymentRepository.MarkFailed` | services/payments-processor/payments_processor/repositories/payment_repository.py:40-47 | Writes the final status, version + 2 and the reason, whatever the row holds, and nothing else |
| `ProcessorRepositories.OutboxRepository.FetchPending` | services/payments-processor/payments_processor/repositories/outbox_repository.py:16-49 | The batch: due pending rows of the wanted kind, each once, oldest first, at most the limit, and no due row left out unless the batch is full of rows that are no younger |
| `ProcessorRepositories.OutboxRepository.FetchPendingRequested` | services/payments-processor/payments_processor/repositories/outbox_repository.py:16-29 | Such a batch of payment requests |
| `ProcessorRepositories.OutboxRepository.FetchPendingFanoutEvents` | services/payments-processor/payments_processor/repositories/outbox_repository.py:31-49 | Such a batch of outcome and review events |
| `ProcessorRepositories.FirstRowsAreABatch` | services/payments-processor/payments_processor/repositories/outbox_repository.py:16-29 | The first rows of the complete sorted list of due rows are such a batch |
| `ProcessorRepositories.Place` | services/payments-processor/payments_processor/repositories/outbox_repository.py:25-27 | Placing a row behind all rows that are not younger keeps a list sorted |
| `ProcessorRepositories.OutboxRepository.MarkSent` | services/payments-processor/payments_processor/repositories/outbox_repository.py:51-57 | Unconditionally closes the event as sent, nothing else |
| `ProcessorRepositories.OutboxRepository.MarkFailed` | services/payments-processor/payments_processor/repositories/outbox_repository.py:59-65 | Unconditionally closes the event as failed with its attempts |
| `ProcessorRepositories.OutboxRepository.Reschedule` | services/payments-processor/payments_processor/repositories/outbox_repository.py:67-74 | Counts the attempt and makes the event due later; it stays pending |
| `ProcessorRepositories.OutboxRepository.EmitEvent` | services/payments-processor/payments_processor/repositories/outbox_repository.py:76-83 | Adds a pending event with no attempts at the end |
| `ProcessorCommands.MarkProcessingCommand.Execute` | services/payments-processor/payments_processor/commands/mark_processing.py:11-12 | Claims the payment exactly by the compare-and-set |
| `ProcessorCommands.FinalizePaymentCommand.Confirm` | services/payments-processor/payments_processor/commands/finalize_payment.py:16-24 | Status, version and outcome event of a confirmation in one transaction, both for a payment object the session refreshed and for one it did not |
| `ProcessorCommands.FinalizePaymentCommand.Fail` | services/payments-processor/payments_processor/commands/finalize_payment.py:26-35 | The same for a failure with its reason |
| `OutboxWorker.OutboxWorker.HandleProcessorError` | services/payments-processor/payments_processor/workers/outbox_worker.py:191-206 | The last allowed attempt fails the payment and its event; any other is rescheduled after the backoff delay |
| `OutboxWorker.OutboxWorker.ProcessPaymentEvent` | services/payments-processor/payments_processor/workers/outbox_worker.py:102-141 | From the won compare-and-set to the commit: the provider is asked through breaker and retry loop, and what is committed is the settlement of the protocol for its answer; if the breaker refuses the call the payment ends as FAILED without one |
| `OutboxWorker.OutboxWorker.SettleAndCommit` | services/payments-processor/payments_processor/workers/outbox_worker.py:110-141 | Every kind of answer, from confirmed to unexpected error, is committed as the settlement of the protocol; spelled out for the payment: confirmed and not partial becomes CONFIRMED, any other answer FAILED with "Partial failure", a processor error FAILED with its message at the attempt limit and nothing below it, anything else FAILED with "Unexpected processor failure" |
| `OutboxWorker.RefusedIsFinal` | services/payments-processor/payments_processor/workers/outbox_worker.py:124-141 | A claimed payment whose call the breaker refuses becomes FAILED without a provider call, its request is closed as failed, and the breaker stays as it was |
| `OutboxWorker.OutboxWorker.CloseUnclaimed` | services/payments-processor/payments_processor/workers/outbox_worker.py:79-87 | The request of a missing payment is closed as failed, that of a payment somebody else claimed as sent; no payment changes |
| `OutboxWorker.OutboxWorker.Claim` | services/payments-processor/payments_processor/workers/outbox_worker.py:79-84 | The compare-and-set with the version read earlier: won or not, and the tables of the transaction then |
| `OutboxWorker.OutboxWorker.ProcessClaimed` | services/payments-processor/payments_processor/workers/outbox_worker.py:84-141 | What follows a won compare-and-set: the provider is asked and its answer settled, with the delay of the attempts used |
| `OutboxWorker.OutboxWorker.ClaimAndProcess` | services/payments-processor/payments_processor/workers/outbox_worker.py:79-89 | From the compare-and-set to the commit, for a payment that was read before and may have changed since: the protocol's step on the tables as they are now; the provider is asked if and only if the swap is won |
| `OutboxWorker.OutboxWorker.ProcessEvent` | services/payments-processor/payments_processor/workers/outbox_worker.py:71-89 | One handled request, with others committing between any two of its transactions: an enabled read and an enabled attempt of the state machine, each on the tables of its own access |
| `OutboxWorker.OutboxWorker.HandleFanoutFailure` | services/payments-processor/payments_processor/workers/outbox_worker.py:171-189 | A failed publication is put off by the backoff delay with one more attempt, or closed as FAILED at the attempt limit; no other row changes |
| `OutboxWorker.OutboxWorker.PublishFanoutEvent` | services/payments-processor/payments_processor/workers/outbox_worker.py:153-169 | One published event is an enabled step of the state machine on the tables of its access: the row becomes SENT if the bus took it, FAILED at the attempt limit, and is put off by the backoff delay otherwise |
| `OutboxWorker.OutboxWorker.PublishFanoutEvents` | services/payments-processor/payments_processor/workers/outbox_worker.py:148-151 | The loop over the fan-out batch, with others committing in between: one enabled step for each event, in order |
| `OutboxWorker.OutboxWorker.PublishIfEnabled` | services/payments-processor/payments_processor/workers/outbox_worker.py:143-147 | Without a publisher the iteration ends behind the requests; with one, both halves together are one iteration |
| `OutboxWorker.OutboxWorker.ProcessEvents` | services/payments-processor/payments_processor/workers/outbox_worker.py:66-68 | The loop over the batch of requests, with others committing in between: a read and an attempt for each event, in order, and the breakers passed on from one to the next |
| `OutboxWorker.OutboxWorker.RunOnce` | services/payments-processor/payments_processor/workers/outbox_worker.py:61-69 | The whole iteration, with anybody else at the database between any two of its transactions, takes enabled steps of the state machine until nothing is left of its batches; each attempt that wins is charged with what the provider answered through the breaker, in the state the attempts before left it, and the retry loop, and no other attempt asks; each publication is what the bus answered; a failure is put off by exactly the backoff delay of its attempts and its draw; if nobody interferes it is an iteration as a whole |
| `OutboxWorker.OutboxWorker.HandleRequests` | services/payments-processor/payments_processor/workers/outbox_worker.py:65-68 | The first half of the iteration: the batch is fetched and each of its requests handled |
| `OutboxWorker.OneMoreHandled` | services/payments-processor/payments_processor/workers/outbox_worker.py:67-68 | Each further event extends the worker's journey by its two steps |
| `OutboxWorker.FairDrawsAreDraws` | shared/resilience/backoff.py:6-11 | Every draw the jitter allows at these settings is within 1.25 seconds |
| `OutboxWorker.RetryDelayIsBackoff` | services/payments-processor/payments_processor/workers/outbox_worker.py:191-206 | The delay after attempt n is 0.5, 1, 2, 4 and then 5 seconds, within a quarter and the rounding to a microsecond |
| `ApiRepositories.PaymentRepository.CreatePayment` | services/payments-api/payments_api/repositories/payment_repository.py:52-70 | Adds the payment at version 1 without an error, BLOCKED if either decision blocks, RECEIVED if both allow and IN_REVIEW otherwise, or breaks the transaction exactly when identifier or scope is taken |
| `ApiRepositories.PaymentRepository.UpdateStatus` | services/payments-api/payments_api/repositories/payment_repository.py:72-81 | Rewrites status and error of the row whatever its old status; no version changes |
| `ApiRepositories.PaymentRepository.GetByMerchantAndIdempotency` | services/payments-api/payments_api/repositories/payment_repository.py:42-50 | Finds a payment of the scope, or nothing exactly when there is none |
| `ApiRepositories.IdempotencyRepository.GetSnapshot` | services/payments-api/payments_api/repositories/idempotency_repository.py:15-23 | Finds the snapshot of the scope, or nothing exactly when there is none |
| `ApiRepositories.IdempotencyRepository.CreateSnapshot` | services/payments-api/payments_api/repositories/idempotency_repository.py:25-42 | Adds the snapshot, or breaks the transaction exactly when the scope has one |
| `ApiRepositories.OutboxRepository.AddEvent` | services/payments-api/payments_api/repositories/outbox_repository.py:14-24 | Adds a pending event with no attempts at the end |
| `Journeys.RequestMoveIsStep` | services/payments-api/payments_api/use_cases/create_payment.py:127-146 | A step recorded by the use case is an enabled step of the state machine with the same effect, whatever all other actors are doing |
| `Journeys.WorkerMoveIsStep` | services/payments-processor/payments_processor/workers/outbox_worker.py:61-89 | The same for a step recorded by a worker |
| `Interleaving.RequestJourneyIsRun` | services/payments-api/payments_api/use_cases/create_payment.py:127-146 | A journey of the use case, woven together with any runs of all other actors between its accesses, is a run of the state machine that ends in the phase and the tables the journey ends in |
| `Interleaving.JourneyRepliesAgree` | services/payments-api/payments_api/use_cases/create_payment.py:529-586 | So what the use case replies names the same payment and decisions as every reply its key got before in the run |
| `Interleaving.WorkerJourneyIsRun` | services/payments-processor/payments_processor/workers/outbox_worker.py:61-69 | A worker's journey through an iteration, woven together with any runs of requests, reviews and other workers between its transactions, is a run of the state machine |
| `Interleaving.OnlyWorkerKeepsLedger` | services/payments-processor/payments_processor/workers/outbox_worker.py:61-69 | If it is the only worker, the run is one of a single worker, and so the iteration leaves the ledger sound whatever requests and reviews do between its transactions |
| `CreatePayment.CreatePaymentUseCase.Execute` | services/payments-api/payments_api/use_cases/create_payment.py:127-146 | With other actors changing the tables before every access: the use case takes enabled protocol steps from the first lookup to a reply or a refusal, with the lock's, the controls' and the database's own answers, and leaves the tables as its last step did |
| `CreatePayment.CreatePaymentUseCase.LockThenCreate` | services/payments-api/payments_api/use_cases/create_payment.py:138-146 | Who gets the lock decides and commits, who does not polls |
| `CreatePayment.CreatePaymentUseCase.CreateWithControls` | services/payments-api/payments_api/use_cases/create_payment.py:179-220 | The controls decide first; only what they let through is written |
| `CreatePayment.CreatePaymentUseCase.PersistPaymentTransaction` | services/payments-api/payments_api/use_cases/create_payment.py:387-420 | Payment, outbox event and snapshot are committed together, or the tables are exactly as before and the session is clean |
| `CreatePayment.CreatePaymentUseCase.PersistOutboxEvents` | services/payments-api/payments_api/use_cases/create_payment.py:467-497 | RECEIVED gets a request, IN_REVIEW a review event, BLOCKED nothing |
| `CreatePayment.CreatePaymentUseCase.LookTwice` | services/payments-api/payments_api/use_cases/create_payment.py:422-437 | Snapshot first, then the payment; each is looked up in the tables as they are at that access |
| `CreatePayment.CreatePaymentUseCase.ResolvePending` | services/payments-api/payments_api/use_cases/create_payment.py:543-562 | A reply from the first of at most five rounds that finds snapshot or payment, else a refusal after exactly five rounds |
| `Journeys.Join` | services/payments-api/payments_api/use_cases/create_payment.py:127-146 | Journeys compose, with the numbering of their accesses |
| `ReviewPayment.LoadReviewPayment` | services/payments-api/payments_api/use_cases/review_payment.py:26-34 | The payment exactly when it is in review; otherwise which of the two errors it is |
| `ReviewPayment.ApproveReviewPaymentUseCase.Execute` | services/payments-api/payments_api/use_cases/review_payment.py:55-66 | A payment in review is received again together with its request in one commit, and the reply shows its identifier, new status and decisions; anything else changes nothing and is refused as not found or not in review |
| `ReviewPayment.RejectReviewPaymentUseCase.Execute` | services/payments-api/payments_api/use_cases/review_payment.py:84-97 | A payment in review becomes BLOCKED with the reason, without an event, and the reply shows it; anything else changes nothing and is refused likewise |
| `IdempotencyService.IdempotencyService.Acquire` | services/payments-api/payments_api/services/idempotency_service.py:17-32 | Granted exactly when the lock is free or the store does not answer; only a grant by the store changes it |
| `IdempotencyService.GrantsAreApart` | services/payments-api/payments_api/services/idempotency_service.py:17-21 | The store never grants one key twice within its time to live, over every sequence of requests |
| `IdempotencyService.GrantedExactlyWhen` | services/payments-api/payments_api/services/idempotency_service.py:17-21 | The store grants a lock if and only if it granted that key to nobody within the last time to live |
| `IdempotencyService.LocksCollideExactlyWhen` | shared/utils/ids.py:10-11 | Two scopes share a lock if and only if they are equal or the merchant of one continues that of the other with a colon that the other has in its key |
| `IdempotencyService.TwoMerchantsOneLock` | shared/utils/ids.py:10-11 | A concrete pair of merchants that share a lock |
| `Breaker.CircuitBreaker.AllowCall` | shared/resilience/circuit_breaker.py:37-41 | Admission and the three fields afterwards |
| `Breaker.CircuitBreaker.State` | shared/resilience/circuit_breaker.py:31-35 | Reading the state changes it when the recovery time is over |
| `Breaker.CircuitBreaker.OnSuccess` | shared/resilience/circuit_breaker.py:43-46 | A success makes the breaker as new |
| `Breaker.CircuitBreaker.OnFailure` | shared/resilience/circuit_breaker.py:48-54 | A failure trips a half-open breaker at once and a closed one at the threshold |
| `Breaker.AdmitsExactlyByHistory` | shared/resilience/circuit_breaker.py:31-64 | After every sequence of calls, reports and state reads under a clock that never goes back: a call is admitted if and only if fewer failures than the threshold were reported since the last success or the recovery time since the last failure is over |
| `Breaker.OnlyReportsMatter` | shared/resilience/circuit_breaker.py:31-41 | State reads and admissions, which change the fields, never change a later admission |
| `Retry.RetryAsync` | shared/resilience/retry.py:12-30 | With at least one attempt: between one and the maximum of calls, ending with the first success, the first error not to be retried or the last error; the raises behind the loop are never reached |
| `Retry.StopsOnce` | shared/resilience/retry.py:20-27 | That ending is unique |
| `CallProvider.CallProviderCommand.Execute` | services/payments-processor/payments_processor/commands/call_provider.py:26-48 | Breaker around retry: no call and an error that is no processor error when the breaker refuses or is missing; otherwise up to three calls, each further one only after a timeout or a server error, and the outcome of the last, one report to that breaker for the whole loop, and no other breaker changes |
| `CallProvider.OneMoreExecution` | services/payments-processor/payments_processor/commands/call_provider.py:26-48 | Replaying a history of executions does to the breaker's fields what the command does |
| `CallProvider.OutageBound` | services/payments-processor/payments_processor/commands/call_provider.py:26-48 | In every interval of length T without a success the provider is called at most 3 * (threshold + floor(T / recovery)) times |
| `CallProvider.StartsSpread` | shared/resilience/circuit_breaker.py:48-64 | From the threshold-th failure of an outage on, executions start at least the recovery time apart |
| `CallProvider.BreakerRemembers` | services/payments-processor/payments_processor/commands/call_provider.py:26-48 | Along the attempts of a worker a breaker remembers exactly the history of the executions that went through it |
| `CallProvider.WorkerOutageBound` | services/payments-processor/payments_processor/commands/call_provider.py:26-48 | So the bound holds of a worker: in an interval without a success its attempts call the provider behind a breaker at most 3 * (threshold + floor(length / recovery)) times |
| `Backoff.DelayIsCloseToNominal` | shared/resilience/backoff.py:6-11 | Each delay lies within (1 +/- jitter) of the nominal one |
| `Backoff.PositiveExactlyWhen` | shared/resilience/backoff.py:6-11 | Every possible delay is positive if and only if the jitter is below one |
| `Backoff.NominalNeverFalls` | shared/resilience/backoff.py:9-9 | The nominal delay never falls from one attempt to a later one |
| `Backoff.NominalDoubles` | shared/resilience/backoff.py:9-9 | The first nominal delay is the base, and each further one twice the one before until the cap is reached |
| `Backoff.DrawIsAdded` | shared/resilience/backoff.py:10-11 | The draw is added to the nominal delay, unless the sum is negative |
| `Backoff.TotalIsBounded` | shared/resilience/backoff.py:6-11 | The delays after n successive attempts add up to at most (1 + jitter) * min(n * cap, base * (2^n - 1)), for every n |
| `Backoff.BoundScales` | shared/resilience/backoff.py:9-11 | Scaling base and cap scales the bound |
| `Backoff.BoundInClosedForm` | shared/resilience/backoff.py:9-9 | The smaller of n caps and the geometric sum of the bases is min(n * cap, base * (2^n - 1)) |
| `LimitsService.LimitsService.Enforce` | services/payments-api/payments_api/services/limits_service.py:50-65 | The policy first, from the cache or the database, and its absence is an error that touches no counter; then amount, daily and velocity checks in this order, where the first that refuses ends them and the later counters stay as they were |
| `LimitsService.LimitsService.GetPolicy` | services/payments-api/payments_api/services/limits_service.py:67-94 | A readable, living cache entry wins and nothing changes; otherwise the database's policy is returned, and cached for the time to live from the filling on if there is one and the cache takes it |
| `LimitsService.AppliedPolicyIsRecent` | services/payments-api/payments_api/services/limits_service.py:67-94 | Over every sequence of lookups a policy that is applied is the one the database has, or had less than the time to live of the cache and the delay between its answer and the filling of the cache ago |
| `LimitsService.LimitsService.EnforcePolicy` | services/payments-api/payments_api/services/limits_service.py:96-100 | The three checks for a given policy: each refusal exactly when its check is the first to refuse, and which counters are untouched then |
| `LimitsService.LimitsService.EnforceDailyLimit` | services/payments-api/payments_api/services/limits_service.py:102-131 | The daily check with each command of the store failing or not: within the limit by the counter in cents, by the database's sum if the counter cannot be read, and by both if it cannot be written; a refusal or a failure leaves the counter as it was |
| `LimitsService.LimitsService.EnforceVelocityLimit` | services/payments-api/payments_api/services/limits_service.py:133-162 | The velocity check with each command of the store failing or not: below the limit by the members of the window, by the database's count if they cannot be counted, and by both if the insertion or the expiry fails; what they leave of the sorted set, into which no refused request is inserted |
| `LimitsService.LimitsService.AskStore` | services/payments-api/payments_api/services/limits_service.py:143-152 | The four commands on the sorted set up to the first that fails, with the key expiring in front of any of them: what they leave, and the count or no answer |
| `LimitsService.DailyCheckIsRun` | services/payments-api/payments_api/services/limits_service.py:102-131 | A daily check the store answers is one more request of its log, and lets through exactly when that one passes; so what is proved of the log holds of the service |
| `LimitsService.VelocityCheckIsRun` | services/payments-api/payments_api/services/limits_service.py:133-152 | The same for the key of the velocity limit |
| `LimitsService.VelocityCountIsThatOfTheLog` | services/payments-api/payments_api/services/limits_service.py:133-152 | The count the service returns is one more than the admissions the log has in the window, or none if these fill the limit |
| `LimitsService.DatabaseStaysWithinLimit` | services/payments-api/payments_api/services/limits_service.py:124-131 | While the store is down and every request that passed is in the database, what passes stays within the limit, and a request passes if and only if it fits |
| `LimitsService.DatabaseWindowIsBounded` | services/payments-api/payments_api/services/limits_service.py:154-162 | Then every closed interval as long as the window holds at most the limit of the requests that pass the velocity check |
| `DailyLimit.ExpiryNearMidnight` | services/payments-api/payments_api/services/limits_service.py:179-182 | The expiry computed at any time falls strictly between 23:59:58 and two seconds after 23:59:59 |
| `DailyLimit.CounterReadsTheSum` | services/payments-api/payments_api/services/limits_service.py:115-122 | Until 23:59:58 the counter equals the sum of the cents that passed that day |
| `DailyLimit.NeverOverLimit` | services/payments-api/payments_api/services/limits_service.py:116-121 | Until 23:59:58 what passed in a day never exceeds the limit in cents |
| `DailyLimit.PassesExactlyWhen` | services/payments-api/payments_api/services/limits_service.py:116-121 | Until 23:59:58 a request passes if and only if its cents and the cents that passed that day are within the limit together |
| `DailyLimit.CounterCountsSinceStart` | services/payments-api/payments_api/services/limits_service.py:115-122 | At any time of any day, for every sequence of requests, the counter holds exactly the cents that passed since it was last started by a request that found it gone |
| `DailyLimit.ReadsTheSumExactlyWhen` | services/payments-api/payments_api/services/limits_service.py:164-166 | At any time a request reads the day's sum if and only if the counter is alive and what passed before its last start adds up to zero, or the counter is gone and the sum is zero |
| `DailyLimit.TotalWithinStarts` | services/payments-api/payments_api/services/limits_service.py:116-121 | What passes in a day is at most the limit times the number of starts of its counter |
| `DailyLimit.OneStartWithinLimit` | services/payments-api/payments_api/services/limits_service.py:116-121 | So it exceeds the limit only if the counter was started again |
| `DailyLimit.RestartIsLate` | services/payments-api/payments_api/services/limits_service.py:179-182 | A counter is started again only at or behind 23:59:58 |
| `DailyLimit.CreatedStaysWithinStarts` | services/payments-api/payments_api/use_cases/create_payment.py:222-237 | Whichever requests that passed become payments, their total stays within the limit times the starts up to half a cent per request |
| `DailyLimit.LimitSpentTwice` | services/payments-api/payments_api/services/limits_service.py:179-182 | Two requests that together pass twice the limit in one day, the second half a second after 23:59:59 |
| `DailyLimit.CreatedStaysWithinLimit` | services/payments-api/payments_api/use_cases/create_payment.py:222-237 | Until 23:59:58 that is the limit once |
| `DailyLimit.RoundingError` | services/payments-api/payments_api/services/limits_service.py:175-176 | With half-even rounding the true total of n amounts is within n / 2 cents of their cents |
| `DailyLimit.WholeCentsAreExact` | services/payments-api/payments_api/services/limits_service.py:175-176 | For amounts of two decimals it is equal to them |
| `Rounding.NearestOrEven` | services/payments-api/payments_api/services/limits_service.py:175-176 | The rounding gives the one integer at most a half away, and the even one of two |
| `Velocity.AdmitsExactlyByLog` | services/payments-api/payments_api/services/limits_service.py:140-152 | If no request straddles the expiry of the key, a request is admitted if and only if fewer than the limit of admissions of the log lie in the window that ends with it: members never collide and a key that expired in between does not matter |
| `Velocity.EveryWindowIsBounded` | services/payments-api/payments_api/services/limits_service.py:145-152 | Then every interval as long as the window holds at most the limit of admissions |
| `Velocity.CountsTheLogExactlyWhen` | services/payments-api/payments_api/services/limits_service.py:145-146 | For every sequence of requests, however late their commands are: the count and the lost admissions of the window add up to the count of the log; so the count is that of the log if and only if the window holds no lost admission |
| `Velocity.DecidesByTheLogExactlyWhen` | services/payments-api/payments_api/services/limits_service.py:145-148 | The decision is that of the log if and only if what is left fills the window without the lost admissions, or the window is not full with them |
| `Velocity.NothingIsLostExactlyWhen` | services/payments-api/payments_api/services/limits_service.py:140-151 | No request of a run leaves a lost admission in its window if and only if no request straddles: reads the clock inside the window of the admission before, but has its last command executed when the time to live that admission set is over |
| `Velocity.SteadyRequestsSuffice` | services/payments-api/payments_api/services/limits_service.py:140-151 | No request straddles if none takes longer from its clock read to its last command than any before it |
| `Velocity.EveryWindowWithinLosses` | services/payments-api/payments_api/services/limits_service.py:145-152 | In every run an interval as long as the window holds at most the limit of admissions once, and once more for each loss |
| `Velocity.LateCountAdmitsAgain` | services/payments-api/payments_api/services/limits_service.py:140-146 | Two requests within one window pass a limit of one, because the store counts for the second when the key has just expired |
| `Velocity.BooksOfTheKey` | services/payments-api/payments_api/services/limits_service.py:145-151 | The accounting of kept and lost admissions describes the key of the store and the log of admissions |
| `RateLimiter.RateLimiterService.Enforce` | services/payments-api/payments_api/services/rate_limiter_service.py:29-38 | Merchant, customer and account are checked in this order against the merchant, customer and account limit; each check extends what the store has executed by its increment; the request is refused by the first dimension whose increments since the start are over its limit, and let through if there is none |
| `RateLimiter.RateLimiterService.Allow` | services/payments-api/payments_api/services/rate_limiter_service.py:40-50 | One check adds one increment to what the store has executed, and one expiry exactly when the reply is 1; it lets through if and only if the increments since the counter was last started are within the limit or the store failed |
| `RateLimiter.RateLimiterService.Increment` | services/payments-api/payments_api/services/rate_limiter_service.py:45-45 | The reply is the number of increments since the counter was last started |
| `RateLimiter.RateLimiterService.CheckOne` | services/payments-api/payments_api/services/rate_limiter_service.py:36-38 | One check of a request, with the commands of others before and inside it |
| `RateLimiter.RateLimiterService.LetsAtMostTwice` | services/payments-api/payments_api/services/rate_limiter_service.py:29-50 | Of the service with its three limits, over everything the store ever executed: in any half-open interval as long as the window it lets at most twice the merchant, customer or account limit through for each merchant, customer or account, plus those let through late |
| `RateLimiter.CounterCountsSinceStart` | services/payments-api/payments_api/services/rate_limiter_service.py:44-47 | For every interleaving and however late an increment is: a counter holds the increments since it was last started |
| `RateLimiter.ReplyCountsSinceStart` | services/payments-api/payments_api/services/rate_limiter_service.py:45-48 | An increment passes if and only if the increments since the last start, itself included, are within the limit |
| `RateLimiter.PassedExactlyWhen` | services/payments-api/payments_api/services/rate_limiter_service.py:40-50 | Of all increments of a counter, late ones included, exactly the first as many as the limit pass, if and only if all of them are within the limit or the counter is never restarted (or nothing is allowed at all) |
| `RateLimiter.PassedAtMost` | services/payments-api/payments_api/services/rate_limiter_service.py:40-50 | Each start of a counter lets at most the limit through |
| `RateLimiter.RestartIsLate` | services/payments-api/payments_api/services/rate_limiter_service.py:44-47 | Only an increment that reaches the store after its bucket's end and finds the counter expired restarts it |
| `RateLimiter.CounterIsExact` | services/payments-api/payments_api/services/rate_limiter_service.py:44-48 | Inside its own bucket a counter is alive and equals the increments so far, for every interleaving |
| `RateLimiter.InTimePassedExactly` | services/payments-api/payments_api/services/rate_limiter_service.py:44-48 | Of the increments that reach the store before their bucket ends, exactly the first as many as the limit pass |
| `RateLimiter.TwiceTheLimit` | services/payments-api/payments_api/services/rate_limiter_service.py:29-50 | Every half-open interval as long as the window lets at most twice the limit through in each dimension, plus those that pass late, which are counted |
| `RateLimiter.LateIncrementPassesAgain` | services/payments-api/payments_api/services/rate_limiter_service.py:44-47 | An increment that finds its bucket's counter expired starts it again: two requests of one bucket pass a limit of one |
| `RateLimiter.LateIncrementIsCountedOn` | services/payments-api/payments_api/services/rate_limiter_service.py:44-48 | Being late is not enough for that: while the counter lives, a late increment is counted on and refused |
| `AmlEntry.EntryRoundTrip` | services/payments-api/payments_api/services/aml_service.py:175-180 | Parsing the written text gives back exactly the timestamp, the rail and the amount, for every non-negative second, every rail without the separator and every finite decimal |
| `AmlEntry.DecimalRoundTrip` | services/payments-api/payments_api/services/aml_service.py:83-83 | Printing a decimal, plainly or with an exponent, and parsing the text gives back sign, coefficient and exponent |
| `AmlHistory.AmountIsTheNumber` | services/payments-api/payments_api/services/aml_service.py:144-153 | The amount that is summed is the number that sign, digits and point of the decimal stand for |
| `AmlEntry.WrittenEntry` | services/payments-api/payments_api/services/aml_service.py:83-83 | What an entry looks like |
| `AmlEntry.CutAtFirst` | services/payments-api/payments_api/services/aml_service.py:177-177 | Splitting finds the first separator |
| `AmlHistory.AmlRuleEngine.RecordOutgoing` | services/payments-api/payments_api/services/aml_service.py:81-94 | Push, trim and expiry of the key, each at its own time and with the failure of each command |
| `AmlHistory.PushedIsNewest` | services/payments-api/payments_api/services/aml_service.py:85-94 | Whatever fails behind the push, the payment is the newest entry, before all that were there; the time to live starts anew only if all commands were answered |
| `AmlHistory.NothingPushed` | services/payments-api/payments_api/services/aml_service.py:85-94 | A failing push leaves the key as it was |
| `AmlHistory.AmlRuleEngine.SumRecent` | services/payments-api/payments_api/services/aml_service.py:144-153 | The loop computes the sum over all entries of the rail that parse and are not older than the cutoff |
| `AmlHistory.AmlRuleEngine.CountNear` | services/payments-api/payments_api/services/aml_service.py:155-173 | The loop counts the entries of the rail that parse, are not older than the cutoff and lie between the two amounts |
| `AmlHistory.AmlRuleEngine.TotalOutgoingRecent` | services/payments-api/payments_api/services/aml_service.py:96-109 | That sum over the stored list, or the database's figure when the store does not answer |
| `AmlHistory.AmlRuleEngine.NearThresholdCount` | services/payments-api/payments_api/services/aml_service.py:111-128 | That count over the stored list, or the database's figure |
| `AmlHistory.AmlRuleEngine.Evaluate` | services/payments-api/payments_api/services/aml_service.py:54-79 | Block if and only if the destination is given, not empty and in the blocklist; Review if and only if it is not, and the sum of the window and the amount exceed the threshold, or the count near the maximum, with this payment when it is at least 95% of it, reaches the structuring count; Allow otherwise. Stated for the figures as they are read, for those of the full log when both reads show it, and for the database's when the store does not answer |
| `AmlHistory.ReplayKeepsNewest` | services/payments-api/payments_api/services/aml_service.py:86-92 | After recording any log of payments the key holds the newest of them, newest first, up to 501 and back to the last time it expired, inside a recording included |
| `AmlHistory.SumIsExactlyThatOfTheLogWhen` | services/payments-api/payments_api/services/aml_service.py:144-153 | The windowed sum of a rail is never more than that of the full log, and equal to it if and only if no payment that counts is out of sight |
| `AmlHistory.CountIsExactlyThatOfTheLogWhen` | services/payments-api/payments_api/services/aml_service.py:155-173 | The same for the count near the threshold |
| `AmlHistory.LostOnlyWhen` | services/payments-api/payments_api/services/aml_service.py:87-91 | A payment is out of sight only behind 501 newer ones, when the time to live has passed since its recording by the time of the read, or when its own recording straddled the expiry of the key |
| `AmlHistory.AgreesUpTo501` | services/payments-api/payments_api/services/aml_service.py:102-107 | So with at most 501 payments of the customer in the window, over all rails, all of them younger than the time to live when the list is read and none recorded across an expiry, sum and count are those of the full log; the clock of the cutoff is read before the list |
| `AmlHistory.ShortWindowSees` | services/payments-api/payments_api/services/aml_service.py:90-91 | A window shorter than the time to live leaves a read the difference less a second to come after its clock |
| `AmlHistory.DecisionIsThatOfTheLog` | services/payments-api/payments_api/services/aml_service.py:54-79 | Under those conditions for both windows, each with its own clock and read, the decision is the one the full log would give |
| `AmlHistory.ExpiryLosesTheLastSecond` | services/payments-api/payments_api/services/aml_service.py:88-92 | A payment that still counts in the log but whose key has expired |
| `AmlHistory.LateReadLosesMore` | services/payments-api/payments_api/services/aml_service.py:103-104 | A payment of a later second that is out of sight because the list is read a microsecond after the clock |
| `AmlHistory.StraddlingLosesItself` | services/payments-api/payments_api/services/aml_service.py:87-91 | A payment that is lost by its own recording, whose push finds the key alive and whose expiry command finds it gone |
| `AmlHistory.LessHistoryIsNeverStricter` | services/payments-api/payments_api/services/aml_service.py:64-79 | Seeing less of the history never turns allow into review or block |
| `Redaction.RedactedIsClean` | shared/logging/logger.py:23-24 | A redacted text holds no whole word of 12 to 19 digits, for every classification of characters that agrees with ASCII |
| `Redaction.RedactTwice` | shared/logging/logger.py:23-24 | Redacting twice is redacting once |
| `Redaction.UnchangedExactlyWhen` | shared/logging/logger.py:12-12 | A text is left unchanged if and only if nothing in it matches |
| `Redaction.WordByWord` | shared/logging/logger.py:12-12 | The first word of a text is replaced by "[REDACTED]" if and only if it consists of 12 to 19 digits; otherwise it is copied |
| `Redaction.RedactsByWords` | shared/logging/logger.py:23-24 | For every text the substitution is the word-by-word rewriting that replaces the words of 12 to 19 digits and copies every other word and every character between words |
| `Sanitizer.SanitizeMapping` | shared/logging/logger.py:27-36 | The loop that fills the dictionary, against the specification of sanitised mappings |
| `Sanitizer.SanitizeKeepsPromises` | shared/logging/logger.py:43-58 | For every nested value: the result nests at most six levels, every sensitive key maps to the marker only, and no text value holds a card-like number |
| `Sanitizer.SanitizeRenders` | shared/logging/logger.py:43-58 | At every place of every nested value, six levels deep: a text becomes exactly its word-by-word rewriting, a date its ISO text, numbers and other objects stay, lists and tuples keep their kind and order, a mapping has one item for each key text, with what becomes of the last value under it or the marker, and what lies deeper is cut off |
| `Sanitizer.HidesExactly` | shared/logging/logger.py:13-19 | The sensitive keys are destination, pix_key, beneficiary, card_number and pan in every mixture of cases, and no others |
| `Sanitizer.SanitizeTwice` | shared/logging/logger.py:43-58 | Sanitising twice is sanitising once, for every nested value |
| `Sanitizer.KeysAreKept` | shared/logging/logger.py:27-36 | A mapping with different key texts keeps its keys in order, each with its own sanitised value |
| `Sanitizer.LastValueWins` | shared/logging/logger.py:33-35 | When keys have the same text, the last value under it ends up in the result |

## Left out

- Sessions.Session.Commit: a commit replaces the whole tables by what the session sees, so no other actor commits inside one of the worker's transactions; between them anybody may.
- OutboxWorker.OutboxWorker.RunOnce: covers an iteration in which no statement raises; an exception of the database ends an iteration like a crash, which is a step of the state machine.
- CreatePayment.CreatePaymentUseCase.CreateWithControls: the controls enter as one verdict; limits, rate limit and AML history are modelled by themselves, customer lookup, KYC ranks, risk score and header checks are not.
- Overlapping reviews of one payment: load and commit of a review are one step, because `update_status` has no guard.
- Breaker.AdmitsExactlyByHistory: sequential use of a breaker and a threshold of at least one.
- CallProvider.OutageBound: executions of one provider one after the other, as one worker makes them.
- Velocity.AdmitsExactlyByLog: sequential requests, a fixed policy and a window of at least one tick, because count and insertion are separate commands; a store that answers.
- DailyLimit.CounterCountsSinceStart: sequential requests and a store that answers, because read and write of the counter are separate commands; the counter is read at a time of its own, behind the clock read that decides the day.
- RateLimiter.PassedExactlyWhen: a store that answers; a request whose increment fails is let through uncounted.
- RateLimiter.RestartIsLate: the clock the bucket is taken from is not ahead of the store's, so that no increment reaches the store before its bucket begins.
- LimitsService.DatabaseStaysWithinLimit: every request that passed is in the database when the next one asks, because checks and commits of concurrent requests overlap otherwise.
- LimitsService.DatabaseWindowIsBounded: the same, with checks in the order of their clocks.
- Clocks: services and store share one clock in all counters and histories; no command reaches the store before the clock value it was issued at.
- AmlHistory.AgreesUpTo501: recordings one after the other with a store that answers; sums are exact where the service rounds to 28 significant digits.
- AmlEntry.EntryRoundTrip: NaN and the infinities, and what the service's parsers accept beyond the written form (spaces, underscores, non-ASCII digits).
- AmlHistory.SumIsExactlyThatOfTheLogWhen: amounts above zero, as the API accepts them.
- Sanitizer.SanitizeTwice: dates enter as their ISO text, of which only the separators are known; numbers and other objects are opaque.
- The formatter around the sanitiser, the correlation context and the final encoding as JSON.
- IdempotencyService.GrantsAreApart: one clock for everyone; the protocol itself assumes nothing about the lock.
- Payloads of events, trace identifiers, and columns of a payment that no later step reads.
- Failures after the commit of a creation, such as the recording in the AML history, and the metrics.
- The bulkhead around a provider call, the sleeps between retries, and the provider simulator.
- HTTP routes, wiring, settings, and the internals of PostgreSQL, Redis and the message brokers.
