# Verified model of webhook capture and forwarding

The project models, and proves properties of, the parts of the service that have to
stay right under concurrency and failure:

- **The forward delivery protocol.** A forward is a database row. Workers claim it, send
  it while holding no lock, record the outcome without looking at the row's status, and
  re-enqueue it; they can crash between any two phases. Owners abandon and retry forwards,
  and a redrive run reclaims stuck rows and enqueues them again. `Forwards` holds the row,
  the retry decision and the guarded updates as functions; `ForwardRepository`,
  `ForwardQueue` and `DeliveryService` are the table, the queue and the use cases as
  classes changed in place; `Protocol` is one forward with its live workers and its log
  under every interleaving; `Runs` is the whole system (all forwards, one clock, one
  queue) and holds the theorems about every reachable state. `Recovery` is what redrives
  and retries bring back, `IdempotencyKeys` the numbers and keys of attempts, `Success`
  when a delivered forward stays delivered, and `TimedRuns` adds the job timeout. The
  runs that show a bound reached or a promise broken are built in `JobRuns`, where every
  claim is made by a job just taken from the queue and every retry waits out its delay.
  `DeliveryService` proves that each phase of a job and each owner's operation is one
  protocol step from any reachable state in which it can begin, so other steps may come
  between the phases; whole jobs are also shown as uninterrupted sequences of phases.
- **Listing.** `Paging` is the keyset query and the client that follows `next_before_id`,
  on a fixed table and on a growing one; `ForwardListing` joins it to the protocol.
- **The sliding-window rate limiter**: `RateLimit`, and under clocks that step back
  `RateLimitClock`.
- **The signature header** printed by the worker and read by the Stripe validator:
  `StripeSignature`, on top of a real UTF-8 codec (`Utf8`) and text functions (`Text`).
- **Bodies** from capture to delivery: `Capture`. **Outbound headers**: `OutboundHeaders`.
- **Live notification fan-out**: `Notifier`.

Times are integers of microseconds (milliseconds in the limiter). Every protocol step
carries its own clock reading, which may be older than the system clock. The queue hands a
job out once, and the claims it leads to may come late, repeatedly or never, so in the
theorems about all runs a claim can start at any time. The queue refuses a job whose id is
waiting, running or still remembered from an earlier run; when it forgets an id is left
open, since the worker settings set no retention (`jobs/worker.py:221-259`).
HTTP, DNS, the blob store, Redis failures, fresh UUIDs and exceptions are parameters. A
transaction that raises is rolled back and leaves no trace.

## Where the code and its comments differ

The model follows the code.

- `forward_decision.py` line 14 says every 5xx answer is retried; the set on the next line
  retries six of them (`Forwards.ServerErrorsRetried`).
- `next_attempt_at` is the recording time, not the time of the scheduled retry, so a redrive
  run picks up every failed forward at once, whatever its backoff
  (`Recovery.RedriveIgnoresBackoff`), although the comment at
  `redrive_pending_forwards.py:60` speaks of rows whose scheduled retry passed.
- The schedule has five entries, but the last one (four hours) is never used
  (`Runs.BackoffsBounded`).
- A redrive run is said to guarantee recovery (`redrive_pending_forwards.py:50-54`). It does
  make every due forward claimable, but capture, retry and redrive all give a forward's
  immediate job one id, so while the queue remembers the job a capture queued, a redrive
  or a retry puts nothing on the queue and nobody notices (`Recovery.RedriveQueues` is the
  exact condition, `Recovery.RedriveCanBeIgnored` a run). The run also enqueues before it
  commits, so a fast worker can use the new job up (`Recovery.EarlyJobWasted`).
- Idempotency keys are one per attempt number, not one per attempt: a retry of a dead or
  abandoned forward starts again at number five (`IdempotencyKeys.KeyRepeated`).
- The limiter's module comment says it adds and then counts; the script counts first.
- `record_outcome` has no guard on the status, so a delivered forward can become failed. It
  stays delivered exactly when no other worker still holds it (`Success.SuccessFinalExactly`);
  `Success.LostAfterReclaim` and `Success.LostAfterAbandon` are runs that lose a success.
- A key the sender calls `idempotency-key` reaches the target beside the worker's
  (`OutboundHeaders.SenderKeyTravels`).
- A forward whose insert fails is said to be survivable (`capture_request.py:169-178`), but the
  request shares its session, which then cannot commit (`Capture.CaptureRequest.Execute`).

## Model

| member | source | states |
|---|---|---|
| Runs.AttemptBudget | src/webhook_inspector/infrastructure/repositories/forward_repository.py:73-114 | In every reachable state a forward has at most 5 claims plus one per reclaim plus one per retry from dead/abandoned, and at most four `failed` records by workers |
| JobRuns.BudgetReached | src/webhook_inspector/application/use_cases/forward_decision.py:37-52 | The bound is attained: every forward has a run of five claims on schedule, each made by the job the last failure scheduled, with no reclaim and no operator |
| Runs.WorkerExclusion | src/webhook_inspector/infrastructure/repositories/forward_repository.py:207-271 | In every reachable state the live workers on a forward are at most 1 + reclaims + in-flight abandons; with crashes and late records counted it is an equality |
| Runs.RowsCoherent | src/webhook_inspector/infrastructure/repositories/forward_repository.py:80-271 | Every stored row is coherent: completion time iff terminal, failed rows due no later than the clock, start time, last attempt, error and status code in step with the status |
| Runs.BackoffsBounded | src/webhook_inspector/application/use_cases/forward_decision.py:37-52 | Every scheduled delay is 30, 120, 600 or 3600 s, each at most once in a forward's life, 4350 s together |
| Runs.ScheduledRetryAccepted | src/webhook_inspector/application/use_cases/execute_forward.py:148-150 | In every reachable state the job id of a retry about to be scheduled equals no id the queue knows, however long it remembers ids, so deduplication never swallows it |
| Runs.FirstOfferAccepted | src/webhook_inspector/web/ingestor/routes.py:165-178 | Along any run, from before a capture until somebody offers the forward its immediate job is unknown to the queue, so the first offer is never refused |
| Runs.RunContinues | src/webhook_inspector/infrastructure/repositories/forward_repository.py:167-205 | Along a run a forward keeps its identity, creation time and history, its manual-retry stamp is never cleared, and its counter never falls below min(old, 4) |
| IdempotencyKeys.AttemptsNumbered | src/webhook_inspector/infrastructure/repositories/forward_repository.py:80-84 | In every reachable state the counter is the one read off the history (plus one per claim, four again at each retry from dead/abandoned), and each claim's number is one more than that counter before it |
| IdempotencyKeys.KeysShared | src/webhook_inspector/application/use_cases/execute_forward.py:210 | Two sends of any forwards share an idempotency key iff they are of one forward and their claims found the same counter |
| IdempotencyKeys.KeysSharedAfterRetry | src/webhook_inspector/application/use_cases/execute_forward.py:210 | Two sends that share a key are of different workers, past the budget, with a retry from dead/abandoned between their claims |
| IdempotencyKeys.RetryRepeatsKey | src/webhook_inspector/infrastructure/repositories/forward_repository.py:178-184 | The first send after a retry from dead/abandoned is attempt five, so it repeats a key iff attempt five was sent before |
| IdempotencyKeys.KeyRepeated | src/webhook_inspector/infrastructure/repositories/forward_repository.py:178-184 | It happens: every forward has a run on schedule, one fired job per claim, in which attempt five is sent twice under one key |
| IdempotencyKeys.AttemptsGrow | src/webhook_inspector/infrastructure/repositories/forward_repository.py:80-84 | Without such a retry in between, later claims carry strictly larger attempt numbers |
| IdempotencyKeys.IdempotencyKeyInjective | src/webhook_inspector/application/use_cases/execute_forward.py:210 | The header text determines the forward and the attempt |
| IdempotencyKeys.IdempotencyKeyReads | src/webhook_inspector/application/use_cases/execute_forward.py:210 | Before the colon the header reads as the forward's id with its dashes in place, after it as the attempt number without a leading zero |
| Text.DecimalReads | src/webhook_inspector/application/use_cases/execute_forward.py:210 | A printed number reads back by place value as the number it is |
| Text.ParseUuidExactly | src/webhook_inspector/infrastructure/notifications/postgres_notifier.py:85-88 | A text parses as a UUID iff what its dashes leave spells the 32 digits, in any letter case |
| Recovery.RedriveSelectsDue | src/webhook_inspector/infrastructure/repositories/forward_repository.py:232-290 | From every reachable state a redrive selects exactly the due forwards of its endpoint, makes each claimable, and changes only due in-flight rows |
| Recovery.RedriveQueues | src/webhook_inspector/application/use_cases/redrive_pending_forwards.py:70-79 | From every reachable state a redrive stores a job for a forward iff the forward is due, its enqueue does not raise and the queue does not know its immediate job; the job then waits iff no worker takes it before the commit |
| Recovery.EarlyJobWasted | src/webhook_inspector/application/use_cases/redrive_pending_forwards.py:55-79 | A reclaimed forward is left failed with its new job used up iff a worker takes that job before the commit, when the row still reads in flight |
| Recovery.KeptBlocks | src/webhook_inspector/infrastructure/queue/arq_forward_queue.py:21-27 | Along any run, a job handed to a worker is never on the queue again until the queue forgets it, whatever redrives and retries there are |
| Recovery.ForgottenStored | src/webhook_inspector/application/use_cases/redrive_pending_forwards.py:70-79 | Once the queue has forgotten the job, the next redrive stores one iff the forward is due and its enqueue does not raise |
| Recovery.RedriveCanBeIgnored | src/webhook_inspector/application/use_cases/redrive_pending_forwards.py:50-78 | A run of fired jobs (capture, claim, crash, redrive past the threshold) after which the forward is selected and claimable, no enqueue raised, and the queue is empty |
| Recovery.NoForwardLost | src/webhook_inspector/application/use_cases/redrive_pending_forwards.py:49-79 | One redrive run five minutes after creation and start leaves every pending, failed or in-flight forward claimable and selected; it then has a job waiting iff it had one, or its enqueue did not raise, the queue had forgotten the earlier one and no worker took the new one before the commit |
| Recovery.RedriveIgnoresBackoff | src/webhook_inspector/application/use_cases/execute_forward.py:135-137 | Every failed forward is selected by a redrive at once, whatever its backoff |
| Runs.RunKeeps | src/webhook_inspector/infrastructure/repositories/forward_repository.py:73-290 | The system invariant holds in every state of every run |
| Protocol.StepKeepsInv | src/webhook_inspector/application/use_cases/execute_forward.py:108-152 | Every step of a worker, a crash, a reclaim or an operator keeps the invariant of the forward it touches |
| Protocol.KeepsConserved | src/webhook_inspector/infrastructure/repositories/forward_repository.py:207-271 | Holders, the free row, crashes and late records stay exactly paid for by reclaims and in-flight abandons |
| Protocol.KeepsOrdered | src/webhook_inspector/infrastructure/repositories/forward_repository.py:178-184 | Attempt numbers 1 to 4 are never claimed twice, and numbers grow between terminal retries |
| ForwardLife.EarlyClaimsDiffer | src/webhook_inspector/infrastructure/repositories/forward_repository.py:82 | Two claims of a forward never have the same number below five |
| ForwardLife.FailuresBounded | src/webhook_inspector/application/use_cases/forward_decision.py:45-52 | A forward is recorded failed by workers at most four times |
| ForwardLife.DelayBounded | src/webhook_inspector/application/use_cases/forward_decision.py:48-52 | All scheduled delays of a forward sum to at most 4350 s |
| ForwardLife.PendingDelayIsNew | src/webhook_inspector/infrastructure/queue/arq_forward_queue.py:12-15 | The delay about to be scheduled was used by no earlier retry of the forward |
| ForwardLife.SendsShareAttempt | src/webhook_inspector/application/use_cases/execute_forward.py:210 | Two sends of a forward with one attempt number come from different workers, are past the budget and have a terminal retry between their claims |
| Success.SuccessFinalExactly | src/webhook_inspector/infrastructure/repositories/forward_repository.py:92-114 | From a reachable state with the forward succeeded, some run takes it out of succeeded iff a worker still holds it, that is iff reclaims and in-flight abandons outnumber crashed and late workers |
| Success.StaysSettled | src/webhook_inspector/application/use_cases/execute_forward.py:156-158 | A succeeded forward no worker holds never changes its row and is never sent again, along any path |
| TimedRuns.TimedExclusion | src/webhook_inspector/application/use_cases/redrive_pending_forwards.py:31-35 | If no worker of a forward outlives 120 s and that forward is not abandoned in flight, at most one worker holds it and the row is as its claim left it, whatever happens to other forwards |
| TimedRuns.RecordsOwnClaim | src/webhook_inspector/application/use_cases/execute_forward.py:139-146 | In such runs a record of that forward lands on an in-flight row with the recorder's attempt number |
| TimedRuns.ReclaimSparesLive | src/webhook_inspector/application/use_cases/redrive_pending_forwards.py:55-59 | In such runs a redrive leaves that forward untouched while a worker holds it |
| TimedRuns.SuccessIsFinal | src/webhook_inspector/application/use_cases/execute_forward.py:156-158 | In such runs that forward, once succeeded, never changes again and is never sent again |
| Success.LostAfterReclaim | src/webhook_inspector/application/use_cases/redrive_pending_forwards.py:55-59 | A run of fired jobs: the fifth attempt's worker outlives the reclaim threshold, the queue forgets the long finished first job, a redrive's job delivers, and the old worker's network error makes the forward dead |
| Success.LostAfterAbandon | src/webhook_inspector/infrastructure/repositories/forward_repository.py:207-230 | The same with every worker on time: the fifth attempt is abandoned in flight, the queue forgets the long finished first job, and a retry's job delivers before the old worker's network error |
| ForwardQueue.JobIdInjective | src/webhook_inspector/infrastructure/queue/arq_forward_queue.py:21-27 | Two job ids are equal iff forward and delay are |
| ForwardQueue.JobIdReads | src/webhook_inspector/infrastructure/queue/arq_forward_queue.py:25 | A job id reads back as the prefix, the forward and the delay |
| ForwardQueue.ArqForwardQueue.Enqueue | src/webhook_inspector/infrastructure/queue/arq_forward_queue.py:21-27 | A job is refused exactly when this forward and delay are waiting or remembered already; an accepted one waits, and nothing else changes |
| ForwardRepository.ForwardTable.ClaimForAttempt | src/webhook_inspector/infrastructure/repositories/forward_repository.py:73-90 | The claim hits pending and failed rows only and changes that row only |
| ForwardRepository.ForwardTable.RecordOutcome | src/webhook_inspector/infrastructure/repositories/forward_repository.py:92-114 | The outcome is written whatever the status, on that row only |
| ForwardRepository.ForwardTable.ClaimForManualRetry | src/webhook_inspector/infrastructure/repositories/forward_repository.py:167-205 | Guarded by endpoint and status; new row and unchanged rest |
| ForwardRepository.ForwardTable.Abandon | src/webhook_inspector/infrastructure/repositories/forward_repository.py:207-230 | Guarded by endpoint and non-terminal status; new row and unchanged rest |
| ForwardRepository.ForwardTable.ReclaimStuckInFlight | src/webhook_inspector/infrastructure/repositories/forward_repository.py:252-271 | Exactly the stuck in-flight rows of the endpoint are returned and become failed |
| ForwardRepository.ForwardTable.ListOverdueFailed | src/webhook_inspector/infrastructure/repositories/forward_repository.py:273-290 | Each overdue failed row once, earliest first |
| ForwardRepository.ForwardTable.RedriveStuckPending | src/webhook_inspector/infrastructure/repositories/forward_repository.py:232-250 | Each stuck pending row once, oldest first |
| ForwardRepository.ForwardTable.ListByEndpoint | src/webhook_inspector/infrastructure/repositories/forward_repository.py:116-150 | The page is the first `limit` keys past the cursor in listing order; an unknown cursor filters nothing |
| DeliveryService.Service.Attempt | src/webhook_inspector/application/use_cases/execute_forward.py:108-152 | One fired job without interruption takes exactly the protocol steps of its ending, its ending is the function `EndingOf` of the row and the failures it met, and a completed one leaves the claimed row with the outcome stored as for RecordPhase |
| DeliveryService.Service.ClaimPhase | src/webhook_inspector/application/use_cases/execute_forward.py:154-194 | From any state the claim transaction is one protocol step or none: skipped on an unclaimable row, undone by an exception, dead without endpoint or request, else held |
| DeliveryService.Service.RecordPhase | src/webhook_inspector/application/use_cases/execute_forward.py:116-146 | From any reachable state in which the worker holds, storing its outcome is one protocol step, whatever the row has become; the status is succeeded iff an answer from 200 to 299, failed iff one of the first four attempts met a network error or one of nine codes, else dead; code, error, stamps and the delay of the retry are as the source has them |
| DeliveryService.Service.RequeuePhase | src/webhook_inspector/application/use_cases/execute_forward.py:148-150 | From any reachable state after a failed record, scheduling the retry is one protocol step, and the queue accepts it unless the call raises |
| DeliveryService.Service.Redrive | src/webhook_inspector/application/use_cases/redrive_pending_forwards.py:44-79 | The run is the protocol's redrive step, tries each selected forward exactly once, failed ones by their stamp and then pending ones by age, whichever enqueues raise, returns their number, and the jobs stored are exactly those tried, not raising and not known before |
| DeliveryService.Service.EnqueueAll | src/webhook_inspector/application/use_cases/redrive_pending_forwards.py:70-78 | All forwards are tried in order; a job is stored exactly for those whose enqueue does not raise and whose immediate job the queue did not know |
| DeliveryService.Service.RetryForward | src/webhook_inspector/application/use_cases/retry_forward.py:34-46 | Succeeds exactly for the endpoint's failed, dead and abandoned forwards, as one protocol step up to the commit, with every column of the new row given |
| DeliveryService.Service.OfferForward | src/webhook_inspector/web/app/routes.py:557-586 | From any later state the background enqueue of a capture or a retry is one protocol step, and a job is stored iff the call does not raise and the queue does not know the forward's immediate job |
| DeliveryService.Service.AbandonForward | src/webhook_inspector/application/use_cases/abandon_forward.py:30-39 | Succeeds exactly for the endpoint's pending, in-flight and failed forwards, as one protocol step, with every column of the new row given |
| DeliveryService.Service.AddForward | src/webhook_inspector/domain/entities/forward.py:32-57 | From any state a new forward is stored as the protocol's capture step, naming its request, endpoint and target, pending and untouched |
| Runs.LeadsToReachable | src/webhook_inspector/jobs/worker.py:86-100 | Steps taken from a reachable state end in a reachable state, so the phases and operations above keep every theorem about reachable states, in any interleaving of them |
| Paging.Enumerate | src/webhook_inspector/web/app/routes.py:367-396 | The client that follows `next_before_id` stops and gets every matching row exactly once, newest first, equal moments by falling id |
| Paging.ListPage | src/webhook_inspector/infrastructure/repositories/request_repository.py:54-87 | The page is the first `limit` rows past the cursor, newest first, equal timestamps by falling id, and all of it is older than the cursor |
| Paging.PageUnique | src/webhook_inspector/infrastructure/repositories/request_repository.py:61-66 | Order and limit leave one possible page |
| Paging.WalkComplete | src/webhook_inspector/web/app/routes.py:517-521 | A walk through a growing table under a filter whose rows come and go lists nothing twice, misses nothing that passes throughout, and lists nothing that never passed |
| ForwardListing.ForwardWalkComplete | src/webhook_inspector/infrastructure/repositories/forward_repository.py:124-150 | With any status filter, and any protocol run between the pages, a completed walk lists every forward that passes the filter at each fetch |
| ForwardListing.ForwardWalkSound | src/webhook_inspector/infrastructure/repositories/forward_repository.py:124-150 | Such a walk lists no forward twice and none that never passed |
| ForwardListing.UnfilteredPasses | src/webhook_inspector/infrastructure/repositories/forward_repository.py:124-150 | Without a status filter the forwards that pass at each fetch are those the endpoint had at the first |
| RateLimit.SlidingWindow.Check | src/webhook_inspector/web/middleware/rate_limit.py:49-69 | Under any clock the set is left as `Admit` says; while the clock never stepped back the script answers as a history that never forgets would (count, oldest, retry), every window-long interval holds at most `limit`, and a refused request changes no later decision |
| RateLimit.Script | src/webhook_inspector/web/middleware/rate_limit.py:49-69 | The script's answer and what it leaves in the set, for every stored set and clock reading |
| RateLimit.SlidingWindow.Expire | src/webhook_inspector/web/middleware/rate_limit.py:67 | Dropping the key after its time to live keeps that invariant, so it changes no decision |
| RateLimit.AdmitKeepsBounded | src/webhook_inspector/web/middleware/rate_limit.py:59-68 | One admission decided by the script keeps every window-long interval within the limit |
| RateLimit.PrunedIsWindow | src/webhook_inspector/web/middleware/rate_limit.py:56-59 | What is stored after pruning is exactly the window of the whole history |
| RateLimit.OpensExactly | src/webhook_inspector/web/middleware/rate_limit.py:60-64 | A full window opens exactly at the oldest admission plus the window |
| RateLimit.RetryAfterExact | src/webhook_inspector/web/middleware/rate_limit.py:61-63 | Retry-After lies in [1, window seconds], waiting it out suffices and one second less does not |
| RateLimitClock.BoundedUnderAnyClock | src/webhook_inspector/web/middleware/rate_limit.py:145-158 | The bound holds for all call sequences under any clock iff the limit is at most one or the window is empty |
| RateLimitClock.BrokenByStepBack | src/webhook_inspector/web/middleware/rate_limit.py:145-158 | For every limit from two, every window and every size of a single step back, a run of calls breaks the bound |
| RateLimitClock.SteadyKept | src/webhook_inspector/web/middleware/rate_limit.py:49-69 | For every sequence of calls under a steady clock the bound holds and the stored set tracks the history |
| StripeSignature.Validate | src/webhook_inspector/domain/services/hmac/stripe.py:15-56 | Missing iff no header; accepts iff the last timestamp is non-empty, the body is UTF-8 and some signature, reached before any non-ASCII one, is the expected digest; raises iff instead a non-ASCII one is reached before any match |
| StripeSignature.WorkerHeaderAccepted | src/webhook_inspector/application/use_cases/execute_forward.py:213-217 | The header the worker prints is accepted under the same secret iff the body is UTF-8 |
| StripeSignature.DecoratedHeaderAccepted | src/webhook_inspector/domain/services/hmac/stripe.py:26-39 | It is still accepted with other schemes, extra signatures, other order and padding around it |
| StripeSignature.ExpectedIsSigned | src/webhook_inspector/application/use_cases/outbound_signature.py:20-22 | The validator's digest of a UTF-8 body is the worker's |
| StripeSignature.HexDigestReads | src/webhook_inspector/application/use_cases/outbound_signature.py:20-22 | Each pair of digits of a printed digest reads back as its byte |
| StripeSignature.HeaderReads | src/webhook_inspector/application/use_cases/execute_forward.py:213-217 | The worker's header reads back: the timestamp as its number, the one signature as the digest byte by byte |
| StripeSignature.HeaderAcceptedElsewhere | src/webhook_inspector/domain/services/hmac/stripe.py:42-56 | A header signed under one secret over one body is accepted under another secret and body iff that body is UTF-8 and the two macs are equal |
| StripeSignature.PaddedField | src/webhook_inspector/domain/services/hmac/stripe.py:33-35 | Key and value are read back however the chunk pads them |
| Capture.CaptureRequest.KeepBody | src/webhook_inspector/application/use_cases/capture_request.py:118-155 | Every request captured so far stays stored as it was: inline, offloaded or dropped; size is the original length and preview and blob key are never both set |
| Capture.CaptureRequest.Execute | src/webhook_inspector/application/use_cases/capture_request.py:155-192 | A pending forward is stored exactly when there is a forward URL and nothing goes wrong, and names this request, its endpoint and the URL; every stored forward keeps naming a stored request of its endpoint; an exception before its insert leaves the request captured, one from the insert undoes the request too |
| Capture.CaptureRequest.ForwardBody | src/webhook_inspector/application/use_cases/execute_forward.py:168-192 | The body sent for any stored forward is the one captured with its request, iff that was inline UTF-8, offloaded, or dropped and empty |
| Capture.DeliveredExactly | src/webhook_inspector/application/use_cases/execute_forward.py:189-192 | The bytes sent equal the bytes captured iff the body was inline UTF-8, or offloaded, or dropped and empty |
| Capture.CaptureRequest.Body | src/webhook_inspector/application/use_cases/replay_request.py:171-174 | The same for any stored request, however many were captured since |
| Capture.ReprNotFaithful | src/webhook_inspector/domain/entities/captured_request.py:73-77 | The preview of a body that is not UTF-8 never encodes back to the body |
| Capture.PreviewFaithful | src/webhook_inspector/domain/entities/captured_request.py:73-77 | The preview is the body's text, or else the writing of a bytes literal that denotes exactly the body |
| Capture.ReprReads | src/webhook_inspector/domain/entities/captured_request.py:77 | Reading the escapes of a binary preview gives the bytes back, under either quote |
| Capture.BlobKeyInjective | src/webhook_inspector/domain/entities/captured_request.py:53 | Different requests have different blob keys |
| Capture.BlobKeyReads | src/webhook_inspector/domain/entities/captured_request.py:53 | A blob key reads back as the endpoint, a slash and the request |
| Utf8.DecodeEncode | src/webhook_inspector/domain/entities/captured_request.py:73-75 | Every string survives UTF-8 encoding and decoding |
| Utf8.EncodeDecode | src/webhook_inspector/application/use_cases/execute_forward.py:192 | Bytes that decode are the encoding of what they decode to |
| OutboundHeaders.Build | src/webhook_inspector/application/use_cases/execute_forward.py:202-217 | The headers sent are `Layers`, under whose contract the worker's win, then the endpoint's, then unstripped captured ones, and nothing else is added or lost |
| OutboundHeaders.CapturedHeaderSent | src/webhook_inspector/domain/services/forwarded_headers.py:14-41 | A lower-case name among the nineteen withheld ones is sent iff the endpoint sets it, with the endpoint's value; any other captured header the endpoint does not set is sent unchanged |
| OutboundHeaders.WorkerHeadersSent | src/webhook_inspector/application/use_cases/execute_forward.py:210-217 | The worker's three headers arrive under their names with the values it gave them |
| OutboundHeaders.WorkerHeaderAlone | src/webhook_inspector/web/ingestor/routes.py:153 | With captured names in lower case, each of the worker's three headers is the only one of its name iff the sender did not send that name at all and the endpoint does not spell it otherwise |
| OutboundHeaders.SenderKeyTravels | src/webhook_inspector/application/use_cases/execute_forward.py:202-210 | A captured `idempotency-key` reaches the target beside the worker's key, under any value |
| OutboundHeaders.WorkerNamesDistinct | src/webhook_inspector/domain/services/forwarded_headers.py:14-41 | The strip list strips none of the worker's header names in any spelling, and the three differ in any spelling |
| Notifier.PostgresNotifier.Notify | src/webhook_inspector/infrastructure/notifications/postgres_notifier.py:80-92 | A well-formed payload joins the history and reaches the subscribers, a malformed one changes nothing |
| Notifier.PostgresNotifier.Receive | src/webhook_inspector/infrastructure/notifications/postgres_notifier.py:91-92 | After any notice, received plus queued still equals the endpoint's notices since registration for every live subscriber, and no endpoint without subscribers gets an entry |
| Notifier.PostgresNotifier.Subscribe | src/webhook_inspector/infrastructure/notifications/postgres_notifier.py:66-72 | A new queue is registered and owes nothing from before |
| Notifier.PostgresNotifier.Take | src/webhook_inspector/infrastructure/notifications/postgres_notifier.py:72-74 | What a subscriber has received is always a prefix of its notices, and all of them when its queue is empty |
| Notifier.PostgresNotifier.Unsubscribe | src/webhook_inspector/infrastructure/notifications/postgres_notifier.py:75-78 | The queue is gone and the endpoint keeps an entry iff another subscriber has one |
| Notifier.FeedKeeps | src/webhook_inspector/infrastructure/notifications/postgres_notifier.py:91-92 | Feeding a notice keeps every subscriber exactly up to date |
| Notifier.TakeKeeps | src/webhook_inspector/infrastructure/notifications/postgres_notifier.py:73-74 | Taking keeps every subscriber exactly up to date |
| Notifier.PayloadParsed | src/webhook_inspector/infrastructure/repositories/request_repository.py:42-45 | The reader understands every payload that saving a request sends |
| Notifier.ParsedExactly | src/webhook_inspector/infrastructure/notifications/postgres_notifier.py:84-92 | A payload reads as a notice iff it has a colon and its parts before and after the first one spell the two ids |

## Left out

- Sessions, pools, migrations, FastAPI wiring, templates, metrics and tracing.
- PostgreSQL isolation: each statement and each redrive run is one atomic step. Of what can come between a redrive run's enqueues and its commit, the model has the jobs taken early; row locks and the order of other steps inside the run are not modelled.
- arq's own retries, its retention times and, in the theorems about all runs, the link from a fired job to its claim: a claim needs no job, and an id is forgotten at any time or never.
- `ForwardRepository.update`, `list_by_request` and `count_by_status`: no modelled use case depends on them.
- Rows deleted by the cleaner while a forward is under way, other than as "endpoint or request not found" during the claim; deleted pagination cursors only as the query treats them.
- Width of the attempt counter's integer column and the range of `datetime`.
- The limiter's middleware around the script (rule lookup, client address, what to do when Redis fails) and `enforce_token_limit`, which runs the same script under another key; keys that Redis drops early by its own clock while callers' clocks step back.
- SSRF checks, DNS and the HTTP client: their results are the outcomes an attempt is given.
- HMAC, AES-GCM and Ed25519: the digest is a function parameter whose result is not empty.
- PostgreSQL's refusal of the NUL character in text columns, which keeps some UTF-8 bodies from being captured inline.
- The spellings Python's `UUID()` accepts beyond 32 hexadecimal digits with dashes anywhere (braces, `urn:`), and `str.lower()` outside ASCII.
- Reader restarts of the notifier, during which notices are lost; queue objects are values in the registry, so aliasing of queues is not captured.
- Forward pages name their rows by sort key and id; copying the other columns is not modelled.
- The other fields of a captured request (method, path, headers, source address, detected integration, signature status), which are copied as they are.
