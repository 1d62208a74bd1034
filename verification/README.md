# Event ledger: a verified model

A Dafny model of two services and what lies between them. The Event Gateway takes in financial events, stores
them, calls the Account Service, and keeps undeliverable events in a durable queue that a background worker
drains. The Account Service applies each event once to an account balance. There is no distributed transaction,
so requests and replies may be lost, late or duplicated, and the Gateway may crash between any two commits. The
model proves that status, queue and ledger agree all the same, and exactly when they do not.

`dafny verify dfyconfig.toml` checks everything.

## Modules

| module | what it holds |
|---|---|
| `Types` | events, kinds, amounts, commands |
| `AccountService`, `LedgerAudit`, `Confluence` | `apply` over its three tables; balances and audit chain; when the order of deliveries does not matter |
| `RateLimit`, `SlidingWindow` | the limiter as it runs; refinement of the admission log, window bound, optimality, exact waits |
| `AccountClient`, `Outage` | circuit breaker and retry loop; refinement of the call history, load during an outage |
| `GatewayModels`, `DeliveryQueue` | the Gateway's tables; the durable queue and the order in which due rows are picked |
| `EventService`, `AsyncFallback` | `submit` and the background worker, as methods on the database |
| `Protocol` | both services, the network and crashes as one state machine |
| `Agreement`, `StepEffects` | the invariant of the protocol; what each step does |
| `Runs` | reachable states, putting runs together, and the runs that the methods make |
| `ExactlyOnce`, `Replays`, `Abandonment`, `AuditTruth`, `AuditNumbers`, `QueueAccounts`, `Starvation`, `RetryTiming` | results about whole runs |

Code that updates state in place is a class whose methods are proved against functions of the tables (`Execute`,
`Completed`, `Turned`, `Iterated`, `Requested`, `Policy.Decide`); the steps of `Protocol` are made of the same
parts, and the results about runs are proved about them.

In `Protocol` a step is what happens between two commits or awaits. Every request ever sent stays in `sent` and
may be processed at any later time, any number of times or never. Every reply ever sent stays in `replies`, and a
caller may see it or not: a transient 502, 503 or 504 may hide a commit. A coroutine may die with an exception
that nobody handles, and `Crash` drops all coroutines and counters at once while requests already sent live on.

## Assumptions

- One `apply` is one serial step. It writes an absolute balance computed from an earlier read, so nothing is
  claimed about two executions that interleave between read and commit.
- Amounts are integers in units of 1/10000. Timestamps are UTC instants. Times are real numbers.
- In the protocol the Gateway is the only caller of the Account Service, the URL names the account of the payload,
  and there is one worker. Events are never deleted.
- A status below 400 comes from `apply`. So does every status of 400 or more that the client returns, unless
  `opaqueErrors` is set, which admits others, such as a 500.
- Backoff base, maximum and jitter are not negative; batch size is a natural number. Results that need time to move
  forward say so: nondecreasing for the limiter and the backoff, strictly increasing for fairness.

## Where the code falls short of what one might expect

- Agreement of status and ledger is not unconditional. `AgreementIffReliable` gives the exact condition: the
  fallback queue is enabled and every error status a caller sees was sent by `apply`. `UnreliableDisagrees` builds
  the failing run. `docs/design.md:51` describes the failure without saying that the queue removes it.
- An identical resubmission is refused as a conflict when its metadata is the empty dictionary: `same_event` turns
  the stored `{}` into `None` but not the submitted one (`IdenticalReplay`; over whole runs `GatewayReplay`).
- An event whose submission is lost by a crash or an unhandled exception before its settlement stays `PENDING` for
  ever, although its request may have been applied (`AbandonedIsApplied` is such a run); resubmitting it sends
  nothing. `PendingSettlesIffHeld` gives the exact condition.
- An exception outside the caught set ends the worker's iteration, and the row that caused it stays at the head of
  the queue. The rows behind it may then never be attempted, and only they (`StarvableIffBehind`).

## Model

| member | source | states |
|---|---|---|
| `AccountService.Service.Apply` | account-service/app/services/account_service.py:37-101 | The imperative service gives the answer read off the tables before the call and leaves exactly the tables of one serial execution, on every branch; its commit cannot be refused in a serial execution |
| `AccountService.Service.Commit` | account-service/app/services/account_service.py:86-91 | A commit either takes all rows or, on a duplicate key, none |
| `AccountService.SameTransaction` | account-service/app/services/account_service.py:21-28 | The comparison succeeds exactly for the transaction the command would create |
| `AccountService.RunGrows` | account-service/app/services/account_service.py:42-73 | Over any sequence of requests no transaction is lost or rewritten and no account changes currency |
| `AccountService.AcceptedForever` | account-service/app/services/account_service.py:42-50 | An accepted command, delivered again after anything else, is a replay and changes no balance and no transaction |
| `AccountService.RejectedForever` | account-service/app/services/account_service.py:38-59 | A rejected command, delivered again after anything else, is rejected and changes no balance and no transaction |
| `AccountService.RedeliveredOnce` | account-service/app/services/account_service.py:37-101 | However often a request is delivered, the books are those of its first delivery, and every answer accepts iff the first does |
| `LedgerAudit.SumWithout` | account-service/app/services/account_service.py:61-63 | The sum over a set of transactions does not depend on the order of summation |
| `LedgerAudit.TotalIsCreditsLessDebits` | account-service/app/services/account_service.py:61-63 | The signed sum of an account is its credits less its debits |
| `LedgerAudit.TotalOfOwn` | account-service/app/services/account_service.py:61-63 | Only an account's own transactions count for its sum |
| `LedgerAudit.ExecuteBalanced` | account-service/app/services/account_service.py:52-73 | Every request keeps every balance equal to the signed sum of the account's transactions |
| `LedgerAudit.ExecuteTelescopes` | account-service/app/services/account_service.py:76-83 | Every request keeps the BALANCE_UPDATED records of each account a chain from 0 to its current balance |
| `LedgerAudit.ExecuteCounts` | account-service/app/services/account_service.py:74-84 | Every request keeps one BALANCE_UPDATED and one TRANSACTION_APPLIED per transaction, one ACCOUNT_CREATED per account, and none besides |
| `LedgerAudit.RunConsistent` | account-service/app/services/account_service.py:37-101 | Balances, chain, counts and the delta of every balance record are right after any sequence of requests |
| `LedgerAudit.AnswerConditions` | account-service/app/services/account_service.py:38-59 | Which answer and status a request gets, for every state of its tables: 422 for another URL, 409 for a known id with other data and for another currency, 200 for a replay, 201 for a new transaction |
| `LedgerAudit.AnswerIsBalance` | account-service/app/services/account_service.py:47-73 | An accepted request, new or replayed, is answered with its currency and the signed sum of the account's transactions, its own counted once; that is what the account holds afterwards |
| `LedgerAudit.RequestLeaves` | account-service/app/services/account_service.py:37-101 | What a request leaves on each branch: no row and one audit record when it is rejected or replayed, otherwise its transaction, the new balance, and the records with the sums before and after |
| `Confluence.FirstArrivalDecides` | account-service/app/services/account_service.py:42-73 | The first direct command an empty service gets fixes its event and its account's currency for good |
| `Confluence.RunHolds` | account-service/app/services/account_service.py:42-73 | Compatible requests leave exactly the transactions and accounts they name, with their data |
| `Confluence.ConfluentIffCompatible` | account-service/app/services/account_service.py:21-73 | For any set of requests: all orders and repetitions give the same accounts, balances and transactions iff no two requests clash on event data or account currency |
| `RateLimit.SlidingWindowRateLimiter.Create` | event-gateway/app/core/rate_limit.py:26-34 | A limiter is made iff limit is at least 1 and the window is positive; it starts with no entries |
| `RateLimit.SlidingWindowRateLimiter.Check` | event-gateway/app/core/rate_limit.py:36-64 | The popping loop changes the deque of its own key only, to the pruned deque and the new admission if there is room, and gives the matching decision |
| `RateLimit.SlidingWindowRateLimiter.Reset` | event-gateway/app/core/rate_limit.py:66-68 | Every key starts anew |
| `SlidingWindow.LimiterRefinesLog` | event-gateway/app/core/rate_limit.py:40-64 | After every check the deque is the part of the full admission log lying in (now - window, now], and the check admits iff fewer than `limit` earlier admissions lie there |
| `SlidingWindow.SpacedIffWithinLimit` | event-gateway/app/core/rate_limit.py:38-55 | A sorted log has entries `limit` apart spaced by a window iff no window, wherever it starts, holds more than `limit` of them |
| `SlidingWindow.RunWithinLimit` | event-gateway/app/core/rate_limit.py:38-55 | No window ever holds more than `limit` admissions of a key, over whole runs |
| `SlidingWindow.GreedyStaysAhead` | event-gateway/app/core/rate_limit.py:36-64 | The limiter's n-th admission is never later than the n-th of any selection of requests that respects the limit |
| `SlidingWindow.LimiterOptimal` | event-gateway/app/core/rate_limit.py:36-64 | No selection that keeps every window within the limit admits more on any prefix of the requests |
| `SlidingWindow.RetryAfterIsExact` | event-gateway/app/core/rate_limit.py:42-53 | The announced wait is the least whole number of seconds after which a check succeeds, checks succeed exactly from the expiry of the oldest entry, and `max(1, ...)` changes nothing |
| `SlidingWindow.RefusedUntilExpiry` | event-gateway/app/core/rate_limit.py:42-53 | All checks before that expiry are refused, and refused checks do not prolong the wait |
| `SlidingWindow.DecisionIsTrue` | event-gateway/app/core/rate_limit.py:36-64 | After any run, every decision reports the admission log truly: allowed iff fewer than `limit` admissions are live, with the limit, the room left, and, when refused, a wait and reset to the expiry of the oldest live admission |
| `SlidingWindow.AdmittedReport` | event-gateway/app/core/rate_limit.py:55-64 | An admitted request is told the exact room left in the window and the exact time to the expiry of its oldest admission |
| `SlidingWindow.KeysAreIndependent` | event-gateway/app/core/rate_limit.py:41-43 | In a run over many keys each key's deque and decisions are those of its own requests alone |
| `SlidingWindow.EveryKeyWithinLimit` | event-gateway/app/core/rate_limit.py:36-64 | In a run over many keys every key's admissions keep every window within the limit |
| `AccountClient.CircuitBreaker.Allow` | event-gateway/app/clients/account_service.py:16-19 | A request is let through iff the circuit is closed or the recovery time has passed |
| `AccountClient.CircuitBreaker.Failure` | event-gateway/app/clients/account_service.py:21-23 | A failure is counted and, from the threshold on, dates the opening |
| `AccountClient.BreakerRefinesHistory` | event-gateway/app/clients/account_service.py:10-23 | `failures` is the trailing run of failures, `opened_at` is set iff that run reaches the threshold and then is its last time, and a request is refused iff the run is that long and too recent |
| `AccountClient.Client.Request` | event-gateway/app/clients/account_service.py:30-43 | The retry loop gives the outcome, the number of calls and the breaker that replaying its recorded calls gives |
| `AccountClient.AfterTransients` | event-gateway/app/clients/account_service.py:32-42 | After n transient failures the loop has made n calls, recorded them in order, and goes on as if started at attempt n |
| `AccountClient.RetryAccounting` | event-gateway/app/clients/account_service.py:30-43 | A response at call k is the status received and follows exactly k-1 recorded failures; exhaustion follows exactly `max_attempts` calls and failures; an uncaught exception records nothing of its own |
| `AccountClient.FirstOtherDecides` | event-gateway/app/clients/account_service.py:30-43 | If the breaker allows, the first call that is no timeout, connect error, 502, 503 or 504 decides the request: its response is the outcome after exactly that many calls, or its exception is uncaught |
| `AccountClient.NoOtherIsUnavailable` | event-gateway/app/clients/account_service.py:30-43 | If all attempts fail in those ways, or the breaker refuses, the outcome is Unavailable after all attempts, or after none |
| `AccountClient.OnlyTransientRetried` | event-gateway/app/clients/account_service.py:36-42 | A call is followed by another only after a timeout, a connect error, a 502, a 503 or a 504 |
| `AccountClient.RequestOnBreaker` | event-gateway/app/clients/account_service.py:16-43 | A response leaves the breaker closed, exhaustion adds one failure per call and dates the opening by the last, a refused request makes no call and changes nothing |
| `Outage.FailingRequest` | event-gateway/app/clients/account_service.py:30-43 | A request that meets an outage makes all its attempts and records each |
| `Outage.CallsWhileOpen` | event-gateway/app/clients/account_service.py:16-23 | Behind an open breaker a dead service gets at most one request's calls per recovery period |
| `Outage.OutageBound` | event-gateway/app/clients/account_service.py:10-43 | With threshold T, M attempts and recovery R, an outage of length D costs at most T-1+M+M*floor(D/R) calls from a closed breaker, less the failures it has already counted |
| `DeliveryQueue.DueBatchUnique` | event-gateway/app/repositories/delivery_queue.py:48-56 | The query for due rows has exactly one answer |
| `DeliveryQueue.DueBatchIs` | event-gateway/app/repositories/delivery_queue.py:48-56 | A batch in plain terms: rows whose time has come, by time and then lexicographically by id, at most `limit`; a row left out although its time has come finds the batch full of rows before it |
| `DeliveryQueue.IdLessIsLexicographic` | event-gateway/app/repositories/delivery_queue.py:53 | The order of ids is by proper prefix or by the first differing character |
| `DeliveryQueue.Pick` | event-gateway/app/repositories/delivery_queue.py:50-55 | Picked rows are in order, at most `limit`, and no row left out precedes one taken or is left out while there is room |
| `DeliveryQueue.DeliveryQueueRepository.DueEventIds` | event-gateway/app/repositories/delivery_queue.py:48-56 | The ids are due, in order, at most `limit`, and nothing due is passed over |
| `DeliveryQueue.DeliveryQueueRepository.Enqueue` | event-gateway/app/repositories/delivery_queue.py:22-46 | Only the row of the id changes: refreshed if it exists, added otherwise |
| `DeliveryQueue.DeliveryQueueRepository.Delete` | event-gateway/app/repositories/delivery_queue.py:58-59 | Exactly that row goes |
| `DeliveryQueue.DeliveryQueueRepository.Count` | event-gateway/app/repositories/delivery_queue.py:61-62 | The number of rows |
| `GatewayModels.Database.Record` | event-gateway/app/repositories/audit.py:11-24 | One record is added and no other table changes |
| `EventService.Service.Submit` | event-gateway/app/services/event_service.py:48-234 | Tables, answer, calls, breaker and counters after a submission, for every outcome, also when the insert fails on an id stored meanwhile or for another reason, and when others commit during the call |
| `EventService.SubmissionEnds` | event-gateway/app/services/event_service.py:86-234 | By the outcome of the call: a refusal makes the event FAILED and is passed on with its status; another response makes it APPLIED; an unavailable service makes it QUEUED with a row due at once, or without the fallback FAILED and refused with 503; an uncaught exception leaves it PENDING; with the records of each and nothing else |
| `EventService.Service.Recognise` | event-gateway/app/services/event_service.py:53-84 | A known id is answered as a replay or conflict, with one audit record and no other change |
| `AsyncFallback.Backoff` | event-gateway/app/services/async_fallback.py:59-64 | Every delay lies between 0 and the maximum plus the jitter |
| `AsyncFallback.DelayIsDoubledAndCapped` | event-gateway/app/services/async_fallback.py:59-64 | The delay after failure n is the base doubled n-1 times, 16 times at most, or the maximum where that is reached, plus the jitter |
| `AsyncFallback.CapIsKept` | event-gateway/app/services/async_fallback.py:60-64 | Once the doubled base has reached the maximum, every later delay is the maximum plus its jitter |
| `AsyncFallback.Worker.ProcessEvent` | event-gateway/app/services/async_fallback.py:81-171 | Tables, breaker, counters and result after one delivery attempt are those of `Turned`, for every outcome, for a missing row and for an orphan row |
| `AsyncFallback.TurnEnds` | event-gateway/app/services/async_fallback.py:93-171 | By the outcome of the calls of an attempt: a refusal makes the event FAILED, another response APPLIED, and the row goes; an unavailable service leaves the event and puts the row off by the backoff of one attempt more; an uncaught exception changes nothing; with the record and counter of each |
| `AsyncFallback.TurnOnBreaker` | event-gateway/app/clients/account_service.py:16-43 | The breaker after an attempt: closed by a response, one failure further for each call that fails, as it was when it refused |
| `AsyncFallback.TurnWithoutEvent` | event-gateway/app/services/async_fallback.py:86-91 | Without a row an attempt does nothing; a row without an event is removed and nothing else changes |
| `AsyncFallback.Worker.ProcessBatch` | event-gateway/app/services/async_fallback.py:72-79 | The loop leaves the tables, breaker and counters, and returns the count, of attempting the ids in order up to an uncaught exception |
| `AsyncFallback.Worker.ProcessOnce` | event-gateway/app/services/async_fallback.py:66-79 | An iteration does so for exactly the first `batch` due rows |
| `AsyncFallback.IterationAccounts` | event-gateway/app/services/async_fallback.py:66-79 | An iteration returns exactly the number of owned rows it removed, which is also the growth of the processed and failed counters; it removes rows of its batch only, and without an exception each other row of the batch has one attempt more |
| `Protocol.Next` | event-gateway/app/services/event_service.py:48-234 | No step leaves a coroutine or the worker with a reference to an event that does not exist |
| `Agreement.NextKeeps` | event-gateway/app/services/event_service.py:48-234 | Every step, crashes and lost messages included, keeps the invariant that ties statuses, queue, coroutines, messages and ledger together |
| `StepEffects.NextEffect` | event-gateway/app/services/async_fallback.py:66-171 | Every step changes queue, statuses, counters and audit trail as its relation says and in no other way |
| `ExactlyOnce.AgreementIffReliable` | event-gateway/app/services/event_service.py:129-229 | In every state of every run APPLIED events are in the ledger and the ledger holds only APPLIED, QUEUED or PENDING events with their data, iff the fallback queue is on and no error status hides a commit |
| `ExactlyOnce.UnreliableDisagrees` | docs/design.md:51 | Otherwise a run from the initial state ends with an event that is FAILED and in the ledger |
| `ExactlyOnce.AppliedIsInLedger` | event-gateway/app/services/event_service.py:138-167 | Whatever the configuration, APPLIED events are in the ledger and every transaction carries the data of its event |
| `ExactlyOnce.SettledAccountBalances` | event-gateway/app/services/async_fallback.py:93-171 | Once no event of an account is PENDING or QUEUED, its transactions are its APPLIED events and its balance is their signed sum, whatever other accounts' events wait for |
| `ExactlyOnce.ExactlyOnceWhenQuiescent` | event-gateway/app/services/async_fallback.py:93-171 | Once nothing is PENDING or QUEUED, the ledger is the APPLIED events, every balance is their signed sum, and each was applied to its balance exactly once |
| `ExactlyOnce.TerminalForever` | event-gateway/app/services/event_service.py:53-84 | APPLIED and FAILED never change again |
| `ExactlyOnce.SingleOwner` | event-gateway/app/services/async_fallback.py:81-91 | An event is QUEUED iff it has a delivery row, whose payload is the event's; the worker finds no missing row and no orphan, `enqueue` finds no existing row, and suspended coroutines hold what the tables hold |
| `Replays.GatewayReplay` | event-gateway/app/services/event_service.py:53-84 | After an event is inserted and whatever happens later, any submission of its id, also one that looked before the insert, sends nothing, changes no event, delivery or transaction, and is a replay iff it repeats data and metadata and its metadata is not the empty dictionary; otherwise it is refused with 409 |
| `Replays.RunKeepsEvents` | event-gateway/app/services/event_service.py:86-222 | Over any run a stored event changes in nothing but its status |
| `Replays.VerdictsAreFinal` | account-service/app/services/account_service.py:42-59 | Under any configuration and over any run, an event that `apply` has once accepted stays in the ledger, and one it has once refused never enters it |
| `Replays.SubmitterIsToldTheTruth` | event-gateway/app/services/event_service.py:137-234 | What the submitter is told when the call ends stays true over any run: accepted as APPLIED, the event is in the ledger; accepted as QUEUED, it has its row; refused, where FAILED is reliable, it never enters the ledger |
| `Abandonment.AbandonedStaysPending` | event-gateway/app/clients/account_service.py:39-43 | An event whose submission was lost before its settlement stays PENDING for the rest of the run |
| `Abandonment.AbandonedIsApplied` | event-gateway/app/services/event_service.py:96-138 | A run from the initial state leaves such an event PENDING, held by no submission, and in the ledger |
| `Abandonment.PendingSettlesIffHeld` | event-gateway/app/services/event_service.py:137-187 | In a reachable state a PENDING event can still leave PENDING iff a submission holds it |
| `Runs.SubmissionIsARun` | event-gateway/app/services/event_service.py:86-234 | A submission whose request is processed any number of times, answered by `apply` or not, is a run of the protocol with the tables and counters of `Submit` and the ledger of those deliveries |
| `Runs.AttemptIsARun` | event-gateway/app/services/async_fallback.py:81-171 | A delivery attempt whose request is processed any number of times is a run of the protocol with the tables and counters of `ProcessEvent` and the ledger of those deliveries |
| `Runs.TurnIsSettling` | event-gateway/app/services/async_fallback.py:93-171 | The worker's function of an attempt, with the commits of others during its call, is the protocol's settlement step taken after those commits |
| `Runs.IterationIsARun` | event-gateway/app/services/async_fallback.py:66-79 | A whole iteration, in the order of its batch and up to an uncaught exception, is a run of the protocol from one idle state of the worker to the next, with the tables and counters of `ProcessOnce` |
| `AuditTruth.AuditNeverContradictsStatus` | event-gateway/app/services/event_service.py:142-229 | In every reachable state every audit record of the Gateway is true of its event, although status and record are committed separately |
| `AuditNumbers.AuditIsComplete` | event-gateway/app/services/event_service.py:96-229 | In every run an event has at most one EVENT_STORED, one EVENT_QUEUED and one record of its end, which tells its status; that is EVENT_APPLIED_FROM_QUEUE or EVENT_QUEUE_REJECTED exactly when it was queued and EVENT_APPLIED or EVENT_PROCESSING_FAILED only when it was not; no record is missing when no submission is lost and none is under way |
| `AuditNumbers.RecordsAreNumbered` | event-gateway/app/services/async_fallback.py:97-148 | In every run the retry records of an event are numbered 1, 2, 3 and so on, and EVENT_APPLIED_FROM_QUEUE carries its retries plus one |
| `AuditNumbers.CountersAreAudited` | event-gateway/app/services/async_fallback.py:110-159 | Without a crash the queued, processed, failed and retried counters are the numbers of EVENT_QUEUED, EVENT_APPLIED_FROM_QUEUE, EVENT_QUEUE_REJECTED and EVENT_QUEUE_RETRY_SCHEDULED records |
| `QueueAccounts.QueueConservation` | event-gateway/app/services/async_fallback.py:66-171 | In a crash-free run events queued are processed, permanently failed, or still counted by the queue |
| `QueueAccounts.RetriesAreAudited` | event-gateway/app/services/async_fallback.py:96-109 | In every reachable state a live row's attempt count is its number of EVENT_QUEUE_RETRY_SCHEDULED records |
| `Starvation.WaitIsBounded` | event-gateway/app/repositories/delivery_queue.py:48-56 | While a due row is passed over, every fetch not made up for by an interruption uses up a whole batch of the rows ahead, and a picked row is only passed over by an interruption |
| `Starvation.NoStarvation` | event-gateway/app/services/async_fallback.py:66-102 | In any run, with k rows ahead of a due row and batch size B, the row is attempted within floor(k/B)+1 iterations besides those that a crash or an uncaught exception cuts short |
| `Starvation.CalmIsUninterrupted` | event-gateway/app/services/async_fallback.py:171-176 | A run has no such interruption iff it has no crash and no uncaught exception in the worker |
| `Starvation.StarvableIffBehind` | event-gateway/app/services/async_fallback.py:171-176 | Without crashes, uncaught exceptions can keep a due row from ever being attempted, over any number of iterations, iff some row is ahead of it |
| `RetryTiming.DelayClosedForm` | event-gateway/app/services/async_fallback.py:59-64 | Below the cap the first n delays add up to base * (2^n - 1) |
| `RetryTiming.RetriesAreSpread` | event-gateway/app/services/async_fallback.py:96-102 | In every run, crashes included, an attempt that finds count n comes no earlier than the first attempt plus the first n delays, and no row is put off beyond the maximum plus the jitter |
| `RetryTiming.AttemptTiming` | event-gateway/app/services/async_fallback.py:66-102 | In a calm run attempt n+1 of a delivery comes no earlier than its first attempt plus the first n delays |

## Left out

- HTTP routes, middleware, error bodies, headers and health checks: a mapping without state of its own.
- Traces, metrics export, logging and context variables; only the queue counters are kept, not the depth gauge.
- SQLAlchemy sessions, SQLite locking, and the column encoding of decimals and time zones. A commit is one update of maps.
- Request validation, and the conversion of decimals and times to text and back.
- Listing, pagination and the account read endpoints.
- Several workers or Gateways, and interleaved executions of `apply`. With them the branch after a failed commit at account-service/app/services/account_service.py:90-98 can run; in a serial execution it is proved dead.
- Columns that nothing reads back: creation and update times, `last_error`, and the outcome, account, trace and details of audit records other than those named. Metadata values are text.
- The `run` loop with its sleeps, startup and shutdown. The worker may fetch at any time it is idle.
- The distribution of the jitter: any value in range may be drawn. The sleeps between retries only show as the times of the calls.
- Submit: commits of others while it waits come as the parameter `others`, which must leave the event's own rows alone; that they do is `ExactlyOnce.SingleOwner`. They come in one lump during the call; in `Protocol` they may also fall between any two commits of a submission. The breaker is not used by others during its calls.
- SubmissionIsARun: a submission with nothing else in between, like `AttemptIsARun` and `IterationIsARun`; interleaved ones are the other runs of `Protocol`. The steps of one call have the same time.
- Insert: in `Protocol` an insert fails only on an id that is stored. `Submit` also has the branch at event-gateway/app/services/event_service.py:115-127 for an integrity error after which no row is found.
- ProcessEvent: takes `others` in the same way, and `ProcessOnce` one set of surroundings per row of the batch, used in order.
- CallsWhileOpen: callers are sequential, as in `OutageBound`; concurrent callers can each make their attempts after the recovery time.
- LimiterRefinesLog: the clock reads before the lock are taken to be nondecreasing in the order in which the lock is got.
- DelayClosedForm: holds up to 17 delays, after which the exponent is fixed; `DelaySettles` says what each later delay is.
