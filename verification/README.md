# A verified model of the asynchronous task pipeline

The service accepts tasks over HTTP, stores them in Postgres, announces them on RabbitMQ, and lets workers summarise them
with an LLM. No single mechanism makes this safe: a conditional claim, unconditional status updates, a best-effort
duplicate marker in Redis, a bounded republish and a timed sweep have to work together, while processes crash, publishes
get lost and Redis forgets keys between any two steps. This project models these parts and proves what they achieve
together, over every run.

The model has two layers that share their definitions.

- **Operations.** `TaskRepository`, `Dedupe`, `RowCache`, `TaskService`, `Broker`, `TaskSummarizer`, `Consumer`,
  `Reconciler` and `RateLimiter` are classes that change their state as the Go code does. Each method is proved against a
  specification over the old and the new state. Whatever a backend does (an error, an unconfirmed publish, an answer of
  the LLM) is a parameter, so a contract covers every behaviour of the backends.
- **Runs.** `Pipeline` is one labelled transition system over the table, the row cache, the markers, the work queue, the
  dead-letter queue, HTTP requests, workers with a program counter inside `Handle`, reconcilers with the part of their
  snapshot they still have to go through, and a clock. It takes the worker's effects one at a time from
  `Summarizer.Step`, the function that the method `TaskSummarizer.Handle` is proved to execute when nothing interrupts
  it; `Refinement` proves the same of a whole handling, of a sweep, of settling a delivery and of requests. Everything
  in the lower half of the table below is about all runs of this system.

| file | about |
|---|---|
| `Tasks`, `Messages` | the task entity, replies of backends, messages, retry header, queues |
| `Repository` | queries and updates of the table |
| `Batches` | the stale query: how much it returns, whom it leaves out |
| `Paging` | walking the listing page by page, and exactly when that is a partition |
| `Dedupe` | the duplicate guard and its accounting |
| `Service` | the use cases, the row cache in sequential runs |
| `Summarizer` | the worker, one effect at a time and as a whole |
| `Consumer` | retry or dead-letter, draining a queue, the retry chain of a message |
| `Reconciler` | options, a sweep and its accounting |
| `RateLimiter` | the limiter and its counter |
| `Pipeline`, `Runs` | the interleaved system, its runs and what they can be restricted to |
| `Refinement` | operations as uninterrupted runs of the system |
| `Ownership`, `OwnershipLimits` | one owner, the lifecycle, and the configurations in which they hold |
| `Accounting` | claims, resets and paid LLM calls in any configuration |
| `Verdicts` | when a handler accepts its message |
| `Delivery` | conservation, at-least-once, late duplicates |
| `CacheVersions`, `CacheAgreement` | the row cache in interleaved runs: what it can hold, and when it agrees with the table |
| `Visibility` | which tasks later sweeps find again |
| `Rounds`, `Rescue` | a healthy round finishes what it picked, how many a task may need, and that no task is stranded |

## Where the code and its documentation disagree

The model follows the code.

- One winner (`README.md:145-148`, `docs/reconciler.md:58-67`, `docs/reconciler.md:105-107`): the conditional claim has
  one winner, but `MarkPending` and `ApplySummary` are unconditional. With several replicas' reconcilers, or with a
  processing timeout below the two minutes of a handler's context, two workers can own a task at once and a completed
  task can be put back to `pending`. `ExclusiveIff` and `LifecycleIff` give the exact condition. The Kubernetes manifest
  runs two replicas (`deploy/k8s/10-deployment.yaml:10`), and no validation looks at the processing timeout
  (`internal/config/config.go:198-203`).
- Retry with backoff (`README.md:123-125`): the delay is computed and logged, never waited for
  (`internal/broker/consumer.go:169-170`).
- Retries run: when the claim of the task itself fails, or the LLM outlives the handler's context, the marker stays
  taken, so the broker's retry is dropped as a duplicate and counts as handled (`internal/worker/task_summarizer.go:68-74`,
  `internal/worker/task_summarizer.go:88-101`). `RetryMayRunIff` says exactly when a retry may run, `KeptUntilWorked` when
  a message is sure to be worked on.
- `MarkFailed` has no caller, and leaves the cached row as it was (`internal/service/task_service.go:205-207`).
- The rate limiter is called a fixed window (`internal/transport/http/middleware.go:82`, `cmd/api/main.go:197`). Every
  request renews the expiry, so the count falls back only after a full window of silence.
- `BatchSize` bounds a sweep, but republishing does not change `created_at`, so a stale pending row is picked again by
  every sweep with room for it until it is handled (`PickedAgain`), and a full batch of older rows that never finish
  starves younger ones (`NeverPickedIff`).
- The check that the pending grace is at least the interval (`internal/config/config.go:195-203`) runs before the defaults
  are filled in, so it does not always hold of the settings in force (`ValidationCarriesIff`). Nothing compares the grace
  with the processing timeout, on which it depends whether a reset can be hidden (`ResetsVisibleIff`).
- Two pages of the listing may show one row twice and lose another when rows created at the same instant straddle the
  boundary, since `created_at` is the only sort key (`internal/repository/task_repository.go:80`).

## Assumptions

- A repository call takes effect at once or fails without effect, and fails when the handler's context is over
  (`internal/broker/consumer.go:135`). So does the release of a marker, which always follows an LLM call; other Redis
  calls and LLM calls are not forced to fail by it. A Redis call that reports an error had no effect. All processes read
  one clock that never goes back.
- Times are nanoseconds. The stale query compares with `<`, which is why the exact condition reads
  `processingTimeout + 1 >= 2 minutes`. Postgres keeps microseconds, so in the deployed system that boundary is as fuzzy
  as one microsecond.
- `ExclusiveIff` and `LifecycleIff` take the number of workers as a parameter; all other results allow any number.
- Every delivery finds a consumer. In the deployed system one gives up after ten channel failures over its whole life
  (`internal/broker/consumer.go:72-95`); results that say a task can be completed need one that is still there.
- A publish of the service may be enqueued although it is reported as failed. The consumer republishes on a channel
  without confirms; an accepted republish is taken to be enqueued.
- A Redis key is gone from its expiry on. In the interleaved system a key may go at any time, which covers TTLs,
  evictions and flushes.
- Ids of tasks and events are parameters; an inserted id was never used before. What JSON decoding and `strconv.Atoi`
  make of their input is part of the message. Strings are sequences of bytes, one `char` each.

## Model

| member | source | states |
|---|---|---|
| `Ownership.OneOwner` | `internal/worker/task_summarizer.go:66-114` | in every run with at most one reconciler whose timeout outlasts a handler, a task has at most one owner that can still write, and while it does its row is `processing` with `updated_at` equal to that owner's claim time (unless deleted) |
| `Ownership.StepKeeps` | `internal/service/task_service.go:173-219` | the inductive step for every label: the invariant (owners, rows, deadlines, snapshot rows waiting for their reset) is kept, and every row changes along the lifecycle only |
| `Ownership.StaleIsUnowned` | `internal/repository/task_repository.go:146-150` | a `processing` row that the stale query returns has no owner that can still write, because its handler's context is over |
| `Ownership.LifecycleHolds` | `README.md:102-105` | in every run each change of a row is pending to processing, processing to pending or processing to completed, only completion touches the summary, and no row is ever `failed` |
| `Ownership.CompletedIsFinal` | `internal/repository/task_repository.go:96-135` | a completed row is never changed again before its deletion |
| `Ownership.CompletesOnce` | `internal/worker/task_summarizer.go:103-118` | a task completes at most once in a run |
| `OwnershipLimits.ExclusiveIff` | `docs/reconciler.md:105-107` | ownership is exclusive in all runs of the system on its own messages with `n` workers if and only if there is at most one worker, or at most one reconciler whose timeout is not shorter than a handler's context |
| `OwnershipLimits.LifecycleIff` | `README.md:145-148` | with any positive number of workers, the documented lifecycle holds at every step of those runs if and only if there is at most one reconciler whose timeout is not shorter than a handler's context: a single worker does not help |
| `OwnershipLimits.OneWorkerExclusive` | `internal/broker/consumer.go:119-131` | with one worker, which settles a delivery before it takes the next, ownership is exclusive under any timeout and any number of reconcilers |
| `OwnershipLimits.CompletedUnderSweep` | `internal/reconciler/reconciler.go:132-141` | otherwise, even with one worker, a run in which the worker completes the task that a sweep is about to reset |
| `OwnershipLimits.ShortTimeoutBreaks` | `internal/reconciler/reconciler.go:117-124` | with a shorter timeout, a run on the system's own messages in which the sweep hands a live worker's task to a second worker |
| `OwnershipLimits.TwoReconcilersBreak` | `internal/reconciler/reconciler.go:132-141` | with two reconcilers, a run in which the slower one resets the row under its new owner |
| `OwnershipLimits.ContestUndoesCompletion` | `internal/worker/task_summarizer.go:88-101` | from any state with two such owners, a run in which one completes the task and the other puts it back to `pending` |
| `Accounting.CallsPaid` | `internal/worker/task_summarizer.go:68-88` | any configuration, any run: LLM calls for a task <= successful claims <= 1 + writes of `pending` |
| `Accounting.ClaimsBounded` | `internal/repository/task_repository.go:126-135` | the same from any world on, with the allowance the row holds at the start and at the end |
| `Accounting.ResetBetweenClaims` | `internal/service/task_service.go:146-159` | after a successful claim, further claims in any continuation are bounded by the writes of `pending` in it |
| `Rescue.NoTaskStranded` | `internal/reconciler/reconciler.go:117-143` | from every reachable state, whatever crashed or got lost before, every live unfinished task can be completed by time, sweeps, deliveries and handlers alone |
| `Rescue.OneRescue` | `internal/service/task_service.go:173-189` | with those steps alone, some unfinished task gets completed while the other unfinished ones stay so |
| `Rescue.PassedOverBounded` | `internal/repository/task_repository.go:146-153` | with R other unfinished tasks created no later, a stale task is passed over by at most floor(R / BatchSize) healthy rounds, in any configuration, while nothing finished is undone |
| `Rescue.RescuedWithin` | `internal/reconciler/reconciler.go:117-143` | in any configuration: after floor(R / BatchSize) + 1 healthy rounds, with anything in between, a task that is stale whenever they look is completed (unless deleted), whatever state it was left in, if nothing finished is undone |
| `Rescue.RescuedWhenGuarded` | `internal/reconciler/reconciler.go:117-143` | with one reconciler and a timeout that outlasts a handler that bound holds outright |
| `Rounds.RoundFinishes` | `internal/worker/task_summarizer.go:38-119` | a healthy round (a sweep that runs to its end without a failure, fresh event ids, and every message about its tasks delivered and handled in time with every call answered) leaves none of the tasks it picked unfinished, whatever crashes, markers, messages and expired handlers were left before it and whatever else happens meanwhile, short of undoing finished work |
| `Rounds.RoundExists` | `internal/reconciler/reconciler.go:117-143` | every answer of the stale query has such a round, whatever state its tasks and their handlers are in |
| `Rounds.RoundAhead` | `internal/reconciler/reconciler.go:117-143` | every reachable world with an idle reconciler has one ahead, for as full a batch as there is unfinished work |
| `Rescue.RescueAhead` | `internal/reconciler/reconciler.go:117-143` | with one reconciler and a timeout that outlasts a handler, such a round undoes nothing and all tasks it picked are finished after it |
| `Rescue.GuardedKeeps` | `internal/service/task_service.go:173-219` | with one reconciler and a timeout that outlasts a handler, nothing finished is ever undone |
| `Rescue.StaysFinished` | `README.md:102-105` | while nothing finished is undone, a finished or deleted task never becomes unfinished again |
| `Rescue.OlderShrinks` | `internal/repository/task_repository.go:137-158` | over any run that undoes nothing finished, no task joins those created no later than a given one |
| `Delivery.NeverLost` | `internal/broker/consumer.go:134-191` | at-least-once: through crashes, lost connections, failed acks and failed republishes, a message once enqueued has a copy queued, unacknowledged or dead-lettered until a handler accepted a copy |
| `Delivery.MessagesConserved` | `internal/broker/consumer.go:134-191` | over every run, messages queued, dead-lettered or unacknowledged at the start, plus those published or republished, equal those there at the end plus those acknowledged: crashes and lost connections neither lose nor multiply any |
| `Delivery.KeptUntilWorked` | `internal/worker/task_summarizer.go:55-115` | without a mishap (a failed claim, a failed release, a crash of a handler that may have the marker, a lost connection of one that has not given up, another message under the same event id) a message about a task has such a copy until a handler found nothing to claim, completed the task or found it gone: being dropped as a duplicate of itself does not count |
| `Delivery.HollowAcceptance` | `internal/worker/task_summarizer.go:68-115` | no kind of mishap can be left out: for each there is a run on the system's own messages, with no mishap of another kind, in which the message is accepted, no copy is left or being handled, and its task is unfinished |
| `Delivery.LateDuplicatesDropped` | `internal/worker/task_summarizer.go:55-79` | from any reachable world in which a task is completed or gone, until a write of `pending`: handlers not yet past its claim, and all later deliveries, drop their messages about it without an LLM call and without touching table or cache; only handlers that had claimed it before may still call the LLM, and with no owner left the row never changes |
| `CacheVersions.CacheNeverInvents` | `internal/service/task_service.go:103-118` | in every interleaving each cached row and each answer of `Get` is a version the table held for that id at some earlier moment |
| `CacheVersions.CachedIsRecent` | `internal/service/task_service.go:221-229` | if no entry outlives its five minutes and no row read from the table waits longer than `lag` to be cached, a cached row is one that the table held for its id at most five minutes and `lag` ago, in every interleaving and with any other failure |
| `CacheVersions.OutdatedIsGone` | `internal/service/task_service.go:112-117` | so that long after a row changed last, the cache holds that row or none |
| `CacheAgreement.TracksIff` | `internal/service/task_service.go:100-119` | in every interleaved run in which cache writes, deletes and re-reads succeed and nobody stops between a write and its cache step: at every moment each cached row is the table's, or somebody is on the way to the cache step of his write and that step will bring it up to date, if and only if no step ever puts an outdated row back while nobody else is on the way to such a cache step of that row |
| `CacheAgreement.StepTracks` | `internal/service/task_service.go:146-159` | the same for one step and one id |
| `CacheAgreement.SlowReaderLeavesOldRow` | `internal/service/task_service.go:112-117` | there is such a run, on the system's own messages, with an outdated row put back: a slow reader overtaken by a worker |
| `CacheAgreement.SlowWorkerLeavesOldRow` | `internal/service/task_service.go:193-202` | with a processing timeout shorter than a handler's context, another such run: a worker overtaken by a sweep puts back the completed row that the sweep has reset |
| `Runs.ReachableSound` | `internal/service/task_service.go:173-178` | in every run `created_at <= updated_at <= now`, every row is filed under its own, recorded id and never failed, and handlers work on the task of their message |
| `Pipeline.StepRewrites` | `internal/repository/task_repository.go:96-135` | any step in any configuration: a row changes by a claim of a pending row, a write of `pending`, or a completion only, never in its creation time, and new rows are pending under an unused id |
| `Visibility.ResetsVisibleIff` | `internal/reconciler/reconciler.go:118-124` | in all runs of the system on its own messages, before and after the reset, a row reset by a sweep and still pending is among the stale rows of every snapshot taken `d` or more later, if and only if PendingGrace <= ProcessingTimeout + d |
| `Visibility.PickedAgain` | `internal/repository/task_repository.go:146-153` | a stale pending row is picked by every later sweep that has room for it for as long as it is pending |
| `Refinement.SweepRefines` | `internal/reconciler/reconciler.go:132-142` | there is a run in which only the clock and that sweep move, each row's calls no earlier than those of the row before, and which does to table, cache and queue what `SweepFrom`, and so the method `Sweep`, says |
| `Refinement.SnapshotRefines` | `internal/reconciler/reconciler.go:117-127` | what the query of a sweep answers is a snapshot that the system may take, with the batch size and the timeouts in force |
| `Refinement.CreateRefines` | `internal/service/task_service.go:64-97` | uninterrupted, the system's steps for creating a task store it as given and announce it with its own fields, unless the publish is lost |
| `Refinement.HitRefines` | `internal/service/task_service.go:100-107` | a request that finds the row in the cache answers it and changes nothing |
| `Refinement.MissRefines` | `internal/service/task_service.go:108-118` | one that does not, answers the row of the table and puts exactly that into the cache, unless that fails |
| `Refinement.ExpiryRefines` | `internal/service/task_service.go:100-113` | once the entry of a row has expired, whatever it was, the next request finds nothing in the cache and reads the table |
| `Refinement.DeleteRefines` | `internal/service/task_service.go:133-141` | deleting a task drops its row, then its cached copy unless that fails |
| `Refinement.HandlingRefines` | `internal/worker/task_summarizer.go:38-119` | a handler whose calls come one after the other, each in its own time, is a run of the clock and that job alone, which leaves the stores and makes the LLM calls that the method `Handle` is proved to, and takes the message to ack, retry, or from count 3 on to rejection |
| `Refinement.SettlingRefines` | `internal/broker/consumer.go:139-190` | uninterrupted, settling a delivery moves messages between the queues as `Disposed`, and so `RetryOrDeadLetter`, says |
| `Refinement.MarkersRefine` | `internal/broker/dedupe.go:45-70` | in every run the markers go through the operations of the duplicate guard, and its grants bound the handlers that get past it |
| `Refinement.StartsBounded` | `internal/worker/task_summarizer.go:52-58` | in every run the handlings of one event that get past the guard are at most one, plus the times its marker went away, plus the claims that found Redis unreachable |
| `Summarizer.TaskSummarizer.Handle` | `internal/worker/task_summarizer.go:38-119` | a handling leaves exactly the table, cache, markers and LLM calls of the uninterrupted run of the steps that the pipeline interleaves, and returns the same verdict; a body that is no envelope or of another type is accepted without any effect, one with an undecodable payload with its marker taken |
| `Summarizer.TaskSummarizer.GiveUp` | `internal/worker/task_summarizer.go:94-100` | the failure path: the marker goes if its release is in time and works, the row gets `pending` if its write is, the cached row goes if both that and its own call work; nothing else changes |
| `Summarizer.TaskSummarizer.Record` | `internal/worker/task_summarizer.go:103-118` | a live row recorded in time is completed with the answer, or its old summary for an empty one, cached if the re-read and the write to the cache work, and the marker kept; a vanished one is accepted with nothing changed; a call that fails or comes too late is refused, and goes on as the steps say |
| `Summarizer.AsksLeft` | `internal/worker/task_summarizer.go:88-88` | one handling calls the LLM at most once, whatever the backends do |
| `Verdicts.AcceptedIff` | `internal/worker/task_summarizer.go:38-119` | over every run, for a message of any content: a handler that has returned is about to acknowledge it if and only if its claim, its LLM call and its record, as far as it got to them, did not fail or come too late, whatever anybody deletes, resets or completes meanwhile; otherwise it is about to retry or reject it |
| `Consumers.Consumer.Handle` | `internal/broker/consumer.go:134-145` | one delivery: the handler's effects, then exactly one of ack, republish with ack, or dead-letter |
| `Consumers.Consumer.RetryOrDeadLetter` | `internal/broker/consumer.go:150-191` | a failed delivery is settled as `FailureDisposed` says |
| `Consumers.FailureDisposed` | `internal/broker/consumer.go:150-214` | with a count below 3, in whatever form the header carries it, it goes to the end of the queue with its body and the next count as an int32; otherwise, or when the republish fails, to the dead-letter queue as it came |
| `Consumers.Consumer.HandleNext` | `internal/broker/consumer.go:119-131` | handling the head of the queue lowers the total weight of the queue, keeps every count within the limit, and changes everything as `Advanced` says |
| `Consumers.Consumer.Drain` | `internal/broker/consumer.go:97-132` | without new publishes or failed settlings a queue of n messages drains within its budget of handlings, whatever the handlers do, no count ever exceeds the limit, and it ends where handling head after head ends |
| `Consumers.DrainIsChain` | `internal/broker/consumer.go:119-191` | with every publish accepted, draining a queue of one message is the retry chain of that message |
| `Consumers.DisposalProgress` | `internal/broker/consumer.go:150-191` | whatever becomes of a delivery, the queue weighs less than with it and no count gets past the limit |
| `Consumers.BumpedIsLighter` | `internal/broker/consumer.go:163-214` | the republished header reads back as one more and never exceeds the limit; the message gets lighter even where the conversion to int32 wraps |
| `Consumers.WeightBound` | `internal/broker/consumer.go:16-18` | a queue with counts of the broker's own making weighs at least its length and at most its budget |
| `Consumers.BudgetIsProduct` | `internal/broker/consumer.go:16-18` | the budget of n messages is (MaxRetries + 1) * n |
| `Consumers.HealthyAnswer` | `internal/worker/task_summarizer.go:103-118` | a healthy handling with an answer completes the row, caches it, keeps the marker and touches nothing else |
| `Consumers.HealthyFailure` | `internal/worker/task_summarizer.go:88-101` | a healthy handling that the LLM fails leaves everything as before it, except a new `updated_at` and no cached row |
| `Consumers.AnswerLost` | `internal/worker/task_summarizer.go:103-115` | so does one whose answer could not be recorded, although the LLM was called |
| `Consumers.RetryMayRunIff` | `internal/worker/task_summarizer.go:68-101` | after a failed handling the marker is free if and only if the claim of the task did not fail and the release got through |
| `Consumers.TimeoutStrands` | `internal/worker/task_summarizer.go:88-101` | an LLM call that outlives the handler's context leaves the row in `processing` and the marker taken, since neither release nor reset gets through |
| `Consumers.MarkedRetryDropped` | `internal/worker/task_summarizer.go:55-58` | otherwise the retry is accepted without an LLM call and without effect while Redis answers |
| `Consumers.ChainCompletes` | `internal/broker/consumer.go:134-191` | any limit N: a first answer at attempt j <= N means j + 1 LLM calls, a completed and cached row, nothing dead-lettered |
| `Consumers.ChainExhausts` | `internal/broker/consumer.go:150-191` | no answer within N + 1 attempts means exactly N + 1 calls, one dead letter with count N, the row pending, the marker free, no cached row |
| `Consumers.AttemptsMade` | `internal/broker/consumer.go:150-214` | a message without a readable count, such as one the service has published, gets exactly 4 attempts when the LLM never answers, one carrying n from the int32 range on, negative ones included, in any form a header can have gets 4 - n, at least one, and then the only dead letter carries 3 or what it came with |
| `Consumers.AnsweredAfter` | `internal/broker/consumer.go:150-214` | with a first answer at attempt j within those, it is handled j + 1 times, completed with that answer, and not dead-lettered |
| `Reconcilers.Reconciler.constructor` | `internal/reconciler/reconciler.go:60-78` | each option in force is positive: as it was set if that was, otherwise one minute, five minutes, ten minutes and 100 rows |
| `Reconcilers.ValidationCarriesIff` | `internal/config/config.go:198-203` | the validated relation of grace and interval holds of the settings in force if and only if the interval was set, or the grace is unset or at least the default interval |
| `Reconcilers.Reconciler.Sweep` | `internal/reconciler/reconciler.go:117-143` | the snapshot is a stale batch of the table, of at most the configured size, at most that many rows are rescued, each row is republished in order with its own failures, and a failed query changes nothing |
| `Reconcilers.SweepAccounting` | `internal/reconciler/reconciler.go:132-142` | for any pattern of failures: a row is announced unless its reset failed or its publish was lost, with its own id, title and description and under its own event; the count is what the rows earn each on its own, within the batch size; the queue grows by it when a failed publish enqueues nothing; every announced row is pending at the moment of its publish and at the end of the sweep; other rows are untouched |
| `Reconcilers.SweepEarns` | `internal/reconciler/reconciler.go:133-141` | what one row does never changes the count or the messages of another |
| `Reconcilers.SweepWrites` | `internal/service/task_service.go:173-178` | the final row of each task in the snapshot is decided by its own reset alone |
| `Service.CacheInvisible` | `internal/service/task_service.go:100-119` | after any sequential run without `MarkFailed`, with entries expiring and cache reads failing at will, `Get` answers exactly what the table would |
| `Service.MarkFailedCoherent` | `internal/service/task_service.go:205-207` | `MarkFailed` keeps cache and table in step if and only if the row is not cached |
| `Service.MarkFailedHidden` | `internal/service/task_service.go:204-207` | a cached row hides the failure from readers until its entry expires |
| `Service.TaskService.Create` | `internal/service/task_service.go:64-97` | invalid input, by the three limits of the source, and a failed insert change nothing; a stored task is pending with the given title and description, and announced with exactly these unless the publish is lost |
| `Service.TaskService.Get` | `internal/service/task_service.go:100-119` | the cached row, or else the table's answer, which is then cached; nothing else changes |
| `Service.TaskService.List` | `internal/service/task_service.go:122-130` | a page of the newest-first listing with the limit and offset put in range, and the number of live rows, unless one of the two queries fails |
| `Service.TaskService.Delete` | `internal/service/task_service.go:133-141` | the row goes first, then its cached copy; a failed or missing row leaves the cache alone |
| `Service.TaskService.BeginProcessing` | `internal/service/task_service.go:146-159` | true exactly when a pending row became `processing`; the cached copy is dropped only then |
| `Service.TaskService.ApplySummary` | `internal/service/task_service.go:193-202` | completes any live row, keeps the old summary when the new one is empty, and caches what the re-read returned |
| `Service.TaskService.MarkPending` | `internal/service/task_service.go:211-219` | writes `pending` into any live row and drops its cached copy |
| `Service.TaskService.RepublishCreated` | `internal/service/task_service.go:173-189` | a row seen in `processing` is reset to `pending` first, and nothing at all happens when that fails or the row is gone; otherwise the row's own id, title and description are announced unless the publish is lost |
| `Repository.TaskRepository.FindStale` | `internal/repository/task_repository.go:137-158` | unless the query fails: exactly min(limit, number of stale rows) distinct live stale rows, oldest first, with 100 for a limit that is not positive, and no omitted stale row is older than a returned one |
| `Batches.StaleBatchSize` | `internal/repository/task_repository.go:151-152` | such a batch has exactly min(limit, number of stale rows) rows |
| `Batches.AlwaysPickedIff` | `internal/repository/task_repository.go:151-153` | a stale row is in every possible answer if and only if fewer than limit other stale rows were created no later |
| `Batches.NeverPickedIff` | `internal/repository/task_repository.go:151-153` | it is in no possible answer if and only if at least limit stale rows were created strictly before it |
| `Repository.TaskRepository.MarkProcessing` | `internal/repository/task_repository.go:126-135` | claims a pending row; any other or a missing row answers false |
| `Repository.TaskRepository.UpdateStatus` | `internal/repository/task_repository.go:96-113` | an unconditional update of a live row, not-found otherwise; an empty summary keeps the stored one |
| `Repository.TaskRepository.Delete` | `internal/repository/task_repository.go:115-124` | a soft delete: the row leaves every query, its key stays taken |
| `Paging.PartitionIff` | `internal/repository/task_repository.go:80-83` | for a page size: whatever the database answers, the pages up to the total give every live row exactly once, newest first, if and only if no rows created at the same instant straddle a page boundary |
| `Paging.AlwaysPartitionIff` | `internal/repository/task_repository.go:80-83` | so they do for every page size if and only if all creation times are distinct |
| `Paging.ListingUnique` | `internal/repository/task_repository.go:69-87` | with distinct creation times there is one newest-first listing |
| `Dedupes.GrantsBalance` | `internal/broker/dedupe.go:45-70` | over every run of claims, releases, expiries and Redis errors the grants of an event balance exactly with its fail-open grants, its removed markers and whether it is marked before and after |
| `Dedupes.GrantsBounded` | `internal/broker/dedupe.go:40-59` | from an empty store: grants <= 1 + removed markers + fail-open grants |
| `Dedupes.FreshGranted` | `internal/broker/dedupe.go:52-58` | an event never claimed before is granted after any run, whatever Redis answers |
| `Dedupes.Dedupe.Claim` | `internal/broker/dedupe.go:45-59` | set-if-absent; an empty id or an unreachable Redis is granted without a marker |
| `Dedupes.Dedupe.Release` | `internal/broker/dedupe.go:63-70` | removes the marker unless the id is empty or Redis fails |
| `RateLimiting.RateLimiter.Handle` | `internal/transport/http/middleware.go:85-111` | the verdict for a counted request, with its limit and remaining headers, is a function of the times of that key's requests; Retry-After is the window in whole seconds, truncated towards zero; Redis failing lets the request through unchecked |
| `RateLimiting.RateLimiter.Increment` | `cmd/api/main.go:198-211` | the count is one exactly when the key's counter was gone or expired and one more than before otherwise, the counter expires one window from now each time, other keys are unchanged |
| `RateLimiting.SlidingBound` | `internal/transport/http/middleware.go:82-84` | every half-open interval of one window, wherever it starts, contains at most `limit` admitted requests |
| `RateLimiting.AdmittedIff` | `internal/transport/http/middleware.go:103-110` | the count is the number of requests since the last full window of silence, itself included, and a request is admitted if and only if that is at most `limit` |
| `RateLimiting.DeniedUntilSilence` | `cmd/api/main.go:203-205` | after a denial the next request is admitted if and only if a full window passed in silence |
| `RateLimiting.WaitsAndPasses` | `internal/transport/http/middleware.go:102-109` | who is denied, waits a second longer than Retry-After says, and is alone in using the key, is admitted |
| `RateLimiting.AdmissionNeedsSilence` | `cmd/api/main.go:203-209` | between a denial and any later admission there is a full window of silence |
| `RateLimiting.SparseTrafficDenied` | `cmd/api/main.go:197-205` | no fixed window: traffic with at most two requests in any window is denied in the end |

## Left out

- The AMQP connection, the topology, publisher confirms and dial backoff (`internal/broker/broker.go`): only what a publish or a settling call comes to.
- The consumer's reconnect loop, prefetch and `Stop`; a lost connection is a step that puts the delivery back.
- The order of the work queue in the interleaved system, where it is a multiset; the class `Broker` keeps the order.
- JSON, UUIDs and SQL: decoding is a case of the message, ids are parameters, queries are given by their meaning.
- The LLM client, its prompts and the text sent to it: an oracle that answers a string or an error.
- Fiber routing, error mapping, request ids, health checks, panic recovery, logging and configuration loading.
- The reconciler's ticker; a sweep may start whenever that replica has none in progress, and may stop at any point.
- The length of the TTLs of markers, and of cached rows except in `CachedIsRecent` and `OutdatedIsGone`: an entry may expire at any time.
- Retry delays, which the code never waits for.
- `Update` of the repository, which has no caller, and a worker without a duplicate guard.
- Fairness: `NoTaskStranded` says that a way out exists from every reachable state, and `RescuedWithin` how many healthy rounds a task may need; neither says that sweeps and workers get to run.
- The count query and the page query of `List` see the same table; a write between the two is not modelled.
