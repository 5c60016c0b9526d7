# Verified model of the OSINT Intelligence Core

The OSINT Intelligence Core collects open-source documents, normalises them and makes them
searchable. This project is a Dafny model of the parts whose guarantees hold over interleavings
or over unbounded runs, with machine-checked proofs of those guarantees. Every statement is for
all inputs, all runs or all reachable states.

`dafny verify dfyconfig.toml` checks everything.

| file | what it models |
|---|---|
| `Jobs.dfy` | the job state machine and the record every other service relies on |
| `Backoff.dfy` | the retry delay in machine arithmetic, the scheduling decision, and runs of a connector that keeps failing |
| `FairDispatch.dfy` | which due connectors run this tick |
| `TickStart.dfy`, `Tick.dfy`, `TickBooks.dfy`, `TickDrain.dfy` | one collector tick: planning, then the dispatch/drain loop with its tasks, cancellation, deadline and job table, what it reports, and exactly when a drain closes every job |
| `Bounds.dfy`, `TickBounds.dfy` | the two-level permits (global, then per domain), alone and taken by the tasks of a tick |
| `Quota.dfy` | AI call quota: the per-run reservation and the daily budget, under interleaving |
| `Gateway.dfy` | the chat-completion protocol: admission, the quota protocol, retries under the HTTP semaphore |
| `Pressure.dfy` | the sliding window, the percentile, the threshold table and the hysteresis |
| `Outbox.dfy`, `OutboxLease.dfy` | the transactional outbox with any number of relays, and what its leases guarantee |
| `UrlNorm.dfy` | percent-encoding normalisation of paths (RFC 3986, sections 2.3, 6.2.2.1 and 6.2.2.2) |
| `Fusion.dfy` | reciprocal rank fusion |
| `RateLimit.dfy` | the per-domain token bucket |
| `Prelude.dfy`, `Sorting.dfy` | shared small definitions and the sort of the standard library |

A concurrent protocol is a step system: a state, an `Event` per atomic step (a section under a lock,
a store call, taking or giving back a permit, a join), `Enabled`, `Apply`, and runs as event
sequences. `Feasible(s, es)` says that `es` is an interleaving that can happen from `s`. Fields
called history in the comments record what has happened and are read by no step. Code that
updates an object alone is a class or a loop, proved against the functions the theorems are about.

## What the code does not keep

These promises turned out to hold only under a condition. Each has a theorem that says exactly
when it holds.

- Background AI calls can change the fate of an interactive (P0) call, although admission keeps their
  pools apart: the daily budget of a collection and the counter of a run are shared by all priorities.
  They cannot if and only if no background account shares a collection or a run with a P0 account
  (`Gateway.BackgroundCannotChangeP0Iff`, with the loss itself in `Gateway.BackgroundSpendsP0Budget`).
- A drained tick closes every job it created if and only if no connector is queued twice, or nothing is
  dispatched: the second dispatch overwrites the in-flight entry of the first
  (`TickDrain.DrainSettlesIff`). The store's primary key gives the condition.
- Outside a drain, a job stays Running if and only if its task panicked before its final write, because
  only the drain repairs jobs (`Tick.UndrainedJobUnsettledIff`, `TickDrain.PanicWithoutDrainLeavesRunning`).
- Scheduler and operator view disagree on a connector whose cron expression has no further occurrence:
  it is never due, while its next attempt is reported as now (`Backoff.ViewsAgreeIff`).
- Normalising a path changes its meaning exactly when a stray percent sign comes to stand before two
  hex digits, as in `%%341` (`UrlNorm.MeaningPreservedIff`, `UrlNorm.StrayPercentChangesMeaning`).
- Outbox leases keep two relays off the same row if and only if no failure mark reopens a row inside the
  lease of another relay, which a slow relay can do to its successor (`OutboxLease.LeasesExcludeIff`,
  `OutboxLease.SlowRelayBreaksExclusion`). Delivery is not affected.
- The backoff is the documented value if and only if that value fits 64 bits of milliseconds; a cap of
  2^61 seconds wraps to no wait at all (`Backoff.RetryBackoffIsIdealIff`, `Backoff.HugeCapWraps`).

- The waits of a connector that keeps failing grow, when every failure is recorded, if and only if no
  attempt had stored its success before it failed (or the cap makes the waits equal): storing the
  success resets the error count. With the broker down every attempt does that, and the backoff never
  grows (`Backoff.RecordedFailuresWaitIff`, `Backoff.BrokerDownNeverBacksOff`).
- Worse pressure readings never end at a lower level, over whole runs, if and only if there is no
  cooldown: an early peak starts the cooldown early (`Pressure.MonotoneOverRunsIff`).
- A completed or cancelled job is final as long as no writer stores a transition of a record that has
  changed since it was read; two racing writers can cancel a completed job
  (`Jobs.OnlyStaleReopens`, `Jobs.StaleWriteReopens`).

Also: a job retry whose dispatch fails reports an error although the job is already Retrying
(`Jobs.JobService.Retry`), a failed attempt that could not be written to the store causes no wait
(`Backoff.AttemptsAreSpaced`), and a job whose creation the store kept but reported as failed stays
Queued (`TickDrain.UnseenCreationStaysQueued`).

## Model

| member | source | states |
|---|---|---|
| Tick.DrainSettlesEveryJob | crates/collector/src/runner.rs:255-362 | for every interleaving of task progress, panics, cancellation, deadline and aborts, a tick over a queue without repeats that ends in drain closes the record of every job it created (completed, failed or cancelled, with an ordered completion time), except a job one of whose own writes the store lost, or whose creation it kept but reported as failed |
| Tick.UndrainedJobUnsettledIff | crates/collector/src/runner.rs:353-403 | in a finished undrained run, over any queue, a job whose creation was reported and whose writes were kept is unsettled if and only if some step of the run is a panic of its task before its final write; then it is Running |
| TickDrain.UnseenCreationStaysQueued | crates/collector/src/runner.rs:277-305 | a job whose creation the store kept but reported as failed keeps its Queued record through every continuation, the drain repair included |
| TickDrain.PanicWithoutDrainLeavesRunning | crates/collector/src/runner.rs:382-403 | whenever a tick dispatches anything there is an undrained run, with no lost write and no refused creation, that leaves a job Running |
| TickDrain.DrainSettlesIff | crates/collector/src/runner.rs:255-362 | every drained run that loses no write, and likewise every such run in which no creation is refused, closes every record if and only if the queue has no repeat, or the cap is 0, or the token was cancelled before the loop |
| TickDrain.RepeatEscapes | crates/collector/src/runner.rs:277-296 | for every queue with a repeat, every cap of at least 1 and an uncancelled token there is a drained run without lost writes and refused creations that leaves a job Running |
| TickDrain.UntouchedStays | crates/collector/src/runner.rs:353-362 | a job whose task is over and that no in-flight entry names keeps its row through every continuation, the repair included |
| TickDrain.FinishDrain | crates/collector/src/runner.rs:315-351 | every draining state can be brought to the end of the tick without losing a write |
| Tick.CompletedStaysCompleted | crates/collector/src/runner.rs:405-437 | a completed job keeps its row through every continuation, including the abort of its task and the repair |
| Tick.NoJobWhileDraining | crates/collector/src/runner.rs:255-306 | once draining has started the set of jobs never changes and draining never ends |
| Tick.AtMostOneJobAfterCancel | crates/collector/src/runner.rs:256-280 | after the token is cancelled at most one more job appears, and only if its creation was already under way |
| Tick.PauseCreatesNoJob | crates/collector/src/runner.rs:228-244 | with a dispatch cap of 0 no run creates a job |
| Tick.EveryConnectorAccountedOnce | crates/collector/src/runner.rs:170-403 | over a queue without repeats, in every state of every run the connectors in queue, creation, flight, results and the two failure lists are together exactly those of the start; live tasks stay within the cap; at the end nothing is queued unless the tick drained or was paused; without failed joins the in-flight jobs are exactly the live tasks |
| TickBooks.ReportsFollowWrites | crates/collector/src/runner.rs:382-403 | over a queue without repeats, once a job's task was joined the tick has reported its connector as run exactly if the task wrote a success, and counted it as failed exactly if it wrote a failure |
| TickBooks.ReportsMatchJobs | crates/collector/src/runner.rs:382-403 | for a joined job whose writes were kept, its connector is reported as run if and only if the job is Completed, and counted as failed if and only if it is Failed |
| TickBooks.EveryRecordHasCause | crates/collector/src/runner.rs:405-578 | every job record of a tick stems from a step of the run and carries its text and time: the failure's message, the text of the aborted shutdown, or none |
| TickBooks.DispatchInOrder | crates/collector/src/runner.rs:256-277 | in every state the waiting connectors are the end of the queue, so they are taken strictly in the fair order |
| TickBooks.NothingIsCutShort | crates/collector/src/runner.rs:255-362 | without a cancellation no tick drains, no task is aborted and no job is cancelled |
| Tick.RunsAreFinite | crates/collector/src/runner.rs:255-351 | the number of steps plus the rank of the last state is at most the rank of the first |
| Tick.NeverStuck | crates/collector/src/runner.rs:255-351 | an unfinished tick always has an enabled step |
| Tick.EveryTickEnds | crates/collector/src/runner.rs:255-362 | for every start, repeats or not, no run is longer than the rank of its start, and a run that cannot be extended has finished |
| Tick.RunKeepsInv | crates/collector/src/runner.rs:255-437 | every run keeps the links between tasks, in-flight map and job table, the meaning of each job status, the cap and the ledger |
| Tick.RunStaysSound | crates/collector/src/runner.rs:255-437 | every run, repeats or not, keeps each job record consistent with its own times and, outside a drain, Running exactly for jobs at work or crashed |
| Tick.FinishAborted | crates/collector/src/runner.rs:405-437 | the repair loop, in any order of the map and with any of its writes lost, cancels exactly the listed jobs that a kept write reaches and that are not completed, touches no other job, and is a run of `CancelJob` events of the protocol |
| TickStart.PrepareTick | crates/collector/src/runner.rs:176-244 | the planning loop and the choice build exactly the state `Begin` in which the dispatch loop starts |
| TickStart.PlanningPartitions | crates/collector/src/runner.rs:180-218 | the due connectors and the skipped ones together are the input as multisets |
| TickStart.TickAccountsForInput | crates/collector/src/runner.rs:170-403 | from an input with distinct ids the prepared queue has no repeat, every run of the whole tick accounts for each input connector exactly once, a pause creates no job, and live tasks stay within the backpressure cap |
| TickStart.DispatchedAreDue | crates/collector/src/runner.rs:180-223 | whatever is queued for dispatch was planned to run, is of a known type and is not backing off |
| TickStart.EveryConnectorIsTold | crates/collector/src/runner.rs:181-218 | every input connector that does not run is told why: import type, unknown type, no schedule, bad schedule, not due, or backing off |
| TickStart.EveryDueConnectorIsPlaced | crates/collector/src/runner.rs:218-238 | a connector that is due and not waiting is queued, put off as a failing one over the retry cap, or dropped by a pause |
| TickStart.CapInFigures | crates/collector/src/backpressure.rs:41-47 | no task in a pause, one when throttled, else the global limit |
| FairDispatch.TakeFairDispatch | crates/collector/src/runner.rs:891-911 | the in-place loop with its retry counter computes `Chosen` |
| FairDispatch.DispatchIsFair | crates/collector/src/runner.rs:891-911 | dispatched and deferred partition the due list as multisets; every healthy connector runs; exactly min(max(cap, 1), failing) failing ones run; only failing ones are deferred, and none of them has a better claim than a dispatched failing one |
| FairDispatch.ListsAreInOrder | crates/collector/src/runner.rs:878-911 | both lists are ordered by fewest failures, then the most recent success with none last, then the id |
| FairDispatch.DispatchIgnoresInputOrder | crates/collector/src/runner.rs:878-889 | with distinct ids, permuting the input changes neither list |
| FairDispatch.FairLeIsTotal | crates/collector/src/runner.rs:878-889 | the fair order is total and transitive |
| Jobs.RecordTellsHistory | crates/core-jobs/src/service.rs:117-148 | after any sequence of requested changes the record tells its history: retry count, first start, completion time exactly in settled statuses, ordered times, error text only in Failed, Cancelled or Retrying, and the last accepted status |
| Jobs.FinalStatuses | crates/core-jobs/src/transition.rs:18-36 | Completed and Cancelled records never change again, and no other status is final |
| Jobs.TransitionTable | crates/core-jobs/src/transition.rs:18-36 | exactly the eleven written transitions are allowed |
| Jobs.LastChangeTells | crates/core-jobs/src/service.rs:117-148 | after any requests, a failed or cancelled record carries the text of its last accepted change, a settled one its time, and a retrying one the text of the failure it is retried for |
| Jobs.FailedCanComplete | crates/core-jobs/src/transition.rs:18-36 | a failed job can be retried, run again and completed, with one more retry counted and its first start kept |
| Jobs.ApplyTransition | crates/core-jobs/src/service.rs:117-148 | the field-by-field update succeeds exactly for allowed changes and gives `Changed`; a refusal names both statuses |
| Jobs.JobService.Create | crates/core-jobs/src/service.rs:32-53 | adds one queued record unless the store refuses, and reports a store error |
| Jobs.JobService.Transition | crates/core-jobs/src/service.rs:150-160 | changes exactly one record when the change is allowed and the store carries it out, nothing otherwise, with the error of the step that failed |
| Jobs.UncontendedIsPlay | crates/core-jobs/src/service.rs:150-160 | with any number of writers that read and write in separate steps, a run without a stale write leaves the record of its writes one after another |
| Jobs.OnlyStaleReopens | crates/core-jobs/src/service.rs:150-160 | a completed or cancelled record changes only by a stale write |
| Jobs.StaleWriteReopens | crates/core-jobs/src/service.rs:150-160 | two racing writers of a running job can cancel it after it was completed |
| Jobs.JobService.Retry | crates/core-jobs/src/service.rs:103-113 | only a failed job becomes Retrying, with its count raised and its error and times kept; it does so whenever the write is carried out, even if a later read or the dispatch message fails and the caller sees that error |
| Backoff.RetryBackoffIsIdealIff | crates/connector-sdk/src/backoff.rs:50-128 | shift, saturation, shortcut, millisecond truncation and wrapping cast compute min(max, floor(min(base·2^(n-1), max)·(1+j))) if and only if that unbounded value fits 64 bits of milliseconds |
| Backoff.RetryBackoffIsIdeal | crates/connector-sdk/src/backoff.rs:50-56 | in particular they do for every cap below 2^64 ms |
| Backoff.RetryBackoffInFigures | crates/connector-sdk/src/backoff.rs:50-128 | the delay in nanoseconds with every number written out: doubled base up to max, times 0.9000 to 1.1000 by the id modulo 2001, at most max |
| Backoff.ExponentialIsIdeal | crates/connector-sdk/src/backoff.rs:103-114 | the shift with saturation and shortcut is the unbounded doubling capped at max |
| Backoff.JitterWraps | crates/connector-sdk/src/backoff.rs:117-128 | the jitter step is the scaled and capped number of milliseconds modulo 2^64 |
| Backoff.RetryBackoffBounds | crates/connector-sdk/src/backoff.rs:103-128 | never above max, never below 90% of the capped delay |
| Backoff.RetryBackoffMonotone | crates/connector-sdk/src/backoff.rs:50-56 | another failure never shortens the wait of a connector |
| Backoff.HugeCapWraps | crates/connector-sdk/src/backoff.rs:117-128 | with a cap of 2^61 seconds and no jitter the wait after 64 or more failures is zero |
| Backoff.ViewsAgreeIff | crates/collector/src/runner.rs:851-875 | for a known, validly scheduled connector, "run now" and "now is past the reported next attempt" agree if and only if it never ran, its next cron occurrence exists, or it is inside its backoff |
| Backoff.NextAttemptInFigures | crates/connector-sdk/src/backoff.rs:66-88 | nothing without a schedule, now if never run, else the later of the end of the wait and the next occurrence |
| Backoff.BackingOffReportsNextAttempt | crates/connector-sdk/src/backoff.rs:66-101 | a connector that is backing off is told the operator's next attempt, which lies strictly ahead and is the last run plus the backoff |
| Backoff.AttemptsAreSpaced | crates/collector/src/runner.rs:677-834 | in every tick sequence of a connector that keeps failing, whatever writes are lost and whichever attempts had reset the error count, an attempt starts no earlier than the first run time an earlier attempt left in the store plus one wait, at the then stored error count, for each earlier attempt that left one |
| Backoff.CountInFigures | crates/collector/src/runner.rs:806-825 | a recorded failure stores one more than before, one after a reset, and never more than 2^31 - 1 |
| Backoff.RecordedFailuresWaitIff | crates/collector/src/runner.rs:677-834 | for recorded failures with a given pattern of resets, attempt k+1 starts in every run no earlier than the first failure plus the first k growing waits if and only if the resets leave each of these waits as it is |
| Backoff.RecordedFailuresWaitAtLeast | crates/collector/src/runner.rs:677-834 | with any pattern of resets, attempt k+1 starts no earlier than the first failure plus the waits that the resets leave |
| Backoff.BrokerDownNeverBacksOff | crates/collector/src/runner.rs:702-718 | for every k there is a run of recorded failures, each after a stored success, in which attempt k+1 starts exactly k first waits after the first failure |
| Backoff.RecordedFailuresWait | crates/collector/src/runner.rs:806-834 | when every failure is recorded and no attempt had reset the count, attempt k+1 starts no earlier than the first failure plus the first k waits |
| Backoff.DelayIsBackoff | crates/connector-sdk/src/backoff.rs:130-133 | with a cap inside the calendar range the wait applied is the whole backoff |
| Bounds.LimitsHold | crates/collector/src/bounds.rs:19-67 | in every reachable state collecting tasks stay within the global limit and each domain limit (both at least 1), and free plus held permits equal the limit in every pool |
| Bounds.NoDeadlock | crates/collector/src/bounds.rs:54-67 | with unfinished tasks somebody can proceed without an abort, although tasks hold the global permit while they wait for a domain permit |
| Bounds.EveryTaskCompletes | crates/collector/src/bounds.rs:45-67 | every run is finite, and one in which nobody can proceed has completed all tasks |
| Bounds.StepKeepsInv | crates/collector/src/bounds.rs:45-76 | every step conserves the permits of every pool |
| TickBounds.SuccessNeedsPermits | crates/collector/src/runner.rs:525-540 | in every run a task that reports a success has taken the global and its domain's permit |
| TickBounds.ReturnedHoldsNothing | crates/collector/src/runner.rs:525-578 | a task that returned holds no permit, even before it is joined |
| TickBounds.TickReturnsItsPermits | crates/collector/src/runner.rs:505-578 | a tick whose tasks take permits while others use the bounds, over every interleaving with panics, cancellation, deadline and aborts: limits hold, every run is finite unless others keep arriving, a run in which nobody can go on has finished the tick, and a finished tick has given every permit back |
| TickBounds.NeverStuck | crates/collector/src/runner.rs:525-526 | while a tick with permits is unfinished, it or another user of the bounds can take a step that is no panic, abort, cancellation, deadline or arrival |
| TickBounds.TickInside | crates/collector/src/runner.rs:505-578 | forgetting the permits leaves a run of the tick alone with the same end |
| TickBounds.DrainedTickLeavesNothing | crates/collector/src/runner.rs:255-437 | a drained tick over a queue without repeats leaves no open record (lost writes aside) and no permit of its own |
| Quota.CountersConserve | crates/ai-gateway/src/quota.rs:165-236 | for every interleaving, a run's counter is its granted calls plus its reservations in flight plus those leaked by dropped calls, and a day's counter is its granted calls plus the charges whose answer was lost |
| Quota.RunNeverPassesLimit | crates/ai-gateway/src/quota.rs:147-154 | a run's counter never passes the largest limit its calls were given |
| Quota.DayNeverPassesBudget | crates/ai-gateway/src/quota.rs:204-222 | a day's counter never passes the largest budget given, charges with a lost answer included |
| Quota.ReserveDecides | crates/ai-gateway/src/quota.rs:147-154 | a slot is granted exactly while fewer calls than the run's limit count against it |
| Quota.ChargeDecides | crates/ai-gateway/src/quota.rs:204-222 | a unit is granted exactly while fewer calls than the daily budget have cost one |
| Quota.FailsClosed | crates/ai-gateway/src/quota.rs:174-215 | a call whose limits could not be loaded or whose charge failed is never granted, whatever happens later |
| Quota.GiveBackAndDefaults | crates/ai-gateway/src/quota.rs:124-125 | giving back lowers the run's counter by one; without a budget row the limits are 500 a day and 50 a run |
| Quota.RunKeepsInv | crates/ai-gateway/src/quota.rs:147-236 | every run keeps both conservation laws |
| Quota.StoreAiQuota.TryReserveRun | crates/ai-gateway/src/quota.rs:147-154 | takes a slot exactly below the limit |
| Quota.StoreAiQuota.ReleaseRun | crates/ai-gateway/src/quota.rs:156-160 | gives one slot back, saturating, and only for a known run |
| Quota.StoreAiQuota.TryConsume | crates/ai-gateway/src/quota.rs:165-236 | one call alone: the verdict in each case of a failed load, a full run, a lost or a given answer; the run's counter moves exactly with a grant, the day's exactly with an applied charge; system calls touch nothing |
| Quota.SameStep | crates/ai-gateway/src/quota.rs:165-236 | what a call does next depends on its own record and its account's counters only |
| Gateway.PermitsConserve | crates/ai-gateway/src/openai.rs:209-323 | for every interleaving of calls, free plus held permits equal the capacity in the P0, shared and HTTP pools, and the waiter and in-flight counters equal the calls in those phases |
| Gateway.AllPermitsComeBack | crates/ai-gateway/src/openai.rs:102-129 | once every call is over, however it ended, all permits are back and both counters are 0 |
| Gateway.NeverStuck | crates/ai-gateway/src/openai.rs:209-323 | with an open call somebody can take a step that drops no call, although calls hold an admission permit while they wait for an HTTP permit |
| Gateway.EveryCallEnds | crates/ai-gateway/src/openai.rs:209-323 | a run of n calls has at most (3 max_retries + 15) n steps, and when nobody can go on every call is closed and every permit is back |
| Gateway.AttemptsArePaidOnce | crates/ai-gateway/src/openai.rs:209-323 | against the real counters: every attempt of a Collection call is backed by exactly one unit of its collection and made under a live admission permit; at most max_retries + 1 attempts; System calls cost nothing and are never refused by quota; calls refused by admission cost nothing, calls refused by quota or dropped before a grant cost a unit only if the answer to their charge was lost; P0 is never refused by pressure |
| Gateway.RepliesDecide | crates/ai-gateway/src/openai.rs:281-322 | a call is answered if and only if it got a successful reply, with one attempt more than transient replies; it has failed if and only if it got a permanent reply or max_retries + 1 transient ones |
| Gateway.ConsultDecides | crates/ai-gateway/src/admission.rs:155-165 | a queued call is rejected exactly when the pressure it reads keeps its priority out: Elevated P4, High also P2 and P3, Critical also P1 |
| Gateway.P0IsAdmittedIff | crates/ai-gateway/src/admission.rs:139-145 | a P0 call is admitted at once exactly while fewer P0 calls than permits are under way |
| Gateway.UsageIsWhatCallsCost | crates/ai-gateway/src/quota.rs:204-222 | a day's counter is exactly the number of gateway calls that cost a unit of it |
| Gateway.BackgroundCannotChangeP0Iff | crates/ai-gateway/src/admission.rs:139-173 | for every configuration and sets of accounts: deleting every P1 to P4 step from any run leaves a run in which each P0 call has the same phase, verdict, attempts and quota record, if and only if no P0 account shares a collection or a run with a background account |
| Gateway.BackgroundSpendsP0Budget | crates/ai-gateway/src/quota.rs:204-236 | a P0 call of a collection with one unit left is refused after one background call of that collection and answered without it |
| Gateway.SharingBreaksErasure | crates/ai-gateway/src/quota.rs:182-222 | for any two accounts that share a collection or a run there is a run in which the background call changes what happens to the P0 call |
| Gateway.EraseMatches | crates/ai-gateway/src/admission.rs:125-173 | the simulation behind it: with isolated accounts a run and its erasure stay in the P0 view of each other, quota counters included |
| Gateway.WorseSamplesNeverUnblock | crates/ai-gateway/src/admission.rs:155-165 | in one evaluation from the same level, through percentile, thresholds, hysteresis and table: worse samples, a longer queue or a lower priority never admit a call that was blocked |
| Pressure.MonotoneOverRunsIff | crates/ai-gateway/src/pressure.rs:290-302 | over whole runs from the same level, readings that are never lower end at a level that is never lower, if and only if the cooldown is zero |
| Pressure.EarlyPeakRecoversFirst | crates/ai-gateway/src/pressure.rs:290-302 | for every positive cooldown, two runs of which the pointwise worse one ends lower |
| Pressure.ObservedPressure.ApplyHysteresis | crates/ai-gateway/src/pressure.rs:290-302 | the in-place update is `Hysteresis` |
| Gateway.RunKeepsInv | crates/ai-gateway/src/openai.rs:209-323 | every run keeps conservation of all five counters, the quota's two laws, and each call's phase in step with the quota's record of it |
| Gateway.RetryBackoffDoubles | crates/ai-gateway/src/openai.rs:455-458 | the limited shift is invisible: 100 ms doubled per attempt, at most 5 s, non-decreasing |
| Pressure.WindowIsLongestSuffix | crates/ai-gateway/src/pressure.rs:191-203 | the reference window is the longest suffix of the whole log with at most 1024 samples and none older than the window |
| Pressure.PruneIsFilter | crates/ai-gateway/src/pressure.rs:225-233 | popping stale samples off the front equals filtering the whole log |
| Pressure.RecordWindow | crates/ai-gateway/src/pressure.rs:191-203 | append, prune and cap take the window of the log to the window of the longer log |
| Pressure.PruneWindow | crates/ai-gateway/src/pressure.rs:205-217 | pruning takes an earlier window to the present one |
| Pressure.PercentileIsOrderStatistic | crates/ai-gateway/src/pressure.rs:313-325 | at least 95% of the samples are at or below the percentile and fewer than 95% are strictly below it |
| Pressure.PercentileMonotone | crates/ai-gateway/src/pressure.rs:313-325 | raising samples pointwise never lowers the percentile |
| Pressure.ReachesInFigures | crates/ai-gateway/src/pressure.rs:240-283 | which number is held against which bar of a threshold row, as counts without quotients |
| Pressure.RawLevelMonotone | crates/ai-gateway/src/pressure.rs:235-284 | raised latencies, harmless attempts turned into failures or a longer queue never lower the raw level, for every threshold table |
| Pressure.ComputeRawLevel | crates/ai-gateway/src/pressure.rs:235-284 | the chain of overrides computes that level |
| Pressure.Hysteresis | crates/ai-gateway/src/pressure.rs:290-302 | the level rises at once to the raw one and no further, drops one step at a time and only after the cooldown, and the change time moves exactly with the level |
| Pressure.DescentTakesTime | crates/ai-gateway/src/pressure.rs:290-311 | without a raise, d steps down take at least d cooldowns, over every run of evaluations |
| Pressure.DescentBound | crates/ai-gateway/src/pressure.rs:290-311 | after a change to L at t0 with no later raise the level at t is at least L - floor((t - t0) / cooldown) |
| Pressure.RecoveryIsExact | crates/ai-gateway/src/pressure.rs:290-311 | with a constant lower raw level and evaluations a cooldown apart, k evaluations lower the level by exactly k until it is reached |
| Pressure.ObservedPressure.constructor | crates/ai-gateway/src/pressure.rs:161-173 | starts empty at Normal |
| Pressure.ObservedPressure.PruneSamples | crates/ai-gateway/src/pressure.rs:225-233 | the pop loop computes `Prune` |
| Pressure.ObservedPressure.CapSamples | crates/ai-gateway/src/pressure.rs:200-202 | the cap loop keeps the newest 1024 |
| Pressure.ObservedPressure.Record | crates/ai-gateway/src/pressure.rs:191-203 | after every record the deque is exactly the reference window of all samples ever recorded |
| Pressure.ObservedPressure.Evaluate | crates/ai-gateway/src/pressure.rs:205-217 | an enabled evaluation leaves the reference window and applies the hysteresis to its raw level; a disabled one answers Normal and changes nothing |
| Outbox.NothingIsLost | crates/core-api/src/outbox.rs:126-199 | with any number of relays, refusals, unseen acceptances and stops, every event ever written is pending with its content or carried by a message at the broker; a published or purged row was accepted under an envelope with the row's id |
| Outbox.RetriesAreIdentical | crates/core-api/src/outbox.rs:61-71 | two messages with the same envelope id are the same message |
| Outbox.PendingCanBeDelivered | crates/core-api/src/outbox.rs:136-159 | from every reachable state a due pending row can be claimed, accepted and marked |
| Outbox.RunKeepsInv | crates/core-api/src/outbox.rs:126-199 | every run keeps rows, copies, messages and marks consistent |
| Outbox.BackoffDelayDoublesIff | crates/core-api/src/outbox.rs:76-82 | the delay is base doubled per failure up to max if and only if there were at most 21 attempts, 2^20 doublings reach the maximum, or the base is 0 |
| Outbox.RoundMarksItsRows | crates/core-api/src/outbox.rs:149-180 | after a round each claimed row is published at the accepting answer's time, waits its own backoff, or is as leased if its mark was not carried out |
| Outbox.RoundInFigures | crates/core-api/src/outbox.rs:149-180 | a row refused at `at` is put off to at + min(base · 2^(attempts-1), max) milliseconds, doubling at most 20 times; an accepted one is published at its answer's time; nothing else of either changes |
| Outbox.TooLongIsOneSecond | crates/core-api/src/outbox.rs:160-167 | a delay beyond the calendar's range counts as one second |
| Outbox.AttemptsCountClaims | crates/storage-postgres/src/store.rs:3409-3443 | over every run a row's attempts are the number of claims that took it |
| Outbox.PublishedRowIsFinal | crates/storage-postgres/src/store.rs:3446-3486 | a published row stays as it is through every continuation until it is purged |
| Outbox.DeletedInFigures | crates/core-api/src/outbox.rs:182-188 | the purge takes exactly the rows of its pick that were published before the cutoff |
| Outbox.RelaysAreIndependent | crates/core-api/src/outbox.rs:126-180 | no step of the store or of another relay touches a relay's work |
| Outbox.RoundSparesOthers | crates/core-api/src/outbox.rs:149-180 | a round changes no row outside its batch |
| Outbox.OutboxStore.Handle | crates/core-api/src/outbox.rs:150-179 | one row: the message is at the broker exactly if it was accepted, seen or not, and the row is marked by what the relay saw |
| Outbox.OutboxStore.HandleAll | crates/core-api/src/outbox.rs:149-180 | the loop stops at the first mark reported as failed; table and broker are those of the rows reached; a complete loop counts every row once |
| Outbox.OutboxStore.RelayOnce | crates/core-api/src/outbox.rs:126-199 | claim, loop, purge and gauges with a store error anywhere: claimed equals published plus failed in a complete round, and table, broker and purge count are those of what was reached |
| Outbox.RelayRoundIsRun | crates/core-api/src/outbox.rs:136-180 | a round up to its first store error is a run of the protocol that ends in the table and broker of `RelayOnce`, and its deletion is an enabled purge there |
| OutboxLease.LeasesExcludeIff | crates/storage-core/src/outbox.rs:78-93 | along a run no two relays hold the same row under unexpired leases, and no single further claim could bring that about at any point, if and only if no failure mark of the run reopens an unpublished row inside another relay's lease |
| OutboxLease.HarmfulMarkBreaks | crates/storage-postgres/src/store.rs:3465-3486 | in every state, after a failure mark that reopens a row held by another relay there is a claim that hands it to a second relay |
| OutboxLease.HarmlessStepKeeps | crates/storage-postgres/src/store.rs:3409-3443 | every other step keeps held rows closed and holders unique |
| OutboxLease.SlowRelayBreaksExclusion | crates/core-api/src/outbox.rs:160-167 | there is a run with a late failure mark after which two relays hold the same row under unexpired leases |
| OutboxLease.PunctualRelaysExclude | crates/core-api/src/outbox.rs:160-167 | if every failure is marked inside the marking relay's own lease, the run has no such mark and leases exclude |
| UrlNorm.NormalizePercentEncoding | crates/core-model/src/url_norm.rs:192-219 | the loop over index and buffer computes `Normalize` |
| UrlNorm.EscapeNormalizes | crates/core-model/src/url_norm.rs:192-223 | the escape of every octet, in either case of its digits, becomes the octet itself if it is one of A-Z a-z 0-9 - . _ ~, and otherwise a percent sign with upper-case digits |
| UrlNorm.HexDigitsAre | crates/core-model/src/url_norm.rs:197-200 | the characters of 0123456789ABCDEF and 0123456789abcdef are hex digits with their position as value |
| UrlNorm.OnlyTheseAreHex | crates/core-model/src/url_norm.rs:197-200 | no other byte is a hex digit |
| UrlNorm.UnreservedAre | crates/core-model/src/url_norm.rs:221-223 | the unreserved bytes are exactly the letters, the digits and the four marks |
| UrlNorm.NormalizeIsCanon | crates/core-model/src/url_norm.rs:192-219 | normalisation reads the path as tokens, makes each canonical and prints them |
| UrlNorm.MeaningPreservedIff | crates/core-model/src/url_norm.rs:188-219 | the decoded octets are preserved if and only if the path is safe; then the tokens are the canonical ones |
| UrlNorm.IdempotentIff | crates/core-model/src/url_norm.rs:192-219 | normalising twice equals normalising once if and only if every stray percent sign that ends up before two hex digits spells an escape already in normal form |
| UrlNorm.NormalizeIdempotent | crates/core-model/src/url_norm.rs:188-219 | on safe paths normalisation is idempotent and stays safe |
| UrlNorm.WellFormedIsSafe | crates/core-model/src/url_norm.rs:188-219 | a path in which every percent sign starts an escape is safe |
| UrlNorm.StrayPercentChangesMeaning | crates/core-model/src/url_norm.rs:192-219 | `%%341` becomes `%41` and then `A` |
| UrlNorm.SlashesAreKept | crates/core-model/src/url_norm.rs:188-219 | normalisation works segment by segment between literal slashes, on all paths |
| UrlNorm.NoSlashIsMade | crates/core-model/src/url_norm.rs:188-219 | the result has a literal slash exactly when the path has one |
| UrlNorm.IdentifiedIffEquivalent | crates/core-model/src/url_norm.rs:188-223 | two safe paths become the same string if and only if they differ only in hex case and in whether unreserved octets are escaped |
| Fusion.FillBm25 | crates/core-api/src/search_hybrid.rs:148-153 | the first loop gives exactly the listed documents their first-occurrence rank |
| Fusion.FillVector | crates/core-api/src/search_hybrid.rs:154-159 | the second loop adds the second list's ranks and keeps the first's |
| Fusion.CollectHits | crates/core-api/src/search_hybrid.rs:161-173 | walking the map in any order gives each document of the union once, with its ranks and score |
| Fusion.FuseRanks | crates/core-api/src/search_hybrid.rs:141-177 | the result is a fusion: each document of the union once, with its ranks and score, sorted by score and then id |
| Fusion.FusedInFigures | crates/core-api/src/search_hybrid.rs:161-173 | every fused score is weight over 60 plus rank from each list that contains the document, and ranks are first positions counted from 1 |
| Fusion.LexInFigures | crates/core-api/src/search_hybrid.rs:175-176 | a proper prefix comes first, and otherwise the first different character decides |
| Fusion.FusionIsUnique | crates/core-api/src/search_hybrid.rs:161-177 | there is only one fusion, so hash iteration order cannot show |
| Fusion.AheadEverywherePrecedes | crates/core-api/src/search_hybrid.rs:141-177 | with positive weights a document strictly ahead of another in every list that contains the other never scores less, and precedes it if and only if some rank differs or its id is smaller; for lists of at most 2^32 - 1 entries it always precedes it with a higher score |
| Fusion.SwappingOnlySwapsRanks | crates/core-api/src/search_hybrid.rs:141-177 | exchanging the lists together with the weights exchanges only the two rank fields |
| RateLimit.EveryDomainIsLimited | crates/connector-sdk/src/rate_limit.rs:34-53 | over every interleaving of requests to any domains, the grants of a domain in any stretch are at most burst + rate · (time between its first and last request there) |
| RateLimit.AnyWindowIsLimited | crates/connector-sdk/src/rate_limit.rs:34-53 | the same for the request times of one bucket |
| RateLimit.TokensStayInRange | crates/connector-sdk/src/rate_limit.rs:44-46 | tokens stay between 0 and the burst over every request sequence |
| RateLimit.PatientRequestIsGranted | crates/connector-sdk/src/rate_limit.rs:44-52 | a first request, or one at least 1/rate after the last, is granted |
| RateLimit.BurstAtOnce | crates/connector-sdk/src/rate_limit.rs:38-43 | of any number of requests at one instant a new domain gets exactly the whole units of its configured burst, at least one |
| RateLimit.RequestInFigures | crates/connector-sdk/src/rate_limit.rs:38-52 | a request is granted exactly if the tokens left plus the refill at the configured rate reach one, and leaves the rest, capped at the configured burst |
| RateLimit.DomainsAreIndependent | crates/connector-sdk/src/rate_limit.rs:40-43 | a domain's bucket depends on its own requests only |
| RateLimit.DomainRateLimiter.Acquire | crates/connector-sdk/src/rate_limit.rs:34-53 | the in-place update is `Request` on that domain's bucket and leaves the others alone |

## Left out

- The tick loop, the two-level semaphore and the chat-completion protocol are step systems on values, so update in place and aliasing of the shared maps are not captured. In the tick and in `JobService` a transition is one step, and no other writer touches the tick's jobs; what a race would do is in `Jobs.StaleWriteReopens`.
- One process: a run counter that two processes keep apart, and a quota other than the one backed by the store.
- The clock is read together with the lock in `record`, `evaluate` and `acquire`, and never goes back.
- f64 rounding: scores, ratios, rates and tokens are reals; the percentile rank is the integer ceil(19n/20), which agrees with the float expression up to the window's 1024 samples.
- Cron is a function whose result, if any, lies strictly after its argument; connector types, blank schedules and domain keys are already classified and trimmed.
- i32 overflow of a job's retry count, and dates beyond the calendar library's range.
- Network, HTTP status classification and response parsing: replies are Success, Transient or Permanent. The gateway's own request spacing (`wait_turn`) only adds waiting.
- The queue depth that admission publishes to the pressure gauge: it is a second store after the counter update, so the two need not agree in every state. Pressure readings are inputs of the gateway model.
- Semaphore fairness: any waiter may obtain a free permit.
- The outbox's claim and purge limits, created_at order, the error text of a failed row, and the values of its gauges.
- In the drain repair, the connector's idle status and checkpoint; in the tick, metrics, log lines and the tick summary.
- Paths are bytes: copying a character that takes several bytes copies those bytes, none of which is a percent sign.
- Whole-URL canonicalisation: parsing, host rules, query filtering and sorting.
- Job listing, parameter merging and event dispatch, which would only add easy members.
- The other crates (connectors, parsers, resolver, indexer, graph, authentication, retention): wiring and I/O, or easy members.
