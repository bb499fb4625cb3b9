# p-limit: a concurrency limiter, modelled in Dafny

`pLimit(concurrency)` validates a bound and returns a generator. The generator admits at
most `concurrency` tasks at a time and keeps the rest in a FIFO queue. Its bookkeeping is
a counter `activeCount`, an array `queue` of run closures, and these transitions:

- `run` takes a slot and starts a task.
- `enqueue` either runs the task now or pushes it onto the queue.
- `next` fires when a task settles. It releases the slot and runs the head of the queue.
- `clearQueue` drops all waiting tasks.

The model keeps this bookkeeping as an immutable `Limiter.State` with pure transition
functions. A task is an opaque job id, and ids are given out in submission order. The
state also records history that the source keeps only implicitly:

- which tasks hold a slot (`running`);
- the order in which tasks started (`started`);
- the order in which they settled (`settled`).

`Traces` drives a limiter with arbitrary sequences of events (`Submit`,
`Complete(job, outcome)`, `Clear`) and proves properties over every such trace.

Modules:

- `Wrappers`: `Option` and `Result`.
- `Concurrency`: the JavaScript argument, the `Number.isInteger`/`Infinity` guard, and the
  `Bound` datatype (`Finite(n)` with `n >= 1`, or `Unbounded`).
- `Limiter`: the state, its invariant `Valid`, the transitions, and proofs that each
  transition preserves the invariant.
- `Traces`: events, `Step`, `Replay`, and the trace lemmas.
- `Scenarios`: concrete runs. These cover a zero bound, bound one with a throwing first
  task, and `clearQueue` with bound two.

Two facts about the code worth stating:

- An invalid bound is not thrown. `pLimit` returns a rejected promise carrying a
  `TypeError` (p-limit/index.js:13), and `Create` returns `Err`.
- Every task starts in submission order, including tasks started at once relative to
  tasks that waited, because a task starts at once only when the queue is empty
  (`Traces.StartOrderIsSubmissionOrder`).

## Model

| member | source | states |
|---|---|---|
| Concurrency.Validate | p-limit/index.js:12-14 | A bound is accepted exactly when it is a positive integer or `Infinity`. `Infinity` gives `Unbounded`; an integer gives `Finite` with the same value. Everything else (0, negatives, fractions, NaN, -Infinity, non-numbers) gives the `TypeError` with the source's message. |
| Limiter.Create | p-limit/index.js:10-20 | `pLimit` succeeds exactly for a valid bound, and the limiter compares against the validated argument itself: a finite bound has the argument's value. A fresh limiter satisfies the invariant, has `activeCount` 0 and an empty queue (`pendingCount` 0), and has no running, started or settled task. |
| Limiter.ActiveCount | p-limit/index.js:59-61 | For a valid limiter, the `activeCount` getter reports exactly the number of running tasks, and stays within the bound. |
| Limiter.PendingCount | p-limit/index.js:62-64 | For a valid limiter, a non-zero `pendingCount` means every slot is taken. An unbounded limiter never has pending tasks. |
| Limiter.Run | p-limit/index.js:34-42 | `run` raises `activeCount` by exactly one, adds the job to the running set and appends it to the start order, keeping earlier starts. The bound, the queue and the settlements are unchanged. As a corollary, if the job held no slot and the counter matched the running set, `activeCount` still equals the number of running jobs afterwards. |
| Limiter.Enqueue | p-limit/index.js:47-53 | While `activeCount < concurrency`, the new submission starts at once: `activeCount` rises by one and the queue is unchanged. Otherwise it is appended to the tail of the queue, and `activeCount`, the running set and the start order are unchanged. |
| Limiter.Next | p-limit/index.js:24-30 | With a non-empty queue, `next` starts exactly the head, keeps the rest of the queue in order, and leaves `activeCount` at its prior value. With an empty queue it only decrements `activeCount`. |
| Limiter.Settle | p-limit/index.js:24-41 | When a running job settles, it is recorded as settled and leaves the running set. `activeCount` drops by one, unless the queue head starts in its place. |
| Limiter.ClearQueue | p-limit/index.js:65-69 | `clearQueue` makes `pendingCount` 0. It leaves `activeCount`, the running set and the start order unchanged. |
| Limiter.ValidAfterEnqueue | p-limit/index.js:47-53 | A submission preserves the invariant: the bound, saturation while tasks wait, start order, and the counter matching the running set. |
| Limiter.ValidAfterSettle | p-limit/index.js:24-41 | A settlement preserves the invariant, and the settled job no longer holds a slot. |
| Limiter.ValidAfterClearQueue | p-limit/index.js:65-68 | `clearQueue` preserves the invariant. |
| Traces.Step | p-limit/index.js:41-57 | An event is refused exactly when it settles a job that is not running. |
| Traces.StepPreservesValid | p-limit/index.js:24-68 | Every accepted event preserves the invariant. |
| Traces.ReplayPreservesValid | p-limit/index.js:24-68 | Every accepted trace preserves the invariant. |
| Traces.SubmittedCountsSubmissions | p-limit/index.js:57 | Each generator call enqueues exactly one task, so job ids are submission indexes. A trace never changes the bound. |
| Traces.BoundRespected | p-limit/index.js:18-53 | From a fresh limiter, after any trace: `0 <= activeCount <= concurrency`, and `activeCount` equals the number of running tasks. A non-empty queue implies `activeCount == concurrency`, and an `Infinity` bound never queues. |
| Traces.StartOrderIsSubmissionOrder | p-limit/index.js:24-53 | FIFO fairness: after any trace, tasks have started in strictly increasing submission order, and every started task was submitted before every waiting task. |
| Traces.AccountedAfterReplay | p-limit/index.js:24-53 | Without `clearQueue`, the started tasks followed by the waiting tasks remain exactly the submissions so far, in order. |
| Traces.AllSubmissionsInOrder | p-limit/index.js:18-53 | From a fresh limiter and without `clearQueue`, no submission is lost or reordered. The started tasks are exactly the first submissions, with no gap. |
| Traces.SerialWithBoundOne | p-limit/index.js:24-53 | With bound 1, at most one task runs at a time after any trace, `clearQueue` included. Without `clearQueue`, tasks start exactly in submission order. |
| Traces.DroppedNeverStarts | p-limit/index.js:24-53 | A job that was submitted but is neither started nor waiting never starts or re-enters the queue, whatever events follow. |
| Traces.ClearedNeverStart | p-limit/index.js:65-68 | `clearQueue` empties the queue and leaves the running set unchanged. The jobs it drops never start in any later trace. |
| Traces.SettlesAtMostOnce | p-limit/index.js:41 | A settled job cannot settle again: a second `Complete` is refused, and the settlement record has no duplicates. |
| Traces.OutcomeIrrelevant | p-limit/index.js:37-41 | A failing or synchronously throwing task goes through the same bookkeeping as a succeeding one. Traces that differ only in outcomes produce the same limiter. |
| Traces.EventuallyDrains | p-limit/index.js:24-41 | From any valid limiter there is a sequence of settlements that drains it: the queue empties, `activeCount` reaches 0, and every waiting task starts, in queue order. |
| Traces.CompletionsKeepOrder | p-limit/index.js:24-29 | Any sequence of settlements keeps the started tasks followed by the waiting tasks exactly as they were: no waiting task is lost, skipped or reordered. |
| Traces.EveryOrderDrains | p-limit/index.js:24-41 | Whatever order the host settles tasks in, once no task is running the queue is empty, `activeCount` is 0, and every task that was waiting has started, in queue order. |
| Scenarios.ZeroRejected | p-limit/index.js:12-13 | `pLimit(0)` is the `TypeError`. |
| Scenarios.SecondWaitsForFirst | p-limit/index.js:47-53 | Bound 1, two submissions: job 0 has started, and job 1 is the only pending task. |
| Scenarios.ThrowReleasesSlot | p-limit/index.js:24-41 | Bound 1, two submissions, then the first task throws synchronously: the second task has started and holds the only slot, and nothing is pending. |
| Scenarios.ClearDropsWaiting | p-limit/index.js:47-68 | Bound 2, four submissions, then `clearQueue`: nothing is pending, and only the first two tasks have started and are running. |

## Left out

- Promise machinery: the generator's `new Promise`, `resolve(result)`, and `pTry` from the external `p-try` package. A task's result is opaque. Its settlement is one `Complete` event whose `Outcome` the bookkeeping ignores, so the values delivered to callers' promises are not modelled.
- Asynchrony and timing. `next` runs in a later microtask after the task's promise settles. The `Complete` event is the moment `next` runs; the host decides when that is.
- Cleared tasks' promises never settle, as in the source. The model records this only as "never starts".
- The demo script at the end of the file (`fetchSomething`, `doSomething`, `console.log`) and the `module.exports` wiring. Neither is limiter logic.
- JavaScript numbers are IEEE doubles. `Concurrency.JsValue` keeps a finite number as an exact real, because every value the guard can see is integral or not in the same way as a real. Rounding is not modelled.
- Non-numbers are a single `NonNumber` case. `Number.isInteger` fails for them before `concurrency > 0` is evaluated, so how JavaScript would coerce them never matters.
- vue/examples/_instance_/index.js is a UI component demo and is not part of this model.
