# Elastic worker pool — a Dafny model

This project models the Go package `work_pool`. A dispatcher takes typed requests into a bounded
queue. It drops a request when the queue is full. A varying number of workers drain the queue. A
scaling loop adds or removes one worker per tick, based on queue depth. Shutdown closes the queue,
waits for the workers, and sends stop tokens if a deadline passes first. Each request runs the
handler registered for its type, with a per-attempt timeout and at most `MaxRetries+1` attempts.

The concurrent system is modelled as a sequential state machine:

- `requests.dfy` (module `Requests`): the request record and the handler registry.
- `processing.dfy` (module `Processing`): the pure specification of `processRequest`. Each attempt's
  outcome (`Ok`, `Err`, `Timeout`) comes from an environment function `run(call, attempt)`.
- `admission.dfy` (module `Admission`): the non-blocking send on `inCh`, and the queue over any
  interleaving of submissions and receives. The send may add to the buffer, drop the request, or
  (when `inCh` is unbuffered, `b == 0`) hand it straight to a worker waiting to receive.
- `scaling.dfy` (module `Scaling`): the decision of one `ScaleWorkers` tick, and the worker count
  over a run of ticks.
- `pool.dfy` (module `WorkPool`): class `Dispatcher` and class `Worker`.
  - `inCh` is the `queue` field, `stopCh` is `stopTokens`, and the WaitGroup is `pending`.
  - The ghost set `running` holds the launched goroutines that have not returned.
  - One pass of a worker's `select` loop is `Worker.Step`. The scheduler's pick of a `select` case
    is a parameter.
  - `Stop` is three methods, one per state of its protocol: `Stop` (close), `ForceShutdown` (the
    deadline branch) and `FinishStop` (the final `Wait` returns). The deadline branch as written,
    which can hang, is `ForceShutdownAsWritten` (see Findings).

The invariant `Dispatcher.Valid` has four parts:
- the queue stays within its buffer `b`;
- the stop tokens stay within their buffer `maxWorkers`;
- the WaitGroup counts exactly the running workers;
- until `Stop`, `workerCount` plus the waiting stop tokens equals the number of running workers.

After `Stop`, the ghost predicate `Dispatcher.CanDrain` matters: while requests are queued, at
least one worker is counted and every running worker is counted or has a stop token waiting, so
more workers run than stop tokens wait. `Stop` establishes it exactly when the queue is empty or a
worker is counted. Worker steps and `AddWorker` keep it, and so do `RemoveWorker` and `ScaleTick`
whenever the minimum is at least one. The final wait then returns with an empty queue exactly
when it held.

`Dispatcher.MakeRequest` and `Worker.Step` are tied to the channel model of `admission.dfy`: the
queue they leave is the one `Admission.Apply` gives for the same `Submit` or `Receive` event, and a
served request is what that event takes. The history lemmas (`ReplayConserves`,
`QueueBoundAndFifo`, `UnbufferedReplay`) are stated over that pure model.

## Model

| member | source | states |
|---|---|---|
| `Processing.EffectiveTimeout` | work_pool/worker.go:50-52 | a zero timeout becomes 10 ms; a non-zero one, negative included, is kept; the result is never zero |
| `Processing.Attempts` | work_pool/worker.go:54-76 | definition (the retry loop's outcomes); specified by `AttemptsShape`, `AttemptsNeverOk`, `AttemptsFirstOk` and `AttemptsFailureKindIrrelevant` |
| `Processing.CallFor` | work_pool/worker.go:47-52 | definition (the looked-up handler, data and effective timeout); specified by `ProcessLookup` |
| `Processing.Process` | work_pool/worker.go:43-79 | definition (processRequest); specified by `ProcessLookup`, `ProcessBounded`, `ProcessExhaustsRetries`, `ProcessStopsAtFirstOk` and `ProcessTimeoutLikeErr` |
| `Processing.AttemptsShape` | work_pool/worker.go:54-76 | attempt j of a trace is the environment's attempt i+j; nothing follows an Ok; a trace shorter than the budget ends in Ok |
| `Processing.AttemptsNeverOk` | work_pool/worker.go:54-76 | if every attempt in i..m fails, all of them are made and none succeeds |
| `Processing.AttemptsFirstOk` | work_pool/worker.go:65-69 | if attempt k is the first Ok, exactly the attempts i..k are made |
| `Processing.AttemptsFailureKindIrrelevant` | work_pool/worker.go:65-75 | two environments that agree on which attempts return Ok give traces of equal length that succeed at the same positions |
| `Processing.ProcessLookup` | work_pool/worker.go:47-52 | an unregistered type is discarded with no attempt; a registered type runs its own handler on the request data, under the effective timeout |
| `Processing.ProcessBounded` | work_pool/worker.go:54-76 | at most MaxAttempts(MaxRetries) attempts; stopping early means the last attempt succeeded |
| `Processing.ProcessExhaustsRetries` | work_pool/worker.go:54-77 | a handler that never succeeds is tried exactly MaxRetries+1 times (0 when MaxRetries < 0), and the request fails |
| `Processing.ProcessStopsAtFirstOk` | work_pool/worker.go:54-69 | first Ok at attempt k <= MaxRetries: exactly k+1 attempts, and success |
| `Processing.ProcessTimeoutLikeErr` | work_pool/worker.go:65-75 | replacing Err by Timeout (or the reverse) changes neither the attempt count nor success |
| `Admission.Offer` | work_pool/dispatcher.go:89-97 | the fate of a send: buffered exactly when there is room; handed over only on an unbuffered channel with a receiver waiting, and then always; otherwise dropped |
| `Admission.Admit` | work_pool/dispatcher.go:89-97 | the request is appended at the tail exactly when the queue has room; otherwise the queue is unchanged; the old contents stay a prefix; the bound is kept |
| `Admission.Apply` | work_pool/dispatcher.go:89-97 | definition (one send or receive on inCh, built on `Offer` and `Admit`); specified by `ReplayConserves` |
| `Admission.Replay` | work_pool/dispatcher.go:89-97 | definition (a history of sends and receives); specified by `ReplayConserves` and `QueueBoundAndFifo` |
| `Admission.ApplyConserves` | work_pool/dispatcher.go:89-97 | one send or receive keeps the bound and taken ++ queued == start ++ admitted, only extends admitted and dropped, and puts the submitted request itself into exactly one of them |
| `Admission.ReplayConserves` | work_pool/dispatcher.go:89-97 | over any events: bound kept; taken ++ queued == start ++ admitted (FIFO, nothing lost or reordered); admitted and dropped only grow, and together grow by exactly the multiset of submitted requests |
| `Admission.QueueBoundAndFifo` | work_pool/dispatcher.go:29 | from a queue within capacity: every history stays within capacity and is FIFO, and admitted plus dropped is exactly the multiset of submitted requests |
| `Admission.UnbufferedReplay` | work_pool/dispatcher.go:29 | with b == 0, from an empty channel: nothing is buffered; the requests submitted while a worker waited are appended, in order, to both the accepted and the received ones; those submitted while none waited are appended, in order, to the dropped ones |
| `Admission.UnbufferedHandsOver` | work_pool/dispatcher.go:29 | with b == 0, from an empty history: accepted == received == the submissions made while a worker waited, and dropped == the submissions made while none waited, each in order |
| `Scaling.Effect` | work_pool/dispatcher.go:39-49 | definition (the count after an action: +1 as in `AddWorker`, -1 as in `RemoveWorker`); specified by `TickKeepsRange` and `ScaleTick` |
| `Scaling.Decide` | work_pool/dispatcher.go:61-76 | definition (one tick's rule); specified by `TickKeepsRange` and `TickHysteresis` |
| `Scaling.CountAfter` | work_pool/dispatcher.go:60-77 | definition (the count over a run of ticks); specified by `TicksKeepRange`, `TicksScaleUp` and `TicksScaleDown` |
| `Scaling.TickKeepsRange` | work_pool/dispatcher.go:61-76 | one tick moves the count by at most one, fires each direction only on its trigger, and keeps the count in [min, max] |
| `Scaling.TickHysteresis` | work_pool/dispatcher.go:62-72 | with loadLimit in [0,1], a load between the watermarks does nothing, and no load satisfies both triggers |
| `Scaling.TicksKeepRange` | work_pool/dispatcher.go:60-77 | any run of ticks keeps a count that starts in [min, max] inside that range |
| `Scaling.TicksScaleUp` | work_pool/dispatcher.go:62-71 | load above the threshold for n ticks gives count min(count+n, max) |
| `Scaling.TicksScaleDown` | work_pool/dispatcher.go:72-75 | load below the low watermark for n ticks gives count max(count-n, min) |
| `WorkPool.Dispatcher.constructor` | work_pool/dispatcher.go:27-33 | empty queue, no workers, no tokens, WaitGroup at zero, buffers b and maxWorkers |
| `WorkPool.Dispatcher.AddWorker` | work_pool/dispatcher.go:36-42 | count +1, one more pending completion, the worker runs; queue, tokens and phase unchanged; Valid and CanDrain kept |
| `WorkPool.Dispatcher.LaunchWorkerAsWritten` | work_pool/dispatcher.go:81-86 | the count rises and the worker runs, but the WaitGroup does not: it counts one fewer than the running workers, so Valid is broken |
| `WorkPool.Dispatcher.RemoveWorker` | work_pool/dispatcher.go:45-52 | above min: count -1 and exactly one more stop token; otherwise nothing changes; never takes a count from >= min to below min; with min >= 1, keeps CanDrain |
| `WorkPool.Dispatcher.MakeRequest` | work_pool/dispatcher.go:89-97 | the fate is Offer(queue, b, a receiver waits); the queue becomes Admit(queue, b, r); a handed-over request is processed by the waiting worker as Process; the queue is the one Admission.Apply gives for the Submit event; nothing else changes |
| `WorkPool.Dispatcher.ScaleTick` | work_pool/dispatcher.go:60-77 | one tick performs exactly the action Decide gives for the observed length and count; a new worker's id is the count before the increment; with min >= 1, keeps CanDrain |
| `WorkPool.Dispatcher.Stop` | work_pool/dispatcher.go:102 | the queue is closed and nothing else changes; CanDrain holds exactly when the queue is empty or at least one worker is counted |
| `WorkPool.Dispatcher.ForceShutdownAsWritten` | work_pool/dispatcher.go:113-118 | the forced loop as written: tokens rise to min(tokens + max(0, workerCount), maxWorkers); it ends (phase Forced) exactly when all fit, and otherwise leaves Stop waiting at a send (phase SendingStops) |
| `WorkPool.Dispatcher.ForceShutdown` | work_pool/dispatcher.go:113-118 | corrected: non-blocking sends, so tokens rise to min(tokens + max(0, workerCount), maxWorkers) and Stop always goes on to its final wait |
| `WorkPool.Dispatcher.FinishStop` | work_pool/dispatcher.go:121 | Stop returns only with no completion outstanding, so no worker is left running; the queue is then empty exactly when CanDrain held, so every request queued at Stop was received and processed |
| `WorkPool.Worker.constructor` | work_pool/dispatcher.go:66-70 | a worker with the given id and the given handler registry |
| `WorkPool.Worker.ProcessRequest` | work_pool/worker.go:43-79 | the lookup, default timeout and retry loop compute exactly Process(registry, msg, run) |
| `WorkPool.Worker.Step` | work_pool/worker.go:20-39 | receive the head (FIFO) and process it; or exit on a closed, empty queue; or exit on exactly one stop token; or block. Each exit reports completion once and ends the worker; CanDrain is kept; a receive leaves the queue Admission.Apply gives for Receive and serves what it takes |
| `WorkPool.Worker.Done` | work_pool/worker.go:22 | the WaitGroup drops by one, and the worker leaves the running set |
| `WorkPool.LaunchWorkerUndercounts` | work_pool/dispatcher.go:81-86 | a fresh dispatcher gets one worker by LaunchWorker; the worker runs while the WaitGroup is at 0 |
| `WorkPool.StopAbandonsQueued` | work_pool/dispatcher.go:100-122 | a reachable run where Stop returns (no deadline, no forced tokens) with a request still queued and never attempted: a removal left no counted worker, and the only worker took its token after Stop |
| `WorkPool.ForcedStopHangs` | work_pool/dispatcher.go:110-121 | a reachable run where Stop waits at a send on a full stopCh with no worker left running to take a token |

## Findings

| source | as written | input that shows it | evidently intended | confidence | as-written member | corrected member |
|---|---|---|---|---|---|---|
| work_pool/dispatcher.go:81-86 | `LaunchWorker` launches a worker and increments `workerCount` but never calls `wg.Add(1)`. The worker's deferred `wg.Done()` has no matching `Add`. | `NewDispatcher(1, &wg, 1)` then `LaunchWorker(0, w)`. `w` runs with the WaitGroup at 0. When `w` exits, the counter goes negative (a panic in Go); with other workers registered, `Stop` can return early. | the same accounting as `AddWorker`: one pending completion per launched worker | medium, not executed | `WorkPool.Dispatcher.LaunchWorkerAsWritten`, `WorkPool.LaunchWorkerUndercounts` | `WorkPool.Dispatcher.AddWorker` |
| work_pool/dispatcher.go:116-118 | On the deadline path, `Stop` makes one blocking send on `stopCh` per counted worker. `stopCh` holds only `maxWorkers` tokens, and after `close(d.inCh)` a worker can also return through the closed, empty channel without taking a token. | `NewDispatcher(10, &wg, 2)`. Then `AddWorker` twice, `RemoveWorker(0)` and `AddWorker` again: two workers counted, three running, one token waiting. Then `Stop` with its deadline passed. The first send fills `stopCh` and the second waits. All three workers leave through the closed case, so the send, and `Stop`, never complete. | the sends never block Stop, which is what the buffer of `stopCh` is for (the comment at dispatcher.go:31) | medium, not executed | `WorkPool.Dispatcher.ForceShutdownAsWritten`, `WorkPool.ForcedStopHangs` | `WorkPool.Dispatcher.ForceShutdown` |

## Left out

- Goroutines, `select` fairness, the mutex and data races are left out. The scheduler's pick of a
  `select` case is the `choice` parameter of `Worker.Step`. A case that is not ready gives
  `Blocked`. The unlocked reads of `workerCount` in `ScaleWorkers` are ordinary reads.
- The ticker, `time.Sleep`, `context.WithTimeout` and every clock are left out. A handler attempt's
  result, and whether it beat its timeout, come from the parameter `run`. The deadline of `Stop` is
  the caller's choice of calling `ForceShutdown` before `FinishStop`.
- Handler goroutines abandoned after a timeout keep running in the source. Only each attempt's
  outcome is modelled.
- `float64(load) < loadLimit*float64(loadThreshold)` is computed on `real`. IEEE rounding is not
  modelled.
- Diagnostics (`fmt.Println`, `fmt.Printf`) are left out.
- The contents of the global `ReqHandler` map are left out. The registry is a read-only map parameter.
- `main.go` (process wiring, CPU configuration, demo requests) and `work_pool/interface.go`
  (declarations only) are not part of this model.
- The `Handler` and `Retries` fields of `WorkerRequest` are left out: the processing path never
  reads them.
- A worker's `Wg` is taken to be the dispatcher's WaitGroup, and that WaitGroup starts at zero.
  `main.go` passes the same fresh WaitGroup to both.
- Go's `int` and `time.Duration` are unbounded integers here. An `attempt++` overflow with
  `MaxRetries` at the largest `int` is not modelled.
- `WorkPool.Dispatcher.constructor`: takes `nat` buffer sizes. Go's `make` panics on a negative
  `b` or `maxWorkers` (dispatcher.go:29, 31), and that panic is not modelled.
- Graceful drain is promised only under `CanDrain`. `Stop` can return with requests still queued
  and never attempted in three cases: when no worker is counted at `Stop`; after a removal that
  leaves no worker counted (`RemoveWorker` or `ScaleTick` with a minimum at or below zero); or
  after forced tokens. A stop token ends a worker even while work is queued.
  `WorkPool.StopAbandonsQueued` shows one such run.
- `WorkPool.Dispatcher.MakeRequest` and `WorkPool.Dispatcher.Stop` require an open queue. In Go,
  sending on or closing a closed channel panics.
- `WorkPool.Dispatcher.RemoveWorker`: requires room in `stopCh` when it removes. In Go a send on a
  full `stopCh` waits, holding the mutex, until a worker takes a token. After `Stop` no worker
  may ever take one, and then it waits forever. That waiting is not modelled.
- `WorkPool.Dispatcher.ScaleTick`: requires room in `stopCh` when it removes, for the same reason
  as `RemoveWorker`.
- `WorkPool.Dispatcher.ForceShutdownAsWritten`: a `SendingStops` state in which a worker takes a token
  and releases the waiting send is not modelled. The model's methods never leave that state.
  The hang it can lead to is the second finding.
- `WorkPool.Dispatcher.ForceShutdown`: this is the corrected deadline branch, with non-blocking sends.
  The source's blocking sends are `ForceShutdownAsWritten`.
- `WorkPool.Dispatcher.AddWorker`: requires a worker that is not already running. Go would start a
  second goroutine for the same `Worker`. Every call in the source passes a newly built one
  (main.go:29-36, dispatcher.go:66-71).
- `WorkPool.Dispatcher.MakeRequest`: the waiting receiver of an unbuffered `inCh` is named by the
  caller (the scheduler's choice). It processes the handed-over request as part of the send. Its
  later `time.Sleep` is left out, like every other. A handoff requires `stopCh` to be empty: a
  worker parked in its `select` has no stop token ready, or it would not be parked.
- `WorkPool.Dispatcher.FinishStop` requires the WaitGroup to be at zero. This is how the model
  states that `wg.Wait()` blocks.
- `WorkPool.Worker.Step` requires a running worker. Once a goroutine has returned, it takes no
  more steps.
- `ScaleWorkers` runs forever in the source. The model has one tick (`ScaleTick`) and the pure
  fold `Scaling.CountAfter` for a run of ticks. The loop is never stopped, even by `Stop`, so
  ticks stay allowed in every phase.
