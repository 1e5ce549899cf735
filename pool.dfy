// The dispatcher and its workers (work_pool/dispatcher.go and the consume
// loop of work_pool/worker.go) as one sequential state machine. Channels
// become state of the dispatcher: the buffered request channel inCh is the
// `queue`, the buffered stopCh the count `stopTokens`, the WaitGroup the
// counter `pending`; each worker goroutine is a Worker object, and one
// iteration of its select loop is a call of Worker.Step.

module WorkPool {
  import opened Requests
  import opened Processing
  import opened Admission
  import opened Scaling

  /** Where Stop is: not called; inCh closed and waiting for the WaitGroup;
      the deadline passed and Stop is waiting to send a stop token; the
      deadline passed and the stop tokens were sent; returned. */
  datatype Phase = Running | Draining | SendingStops | Forced | Stopped

  datatype Option<T> = None | Some(value: T)

  function NonNeg(n: int): nat { if n < 0 then 0 else n }

  class Dispatcher {
    /** The buffer size of inCh. */
    const capacity: nat
    /** The buffer size of stopCh (NewDispatcher's maxWorkers). */
    const stopCapacity: nat

    var queue: seq<WorkerRequest>
    var workerCount: int
    var stopTokens: nat
    var pending: nat
    var phase: Phase
    /** The worker goroutines that have been launched and not yet returned. */
    ghost var running: set<Worker>

    /** The queue and the stop channel stay within their buffers; the
        WaitGroup counts exactly the running workers; and until Stop,
        every running worker is either counted in workerCount or has a stop
        token waiting for it. */
    ghost predicate Valid()
      reads this
    {
      && |queue| <= capacity
      && stopTokens <= stopCapacity
      && pending == |running|
      && (phase == Running ==> workerCount + stopTokens == |running|)
    }

    predicate Closed()
      reads this
    {
      phase != Running
    }

    /** While requests are queued, at least one worker is counted and every
        running worker is either counted or has a stop token waiting for it.
        No worker can leave through the closed channel while requests are
        queued, and removals that keep a worker counted preserve this. So
        more workers run than tokens wait, and some worker stays to drain the
        queue: a Stop whose final wait returns from such a state has drained
        it. */
    ghost predicate CanDrain()
      reads this
    {
      queue != [] ==> workerCount + stopTokens == |running| && workerCount >= 1
    }

    /** NewDispatcher, with a WaitGroup at zero. */
    constructor (b: nat, maxWorkers: nat)
      ensures Valid()
      ensures capacity == b && stopCapacity == maxWorkers
      ensures queue == [] && workerCount == 0 && stopTokens == 0 && pending == 0
      ensures phase == Running && running == {}
    {
      capacity := b;
      stopCapacity := maxWorkers;
      queue := [];
      workerCount := 0;
      stopTokens := 0;
      pending := 0;
      phase := Running;
      running := {};
    }

    /** Counts the worker, registers one pending completion and launches it.
        The ceiling maxWorkers is not enforced here. */
    method AddWorker(w: Worker)
      requires Valid()
      requires w !in running
      modifies this
      ensures Valid()
      ensures workerCount == old(workerCount) + 1
      ensures pending == old(pending) + 1
      ensures running == old(running) + {w}
      ensures old(CanDrain()) ==> CanDrain()
      ensures queue == old(queue) && stopTokens == old(stopTokens) && phase == old(phase)
    {
      workerCount := workerCount + 1;
      pending := pending + 1;
      running := running + {w};
    }

    /** dispatcher.LaunchWorker as written: it launches the worker and counts
        it, but registers no pending completion, so the WaitGroup falls one
        short of the running workers. */
    method LaunchWorkerAsWritten(id: int, w: Worker)
      requires Valid()
      requires w !in running
      modifies this
      ensures workerCount == old(workerCount) + 1
      ensures pending == old(pending) && running == old(running) + {w}
      ensures pending + 1 == |running|
      ensures !Valid()
      ensures queue == old(queue) && stopTokens == old(stopTokens) && phase == old(phase)
    {
      running := running + {w};
      workerCount := workerCount + 1;
    }

    /** Above minWorkers, uncounts one worker and sends one stop token; any
        one idle worker will take it. The send is modelled only when the stop
        channel has room for it (a full channel would block the caller). */
    method RemoveWorker(minWorkers: int)
      requires Valid()
      requires workerCount > minWorkers ==> stopTokens < stopCapacity
      modifies this
      ensures Valid()
      ensures old(workerCount) > minWorkers ==>
                workerCount == old(workerCount) - 1 && stopTokens == old(stopTokens) + 1
      ensures old(workerCount) <= minWorkers ==>
                workerCount == old(workerCount) && stopTokens == old(stopTokens)
      ensures old(workerCount) >= minWorkers ==> workerCount >= minWorkers
      ensures minWorkers >= 1 && old(CanDrain()) ==> CanDrain()
      ensures queue == old(queue) && pending == old(pending) && running == old(running) && phase == old(phase)
    {
      if workerCount > minWorkers {
        workerCount := workerCount - 1;
        stopTokens := stopTokens + 1;
      }
    }

    /** A non-blocking send on inCh. With room in the buffer the request
        joins the tail of the queue. An unbuffered inCh (b == 0) has no room
        ever, and its send succeeds only by handing the request to a worker
        waiting in its receive, `receiver` (null when none is waiting), which
        then processes it. Otherwise the request is dropped. Sending after
        Stop panics in the source and is excluded. */
    method MakeRequest(r: WorkerRequest, receiver: Worker?, run: (Call, nat) -> Outcome)
      returns (fate: Fate, handled: Option<Processed>)
      requires Valid()
      requires !Closed()
      requires receiver != null ==> receiver in running
      requires receiver != null ==> stopTokens == 0
      modifies this
      ensures Valid()
      ensures fate == Offer(old(queue), capacity, receiver != null)
      ensures queue == Apply(History(old(queue), [], [], []), capacity, Submit(r, receiver != null)).queue
      ensures queue == Admit(old(queue), capacity, r)
      ensures handled.Some? <==> fate == HandedOff
      ensures fate == HandedOff ==> receiver != null && handled.value == Process(receiver.registry, r, run)
      ensures workerCount == old(workerCount) && stopTokens == old(stopTokens)
      ensures pending == old(pending) && running == old(running) && phase == old(phase)
    {
      handled := None;
      if |queue| < capacity {
        queue := queue + [r];
        fate := Enqueued;
      } else if queue == [] && receiver != null {
        var result := receiver.ProcessRequest(r, run);
        handled := Some(result);
        fate := HandedOff;
      } else {
        fate := Dropped;
      }
    }

    /** One tick of ScaleWorkers: samples the queue length, then adds a new
        worker whose id is the current count, removes one, or does nothing. */
    method ScaleTick(minWorkers: int, maxWorkers: int, loadThreshold: int, loadLimit: real, registry: Registry)
      returns (action: Action, added: Worker?)
      requires Valid()
      requires Decide(|queue|, workerCount, minWorkers, maxWorkers, loadThreshold, loadLimit) == RemoveOne ==>
                 stopTokens < stopCapacity
      modifies this
      ensures Valid()
      ensures action == Decide(old(|queue|), old(workerCount), minWorkers, maxWorkers, loadThreshold, loadLimit)
      ensures workerCount == Effect(action, old(workerCount))
      ensures action == AddOne ==>
                added != null && fresh(added) && added.id == old(workerCount) && added.registry == registry &&
                running == old(running) + {added} && pending == old(pending) + 1 && stopTokens == old(stopTokens)
      ensures action == RemoveOne ==>
                added == null && stopTokens == old(stopTokens) + 1 && running == old(running) && pending == old(pending)
      ensures action == NoAction ==>
                added == null && stopTokens == old(stopTokens) && running == old(running) && pending == old(pending)
      ensures minWorkers >= 1 && old(CanDrain()) ==> CanDrain()
      ensures queue == old(queue) && phase == old(phase)
    {
      var load := |queue|;
      action := Decide(load, workerCount, minWorkers, maxWorkers, loadThreshold, loadLimit);
      added := null;
      if load > loadThreshold && workerCount < maxWorkers {
        var w := new Worker(workerCount, registry);
        AddWorker(w);
        added := w;
      } else if (load as real) < loadLimit * (loadThreshold as real) && workerCount > minWorkers {
        RemoveWorker(minWorkers);
      }
    }

    /** Stop, up to the wait: closes inCh. Workers go on draining what is
        queued. Closing twice panics in the source and is excluded. */
    method Stop()
      requires Valid()
      requires !Closed()
      modifies this
      ensures Valid()
      ensures phase == Draining
      ensures queue == old(queue) && workerCount == old(workerCount) && stopTokens == old(stopTokens)
      ensures pending == old(pending) && running == old(running)
      ensures CanDrain() <==> queue == [] || workerCount >= 1
    {
      phase := Draining;
    }

    /** The deadline of Stop fired before the WaitGroup reached zero, with
        the forced loop as written: one blocking send on stopCh per counted
        worker (none for a count at or below zero). When the channel fills
        before the loop ends, Stop is left waiting at a send (`blocked`, phase
        SendingStops) that only a worker taking a token could release. */
    method ForceShutdownAsWritten() returns (blocked: bool)
      requires Valid()
      requires phase == Draining
      modifies this
      ensures Valid()
      ensures blocked <==> old(stopTokens) + NonNeg(old(workerCount)) > stopCapacity
      ensures stopTokens == Min(old(stopTokens) + NonNeg(old(workerCount)), stopCapacity)
      ensures phase == if blocked then SendingStops else Forced
      ensures queue == old(queue) && workerCount == old(workerCount)
      ensures pending == old(pending) && running == old(running)
    {
      var i := 0;
      blocked := false;
      while i < workerCount && !blocked
        invariant 0 <= i <= NonNeg(workerCount)
        invariant stopTokens == old(stopTokens) + i
        invariant blocked ==> stopTokens == stopCapacity && i < workerCount
        invariant stopTokens <= stopCapacity
        invariant queue == old(queue) && workerCount == old(workerCount) && phase == Draining
        invariant pending == old(pending) && running == old(running)
        decreases workerCount - i, if blocked then 0 else 1
      {
        if stopTokens == stopCapacity {
          blocked := true;
        } else {
          stopTokens := stopTokens + 1;
          i := i + 1;
        }
      }
      phase := if blocked then SendingStops else Forced;
    }

    /** The deadline of Stop fired before the WaitGroup reached zero: up to
        one stop token per counted worker is sent, each send non-blocking, so
        Stop always goes on to its final wait (what the buffer of stopCh is
        there for, dispatcher.go:31). */
    method ForceShutdown()
      requires Valid()
      requires phase == Draining
      modifies this
      ensures Valid()
      ensures phase == Forced
      ensures stopTokens == Min(old(stopTokens) + NonNeg(old(workerCount)), stopCapacity)
      ensures queue == old(queue) && workerCount == old(workerCount)
      ensures pending == old(pending) && running == old(running)
    {
      var i := 0;
      while i < workerCount
        invariant 0 <= i <= NonNeg(workerCount)
        invariant stopTokens == Min(old(stopTokens) + i, stopCapacity)
        invariant queue == old(queue) && workerCount == old(workerCount) && phase == Draining
        invariant pending == old(pending) && running == old(running)
        decreases workerCount - i
      {
        if stopTokens < stopCapacity {
          stopTokens := stopTokens + 1;
        }
        i := i + 1;
      }
      phase := Forced;
    }

    /** The final wg.Wait of Stop returns: only once every running worker has
        reported completion, so none is left running. */
    method FinishStop()
      requires Valid()
      requires phase == Draining || phase == Forced
      requires pending == 0
      modifies this
      ensures Valid()
      ensures phase == Stopped
      ensures running == {}
      ensures queue == [] <==> old(CanDrain())
      ensures queue == old(queue) && workerCount == old(workerCount) && stopTokens == old(stopTokens)
      ensures pending == old(pending)
    {
      phase := Stopped;
    }
  }

  /** The case of the worker's select that the scheduler picks. */
  datatype Choice = ReceiveCase | StopCase

  /** What one iteration of the consume loop did: the picked case was not
      ready; a request was received and processed; the queue was closed and
      empty, so the worker returned; a stop token was taken, so the worker
      returned. */
  datatype StepResult =
    | Blocked
    | Served(request: WorkerRequest, result: Processed)
    | ExitedClosed
    | ExitedStopped
  {
    predicate Exited() { ExitedClosed? || ExitedStopped? }
  }

  class Worker {
    const id: int
    const registry: Registry

    constructor (id: int, registry: Registry)
      ensures this.id == id && this.registry == registry
    {
      this.id := id;
      this.registry := registry;
    }

    /** processRequest: look the handler up by type (an unknown type is
        discarded without an attempt), substitute the default for a zero
        timeout, and attempt at most MaxRetries+1 times, returning on the
        first success. `run` gives the outcome of each attempt. */
    method ProcessRequest(msg: WorkerRequest, run: (Call, nat) -> Outcome) returns (r: Processed)
      ensures r == Process(registry, msg, run)
    {
      if msg.reqType !in registry {
        return HandlerNotFound;
      }
      var handler := registry[msg.reqType];
      var timeOut := msg.timeOut;
      if timeOut == 0 {
        timeOut := DefaultTimeout;
      }
      var call := Call(handler, msg.data, timeOut);
      var trace: seq<Outcome> := [];
      var attempt: nat := 0;
      while attempt <= msg.maxRetries
        invariant |trace| == attempt
        invariant trace + Attempts(run, call, attempt, msg.maxRetries) == Attempts(run, call, 0, msg.maxRetries)
        decreases msg.maxRetries - attempt
      {
        var outcome := run(call, attempt);
        if outcome == Ok {
          return Handled(call, trace + [Ok]);
        }
        assert trace + Attempts(run, call, attempt, msg.maxRetries)
            == (trace + [outcome]) + Attempts(run, call, attempt + 1, msg.maxRetries);
        trace := trace + [outcome];
        attempt := attempt + 1;
      }
      assert trace + [] == trace;
      return Handled(call, trace);
    }

    /** One iteration of the consume loop of a running worker of d. Each exit
        reports completion once (the deferred wg.Done) and ends the worker,
        so it takes no further step. */
    method Step(d: Dispatcher, choice: Choice, run: (Call, nat) -> Outcome) returns (r: StepResult)
      requires d.Valid()
      requires this in d.running
      modifies d
      ensures d.Valid()
      ensures r.Served? <==> choice == ReceiveCase && old(d.queue) != []
      ensures r.ExitedClosed? <==> choice == ReceiveCase && old(d.queue) == [] && old(d.phase) != Running
      ensures r.ExitedStopped? <==> choice == StopCase && old(d.stopTokens) > 0
      ensures r.Served? ==>
                r.request == old(d.queue)[0] && d.queue == old(d.queue)[1..] &&
                r.result == Process(registry, r.request, run)
      ensures !r.Served? ==> d.queue == old(d.queue)
      ensures choice == ReceiveCase ==>
                var h := Apply(History(old(d.queue), [], [], []), d.capacity, Receive);
                d.queue == h.queue && (r.Served? ==> h.taken == [r.request])
      ensures d.stopTokens == if r.ExitedStopped? then old(d.stopTokens) - 1 else old(d.stopTokens)
      ensures r.Exited() ==> d.pending == old(d.pending) - 1 && d.running == old(d.running) - {this}
      ensures !r.Exited() ==> d.pending == old(d.pending) && d.running == old(d.running)
      ensures old(d.CanDrain()) ==> d.CanDrain()
      ensures d.workerCount == old(d.workerCount) && d.phase == old(d.phase)
    {
      match choice {
        case ReceiveCase =>
          if d.queue != [] {
            var msg := d.queue[0];
            d.queue := d.queue[1..];
            var result := ProcessRequest(msg, run);
            r := Served(msg, result);
          } else if d.Closed() {
            Done(d);
            r := ExitedClosed;
          } else {
            r := Blocked;
          }
        case StopCase =>
          if d.stopTokens > 0 {
            d.stopTokens := d.stopTokens - 1;
            Done(d);
            r := ExitedStopped;
          } else {
            r := Blocked;
          }
      }
    }

    /** The deferred wg.Done of the worker goroutine. */
    method Done(d: Dispatcher)
      requires this in d.running
      requires d.pending == |d.running|
      modifies d
      ensures d.pending == old(d.pending) - 1 && d.running == old(d.running) - {this}
      ensures d.pending == |d.running|
      ensures d.queue == old(d.queue) && d.stopTokens == old(d.stopTokens)
      ensures d.workerCount == old(d.workerCount) && d.phase == old(d.phase)
    {
      assert |d.running - {this}| == |d.running| - 1;
      d.pending := d.pending - 1;
      d.running := d.running - {this};
    }
  }

  /** A fresh dispatcher with one worker launched by LaunchWorkerAsWritten:
      the worker is running while the WaitGroup is at zero, so its deferred
      wg.Done would take the counter below zero. */
  method LaunchWorkerUndercounts() returns (d: Dispatcher, w: Worker)
    ensures w in d.running && d.pending == 0 && d.workerCount == 1
    ensures !d.Valid()
  {
    d := new Dispatcher(1, 1);
    w := new Worker(0, map[1 := Handler("default")]);
    d.LaunchWorkerAsWritten(0, w);
  }

  /** Stop can hang on the forced path. Three workers are launched with a
      removal in between, so two are counted and one stop token waits while
      stopCh holds two. Stop closes inCh and its deadline fires: the forced
      loop sends one token and then waits for room. All three workers then
      leave through the closed, empty inCh, so no worker remains to take a
      token and the send, and with it Stop, never completes. */
  method ForcedStopHangs() returns (d: Dispatcher, blocked: bool)
    ensures blocked && d.phase == SendingStops
    ensures d.running == {} && d.pending == 0
    ensures d.stopTokens == d.stopCapacity
  {
    var run := (c: Call, j: nat) => Ok;
    d := new Dispatcher(10, 2);
    var w1 := new Worker(0, map[]);
    var w2 := new Worker(1, map[]);
    var w3 := new Worker(1, map[]);
    d.AddWorker(w1);
    d.AddWorker(w2);
    d.RemoveWorker(0);
    d.AddWorker(w3);
    d.Stop();
    blocked := d.ForceShutdownAsWritten();
    var r1 := w1.Step(d, ReceiveCase, run);
    var r2 := w2.Step(d, ReceiveCase, run);
    var r3 := w3.Step(d, ReceiveCase, run);
  }

  /** Stop can return with work still queued and never attempted: a
      removal leaves no counted worker, the only running worker takes the
      stop token after Stop, and the final wait returns. */
  method StopAbandonsQueued(r: WorkerRequest) returns (d: Dispatcher)
    ensures d.phase == Stopped && d.running == {}
    ensures d.queue == [r]
  {
    var run := (c: Call, j: nat) => Ok;
    d := new Dispatcher(10, 2);
    var w := new Worker(0, map[]);
    d.AddWorker(w);
    var fate, handled := d.MakeRequest(r, null, run);
    d.RemoveWorker(0);
    d.Stop();
    var step := w.Step(d, StopCase, run);
    d.FinishStop();
  }
}
