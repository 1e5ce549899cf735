// The request-processing rules of a worker (processRequest in
// work_pool/worker.go): handler lookup, default timeout, bounded retries.

module Processing {
  import opened Requests

  /** The result of one attempt: the handler returned nil, returned an
      error, or did not finish before the per-attempt deadline. */
  datatype Outcome = Ok | Err | Timeout

  /** What one attempt runs: the looked-up handler on the request's data,
      raced against the effective timeout. */
  datatype Call = Call(handler: Handler, data: Payload, timeOut: int)

  /** The fate of one request: discarded because no handler is registered
      for its type, or handled with the outcomes of the attempts made, in
      order. */
  datatype Processed = HandlerNotFound | Handled(call: Call, trace: seq<Outcome>)

  /** 10 ms, in nanoseconds. */
  const DefaultTimeout: int := 10_000_000

  /** The timeout an attempt runs under: a zero timeout means "not set". */
  function EffectiveTimeout(t: int): (r: int)
    ensures r != 0
    ensures t != 0 ==> r == t
    ensures t == 0 ==> r == DefaultTimeout
  {
    if t == 0 then DefaultTimeout else t
  }

  /** The number of iterations of `for attempt := 0; attempt <= m; attempt++`. */
  function MaxAttempts(maxRetries: int): nat
  {
    if maxRetries < 0 then 0 else maxRetries + 1
  }

  /** The number of attempt indices in i..m. */
  function Span(i: nat, m: int): nat
  {
    if m < i then 0 else m - i + 1
  }

  /** The outcomes of attempts i, i+1, ..., stopping after the first Ok or
      after attempt `maxRetries`. `run(c, j)` is the outcome the environment
      (handler and clock) gives attempt j. */
  function Attempts(run: (Call, nat) -> Outcome, c: Call, i: nat, maxRetries: int): seq<Outcome>
    decreases maxRetries - i
  {
    if maxRetries < i then []
    else if run(c, i) == Ok then [Ok]
    else [run(c, i)] + Attempts(run, c, i + 1, maxRetries)
  }

  /** The call a request's attempts make when its type is registered. */
  function CallFor(registry: Registry, msg: WorkerRequest): Call
    requires msg.reqType in registry
  {
    Call(registry[msg.reqType], msg.data, EffectiveTimeout(msg.timeOut))
  }

  /** The specification of processRequest. */
  function Process(registry: Registry, msg: WorkerRequest, run: (Call, nat) -> Outcome): Processed
  {
    if msg.reqType !in registry then HandlerNotFound
    else Handled(CallFor(registry, msg), Attempts(run, CallFor(registry, msg), 0, msg.maxRetries))
  }

  /** Processing succeeded: the last attempt made returned Ok. */
  predicate Succeeded(p: Processed)
  {
    p.Handled? && |p.trace| > 0 && p.trace[|p.trace| - 1] == Ok
  }

  /** The shape of every trace: attempt j of the trace is attempt i+j of the
      environment, no Ok is followed by another attempt, and the trace stops
      short of the full budget only on an Ok. */
  lemma {:induction false} AttemptsShape(run: (Call, nat) -> Outcome, c: Call, i: nat, m: int)
    ensures |Attempts(run, c, i, m)| <= Span(i, m)
    ensures forall j :: 0 <= j < |Attempts(run, c, i, m)| ==> Attempts(run, c, i, m)[j] == run(c, i + j)
    ensures forall j :: 0 <= j < |Attempts(run, c, i, m)| - 1 ==> Attempts(run, c, i, m)[j] != Ok
    ensures |Attempts(run, c, i, m)| < Span(i, m) ==>
              |Attempts(run, c, i, m)| > 0 && Attempts(run, c, i, m)[|Attempts(run, c, i, m)| - 1] == Ok
    decreases m - i
  {
    if m < i || run(c, i) == Ok {
    } else {
      AttemptsShape(run, c, i + 1, m);
      var rest := Attempts(run, c, i + 1, m);
      assert Attempts(run, c, i, m) == [run(c, i)] + rest;
      forall j | 0 <= j < |Attempts(run, c, i, m)|
        ensures Attempts(run, c, i, m)[j] == run(c, i + j)
      {
        if j > 0 { assert Attempts(run, c, i, m)[j] == rest[j - 1]; }
      }
    }
  }

  /** A handler that never succeeds in attempts i..m is tried on every one of
      them. */
  lemma {:induction false} AttemptsNeverOk(run: (Call, nat) -> Outcome, c: Call, i: nat, m: int)
    requires forall j: nat :: i <= j <= m ==> run(c, j) != Ok
    ensures |Attempts(run, c, i, m)| == Span(i, m)
    ensures Ok !in Attempts(run, c, i, m)
    decreases m - i
  {
    if i <= m {
      AttemptsNeverOk(run, c, i + 1, m);
    }
  }

  /** If attempt k is the first Ok in i..m, the attempts are exactly i..k. */
  lemma {:induction false} AttemptsFirstOk(run: (Call, nat) -> Outcome, c: Call, i: nat, m: int, k: nat)
    requires i <= k <= m
    requires run(c, k) == Ok
    requires forall j: nat :: i <= j < k ==> run(c, j) != Ok
    ensures |Attempts(run, c, i, m)| == k - i + 1
    ensures Attempts(run, c, i, m)[k - i] == Ok
    decreases k - i
  {
    if i < k {
      AttemptsFirstOk(run, c, i + 1, m, k);
    }
  }

  /** Only whether an attempt returned Ok matters: two environments that
      agree on which attempts succeed give traces of the same length that
      succeed at the same places, whatever mix of Err and Timeout they give
      on the others. */
  lemma {:induction false} AttemptsFailureKindIrrelevant(run1: (Call, nat) -> Outcome, run2: (Call, nat) -> Outcome,
                                                         c: Call, i: nat, m: int)
    requires forall j: nat :: (run1(c, j) == Ok) == (run2(c, j) == Ok)
    ensures |Attempts(run1, c, i, m)| == |Attempts(run2, c, i, m)|
    ensures forall j :: 0 <= j < |Attempts(run1, c, i, m)| ==>
              (Attempts(run1, c, i, m)[j] == Ok) == (Attempts(run2, c, i, m)[j] == Ok)
    decreases m - i
  {
    if i <= m && run1(c, i) != Ok {
      AttemptsFailureKindIrrelevant(run1, run2, c, i + 1, m);
      assert Attempts(run1, c, i, m) == [run1(c, i)] + Attempts(run1, c, i + 1, m);
      assert Attempts(run2, c, i, m) == [run2(c, i)] + Attempts(run2, c, i + 1, m);
    }
  }

  /** An unregistered type makes no attempt; a registered one runs its
      handler under the effective timeout. */
  lemma ProcessLookup(registry: Registry, msg: WorkerRequest, run: (Call, nat) -> Outcome)
    ensures Process(registry, msg, run).HandlerNotFound? <==> msg.reqType !in registry
    ensures msg.reqType in registry ==>
              Process(registry, msg, run).call.handler == registry[msg.reqType] &&
              Process(registry, msg, run).call.data == msg.data &&
              (msg.timeOut == 0 ==> Process(registry, msg, run).call.timeOut == DefaultTimeout) &&
              (msg.timeOut != 0 ==> Process(registry, msg, run).call.timeOut == msg.timeOut)
  {
  }

  /** No request is attempted more than MaxRetries+1 times, and one that
      stops early stopped on an Ok. */
  lemma ProcessBounded(registry: Registry, msg: WorkerRequest, run: (Call, nat) -> Outcome)
    requires msg.reqType in registry
    ensures |Process(registry, msg, run).trace| <= MaxAttempts(msg.maxRetries)
    ensures |Process(registry, msg, run).trace| < MaxAttempts(msg.maxRetries) ==> Succeeded(Process(registry, msg, run))
  {
    AttemptsShape(run, CallFor(registry, msg), 0, msg.maxRetries);
  }

  /** A handler that never succeeds is tried exactly MaxRetries+1 times
      (zero times for a negative MaxRetries), and the request fails. */
  lemma ProcessExhaustsRetries(registry: Registry, msg: WorkerRequest, run: (Call, nat) -> Outcome)
    requires msg.reqType in registry
    requires forall j: nat :: j <= msg.maxRetries ==> run(CallFor(registry, msg), j) != Ok
    ensures Process(registry, msg, run).Handled?
    ensures |Process(registry, msg, run).trace| == MaxAttempts(msg.maxRetries)
    ensures !Succeeded(Process(registry, msg, run))
  {
    AttemptsNeverOk(run, CallFor(registry, msg), 0, msg.maxRetries);
    var t := Process(registry, msg, run).trace;
    assert |t| > 0 ==> t[|t| - 1] in t;
  }

  /** When the first Ok is at attempt k <= MaxRetries, exactly k+1 attempts
      are made and the request succeeds. */
  lemma ProcessStopsAtFirstOk(registry: Registry, msg: WorkerRequest, run: (Call, nat) -> Outcome, k: nat)
    requires msg.reqType in registry
    requires k <= msg.maxRetries
    requires run(CallFor(registry, msg), k) == Ok
    requires forall j: nat :: j < k ==> run(CallFor(registry, msg), j) != Ok
    ensures |Process(registry, msg, run).trace| == k + 1
    ensures Succeeded(Process(registry, msg, run))
  {
    AttemptsFirstOk(run, CallFor(registry, msg), 0, msg.maxRetries, k);
  }

  /** A Timeout is handled exactly as an Err: replacing any failure by the
      other kind changes neither the number of attempts nor success. */
  lemma ProcessTimeoutLikeErr(registry: Registry, msg: WorkerRequest,
                              run1: (Call, nat) -> Outcome, run2: (Call, nat) -> Outcome)
    requires msg.reqType in registry
    requires forall j: nat :: (run1(CallFor(registry, msg), j) == Ok) == (run2(CallFor(registry, msg), j) == Ok)
    ensures |Process(registry, msg, run1).trace| == |Process(registry, msg, run2).trace|
    ensures Succeeded(Process(registry, msg, run1)) == Succeeded(Process(registry, msg, run2))
  {
    AttemptsFailureKindIrrelevant(run1, run2, CallFor(registry, msg), 0, msg.maxRetries);
  }
}
