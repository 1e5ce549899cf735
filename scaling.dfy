// The scaling policy of ScaleWorkers (work_pool/dispatcher.go): one tick's
// decision, and the worker count over a run of ticks.

module Scaling {

  /** What one tick does to the worker count. */
  datatype Action = AddOne | RemoveOne | NoAction

  /** One tick: scale up when the queue is longer than the threshold and
      there is room, else scale down when it is shorter than loadLimit times
      the threshold and there are more than minWorkers. */
  function Decide(load: nat, count: int, minWorkers: int, maxWorkers: int, loadThreshold: int, loadLimit: real): Action
  {
    if load > loadThreshold && count < maxWorkers then AddOne
    else if (load as real) < loadLimit * (loadThreshold as real) && count > minWorkers then RemoveOne
    else NoAction
  }

  function Effect(a: Action, count: int): int
  {
    match a
    case AddOne => count + 1
    case RemoveOne => count - 1
    case NoAction => count
  }

  /** One tick changes the count by at most one, in the direction its
      trigger names, and keeps a count in [minWorkers, maxWorkers]. */
  lemma TickKeepsRange(load: nat, count: int, minWorkers: int, maxWorkers: int, loadThreshold: int, loadLimit: real)
    requires minWorkers <= count <= maxWorkers
    ensures var c := Effect(Decide(load, count, minWorkers, maxWorkers, loadThreshold, loadLimit), count);
            minWorkers <= c <= maxWorkers && count - 1 <= c <= count + 1
    ensures Decide(load, count, minWorkers, maxWorkers, loadThreshold, loadLimit) == AddOne ==> load > loadThreshold
    ensures Decide(load, count, minWorkers, maxWorkers, loadThreshold, loadLimit) == RemoveOne ==>
              (load as real) < loadLimit * (loadThreshold as real)
  {
  }

  /** Hysteresis: with loadLimit in [0, 1], a load between the two
      watermarks triggers nothing, and no load can trigger both directions. */
  lemma TickHysteresis(load: nat, count: int, minWorkers: int, maxWorkers: int, loadThreshold: int, loadLimit: real)
    requires 0.0 <= loadLimit <= 1.0
    ensures loadLimit * (loadThreshold as real) <= load as real && load <= loadThreshold ==>
              Decide(load, count, minWorkers, maxWorkers, loadThreshold, loadLimit) == NoAction
    ensures !(load > loadThreshold && (load as real) < loadLimit * (loadThreshold as real))
  {
    if loadThreshold >= 0 {
      assert loadLimit * (loadThreshold as real) <= loadThreshold as real;
    } else {
      assert loadLimit * (loadThreshold as real) <= 0.0;
    }
  }

  /** The worker count after one tick per entry of `loads`, each entry the
      queue length observed at that tick. */
  function CountAfter(count: int, loads: seq<nat>, minWorkers: int, maxWorkers: int, loadThreshold: int, loadLimit: real): int
    decreases |loads|
  {
    if loads == [] then count
    else CountAfter(Effect(Decide(loads[0], count, minWorkers, maxWorkers, loadThreshold, loadLimit), count),
                    loads[1..], minWorkers, maxWorkers, loadThreshold, loadLimit)
  }

  function Min(a: int, b: int): int { if a <= b then a else b }
  function Max(a: int, b: int): int { if a <= b then b else a }

  /** Whatever the loads, a count that starts in [minWorkers, maxWorkers]
      stays there. */
  lemma {:induction false} TicksKeepRange(count: int, loads: seq<nat>, minWorkers: int, maxWorkers: int,
                                          loadThreshold: int, loadLimit: real)
    requires minWorkers <= count <= maxWorkers
    ensures minWorkers <= CountAfter(count, loads, minWorkers, maxWorkers, loadThreshold, loadLimit) <= maxWorkers
    decreases |loads|
  {
    if loads != [] {
      TickKeepsRange(loads[0], count, minWorkers, maxWorkers, loadThreshold, loadLimit);
      TicksKeepRange(Effect(Decide(loads[0], count, minWorkers, maxWorkers, loadThreshold, loadLimit), count),
                     loads[1..], minWorkers, maxWorkers, loadThreshold, loadLimit);
    }
  }

  /** Sustained load above the threshold adds one worker per tick until
      maxWorkers is reached, and then holds there. */
  lemma {:induction false} TicksScaleUp(count: int, loads: seq<nat>, minWorkers: int, maxWorkers: int,
                                        loadThreshold: int, loadLimit: real)
    requires 0.0 <= loadLimit <= 1.0
    requires count <= maxWorkers
    requires forall i :: 0 <= i < |loads| ==> loads[i] > loadThreshold
    ensures CountAfter(count, loads, minWorkers, maxWorkers, loadThreshold, loadLimit) == Min(count + |loads|, maxWorkers)
    decreases |loads|
  {
    if loads != [] {
      TickHysteresis(loads[0], count, minWorkers, maxWorkers, loadThreshold, loadLimit);
      TicksScaleUp(Effect(Decide(loads[0], count, minWorkers, maxWorkers, loadThreshold, loadLimit), count),
                   loads[1..], minWorkers, maxWorkers, loadThreshold, loadLimit);
    }
  }

  /** Sustained load below the low watermark removes one worker per tick
      until minWorkers is reached, and then holds there. */
  lemma {:induction false} TicksScaleDown(count: int, loads: seq<nat>, minWorkers: int, maxWorkers: int,
                                          loadThreshold: int, loadLimit: real)
    requires 0.0 <= loadLimit <= 1.0
    requires minWorkers <= count
    requires forall i :: 0 <= i < |loads| ==> (loads[i] as real) < loadLimit * (loadThreshold as real)
    ensures CountAfter(count, loads, minWorkers, maxWorkers, loadThreshold, loadLimit) == Max(count - |loads|, minWorkers)
    decreases |loads|
  {
    if loads != [] {
      TickHysteresis(loads[0], count, minWorkers, maxWorkers, loadThreshold, loadLimit);
      TicksScaleDown(Effect(Decide(loads[0], count, minWorkers, maxWorkers, loadThreshold, loadLimit), count),
                     loads[1..], minWorkers, maxWorkers, loadThreshold, loadLimit);
    }
  }
}
