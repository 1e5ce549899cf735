// Admission to the request channel inCh: MakeRequest's non-blocking send
// (work_pool/dispatcher.go), and the queue's behaviour over any interleaving
// of submissions and worker receives.

module Admission {
  import opened Requests

  /** What a non-blocking send does with a request: it goes into the
      buffer; it goes straight to a worker waiting in its receive (this
      happens only on an unbuffered channel, which has no room at all); or
      it is dropped. */
  datatype Fate = Enqueued | HandedOff | Dropped

  /** The fate of a non-blocking send on a channel holding `queue` with
      buffer `capacity`, given whether some worker is waiting to receive. A
      receiver waits only on an empty channel. */
  function Offer(queue: seq<WorkerRequest>, capacity: nat, receiverWaiting: bool): (f: Fate)
    ensures f == Enqueued <==> |queue| < capacity
    ensures f == HandedOff ==> queue == [] && capacity == 0 && receiverWaiting
    ensures |queue| <= capacity ==> (f == HandedOff <==> capacity == 0 && receiverWaiting)
    ensures |queue| <= capacity ==>
              (f == Dropped <==> (capacity > 0 && |queue| == capacity) || (capacity == 0 && !receiverWaiting))
  {
    if |queue| < capacity then Enqueued
    else if queue == [] && receiverWaiting then HandedOff
    else Dropped
  }

  /** The buffer after a non-blocking send of r: r is appended at the tail
      when there is room, otherwise the buffer is unchanged. */
  function Admit(queue: seq<WorkerRequest>, capacity: nat, r: WorkerRequest): (q: seq<WorkerRequest>)
    ensures |q| == |queue| || |q| == |queue| + 1
    ensures |q| == |queue| + 1 <==> |queue| < capacity
    ensures |queue| <= capacity ==> |q| <= capacity
    ensures q[..|queue|] == queue
    ensures |queue| < capacity ==> q[|queue|] == r
  {
    if |queue| < capacity then queue + [r] else queue
  }

  /** What happens on the channel: a MakeRequest call (with whether a worker
      is waiting to receive at that moment), or a worker's receive (which
      blocks on an empty channel and so changes nothing there). */
  datatype Event = Submit(r: WorkerRequest, receiverWaiting: bool) | Receive

  /** A history of the channel: its buffer, and the requests accepted
      (buffered or handed over), dropped and received by workers so far,
      each in order. */
  datatype History = History(
    queue: seq<WorkerRequest>,
    admitted: seq<WorkerRequest>,
    dropped: seq<WorkerRequest>,
    taken: seq<WorkerRequest>
  )

  function Apply(h: History, capacity: nat, e: Event): History
  {
    match e
    case Submit(r, waiting) =>
      (match Offer(h.queue, capacity, waiting)
       case Enqueued => h.(queue := Admit(h.queue, capacity, r), admitted := h.admitted + [r])
       case HandedOff => h.(admitted := h.admitted + [r], taken := h.taken + [r])
       case Dropped => h.(dropped := h.dropped + [r]))
    case Receive =>
      if h.queue == [] then h else h.(queue := h.queue[1..], taken := h.taken + [h.queue[0]])
  }

  function Replay(h: History, capacity: nat, events: seq<Event>): History
    decreases |events|
  {
    if events == [] then h else Replay(Apply(h, capacity, events[0]), capacity, events[1..])
  }

  /** The request an event submits, if any. */
  function SubmittedBy(e: Event): seq<WorkerRequest>
  {
    if e.Submit? then [e.r] else []
  }

  /** The requests submitted by `events`, in order. */
  function Submitted(events: seq<Event>): seq<WorkerRequest>
  {
    if events == [] then [] else SubmittedBy(events[0]) + Submitted(events[1..])
  }

  /** The requests submitted by `events` at a moment when a worker was, or
      was not, waiting to receive, in order. */
  function SubmittedWhen(events: seq<Event>, waiting: bool): seq<WorkerRequest>
  {
    if events == [] then []
    else (if events[0].Submit? && events[0].receiverWaiting == waiting then [events[0].r] else [])
         + SubmittedWhen(events[1..], waiting)
  }

  /** The queue stays within capacity, and nothing is reordered or lost
      between acceptance and receipt: what has been taken plus what is
      queued is the starting queue followed by every accepted request. */
  ghost predicate Conserved(start: seq<WorkerRequest>, capacity: nat, h: History)
  {
    |h.queue| <= capacity && h.taken + h.queue == start + h.admitted
  }

  /** One event keeps Conserved, only extends the accepted and dropped
      requests, and puts the request it submits into exactly one of them. */
  lemma ApplyConserves(start: seq<WorkerRequest>, capacity: nat, h: History, e: Event)
    requires Conserved(start, capacity, h)
    ensures Conserved(start, capacity, Apply(h, capacity, e))
    ensures h.admitted <= Apply(h, capacity, e).admitted
    ensures h.dropped <= Apply(h, capacity, e).dropped
    ensures multiset(Apply(h, capacity, e).admitted) + multiset(Apply(h, capacity, e).dropped)
            == multiset(h.admitted) + multiset(h.dropped) + multiset(SubmittedBy(e))
  {
    var h' := Apply(h, capacity, e);
    match e {
      case Submit(r, waiting) =>
        if Offer(h.queue, capacity, waiting) != Dropped {
          assert h'.taken + h'.queue == (h.taken + h.queue) + [r];
          assert h'.admitted == h.admitted + [r] && h'.dropped == h.dropped;
        } else {
          assert h'.dropped == h.dropped + [r] && h'.admitted == h.admitted;
        }
      case Receive =>
        if h.queue != [] {
          assert h.queue == [h.queue[0]] + h.queue[1..];
          assert h'.taken + h'.queue == h.taken + h.queue;
        }
    }
  }

  /** Replaying any events keeps Conserved, only extends the accepted and
      dropped requests, and puts every submitted request itself into exactly
      one of them: the two together grow by exactly the submitted requests. */
  lemma {:induction false} ReplayConserves(start: seq<WorkerRequest>, capacity: nat, h: History, events: seq<Event>)
    requires Conserved(start, capacity, h)
    ensures Conserved(start, capacity, Replay(h, capacity, events))
    ensures h.admitted <= Replay(h, capacity, events).admitted
    ensures h.dropped <= Replay(h, capacity, events).dropped
    ensures multiset(Replay(h, capacity, events).admitted) + multiset(Replay(h, capacity, events).dropped)
            == multiset(h.admitted) + multiset(h.dropped) + multiset(Submitted(events))
    decreases |events|
  {
    if events != [] {
      var h' := Apply(h, capacity, events[0]);
      ApplyConserves(start, capacity, h, events[0]);
      ReplayConserves(start, capacity, h', events[1..]);
      assert multiset(Submitted(events)) == multiset(SubmittedBy(events[0])) + multiset(Submitted(events[1..]));
    }
  }

  /** For any sequence of submissions and receives starting from a queue
      within capacity: the queue never exceeds the capacity, it is FIFO, and
      the accepted and the dropped requests are, between them, exactly the
      submitted ones. */
  lemma QueueBoundAndFifo(start: seq<WorkerRequest>, capacity: nat, events: seq<Event>)
    requires |start| <= capacity
    ensures |Replay(History(start, [], [], []), capacity, events).queue| <= capacity
    ensures Replay(History(start, [], [], []), capacity, events).taken + Replay(History(start, [], [], []), capacity, events).queue
            == start + Replay(History(start, [], [], []), capacity, events).admitted
    ensures multiset(Replay(History(start, [], [], []), capacity, events).admitted)
            + multiset(Replay(History(start, [], [], []), capacity, events).dropped) == multiset(Submitted(events))
  {
    ReplayConserves(start, capacity, History(start, [], [], []), events);
  }

  /** On an unbuffered channel nothing is ever buffered: the requests
      submitted while a worker waited are accepted and received at once, in
      order, and those submitted while none waited are dropped, in order. */
  lemma {:induction false} UnbufferedReplay(h: History, events: seq<Event>)
    requires h.queue == []
    ensures Replay(h, 0, events).queue == []
    ensures Replay(h, 0, events).admitted == h.admitted + SubmittedWhen(events, true)
    ensures Replay(h, 0, events).taken == h.taken + SubmittedWhen(events, true)
    ensures Replay(h, 0, events).dropped == h.dropped + SubmittedWhen(events, false)
    decreases |events|
  {
    if events != [] {
      var h' := Apply(h, 0, events[0]);
      UnbufferedReplay(h', events[1..]);
      match events[0] {
        case Submit(r, waiting) =>
          if waiting {
            assert h'.admitted == h.admitted + [r] && h'.taken == h.taken + [r] && h'.dropped == h.dropped;
            assert SubmittedWhen(events, true) == [r] + SubmittedWhen(events[1..], true);
            assert SubmittedWhen(events, false) == SubmittedWhen(events[1..], false);
            assert (h.admitted + [r]) + SubmittedWhen(events[1..], true) == h.admitted + ([r] + SubmittedWhen(events[1..], true));
            assert (h.taken + [r]) + SubmittedWhen(events[1..], true) == h.taken + ([r] + SubmittedWhen(events[1..], true));
          } else {
            assert h'.admitted == h.admitted && h'.taken == h.taken && h'.dropped == h.dropped + [r];
            assert SubmittedWhen(events, false) == [r] + SubmittedWhen(events[1..], false);
            assert SubmittedWhen(events, true) == SubmittedWhen(events[1..], true);
            assert (h.dropped + [r]) + SubmittedWhen(events[1..], false) == h.dropped + ([r] + SubmittedWhen(events[1..], false));
          }
        case Receive =>
          assert h' == h;
          assert SubmittedWhen(events, true) == SubmittedWhen(events[1..], true);
          assert SubmittedWhen(events, false) == SubmittedWhen(events[1..], false);
      }
    }
  }

  /** From an empty unbuffered channel: every request submitted while a
      worker waited is handed over and received, in order, and the history
      drops exactly the requests submitted while no worker waited. */
  lemma UnbufferedHandsOver(events: seq<Event>)
    ensures Replay(History([], [], [], []), 0, events).queue == []
    ensures Replay(History([], [], [], []), 0, events).admitted == SubmittedWhen(events, true)
    ensures Replay(History([], [], [], []), 0, events).taken == SubmittedWhen(events, true)
    ensures Replay(History([], [], [], []), 0, events).dropped == SubmittedWhen(events, false)
  {
    UnbufferedReplay(History([], [], [], []), events);
  }
}
