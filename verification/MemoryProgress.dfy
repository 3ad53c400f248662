/**
 The in-memory subscriber makes progress. Left to itself it takes one step after another,
 as its phase demands, and comes to rest; and at rest it has delivered every commit whose
 notification has been sent.
 */
module MemoryProgress {
  import opened EventLog
  import opened Delivery
  import opened MemorySubscription

  /** What the subscriber does next. */
  function Turn(h: Hub): Step {
    match h.phase
    case Draining => Drain
    case Yielding(_, _) => Yield
    case Parked => Receive
  }

  /** It waits, and nothing is there to wake it. */
  predicate Resting(h: Hub) {
    h.phase.Parked? && h.taken >= h.sent
  }

  function Rank(h: Hub): nat {
    match h.phase
    case Draining => 2
    case Yielding(_, _) => 1
    case Parked => 0
  }

  function Batch(h: Hub): seq<Entry> {
    if h.phase.Yielding? then h.phase.batch else []
  }

  /** The steps it takes until it rests. Every one of them brings it closer. */
  function Turns(h: Hub): seq<Step>
    decreases if h.taken < h.sent then h.sent - h.taken else 0, Rank(h), |Batch(h)|
  {
    if Resting(h) then [] else [Turn(h)] + Turns(Next(h, Turn(h)))
  }

  lemma {:induction false} ComesToRest(h: Hub)
    ensures var r := Run(h, Turns(h)); Resting(r) && r.log == h.log && r.unsent == h.unsent && r.sent == h.sent
    decreases if h.taken < h.sent then h.sent - h.taken else 0, Rank(h), |Batch(h)|
  {
    if !Resting(h) {
      assert Turns(h)[1..] == Turns(Next(h, Turn(h)));
      ComesToRest(Next(h, Turn(h)));
    }
  }

  /** Any notification in the channel, or the notice that some were dropped, wakes a waiting subscriber. */
  lemma NotificationWakes(h: Hub)
    requires h.phase.Parked? && h.taken < h.sent
    ensures var next := Next(h, Receive);
            && next == h.(phase := Draining, taken := next.taken)
            && h.taken < next.taken <= h.sent
            && (next.taken != h.taken + 1 ==> h.sent - next.taken == NOTIFY_CHANNEL_CAPACITY < h.sent - h.taken)
  {
  }

  /**
   From any reachable state in which every committer has sent its notification, however many
   of these were dropped, the subscriber left to itself delivers every matching event past
   its start, once and in order, and closes with a frontier at the head of the log.
   */
  lemma {:induction false} DeliversEverything(h: Hub)
    requires Sound(h) && h.unsent == 0
    ensures var r := Run(h, Turns(h));
            && r.phase.Parked? && r.taken == r.sent && r.log == h.log
            && Delivered(r.out) == Window(h.log, h.fs, h.from, At(|h.log| - 1)) && Ordered(Delivered(r.out))
            && (h.log != [] ==> r.out != [] && r.out[|r.out| - 1] == Frontier(At(|h.log| - 1)))
  {
    hide Run, Sound, Next, Delivered, Window;
    ComesToRest(h);
    RunSound(h, Turns(h));
    RunKeepsQuery(h, Turns(h));
    AllDelivered(Run(h, Turns(h)));
  }
}
