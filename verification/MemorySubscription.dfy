/**
 The in-memory subscription. Committers append under the store's lock and send their
 notification afterwards, as a separate step; the subscriber drains, yields and then waits
 on a bounded broadcast channel that may drop notifications. No commit may be lost.
 */
module MemorySubscription {
  import opened Options
  import opened EventLog
  import opened Delivery
  import MemoryStore

  const NOTIFY_CHANNEL_CAPACITY: nat := 1024

  datatype Phase =
    | Draining
    | Yielding(batch: seq<Entry>, frontier: Option<Checkpoint>)
    | Parked

  /**
   `unsent` counts commits whose notification is still to be sent. The channel has carried
   `sent` notifications, of which the subscriber has taken (or lost) the first `taken`.
   `seen` is the length of the log at the subscriber's last drain.
   */
  datatype Hub = Hub(
    log: seq<Entry>, unsent: nat, sent: nat, taken: nat,
    fs: seq<EventFilter>, from: Option<Checkpoint>,
    phase: Phase, last: Option<Checkpoint>, out: seq<Item>, seen: nat)

  datatype Step = Append(events: seq<StoredEvent>) | Notify | Drain | Yield | Receive

  /** The channel is joined before the first drain. */
  function Subscribe(log: seq<Entry>, unsent: nat, sent: nat, fs: seq<EventFilter>, from: Option<Checkpoint>): Hub {
    Hub(log, unsent, sent, sent, fs, from, Draining, from, [], 0)
  }

  function At(position: int): Checkpoint {
    Checkpoint(0, position)
  }

  function Stamped(events: seq<StoredEvent>, first: int): seq<Entry> {
    seq(|events|, i requires 0 <= i < |events| => Entry(At(first + i), events[i].(position := first + i)))
  }

  function Next(h: Hub, step: Step): Hub {
    match step
    case Append(events) =>
      if events == [] then h
      else h.(log := h.log + Stamped(events, |h.log|), unsent := h.unsent + 1)
    case Notify =>
      if h.unsent == 0 then h else h.(unsent := h.unsent - 1, sent := h.sent + 1)
    case Drain =>
      if !h.phase.Draining? then h
      else
        var batch := Window(h.log, h.fs, None, At(|h.log| - 1));
        var frontier := if |h.log| == 0 then None else Some(At(|h.log| - 1));
        h.(phase := Yielding(batch, frontier), seen := |h.log|)
    case Yield =>
      if !h.phase.Yielding? then h
      else if h.phase.batch == [] then
        // the frontier closes the pass, then the subscriber waits
        h.(phase := Parked, out := if h.phase.frontier.Some? then h.out + [Frontier(h.phase.frontier.value)] else h.out)
      else
        var e, rest := h.phase.batch[0], h.phase.(batch := h.phase.batch[1..]);
        if After(e.checkpoint, h.last)
        then h.(phase := rest, last := Some(e.checkpoint), out := h.out + [Event(e)])
        else h.(phase := rest)
    case Receive =>
      if !h.phase.Parked? || h.taken >= h.sent then h
      // a lagging receiver is told so, and continues with the oldest notification retained
      else if h.sent - h.taken > NOTIFY_CHANNEL_CAPACITY then
        h.(taken := h.sent - NOTIFY_CHANNEL_CAPACITY, phase := Draining)
      else h.(taken := h.taken + 1, phase := Draining)
  }

  function Run(h: Hub, steps: seq<Step>): Hub
    decreases |steps|
  {
    if steps == [] then h else Run(Next(h, steps[0]), steps[1..])
  }

  ghost predicate Dense(log: seq<Entry>) {
    forall i :: 0 <= i < |log| ==> log[i].checkpoint == At(i)
  }

  ghost predicate AllWithin(items: seq<Item>, top: Checkpoint) {
    forall i :: 0 <= i < |items| ==> AtMost(ItemCheckpoint(items[i]), top)
  }

  /** Delivery stands exactly at `last`. */
  ghost predicate InStep(log: seq<Entry>, fs: seq<EventFilter>, from: Option<Checkpoint>, last: Option<Checkpoint>,
      out: seq<Item>) {
    && OptAtMost(from, last)
    && Delivered(out) == Fresh(out, from)
    && Fresh(out, from) == (if last.None? then [] else Window(log, fs, from, last.value))
    && Faithful(out, fs, from, log)
    && AllWithin(out, At(|log| - 1))
    && (last == from || (last.Some? && AtMost(last.value, At(|log| - 1))))
  }

  /** Nothing committed can be forgotten: it was drained, will be, or a wake-up is on its way. */
  ghost predicate WakeupComing(h: Hub) {
    h.phase.Draining? || h.seen == |h.log| || h.unsent > 0 || h.taken < h.sent
  }

  /** The batch still to yield is in line with the log, from `last` on. */
  ghost predicate BatchOk(log: seq<Entry>, fs: seq<EventFilter>, last: Option<Checkpoint>, batch: seq<Entry>,
      top: Checkpoint) {
    && Ordered(batch)
    && Window(batch, fs, last, top) == Window(log, fs, last, top)
    && (forall e :: e in batch ==> AtMost(e.checkpoint, top) && Matches(fs, e.event))
  }

  ghost predicate PhaseOk(h: Hub) {
    match h.phase
    case Draining => true
    case Yielding(batch, frontier) =>
      && BatchOk(h.log, h.fs, h.last, batch, At(h.seen - 1))
      && frontier == if h.seen == 0 then None else Some(At(h.seen - 1))
    case Parked =>
      && Window(h.log, h.fs, h.last, At(h.seen - 1)) == []
      && (h.seen > 0 ==> h.out != [] && h.out[|h.out| - 1] == Frontier(At(h.seen - 1)))
  }

  ghost predicate Sound(h: Hub) {
    && Dense(h.log) && h.seen <= |h.log| && h.taken <= h.sent
    && InStep(h.log, h.fs, h.from, h.last, h.out)
    && PhaseOk(h)
    && WakeupComing(h)
  }

  /** Appending to the log disturbs no interval that ends inside it. */
  lemma AppendFrozen(log: seq<Entry>, more: seq<Entry>, fs: seq<EventFilter>, lo: Option<Checkpoint>, hi: Checkpoint)
    requires AtMost(hi, At(|log| - 1)) || (lo.Some? && AtMost(hi, lo.value))
    requires forall i :: 0 <= i < |more| ==> more[i].checkpoint == At(|log| + i)
    ensures Window(log + more, fs, lo, hi) == Window(log, fs, lo, hi)
  {
    WindowConcat(log, more, fs, lo, hi);
    WindowNothing(more, fs, lo, hi);
  }

  lemma AppendSound(h: Hub, events: seq<StoredEvent>)
    requires Sound(h)
    ensures Sound(Next(h, Append(events)))
  {
    if events != [] {
      LongerLogSound(h, Stamped(events, |h.log|));
    }
  }

  lemma LongerLogSound(h: Hub, more: seq<Entry>)
    requires Sound(h)
    requires forall i :: 0 <= i < |more| ==> more[i].checkpoint == At(|h.log| + i)
    ensures Sound(h.(log := h.log + more, unsent := h.unsent + 1))
  {
    var next := h.(log := h.log + more, unsent := h.unsent + 1);
    AppendKeepsStep(h, more);
    AppendFrozen(h.log, more, h.fs, h.last, At(h.seen - 1));
    PhaseCarries(h, next);
  }

  /** The phase depends on the log only through what lies between `last` and the last drain. */
  lemma PhaseCarries(h: Hub, next: Hub)
    requires PhaseOk(h) && next == h.(log := next.log, unsent := next.unsent)
    requires Window(next.log, h.fs, h.last, At(h.seen - 1)) == Window(h.log, h.fs, h.last, At(h.seen - 1))
    ensures PhaseOk(next)
  {
  }

  lemma AppendKeepsStep(h: Hub, more: seq<Entry>)
    requires Sound(h)
    requires forall i :: 0 <= i < |more| ==> more[i].checkpoint == At(|h.log| + i)
    ensures InStep(h.log + more, h.fs, h.from, h.last, h.out)
  {
    if h.last.Some? {
      AppendFrozen(h.log, more, h.fs, h.from, h.last.value);
    }
    forall i | 0 <= i < |h.out|
      ensures Window(h.log, h.fs, h.from, ItemCheckpoint(h.out[i]))
              == Window(h.log + more, h.fs, h.from, ItemCheckpoint(h.out[i]))
    {
      AppendFrozen(h.log, more, h.fs, h.from, ItemCheckpoint(h.out[i]));
    }
    FaithfulFrozen(h.out, h.fs, h.from, h.log, h.log + more);
  }

  lemma DrainSound(h: Hub)
    requires Sound(h)
    ensures Sound(Next(h, Drain))
  {
    if h.phase.Draining? {
      FreshBatch(h.log, h.fs, h.last, At(|h.log| - 1));
    }
  }

  lemma {:induction false} FreshBatch(log: seq<Entry>, fs: seq<EventFilter>, last: Option<Checkpoint>, top: Checkpoint)
    requires Dense(log)
    ensures BatchOk(log, fs, last, Window(log, fs, None, top), top)
  {
    DenseOrdered(log);
    WindowOrdered(log, fs, None, top);
    WindowMember(log, fs, None, top);
    WindowIdempotent(log, fs, last, top);
  }

  /** Selecting again from what was selected, with a higher lower bound. */
  lemma {:induction false} WindowIdempotent(log: seq<Entry>, fs: seq<EventFilter>, lo: Option<Checkpoint>,
      hi: Checkpoint)
    ensures Window(Window(log, fs, None, hi), fs, lo, hi) == Window(log, fs, lo, hi)
  {
    if log != [] {
      var front, e := log[..|log| - 1], log[|log| - 1];
      WindowIdempotent(front, fs, lo, hi);
      var w := Window(front, fs, None, hi);
      WindowConcat(w, [e], fs, lo, hi);
      assert [e][..0] == [];
    }
  }

  /** Skipping a redelivery, or taking the head of the batch, keeps the batch in line with the log. */
  lemma TakeHead(log: seq<Entry>, batch: seq<Entry>, fs: seq<EventFilter>, last: Option<Checkpoint>, top: Checkpoint)
    requires Ordered(log) && Ordered(batch) && batch != []
    requires AtMost(batch[0].checkpoint, top) && Matches(fs, batch[0].event)
    requires Window(batch, fs, last, top) == Window(log, fs, last, top)
    ensures var e, rest := batch[0], batch[1..];
            if After(e.checkpoint, last)
            then Window(log, fs, last, e.checkpoint) == [e]
              && Window(rest, fs, Some(e.checkpoint), top) == Window(log, fs, Some(e.checkpoint), top)
            else Window(rest, fs, last, top) == Window(log, fs, last, top)
  {
    var e, rest := batch[0], batch[1..];
    assert batch == [e] + rest && [e][..0] == [];
    WindowConcat([e], rest, fs, last, top);
    if After(e.checkpoint, last) {
      forall r | r in rest ensures Less(e.checkpoint, r.checkpoint) {
        var i :| 0 <= i < |rest| && rest[i] == r;
        assert batch[i + 1] == r;
      }
      WindowSame(rest, fs, last, top, fs, Some(e.checkpoint), top);
      var w := Window(log, fs, last, top);
      assert w == [e] + Window(rest, fs, last, top);
      WindowCut(log, fs, last, top, 1);
      assert w[..1] == [e] && w[1..] == Window(rest, fs, Some(e.checkpoint), top);
    }
  }

  lemma YieldEventSound(h: Hub)
    requires Sound(h) && h.phase.Yielding? && h.phase.batch != []
    ensures Sound(Next(h, Yield))
  {
    var batch, top := h.phase.batch, At(h.seen - 1);
    DenseOrdered(h.log);
    assert batch[0] in batch;
    TakeHead(h.log, batch, h.fs, h.last, top);
    RestOfBatch(batch, h.fs, top);
    if After(batch[0].checkpoint, h.last) {
      DeliverNext(h, batch[0]);
      assert BatchOk(h.log, h.fs, Some(batch[0].checkpoint), batch[1..], top);
      YieldingSound(h, batch[1..], Some(batch[0].checkpoint), h.out + [Event(batch[0])]);
    } else {
      YieldingSound(h, batch[1..], h.last, h.out);
    }
  }

  lemma YieldingSound(h: Hub, batch: seq<Entry>, last: Option<Checkpoint>, out: seq<Item>)
    requires Sound(h) && h.phase.Yielding?
    requires BatchOk(h.log, h.fs, last, batch, At(h.seen - 1))
    requires InStep(h.log, h.fs, h.from, last, out)
    ensures Sound(h.(phase := h.phase.(batch := batch), last := last, out := out))
  {
  }

  lemma RestOfBatch(batch: seq<Entry>, fs: seq<EventFilter>, top: Checkpoint)
    requires batch != [] && Ordered(batch)
    requires forall e :: e in batch ==> AtMost(e.checkpoint, top) && Matches(fs, e.event)
    ensures Ordered(batch[1..])
    ensures forall e :: e in batch[1..] ==> AtMost(e.checkpoint, top) && Matches(fs, e.event)
  {
  }

  lemma DenseOrdered(log: seq<Entry>)
    requires Dense(log)
    ensures Ordered(log)
  {
  }

  lemma DeliverNext(h: Hub, e: Entry)
    requires Dense(h.log) && InStep(h.log, h.fs, h.from, h.last, h.out)
    requires After(e.checkpoint, h.last) && AtMost(e.checkpoint, At(|h.log| - 1))
    requires Window(h.log, h.fs, h.last, e.checkpoint) == [e]
    ensures InStep(h.log, h.fs, h.from, Some(e.checkpoint), h.out + [Event(e)])
  {
    DenseOrdered(h.log);
    assert Window(h.log, h.fs, h.from, e.checkpoint) == Fresh(h.out, h.from) + [e] by {
      if h.last.Some? {
        WindowSplit(h.log, h.fs, h.from, h.last.value, e.checkpoint);
      }
    }
    assert Fresh(h.out + [Event(e)], h.from) == Fresh(h.out, h.from) + [e] by {
      FreshAppend(h.out, Event(e), h.from);
      if h.last.Some? {
        WindowMember(h.log, h.fs, h.from, h.last.value);
        assert Fresh(h.out, h.from) != [] ==> Fresh(h.out, h.from)[|Fresh(h.out, h.from)| - 1] in Fresh(h.out, h.from);
      }
    }
    DeliveredAppend(h.out, Event(e));
    FaithfulAppend(h.out, Event(e), h.fs, h.from, h.log);
  }

  lemma YieldFrontierSound(h: Hub)
    requires Sound(h) && h.phase.Yielding? && h.phase.batch == []
    ensures Sound(Next(h, Yield))
  {
    if h.seen > 0 {
      FrontierInStep(h, At(h.seen - 1));
      ParkedSound(h, h.out + [Frontier(At(h.seen - 1))]);
    } else {
      ParkedSound(h, h.out);
    }
  }

  lemma FrontierInStep(h: Hub, top: Checkpoint)
    requires Dense(h.log) && InStep(h.log, h.fs, h.from, h.last, h.out)
    requires Window(h.log, h.fs, h.last, top) == [] && AtMost(top, At(|h.log| - 1))
    ensures InStep(h.log, h.fs, h.from, h.last, h.out + [Frontier(top)])
  {
    DenseOrdered(h.log);
    if h.last.Some? {
      if AtMost(h.last.value, top) {
        WindowSplit(h.log, h.fs, h.from, h.last.value, top);
      } else {
        WindowPrefix(h.log, h.fs, h.from, top, h.last.value);
      }
    }
    FaithfulAppend(h.out, Frontier(top), h.fs, h.from, h.log);
    FreshAppend(h.out, Frontier(top), h.from);
    DeliveredAppend(h.out, Frontier(top));
  }

  lemma ParkedSound(h: Hub, out: seq<Item>)
    requires Sound(h) && h.phase.Yielding? && h.phase.batch == []
    requires InStep(h.log, h.fs, h.from, h.last, out)
    requires h.seen > 0 ==> out != [] && out[|out| - 1] == Frontier(At(h.seen - 1))
    ensures Sound(h.(phase := Parked, out := out))
  {
  }

  lemma {:induction false} RunSound(h: Hub, steps: seq<Step>)
    requires Sound(h)
    ensures Sound(Run(h, steps))
    decreases |steps|
  {
    if steps != [] {
      match steps[0] {
        case Append(events) => AppendSound(h, events);
        case Drain => DrainSound(h);
        case Yield =>
          if h.phase.Yielding? {
            if h.phase.batch == [] { YieldFrontierSound(h); } else { YieldEventSound(h); }
          }
        case _ =>
      }
      RunSound(Next(h, steps[0]), steps[1..]);
    }
  }

  lemma SubscribeSound(log: seq<Entry>, unsent: nat, sent: nat, fs: seq<EventFilter>, from: Option<Checkpoint>)
    requires Dense(log)
    requires from.Some? ==> AtMost(At(-1), from.value)
    ensures Sound(Subscribe(log, unsent, sent, fs, from))
  {
    if from.Some? {
      WindowNothing(log, fs, from, from.value);
    }
  }

  /**
   No lost wake-ups. However appends, notifications, lag and the subscriber interleave:
   once it waits with nothing pending and every committer has notified, it has delivered
   every matching event past `from` exactly once, in order, and closed with a frontier at
   the head of the log.
   */
  lemma NoLostWakeups(log: seq<Entry>, unsent: nat, sent: nat, fs: seq<EventFilter>, from: Option<Checkpoint>,
      steps: seq<Step>)
    requires Dense(log) && (from.Some? ==> AtMost(At(-1), from.value))
    ensures var h := Run(Subscribe(log, unsent, sent, fs, from), steps);
            h.phase.Parked? && h.taken == h.sent && h.unsent == 0 ==>
              && Delivered(h.out) == Window(h.log, fs, from, At(|h.log| - 1))
              && Ordered(Delivered(h.out))
              && (h.log != [] ==> h.out != [] && h.out[|h.out| - 1] == Frontier(At(|h.log| - 1)))
  {
    hide Run, Faithful, Fresh, Delivered, Window, Sound;
    SubscribeSound(log, unsent, sent, fs, from);
    RunSound(Subscribe(log, unsent, sent, fs, from), steps);
    RunKeepsQuery(Subscribe(log, unsent, sent, fs, from), steps);
    var h := Run(Subscribe(log, unsent, sent, fs, from), steps);
    if h.phase.Parked? && h.taken == h.sent && h.unsent == 0 {
      AllDelivered(h);
    }
  }

  /** Waiting with nothing pending means having delivered all there is. */
  lemma AllDelivered(h: Hub)
    requires Sound(h) && h.phase.Parked? && h.taken >= h.sent && h.unsent == 0
    ensures h.taken == h.sent && Delivered(h.out) == Window(h.log, h.fs, h.from, At(|h.log| - 1))
    ensures Ordered(Delivered(h.out))
    ensures h.log != [] ==> h.out != [] && h.out[|h.out| - 1] == Frontier(At(|h.log| - 1))
  {
    hide Faithful, Fresh, Delivered, Window;
    DenseOrdered(h.log);
    WindowOrdered(h.log, h.fs, h.from, At(|h.log| - 1));
    if h.last.Some? {
      if AtMost(h.last.value, At(|h.log| - 1)) {
        WindowSplit(h.log, h.fs, h.from, h.last.value, At(|h.log| - 1));
      } else {
        WindowNothing(h.log, h.fs, h.from, At(|h.log| - 1));
        WindowNothing(h.log, h.fs, h.from, h.last.value);
      }
    }
  }

  lemma {:induction false} RunKeepsQuery(h: Hub, steps: seq<Step>)
    ensures Run(h, steps).fs == h.fs && Run(h, steps).from == h.from
    decreases |steps|
  {
    if steps != [] {
      RunKeepsQuery(Next(h, steps[0]), steps[1..]);
    }
  }

  /** The store contract, for every log any continuation can reach. */
  lemma FaithfulForever(h: Hub, steps: seq<Step>)
    requires Sound(h)
    ensures Faithful(h.out, h.fs, h.from, Run(h, steps).log)
    ensures h.log <= Run(h, steps).log
  {
    LogGrows(h, steps);
    var log := Run(h, steps).log;
    var more := log[|h.log|..];
    assert log == h.log + more;
    assert forall i :: 0 <= i < |more| ==> more[i] == log[|h.log| + i];
    AppendKeepsStep(h, more);
  }

  lemma {:induction false} LogGrows(h: Hub, steps: seq<Step>)
    requires Dense(h.log)
    ensures h.log <= Run(h, steps).log && Dense(Run(h, steps).log)
    decreases |steps|
  {
    if steps != [] {
      LogGrows(Next(h, steps[0]), steps[1..]);
    }
  }

  /** The log depends on the commits alone, not on who listens. */
  lemma {:induction false} SameLog(a: Hub, b: Hub, steps: seq<Step>)
    requires a.log == b.log
    ensures Run(a, steps).log == Run(b, steps).log
    decreases |steps|
  {
    if steps != [] {
      SameLog(Next(a, steps[0]), Next(b, steps[0]), steps[1..]);
    }
  }

  function AsEntries(log: seq<StoredEvent>): seq<Entry> {
    seq(|log|, i requires 0 <= i < |log| => Entry(At(log[i].position), log[i]))
  }

  /** What the subscription sees appended is what the store commits, event for event. */
  lemma AppendIsCommit(log: seq<StoredEvent>, key: MemoryStore.StreamKey, staged: seq<MemoryStore.Staged>,
      events: seq<StoredEvent>)
    requires |events| == |staged|
    requires forall i :: 0 <= i < |events| ==>
               events[i] == StoredEvent(key.kind, key.id, staged[i].kind, events[i].position, staged[i].data)
    ensures AsEntries(log + MemoryStore.Stamp(key, staged, |log|)) == AsEntries(log) + Stamped(events, |log|)
  {
  }

  /** A drain of the store is the window of its log below the head. */
  lemma {:induction false} DrainIsWindow(log: seq<StoredEvent>, fs: seq<EventFilter>, head: int)
    requires forall i :: 0 <= i < |log| ==> log[i].position == i
    requires |log| <= head + 1
    ensures AsEntries(MemoryStore.MatchingEvents(log, fs)) == Window(AsEntries(log), fs, None, At(head))
  {
    if log != [] {
      var front := log[..|log| - 1];
      DrainIsWindow(front, fs, head);
      assert AsEntries(log)[..|log| - 1] == AsEntries(front);
    }
  }
}
