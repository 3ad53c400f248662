/** Projections: an initial state and a handler per event kind, folded over events. */
module Projections {
  import opened Options
  import opened EventLog
  import opened Cursors

  /** A handler fails when the stored event does not decode. */
  datatype Projection<!P> = Projection(init: P, handlers: map<string, (P, StoredEvent) -> Option<P>>)

  /** Kinds without a handler are skipped: filters may be wider than the handler set. */
  function ApplyEvent<P>(def: Projection<P>, p: P, e: StoredEvent): Option<P> {
    if e.kind in def.handlers then def.handlers[e.kind](p, e) else Some(p)
  }

  function Replay<P>(def: Projection<P>, p: P, events: seq<Entry>): Option<P> {
    if events == [] then Some(p)
    else
      var front := Replay(def, p, events[..|events| - 1]);
      if front.None? then None else ApplyEvent(def, front.value, events[|events| - 1].event)
  }

  lemma {:induction false} ReplayConcat<P>(def: Projection<P>, p: P, a: seq<Entry>, b: seq<Entry>)
    ensures Replay(def, p, a + b) == var mid := Replay(def, p, a); if mid.None? then None else Replay(def, mid.value, b)
  {
    if b == [] {
      assert a + b == a;
    } else {
      assert (a + b)[..|a + b| - 1] == a + b[..|b| - 1];
      ReplayConcat(def, p, a, b[..|b| - 1]);
    }
  }

  /** Events without a handler leave the state alone; those with one become what it makes of them. */
  lemma ReplayOne<P>(def: Projection<P>, p: P, e: Entry)
    ensures e.event.kind !in def.handlers ==> Replay(def, p, [e]) == Some(p)
    ensures e.event.kind in def.handlers ==> Replay(def, p, [e]) == def.handlers[e.event.kind](p, e.event)
  {
    assert [e][..0] == [] && Replay(def, p, []) == Some(p);
  }

  /** Once an event does not decode, no longer replay gets past it. */
  lemma ReplayStaysFailed<P>(def: Projection<P>, p: P, some: seq<Entry>, all: seq<Entry>)
    requires some <= all && Replay(def, p, some).None?
    ensures Replay(def, p, all).None?
  {
    assert all == some + all[|some|..];
    ReplayConcat(def, p, some, all[|some|..]);
  }

  lemma ReplayNext<P>(def: Projection<P>, p: P, events: seq<Entry>, e: Entry)
    ensures Replay(def, p, events + [e]) ==
            var mid := Replay(def, p, events); if mid.None? then None else ApplyEvent(def, mid.value, e.event)
  {
    assert (events + [e])[..|events + [e]| - 1] == events;
  }

  /** `p` is what one uninterrupted replay gives after the events up to `upto`. */
  ghost predicate IsFold<P>(def: Projection<P>, log: seq<Entry>, fs: seq<EventFilter>, upto: Option<Checkpoint>, p: P) {
    Replay(def, def.init, UpTo(log, fs, upto)) == Some(p)
  }

  lemma FoldNext<P>(def: Projection<P>, log: seq<Entry>, fs: seq<EventFilter>, last: Option<Checkpoint>, p: P,
      e: Entry, next: P)
    requires IsFold(def, log, fs, last, p) && ApplyEvent(def, p, e.event) == Some(next)
    requires UpTo(log, fs, Some(e.checkpoint)) == UpTo(log, fs, last) + [e]
    ensures IsFold(def, log, fs, Some(e.checkpoint), next)
  {
    hide UpTo;
    var before := UpTo(log, fs, last);
    assert (before + [e])[..|before + [e]| - 1] == before;
  }

  /** `states[k]` is the state after k + 1 of `events`, starting from `base`. */
  ghost predicate History<P>(def: Projection<P>, base: P, events: seq<Entry>, states: seq<P>) {
    && |states| == |events|
    && Replay(def, base, events) == Some(StateAfter(base, states, |states|))
    && (states == [] || History(def, base, events[..|events| - 1], states[..|states| - 1]))
  }

  lemma HistoryAppend<P>(def: Projection<P>, base: P, events: seq<Entry>, states: seq<P>, e: Entry, p: P)
    requires History(def, base, events, states)
    requires ApplyEvent(def, StateAfter(base, states, |states|), e.event) == Some(p)
    ensures History(def, base, events + [e], states + [p])
  {
    assert (events + [e])[..|events + [e]| - 1] == events;
    assert (states + [p])[..|states + [p]| - 1] == states;
  }

  lemma {:induction false} HistoryAt<P>(def: Projection<P>, base: P, events: seq<Entry>, states: seq<P>, k: nat)
    requires History(def, base, events, states) && k <= |states|
    ensures Replay(def, base, events[..k]) == Some(StateAfter(base, states, k))
  {
    if k == |states| {
      assert events[..k] == events;
    } else {
      HistoryAt(def, base, events[..|events| - 1], states[..|states| - 1], k);
      assert events[..|events| - 1][..k] == events[..k];
    }
  }

  function StateAfter<P>(base: P, states: seq<P>, k: nat): P
    requires k <= |states|
  {
    if k == 0 then base else states[k - 1]
  }
}
