/** Aggregates: a state rebuilt from its stream of events, and commands that add to it. */
module Aggregates {
  import opened Options

  /** `handle` and `handleCreate` give `None` when the command is rejected. */
  datatype Aggregate<!A, !C, !E> = Aggregate(
    create: E -> A, apply: (A, E) -> A, handle: (A, C) -> Option<seq<E>>, handleCreate: C -> Option<seq<E>>)

  /** An event at its place in the store. */
  datatype Placed<E> = Placed(position: int, event: E)

  /** A stored event that does not decode fails the whole replay. */
  datatype Replayed<+T> = Ok(value: T) | Undecodable

  /** The events at their places, if every one of them decodes. */
  function Decoded<R, E>(decode: R -> Option<E>, stored: seq<Placed<R>>): (decoded: Option<seq<Placed<E>>>)
    ensures decoded.None? <==> exists i :: 0 <= i < |stored| && decode(stored[i].event).None?
    ensures decoded.Some? ==> |decoded.value| == |stored|
    ensures decoded.Some? ==> forall i :: 0 <= i < |stored| ==>
              decode(stored[i].event) == Some(decoded.value[i].event) && decoded.value[i].position == stored[i].position
  {
    if stored == [] then Some([])
    else
      var front, last := Decoded(decode, stored[..|stored| - 1]), stored[|stored| - 1];
      var event := decode(last.event);
      if front.None? || event.None? then None else Some(front.value + [Placed(last.position, event.value)])
  }

  /** Events kept as they are. */
  function Plain<E>(event: E): Option<E> {
    Some(event)
  }

  lemma PlainDecodes<E>(stored: seq<Placed<E>>)
    ensures Decoded(Plain, stored) == Some(stored)
  {
    var decoded := Decoded(Plain, stored);
    assert forall i :: 0 <= i < |stored| ==> Plain(stored[i].event) == Some(stored[i].event);
    assert decoded.Some? && decoded.value == stored;
  }

  function EventsOf<E>(stream: seq<Placed<E>>): (events: seq<E>)
    ensures |events| == |stream|
  {
    if stream == [] then [] else EventsOf(stream[..|stream| - 1]) + [stream[|stream| - 1].event]
  }

  /** The first event creates the aggregate; the rest are applied in order. */
  function Fold<A, C, E>(agg: Aggregate<A, C, E>, events: seq<E>): A
    requires events != []
  {
    if |events| == 1 then agg.create(events[0])
    else agg.apply(Fold(agg, events[..|events| - 1]), events[|events| - 1])
  }

  function ApplyAll<A, C, E>(agg: Aggregate<A, C, E>, a: A, events: seq<E>): A {
    if events == [] then a
    else agg.apply(ApplyAll(agg, a, events[..|events| - 1]), events[|events| - 1])
  }

  lemma {:induction false} FoldConcat<A, C, E>(agg: Aggregate<A, C, E>, first: seq<E>, more: seq<E>)
    requires first != []
    ensures Fold(agg, first + more) == ApplyAll(agg, Fold(agg, first), more)
  {
    if more == [] {
      assert first + more == first;
    } else {
      assert (first + more)[..|first + more| - 1] == first + more[..|more| - 1];
      FoldConcat(agg, first, more[..|more| - 1]);
    }
  }

  lemma {:induction false} EventsOfConcat<E>(a: seq<Placed<E>>, b: seq<Placed<E>>)
    ensures EventsOf(a + b) == EventsOf(a) + EventsOf(b)
  {
    if b == [] {
      assert a + b == a;
    } else {
      assert (a + b)[..|a + b| - 1] == a + b[..|b| - 1];
      EventsOfConcat(a, b[..|b| - 1]);
    }
  }

  /** Replay stored events into an existing state, stopping at one that does not decode. */
  method ApplyStoredEvents<A, C, E, R>(agg: Aggregate<A, C, E>, decode: R -> Option<E>, base: A, stored: seq<Placed<R>>)
    returns (replayed: Replayed<(A, Option<int>)>)
    ensures replayed.Undecodable? <==> Decoded(decode, stored).None?
    ensures replayed.Ok? ==> replayed.value.0 == ApplyAll(agg, base, EventsOf(Decoded(decode, stored).value))
    ensures replayed.Ok? ==> replayed.value.1 == if stored == [] then None else Some(stored[|stored| - 1].position)
  {
    var aggregate, last: Option<int> := base, None;
    var i := 0;
    while i < |stored|
      invariant 0 <= i <= |stored| && Decoded(decode, stored[..i]).Some?
      invariant aggregate == ApplyAll(agg, base, EventsOf(Decoded(decode, stored[..i]).value))
      invariant last == if i == 0 then None else Some(stored[i - 1].position)
    {
      DecodedNext(decode, stored, i);
      var event := decode(stored[i].event);
      if event.None? {
        return Undecodable;
      }
      aggregate := agg.apply(aggregate, event.value);
      last := Some(stored[i].position);
      i := i + 1;
    }
    assert stored[..|stored|] == stored;
    replayed := Ok((aggregate, last));
  }

  lemma DecodedNext<R, E>(decode: R -> Option<E>, stored: seq<Placed<R>>, i: nat)
    requires i < |stored| && Decoded(decode, stored[..i]).Some?
    ensures decode(stored[i].event).None? ==> Decoded(decode, stored).None?
    ensures var next := Decoded(decode, stored[..i + 1]);
            if decode(stored[i].event).None? then next.None?
            else
              && next.Some?
              && EventsOf(next.value) == EventsOf(Decoded(decode, stored[..i]).value) + [decode(stored[i].event).value]
  {
    assert stored[..i + 1][..i] == stored[..i];
    var next := Decoded(decode, stored[..i + 1]);
    if next.Some? {
      assert next.value[..i] == Decoded(decode, stored[..i]).value;
    }
  }

  /** Build the state from a whole stream; an empty stream is no aggregate. */
  method CreateFromStoredEvents<A, C, E, R>(agg: Aggregate<A, C, E>, decode: R -> Option<E>, stored: seq<Placed<R>>)
    returns (rebuilt: Replayed<Option<(A, int)>>)
    ensures rebuilt.Undecodable? <==> Decoded(decode, stored).None?
    ensures rebuilt.Ok? && stored == [] ==> rebuilt.value == None
    ensures rebuilt.Ok? && stored != [] ==>
              rebuilt.value == Some((Fold(agg, EventsOf(Decoded(decode, stored).value)), stored[|stored| - 1].position))
  {
    var aggregate: Option<A> := None;
    var last: Option<int> := None;
    var i := 0;
    while i < |stored|
      invariant 0 <= i <= |stored| && Decoded(decode, stored[..i]).Some?
      invariant i == 0 ==> aggregate.None? && last.None?
      invariant i > 0 ==> aggregate == Some(Fold(agg, EventsOf(Decoded(decode, stored[..i]).value)))
      invariant i > 0 ==> last == Some(stored[i - 1].position)
    {
      DecodedNext(decode, stored, i);
      var event := decode(stored[i].event);
      if event.None? {
        return Undecodable;
      }
      aggregate := Some(if aggregate.Some? then agg.apply(aggregate.value, event.value) else agg.create(event.value));
      last := Some(stored[i].position);
      i := i + 1;
    }
    assert stored[..|stored|] == stored;
    rebuilt := Ok(if aggregate.Some? && last.Some? then Some((aggregate.value, last.value)) else None);
  }

  /** Build the state from a creation command's own events. */
  method CreateFromNewEvents<A, C, E>(agg: Aggregate<A, C, E>, events: seq<E>) returns (aggregate: A)
    requires events != []
    ensures aggregate == Fold(agg, events)
  {
    aggregate := agg.create(events[0]);
    var i := 1;
    while i < |events|
      invariant 1 <= i <= |events|
      invariant aggregate == Fold(agg, events[..i])
    {
      assert events[..i + 1][..i] == events[..i];
      aggregate := agg.apply(aggregate, events[i]);
      i := i + 1;
    }
    assert events[..|events|] == events;
  }
}
