/** The `Filters` builder: which events a projection or a reactor asks for, and who handles them. */
module Filters {
  import opened Options
  import opened EventLog

  /** Position every filter after a checkpoint, or nowhere. */
  function SetAfter(fs: seq<EventFilter>, after: Option<int>): seq<EventFilter> {
    seq(|fs|, i requires 0 <= i < |fs| => fs[i].(afterPosition := after))
  }

  ghost predicate PositionFree(fs: seq<EventFilter>) {
    forall i :: 0 <= i < |fs| ==> fs[i].afterPosition == None
  }

  /** Positioned filters select what the plain ones do, past the position. */
  lemma MatchesAfter(fs: seq<EventFilter>, after: int, e: StoredEvent)
    requires PositionFree(fs)
    ensures Matches(SetAfter(fs, Some(after)), e) <==> Matches(fs, e) && e.position > after
    ensures Matches(SetAfter(fs, None), e) <==> Matches(fs, e)
  {
    var positioned, free := SetAfter(fs, Some(after)), SetAfter(fs, None);
    assert forall i :: 0 <= i < |fs| ==>
             (FilterMatches(positioned[i], e) <==> FilterMatches(fs[i], e) && e.position > after);
    assert forall i :: 0 <= i < |fs| ==> (FilterMatches(free[i], e) <==> FilterMatches(fs[i], e));
  }

  /** Events of a kind, on any stream. */
  function ForEvent(kind: string): EventFilter {
    EventFilter(kind, None, None, None)
  }

  /** Events of a kind on one stream. */
  function ForAggregate(kind: string, aggregateKind: string, aggregateId: string): EventFilter {
    EventFilter(kind, Some(aggregateKind), Some(aggregateId), None)
  }

  /** One filter for each event kind of an aggregate, past a position if one is given. */
  function AggregateFilters(kinds: seq<string>, aggregateKind: string, aggregateId: string,
      after: Option<int>): seq<EventFilter> {
    SetAfter(seq(|kinds|, i requires 0 <= i < |kinds| => ForAggregate(kinds[i], aggregateKind, aggregateId)), after)
  }

  /** A filter for a kind selects exactly the events of that kind. */
  lemma ForEventSelects(kind: string, e: StoredEvent)
    ensures Matches([ForEvent(kind)], e) <==> e.kind == kind
  {
    assert e.kind == kind ==> FilterMatches([ForEvent(kind)][0], e);
  }

  /** The filters of an aggregate select exactly its stream's events of its kinds, past the position. */
  lemma AggregateFiltersSelect(kinds: seq<string>, aggregateKind: string, aggregateId: string, after: Option<int>,
      e: StoredEvent)
    ensures Matches(AggregateFilters(kinds, aggregateKind, aggregateId, after), e) <==>
              && e.kind in kinds && e.aggregateKind == aggregateKind && e.aggregateId == aggregateId
              && (after.Some? ==> e.position > after.value)
  {
    var fs := AggregateFilters(kinds, aggregateKind, aggregateId, after);
    assert forall i :: 0 <= i < |kinds| ==>
             fs[i] == EventFilter(kinds[i], Some(aggregateKind), Some(aggregateId), after);
    if e.kind in kinds && e.aggregateKind == aggregateKind && e.aggregateId == aggregateId
      && (after.Some? ==> e.position > after.value) {
      var i :| 0 <= i < |kinds| && kinds[i] == e.kind;
      assert FilterMatches(fs[i], e);
    }
  }

  /** Selection is by union: filters together select what some of them does. */
  lemma SelectUnion(a: seq<EventFilter>, b: seq<EventFilter>, e: StoredEvent)
    ensures Matches(a + b, e) <==> Matches(a, e) || Matches(b, e)
  {
    var fs := a + b;
    if Matches(a, e) {
      var i :| 0 <= i < |a| && FilterMatches(a[i], e);
      assert FilterMatches(fs[i], e);
    }
    if Matches(b, e) {
      var i :| 0 <= i < |b| && FilterMatches(b[i], e);
      assert FilterMatches(fs[|a| + i], e);
    }
  }

  datatype Registration<H> = Registration(spec: EventFilter, handler: H)

  /** The handler in force for a kind: that of its last registration. */
  function LastRegistered<H>(registered: seq<Registration<H>>, kind: string): Option<H> {
    if registered == [] then None
    else
      var r := registered[|registered| - 1];
      if r.spec.eventKind == kind then Some(r.handler) else LastRegistered(registered[..|registered| - 1], kind)
  }

  function Lookup<H>(handlers: map<string, H>, kind: string): Option<H> {
    if kind in handlers then Some(handlers[kind]) else None
  }

  class Builder<H> {
    var specs: seq<EventFilter>
    var handlers: map<string, H>
    ghost var registered: seq<Registration<H>>

    ghost predicate Valid()
      reads this
    {
      && PositionFree(specs) && |specs| == |registered|
      && (forall i :: 0 <= i < |specs| ==> specs[i] == registered[i].spec)
      && (forall kind :: Lookup(handlers, kind) == LastRegistered(registered, kind))
    }

    constructor ()
      ensures Valid() && registered == []
    {
      specs, handlers, registered := [], map[], [];
    }

    /** `event` and `event_for`: one spec, and a handler that replaces any earlier one for its kind. */
    method PushDomainEvent(spec: EventFilter, handler: H)
      requires Valid() && spec.afterPosition.None?
      modifies this
      ensures Valid() && registered == old(registered) + [Registration(spec, handler)]
    {
      specs := specs + [spec];
      handlers := handlers[spec.eventKind := handler];
      registered := registered + [Registration(spec, handler)];
      assert registered[..|registered| - 1] == old(registered);
    }

    /** `events` and `events_for`: one registration per kind of a sum type. */
    method PushProjectionEvent(kinds: seq<string>, specFor: string -> EventFilter, handler: H)
      requires Valid() && forall k :: specFor(k).eventKind == k && specFor(k).afterPosition.None?
      modifies this
      ensures Valid()
      ensures registered ==
              old(registered) + seq(|kinds|, i requires 0 <= i < |kinds| => Registration(specFor(kinds[i]), handler))
    {
      var i := 0;
      while i < |kinds|
        invariant 0 <= i <= |kinds| && Valid()
        invariant registered ==
                  old(registered) + seq(i, j requires 0 <= j < i => Registration(specFor(kinds[j]), handler))
      {
        PushDomainEvent(specFor(kinds[i]), handler);
        i := i + 1;
      }
    }

    method IntoEventFilters(after: Option<int>) returns (filters: seq<EventFilter>)
      ensures filters == SetAfter(specs, after)
    {
      filters := [];
      var i := 0;
      while i < |specs|
        invariant 0 <= i <= |specs|
        invariant filters == SetAfter(specs[..i], after)
      {
        filters := filters + [specs[i].(afterPosition := after)];
        i := i + 1;
      }
      assert specs[..|specs|] == specs;
    }

    /** Whatever the filters let through has a handler, and every handler is asked for. */
    lemma SelectedIsHandled(e: StoredEvent)
      requires Valid()
      ensures Matches(specs, e) ==> e.kind in handlers
      ensures forall kind :: kind in handlers ==> exists i :: 0 <= i < |specs| && specs[i].eventKind == kind
    {
      if Matches(specs, e) {
        var i :| 0 <= i < |specs| && FilterMatches(specs[i], e);
        RegisteredHas(registered, i);
        assert Lookup(handlers, e.kind).Some?;
      }
      forall kind | kind in handlers ensures exists i :: 0 <= i < |specs| && specs[i].eventKind == kind {
        assert Lookup(handlers, kind).Some?;
        var i := RegisteredFrom(registered, kind);
      }
    }
  }

  lemma {:induction false} RegisteredHas<H>(registered: seq<Registration<H>>, i: nat)
    requires i < |registered|
    ensures LastRegistered(registered, registered[i].spec.eventKind).Some?
  {
    if i < |registered| - 1 {
      RegisteredHas(registered[..|registered| - 1], i);
    }
  }

  lemma {:induction false} RegisteredFrom<H>(registered: seq<Registration<H>>, kind: string) returns (i: nat)
    requires LastRegistered(registered, kind).Some?
    ensures i < |registered| && registered[i].spec.eventKind == kind
            && LastRegistered(registered, kind) == Some(registered[i].handler)
    ensures forall j :: i < j < |registered| ==> registered[j].spec.eventKind != kind
  {
    i := |registered| - 1;
    if registered[i].spec.eventKind != kind {
      i := RegisteredFrom(registered[..|registered| - 1], kind);
    }
  }
}
