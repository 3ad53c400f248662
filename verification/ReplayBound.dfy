/**
 How much a load can have to replay: with `every(n)`, optimistic clients, snapshot storage
 that answers, and every committed client's offer made in the end, fewer than n events lie
 past the stored snapshot.
 */
module ReplayBound {
  import opened Options
  import opened Snapshots
  import opened Aggregates
  import opened Repository

  predicate NotPast(a: Option<int>, b: Option<int>) {
    a.None? || (b.Some? && a.value <= b.value)
  }

  /** Clients count at least the events past the stored snapshot, whichever snapshot they loaded. */
  ghost predicate Counts<A, C, E>(stream: seq<Placed<E>>, storedAt: Option<int>, client: Client<A, C, E>) {
    match client
    case Based(_, _, base) => NotPast(StoredAt(base), storedAt)
    case Ready(_, creating, expected, events, _, total) =>
      if creating then total >= |events|
      else expected.Some? && total >= |Since(UpToPosition(stream, expected.value), storedAt)| + |events|
    case _ => true
  }

  ghost predicate AllCount<A, C, E>(world: World<A, C, E>) {
    forall w :: w in world.clients ==> Counts(world.stream, StoredAt(world.stored), world.clients[w])
  }

  /** This client's pending offer is for the head, and counts everything past the stored snapshot. */
  ghost predicate Covers<A, C, E>(world: World<A, C, E>, w: int) {
    && w in world.clients && world.clients[w].Offering? && Head(world.stream) == Some(world.clients[w].position)
    && world.clients[w].total >= |Since(world.stream, StoredAt(world.stored))|
  }

  ghost predicate Bounded<A, C, E>(settings: Settings<A, C, E>, world: World<A, C, E>) {
    && AllCount(world)
    && (Span(settings.policy).None?
        || |Since(world.stream, StoredAt(world.stored))| < Span(settings.policy).value
        || exists w :: Covers(world, w))
  }

  /** Storage answers every offer, and no client that has committed gives up before its offer. */
  predicate Diligent<A, C, E>(world: World<A, C, E>, a: Action<C>) {
    && (a.Offer? ==> a.available)
    && !(a.Abort? && ClientAt(world, a.w).Offering?)
  }

  predicate AllDiligent<A, C, E>(settings: Settings<A, C, E>, world: World<A, C, E>, actions: seq<Action<C>>) {
    actions == [] ||
    (AllDiligent(settings, world, actions[..|actions| - 1])
     && Diligent(Acts(settings, world, actions[..|actions| - 1]), actions[|actions| - 1]))
  }

  lemma {:induction false} SinceShrinks<E>(stream: seq<Placed<E>>, a: Option<int>, b: Option<int>)
    requires NotPast(a, b)
    ensures |Since(stream, b)| <= |Since(stream, a)|
  {
    if stream != [] {
      SinceShrinks(stream[..|stream| - 1], a, b);
    }
  }

  lemma {:induction false} SinceConcat<E>(a: seq<Placed<E>>, b: seq<Placed<E>>, after: Option<int>)
    ensures Since(a + b, after) == Since(a, after) + Since(b, after)
    ensures |Since(b, after)| <= |b|
  {
    if b == [] {
      assert a + b == a;
    } else {
      assert (a + b)[..|a + b| - 1] == a + b[..|b| - 1];
      SinceConcat(a, b[..|b| - 1], after);
    }
  }

  lemma CountsCarries<A, C, E>(agg: Aggregate<A, C, E>, stream: seq<Placed<E>>, more: seq<Placed<E>>,
      storedAt: Option<int>, client: Client<A, C, E>)
    requires ClientOk(agg, stream, client) && Counts(stream, storedAt, client)
    requires forall i, j :: 0 <= i < |stream| && 0 <= j < |more| ==> stream[i].position < more[j].position
    ensures Counts(stream + more, storedAt, client)
  {
    if client.Ready? && !client.creating {
      UpToPositionAppend(stream, more, client.expected.value);
    }
  }

  lemma CountsMoves<A, C, E>(stream: seq<Placed<E>>, a: Option<int>, b: Option<int>, client: Client<A, C, E>)
    requires Counts(stream, a, client) && NotPast(a, b)
    ensures Counts(stream, b, client)
  {
    if client.Ready? && !client.creating {
      SinceShrinks(UpToPosition(stream, client.expected.value), a, b);
    }
  }

  lemma RespondCounts<A, C, E>(agg: Aggregate<A, C, E>, stream: seq<Placed<E>>, bound: int, verb: Verb, cmd: C,
      base: Option<Snapshot<A>>, storedAt: Option<int>)
    requires Increasing(stream, bound) && (base.Some? ==> Exact(agg, stream, base.value))
    requires NotPast(StoredAt(base), storedAt)
    ensures Counts(stream, storedAt, Respond(agg, verb, cmd, LoadAggregate(agg, stream, base)))
  {
    LoadIsReplay(agg, stream, bound, base);
    SinceShrinks(stream, StoredAt(base), storedAt);
    var loaded := LoadAggregate(agg, stream, base);
    assert loaded.Some? ==> UpToPosition(stream, loaded.value.version) == stream;
  }

  /** A commit lands on the version it loaded, so its count covers the stream it leaves. */
  lemma CommitBounded<A, C, E>(settings: Settings<A, C, E>, world: World<A, C, E>, w: int, skip: nat -> nat)
    requires Sound(settings, world) && Bounded(settings, world) && w in world.clients && world.clients[w].Ready?
    requires Head(world.stream) == world.clients[w].expected
    ensures Bounded(settings, Append(world, w, world.clients[w], skip))
  {
    hide Fold, Place, Since;
    var client, storedAt := world.clients[w], StoredAt(world.stored);
    var placed := Place(client.events, world.nextPosition, skip);
    var next := Append(world, w, client, skip);
    PlaceOk(client.events, world.nextPosition, skip);
    SinceConcat(world.stream, placed, storedAt);
    CoversAfterCommit(settings, world, w, skip);
    forall v | v in next.clients ensures Counts(next.stream, storedAt, next.clients[v]) {
      if v != w {
        CountsCarries(settings.aggregate, world.stream, placed, storedAt, world.clients[v]);
      }
    }
  }

  lemma CoversAfterCommit<A, C, E>(settings: Settings<A, C, E>, world: World<A, C, E>, w: int, skip: nat -> nat)
    requires Sound(settings, world) && w in world.clients && world.clients[w].Ready?
    requires Counts(world.stream, StoredAt(world.stored), world.clients[w])
    requires Head(world.stream) == world.clients[w].expected
    ensures Covers(Append(world, w, world.clients[w], skip), w)
  {
    var client, storedAt := world.clients[w], StoredAt(world.stored);
    var placed := Place(client.events, world.nextPosition, skip);
    SinceConcat(world.stream, placed, storedAt);
    if client.creating {
      assert Since(world.stream, storedAt) == [];
    } else {
      assert UpToPosition(world.stream, client.expected.value) == world.stream;
    }
  }

  lemma OfferBounded<A, C, E>(settings: Settings<A, C, E>, world: World<A, C, E>, w: int)
    requires Sound(settings, world) && Bounded(settings, world) && w in world.clients && world.clients[w].Offering?
    ensures Bounded(settings, Act(settings, world, Offer(w, true)))
  {
    hide Fold, Place, Since, LoadAggregate, Append, Produced, Serial, EventsOf, UpToPosition;
    var client, next := world.clients[w], Act(settings, world, Offer(w, true));
    var a, b := StoredAt(world.stored), StoredAt(next.stored);
    SinceShrinks(world.stream, a, b);
    forall v | v in next.clients ensures Counts(next.stream, b, next.clients[v]) {
      if v != w {
        CountsMoves(world.stream, a, b, world.clients[v]);
      }
    }
    if Span(settings.policy).Some? && |Since(world.stream, a)| >= Span(settings.policy).value {
      var v :| Covers(world, v);
      if v == w {
        HeadStored(settings, world, w);
      } else {
        assert Covers(next, v);
      }
    }
  }

  lemma HeadStored<A, C, E>(settings: Settings<A, C, E>, world: World<A, C, E>, w: int)
    requires Sound(settings, world) && Covers(world, w) && Span(settings.policy).Some?
    requires |Since(world.stream, StoredAt(world.stored))| >= Span(settings.policy).value
    ensures var next := Act(settings, world, Offer(w, true)); Since(next.stream, StoredAt(next.stored)) == []
  {
    var next := Act(settings, world, Offer(w, true));
    SinceNothing(world.stream, world.clients[w].position);
    if world.stored.Some? {
      SinceShrinks(world.stream, Some(world.clients[w].position), StoredAt(next.stored));
    }
  }

  lemma ActBounded<A, C, E>(settings: Settings<A, C, E>, world: World<A, C, E>, a: Action<C>)
    requires settings.checked && Sound(settings, world) && Bounded(settings, world) && Diligent(world, a)
    ensures Bounded(settings, Act(settings, world, a))
  {
    hide Fold, Place, Since, LoadAggregate, Append, Produced, Serial, EventsOf, UpToPosition;
    var client, next := ClientAt(world, a.w), Act(settings, world, a);
    if a.Commit? && client.Ready? && client.events != [] && Admitted(settings, world, client) {
      CommitBounded(settings, world, a.w, a.skip);
    } else if a.Offer? && client.Offering? {
      OfferBounded(settings, world, a.w);
    } else {
      if a.Replay? && client.Based? {
        RespondCounts(settings.aggregate, world.stream, world.nextPosition, client.verb, client.cmd, client.base,
          StoredAt(world.stored));
      }
      assert next.stream == world.stream && next.stored == world.stored;
      assert forall v :: Covers(world, v) ==> Covers(next, v);
    }
  }

  /** Once no offer is pending, fewer than a span of events lie past the stored snapshot. */
  lemma {:induction false} ReplayIsBounded<A, C, E>(settings: Settings<A, C, E>, firstPosition: int,
      actions: seq<Action<C>>)
    requires settings.checked && AllDiligent(settings, Start(firstPosition), actions)
    ensures var world := Acts(settings, Start(firstPosition), actions);
            && Bounded(settings, world)
            && (Span(settings.policy).Some? && (forall w :: w in world.clients ==> !world.clients[w].Offering?) ==>
                  |Since(world.stream, StoredAt(world.stored))| < Span(settings.policy).value)
  {
    if actions != [] {
      var front := actions[..|actions| - 1];
      ReplayIsBounded(settings, firstPosition, front);
      EveryRunIsSerial(settings, firstPosition, front);
      ActBounded(settings, Acts(settings, Start(firstPosition), front), actions[|actions| - 1]);
    }
  }
}
