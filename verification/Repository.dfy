/**
 The command pipeline over one stream. Loading a snapshot, loading events, the conditional
 commit and the snapshot offer are separate steps; any number of clients interleave them,
 and may give up or die between any two.
 */
module Repository {
  import opened Options
  import opened EventLog
  import opened Snapshots
  import opened Aggregates

  datatype Verb = Create | Update | Upsert

  /** `checked` tells the optimistic concurrency strategy from the unchecked one. */
  datatype Settings<!A, !C, !E> = Settings(aggregate: Aggregate<A, C, E>, checked: bool, policy: SnapshotPolicy)

  datatype Client<A, C, E> =
    | Idle
    | Based(verb: Verb, cmd: C, base: Option<Snapshot<A>>)
    | Ready(cmd: C, creating: bool, expected: Option<int>, events: seq<E>, prepared: A, total: nat)
    | Offering(position: int, prepared: A, total: nat)

  /** One successful commit: who made it, for which command, and what it appended. */
  datatype Batch<C, E> = Batch(client: int, creating: bool, cmd: C, events: seq<E>)

  datatype World<A, C, E> = World(
    stream: seq<Placed<E>>, nextPosition: int, stored: Option<Snapshot<A>>,
    clients: map<int, Client<A, C, E>>, history: seq<Batch<C, E>>)

  /**
   `readable` and `available` say when the snapshot storage answers. Other streams take
   positions too: `skip` of them inside a batch, `count` of them elsewhere.
   */
  datatype Action<C> =
    | Begin(w: int, verb: Verb, cmd: C, readable: bool)
    | Replay(w: int)
    | Commit(w: int, skip: nat -> nat)
    | Offer(w: int, available: bool)
    | Abort(w: int)
    | Elsewhere(w: int, count: nat)

  function Start<A, C, E>(firstPosition: int): World<A, C, E> {
    World([], firstPosition, None, map[], [])
  }

  function At(position: int): Checkpoint {
    Checkpoint(0, position)
  }

  function ClientAt<A, C, E>(world: World<A, C, E>, w: int): Client<A, C, E> {
    if w in world.clients then world.clients[w] else Idle
  }

  /** The version of a stream is the position of its last event. */
  function Head<E>(stream: seq<Placed<E>>): Option<int> {
    if stream == [] then None else Some(stream[|stream| - 1].position)
  }

  /** The stream's events past a position: what the aggregate filters load. */
  function Since<E>(stream: seq<Placed<E>>, after: Option<int>): seq<Placed<E>> {
    if stream == [] then []
    else
      var rest, last := Since(stream[..|stream| - 1], after), stream[|stream| - 1];
      if after.None? || last.position > after.value then rest + [last] else rest
  }

  function StoredAt<A>(stored: Option<Snapshot<A>>): Option<int> {
    if stored.None? then None else Some(stored.value.position.position)
  }

  datatype Loaded<A> = Loaded(aggregate: A, version: int, eventsSinceSnapshot: nat)

  function LoadAggregate<A, C, E>(agg: Aggregate<A, C, E>, stream: seq<Placed<E>>,
      base: Option<Snapshot<A>>): Option<Loaded<A>> {
    var events := Since(stream, StoredAt(base));
    if base.Some? then
      Some(Loaded(ApplyAll(agg, base.value.data, EventsOf(events)),
                  if events == [] then base.value.position.position else Head(events).value, |events|))
    else if events == [] then None
    else Some(Loaded(Fold(agg, EventsOf(events)), Head(events).value, |events|))
  }

  /**
   Loading as the code does it: resume from the snapshot, or build from the first event. It
   fails exactly when an event it replays does not decode; older ones are not looked at.
   */
  method Load<A, C, E, R>(agg: Aggregate<A, C, E>, decode: R -> Option<E>, stored: seq<Placed<R>>,
      base: Option<Snapshot<A>>)
    returns (loaded: Replayed<Option<Loaded<A>>>)
    ensures loaded.Undecodable? <==>
              exists e :: e in stored && (base.None? || e.position > base.value.position.position)
                && decode(e.event).None?
    ensures var decoded := Decoded(decode, stored);
            decoded.Some? ==> loaded == Ok(LoadAggregate(agg, decoded.value, base))
  {
    var events := Since(stored, StoredAt(base));
    SinceHas(stored, StoredAt(base));
    if Decoded(decode, stored).Some? {
      SinceDecoded(stored, StoredAt(base), decode);
    }
    assert Decoded(decode, events).None? <==> exists e :: e in events && decode(e.event).None?;
    if base.Some? {
      var replayed := ApplyStoredEvents(agg, decode, base.value.data, events);
      if replayed.Undecodable? {
        return Undecodable;
      }
      var (aggregate, last) := replayed.value;
      return Ok(Some(Loaded(aggregate, if last.Some? then last.value else base.value.position.position, |events|)));
    }
    var rebuilt := CreateFromStoredEvents(agg, decode, events);
    if rebuilt.Undecodable? {
      return Undecodable;
    }
    if rebuilt.value.None? {
      return Ok(None);
    }
    var (aggregate, last) := rebuilt.value.value;
    loaded := Ok(Some(Loaded(aggregate, last, |events|)));
  }

  lemma {:induction false} SinceHas<E>(stored: seq<Placed<E>>, after: Option<int>)
    ensures forall e :: e in Since(stored, after) <==> e in stored && (after.None? || e.position > after.value)
  {
    if stored != [] {
      SinceHas(stored[..|stored| - 1], after);
      assert stored == stored[..|stored| - 1] + [stored[|stored| - 1]];
    }
  }

  /** Decoding and leaving out the events a snapshot covers commute. */
  lemma {:induction false} SinceDecoded<R, E>(stored: seq<Placed<R>>, after: Option<int>, decode: R -> Option<E>)
    requires Decoded(decode, stored).Some?
    ensures Decoded(decode, Since(stored, after)) == Some(Since(Decoded(decode, stored).value, after))
  {
    if stored != [] {
      var front, last := stored[..|stored| - 1], stored[|stored| - 1];
      SinceDecoded(front, after, decode);
      var some := Since(front, after);
      assert (some + [last])[..|some|] == some;
      assert Decoded(decode, stored).value[..|front|] == Decoded(decode, front).value;
    }
  }

  /** What a client has ready to commit after handling its command; nothing to append ends it. */
  function Respond<A, C, E>(agg: Aggregate<A, C, E>, verb: Verb, cmd: C, loaded: Option<Loaded<A>>): Client<A, C, E> {
    if loaded.Some? then
      var events := agg.handle(loaded.value.aggregate, cmd);
      if events.None? || events.value == [] then Idle
      else Ready(cmd, false, Some(loaded.value.version), events.value,
                 ApplyAll(agg, loaded.value.aggregate, events.value), loaded.value.eventsSinceSnapshot + |events.value|)
    else if verb.Update? then Idle
    else
      var events := agg.handleCreate(cmd);
      if events.None? || events.value == [] then Idle
      else Ready(cmd, true, None, events.value, Fold(agg, events.value), |events.value|)
  }

  /** Consecutive inserts draw increasing positions, with those of other streams in between. */
  function Place<E>(events: seq<E>, first: int, skip: nat -> nat): (placed: seq<Placed<E>>)
    ensures |placed| == |events|
  {
    if events == [] then []
    else
      var front := Place(events[..|events| - 1], first, skip);
      var next := if front == [] then first else front[|front| - 1].position + 1;
      front + [Placed(next + skip(|front|), events[|events| - 1])]
  }

  /** Creation always demands a new stream; an update demands the version it loaded, if checked. */
  predicate Admitted<A, C, E>(settings: Settings<A, C, E>, world: World<A, C, E>, client: Client<A, C, E>)
    requires client.Ready?
  {
    Head(world.stream) == client.expected || (!client.creating && !settings.checked)
  }

  function Append<A, C, E>(world: World<A, C, E>, w: int, client: Client<A, C, E>, skip: nat -> nat): World<A, C, E>
    requires client.Ready? && client.events != []
  {
    var placed := Place(client.events, world.nextPosition, skip);
    var last := placed[|placed| - 1].position;
    world.(stream := world.stream + placed, nextPosition := last + 1,
           history := world.history + [Batch(w, client.creating, client.cmd, client.events)],
           clients := world.clients[w := Offering(last, client.prepared, client.total)])
  }

  function Act<A, C, E>(settings: Settings<A, C, E>, world: World<A, C, E>, a: Action<C>): World<A, C, E> {
    match (a, ClientAt(world, a.w))
    case (Begin(w, verb, cmd, readable), Idle) =>
      world.(clients := world.clients[w :=
        if verb.Create? then Respond(settings.aggregate, verb, cmd, None)
        else Based(verb, cmd, if readable then world.stored else None)])
    case (Replay(w), Based(verb, cmd, base)) =>
      world.(clients := world.clients[w :=
        Respond(settings.aggregate, verb, cmd, LoadAggregate(settings.aggregate, world.stream, base))])
    case (Commit(w, skip), Ready(_, _, _, events, _, _)) =>
      if events != [] && Admitted(settings, world, world.clients[w]) then Append(world, w, world.clients[w], skip)
      else world.(clients := world.clients[w := Idle])
    case (Offer(w, available), Offering(position, prepared, total)) =>
      // a failed offer is reported, but the commit stands
      var stored := AfterOffer(settings.policy, world.stored, total, Snapshot(At(position), prepared));
      world.(stored := if available then stored else world.stored,
             clients := world.clients[w := Idle])
    case (Abort(w), _) =>
      world.(clients := world.clients[w := Idle])
    case (Elsewhere(_, count), _) =>
      world.(nextPosition := world.nextPosition + count)
    case _ => world
  }

  function Acts<A, C, E>(settings: Settings<A, C, E>, world: World<A, C, E>, actions: seq<Action<C>>): World<A, C, E> {
    if actions == [] then world
    else Act(settings, Acts(settings, world, actions[..|actions| - 1]), actions[|actions| - 1])
  }

  function Produced<C, E>(history: seq<Batch<C, E>>): seq<E> {
    if history == [] then [] else Produced(history[..|history| - 1]) + history[|history| - 1].events
  }

  /** The batch is what its command yields on exactly the events before it. */
  ghost predicate Follows<A, C, E>(agg: Aggregate<A, C, E>, before: seq<E>, batch: Batch<C, E>) {
    && batch.events != []
    && if batch.creating then before == [] && agg.handleCreate(batch.cmd) == Some(batch.events)
       else before != [] && agg.handle(Fold(agg, before), batch.cmd) == Some(batch.events)
  }

  /** A serial history: the commits could have been made one after the other. */
  ghost predicate Serial<A, C, E>(agg: Aggregate<A, C, E>, history: seq<Batch<C, E>>) {
    history == [] ||
    (Serial(agg, history[..|history| - 1]) && Follows(agg, Produced(history[..|history| - 1]), history[|history| - 1]))
  }

  ghost predicate Increasing<E>(stream: seq<Placed<E>>, bound: int) {
    && (forall i, j :: 0 <= i < j < |stream| ==> stream[i].position < stream[j].position)
    && (forall i :: 0 <= i < |stream| ==> stream[i].position < bound)
  }

  /** The stream as it stood at a position. */
  function UpToPosition<E>(stream: seq<Placed<E>>, p: int): seq<Placed<E>> {
    if stream == [] || stream[|stream| - 1].position <= p then stream else UpToPosition(stream[..|stream| - 1], p)
  }

  /** `p` is the version the stream had at some point. */
  ghost predicate WasVersion<E>(stream: seq<Placed<E>>, p: int) {
    Head(UpToPosition(stream, p)) == Some(p)
  }

  /** A snapshot is exact: its state is the fold of the stream up to its position. */
  ghost predicate Exact<A, C, E>(agg: Aggregate<A, C, E>, stream: seq<Placed<E>>, snapshot: Snapshot<A>) {
    && WasVersion(stream, snapshot.position.position) && snapshot.position.xid == 0
    && snapshot.data == Fold(agg, EventsOf(UpToPosition(stream, snapshot.position.position)))
  }

  /** A client ready to commit handled its command on the stream as it stood at the version it expects. */
  ghost predicate ReadyOk<A, C, E>(agg: Aggregate<A, C, E>, stream: seq<Placed<E>>, cmd: C, creating: bool,
      expected: Option<int>, events: seq<E>, prepared: A) {
    && events != []
    && if creating then expected.None? && agg.handleCreate(cmd) == Some(events) && prepared == Fold(agg, events)
       else
         && expected.Some? && WasVersion(stream, expected.value)
         && var before := EventsOf(UpToPosition(stream, expected.value));
            agg.handle(Fold(agg, before), cmd) == Some(events) && prepared == Fold(agg, before + events)
  }

  ghost predicate ClientOk<A, C, E>(agg: Aggregate<A, C, E>, stream: seq<Placed<E>>, client: Client<A, C, E>) {
    match client
    case Idle => true
    case Based(_, _, base) => base.Some? ==> Exact(agg, stream, base.value)
    case Ready(cmd, creating, expected, events, prepared, _) =>
      ReadyOk(agg, stream, cmd, creating, expected, events, prepared)
    case Offering(position, prepared, _) => Exact(agg, stream, Snapshot(At(position), prepared))
  }

  ghost predicate ClientsOk<A, C, E>(agg: Aggregate<A, C, E>, stream: seq<Placed<E>>, clients: map<int, Client<A, C,
      E>>) {
    forall w :: w in clients ==> ClientOk(agg, stream, clients[w])
  }

  ghost predicate Sound<A, C, E>(settings: Settings<A, C, E>, world: World<A, C, E>) {
    && Increasing(world.stream, world.nextPosition)
    && EventsOf(world.stream) == Produced(world.history) && Serial(settings.aggregate, world.history)
    && (world.stored.Some? ==> Exact(settings.aggregate, world.stream, world.stored.value))
    && ClientsOk(settings.aggregate, world.stream, world.clients)
  }

  lemma PlaceOk<E>(events: seq<E>, first: int, skip: nat -> nat)
    ensures var placed := Place(events, first, skip);
            EventsOf(placed) == events && Rising(placed, first)
  {
    PlaceEvents(events, first, skip);
    PlaceIncreases(events, first, skip);
  }

  lemma {:induction false} PlaceEvents<E>(events: seq<E>, first: int, skip: nat -> nat)
    ensures EventsOf(Place(events, first, skip)) == events
  {
    if events != [] {
      PlaceEvents(events[..|events| - 1], first, skip);
      var placed := Place(events, first, skip);
      assert placed[..|placed| - 1] == Place(events[..|events| - 1], first, skip);
    }
  }

  ghost predicate Rising<E>(placed: seq<Placed<E>>, first: int) {
    && (forall i :: 0 <= i < |placed| ==> first <= placed[i].position)
    && (forall i, j :: 0 <= i < j < |placed| ==> placed[i].position < placed[j].position)
  }

  lemma {:induction false} PlaceIncreases<E>(events: seq<E>, first: int, skip: nat -> nat)
    ensures Rising(Place(events, first, skip), first)
  {
    if events != [] {
      PlaceIncreases(events[..|events| - 1], first, skip);
      RisingAppend(Place(events[..|events| - 1], first, skip), first, skip, events[|events| - 1]);
    }
  }

  lemma RisingAppend<E>(front: seq<Placed<E>>, first: int, skip: nat -> nat, event: E)
    requires Rising(front, first)
    ensures var next := if front == [] then first else front[|front| - 1].position + 1;
            Rising(front + [Placed(next + skip(|front|), event)], first)
  {
  }

  lemma {:induction false} UpToPositionAppend<E>(stream: seq<Placed<E>>, more: seq<Placed<E>>, p: int)
    requires WasVersion(stream, p)
    requires forall i, j :: 0 <= i < |stream| && 0 <= j < |more| ==> stream[i].position < more[j].position
    ensures UpToPosition(stream + more, p) == UpToPosition(stream, p)
  {
    if more == [] {
      assert stream + more == stream;
    } else {
      assert (stream + more)[..|stream + more| - 1] == stream + more[..|more| - 1];
      UpToPositionAppend(stream, more[..|more| - 1], p);
      assert more[|more| - 1].position > stream[|stream| - 1].position;
    }
  }

  lemma IncreasingFront<E>(stream: seq<Placed<E>>, bound: int)
    requires Increasing(stream, bound) && stream != []
    ensures Increasing(stream[..|stream| - 1], bound)
    ensures forall i :: 0 <= i < |stream| ==> stream[i].position <= stream[|stream| - 1].position
  {
  }

  lemma {:induction false} SplitAt<E>(stream: seq<Placed<E>>, p: int, bound: int)
    requires Increasing(stream, bound)
    ensures stream == UpToPosition(stream, p) + Since(stream, Some(p))
  {
    hide Increasing;
    if stream != [] {
      var front, last := stream[..|stream| - 1], stream[|stream| - 1];
      IncreasingFront(stream, bound);
      if last.position > p {
        SplitAt(front, p, bound);
        assert stream == front + [last];
      } else {
        SinceNothing(stream, p);
      }
    }
  }

  lemma {:induction false} SinceNothing<E>(stream: seq<Placed<E>>, p: int)
    requires forall i :: 0 <= i < |stream| ==> stream[i].position <= p
    ensures Since(stream, Some(p)) == []
  {
    if stream != [] {
      SinceNothing(stream[..|stream| - 1], p);
    }
  }

  lemma {:induction false} SinceAll<E>(stream: seq<Placed<E>>)
    ensures Since(stream, None) == stream
  {
    if stream != [] {
      SinceAll(stream[..|stream| - 1]);
    }
  }

  /** Snapshots are invisible: loading through an exact one gives the state and the version of a full replay. */
  lemma LoadIsReplay<A, C, E>(agg: Aggregate<A, C, E>, stream: seq<Placed<E>>, bound: int, base: Option<Snapshot<A>>)
    requires Increasing(stream, bound) && (base.Some? ==> Exact(agg, stream, base.value))
    ensures var loaded := LoadAggregate(agg, stream, base);
            if stream == [] then loaded.None?
            else
              && loaded.Some? && loaded.value.aggregate == Fold(agg, EventsOf(stream))
              && Some(loaded.value.version) == Head(stream)
  {
    if base.Some? {
      var p := base.value.position.position;
      SplitAt(stream, p, bound);
      var before, after := UpToPosition(stream, p), Since(stream, Some(p));
      EventsOfConcat(before, after);
      FoldConcat(agg, EventsOf(before), EventsOf(after));
    } else {
      SinceAll(stream);
    }
  }

  lemma ExactCarries<A, C, E>(agg: Aggregate<A, C, E>, stream: seq<Placed<E>>, more: seq<Placed<E>>,
      snapshot: Snapshot<A>)
    requires Exact(agg, stream, snapshot)
    requires forall i, j :: 0 <= i < |stream| && 0 <= j < |more| ==> stream[i].position < more[j].position
    ensures Exact(agg, stream + more, snapshot)
  {
    UpToPositionAppend(stream, more, snapshot.position.position);
  }

  /** What a client knows of the stream stays true as the stream grows. */
  lemma ClientCarries<A, C, E>(agg: Aggregate<A, C, E>, stream: seq<Placed<E>>, more: seq<Placed<E>>,
      client: Client<A, C, E>)
    requires ClientOk(agg, stream, client)
    requires forall i, j :: 0 <= i < |stream| && 0 <= j < |more| ==> stream[i].position < more[j].position
    ensures ClientOk(agg, stream + more, client)
  {
    match client
    case Based(_, _, base) =>
      if base.Some? {
        ExactCarries(agg, stream, more, base.value);
      }
    case Ready(_, creating, expected, _, _, _) =>
      if !creating {
        UpToPositionAppend(stream, more, expected.value);
      }
    case Offering(position, prepared, _) =>
      ExactCarries(agg, stream, more, Snapshot(At(position), prepared));
    case Idle =>
  }

  /** At the version the client expects, what it prepared is the fold of the longer stream. */
  lemma CommitFollows<A, C, E>(agg: Aggregate<A, C, E>, stream: seq<Placed<E>>, bound: int, w: int, client: Client<A,
      C, E>)
    requires Increasing(stream, bound) && client.Ready? && ClientOk(agg, stream, client)
             && Head(stream) == client.expected
    ensures Follows(agg, EventsOf(stream), Batch(w, client.creating, client.cmd, client.events))
    ensures client.prepared == Fold(agg, EventsOf(stream) + client.events)
  {
    if client.creating {
      assert EventsOf(stream) + client.events == client.events;
    } else {
      assert UpToPosition(stream, client.expected.value) == stream;
    }
  }

  /**
   Under either strategy: a creation commits exactly on an empty stream; an unchecked update
   always, last writer wins; a checked one exactly when nothing has been committed since it
   loaded. A commit appends the prepared events; a conflict leaves everything as it was.
   */
  lemma {:induction false} CommitsExactlyWhen<A, C, E>(settings: Settings<A, C, E>, world: World<A, C, E>, w: int,
      skip: nat -> nat)
    requires w in world.clients && world.clients[w].Ready?
    requires ClientOk(settings.aggregate, world.stream, world.clients[w])
    ensures var client, next := world.clients[w], Act(settings, world, Commit(w, skip));
            if if client.creating then world.stream == []
               else !settings.checked || UpToPosition(world.stream, client.expected.value) == world.stream then
              && next.history == world.history + [Batch(w, client.creating, client.cmd, client.events)]
              && world.stream <= next.stream && EventsOf(next.stream) == EventsOf(world.stream) + client.events
              && next.clients[w].Offering? && next.stored == world.stored
            else next == world.(clients := world.clients[w := Idle])
  {
    hide Fold, Place, EventsOf, Rising;
    var client := world.clients[w];
    PlaceOk(client.events, world.nextPosition, skip);
    EventsOfConcat(world.stream, Place(client.events, world.nextPosition, skip));
  }

  /** A client that gives up or dies is forgotten, wherever it is: nothing it had only prepared is ever seen. */
  lemma GivesUp<A, C, E>(settings: Settings<A, C, E>, world: World<A, C, E>, w: int)
    ensures var next := Act(settings, world, Abort(w));
            && ClientAt(next, w).Idle? && (forall v :: v != w ==> ClientAt(next, v) == ClientAt(world, v))
            && next == world.(clients := next.clients)
  {
  }

  /** Commits to other streams use up positions, and are otherwise no concern of this one. */
  lemma ElsewhereUsesPositions<A, C, E>(settings: Settings<A, C, E>, world: World<A, C, E>, w: int, count: nat)
    ensures var next := Act(settings, world, Elsewhere(w, count));
            next.nextPosition == world.nextPosition + count && next == world.(nextPosition := next.nextPosition)
  {
  }

  /** An update that lands on the version it loaded leaves an exact snapshot, checked or not. */
  lemma LoadedVersionIsEnough<A, C, E>(agg: Aggregate<A, C, E>, world: World<A, C, E>, w: int, skip: nat -> nat)
    requires Increasing(world.stream, world.nextPosition)
    requires w in world.clients && world.clients[w].Ready? && ClientOk(agg, world.stream, world.clients[w])
    requires Head(world.stream) == world.clients[w].expected
    ensures var next := Append(world, w, world.clients[w], skip);
            Exact(agg, next.stream, Snapshot(At(next.clients[w].position), world.clients[w].prepared))
  {
    var client := world.clients[w];
    var placed := Place(client.events, world.nextPosition, skip);
    PlaceOk(client.events, world.nextPosition, skip);
    EventsOfConcat(world.stream, placed);
    CommitFollows(agg, world.stream, world.nextPosition, w, client);
  }

  /** One more batch, on exactly the events before it. */
  lemma {:induction false} AppendKeepsHistory<A, C, E>(settings: Settings<A, C, E>, world: World<A, C, E>, w: int,
      skip: nat -> nat)
    requires Sound(settings, world) && w in world.clients && world.clients[w].Ready?
    requires Head(world.stream) == world.clients[w].expected
    ensures var next := Append(world, w, world.clients[w], skip);
            && Increasing(next.stream, next.nextPosition)
            && EventsOf(next.stream) == Produced(next.history) && Serial(settings.aggregate, next.history)
  {
    hide Fold, Place, Since, Exact, ClientsOk, UpToPosition, Produced, Serial, EventsOf, Follows, Increasing, Rising;
    ClientIsOk(settings, world, w);
    var client := world.clients[w];
    var placed := Place(client.events, world.nextPosition, skip);
    PlaceOk(client.events, world.nextPosition, skip);
    EventsOfConcat(world.stream, placed);
    CommitFollows(settings.aggregate, world.stream, world.nextPosition, w, client);
    SerialAppend(settings.aggregate, world.history, Batch(w, client.creating, client.cmd, client.events));
    IncreasingAppend(world.stream, placed, world.nextPosition);
  }

  lemma {:induction false} SerialAppend<A, C, E>(agg: Aggregate<A, C, E>, history: seq<Batch<C, E>>, batch: Batch<C, E>)
    requires Serial(agg, history) && Follows(agg, Produced(history), batch)
    ensures Serial(agg, history + [batch]) && Produced(history + [batch]) == Produced(history) + batch.events
  {
    hide Follows;
    assert (history + [batch])[..|history + [batch]| - 1] == history;
  }

  lemma IncreasingAppend<E>(stream: seq<Placed<E>>, placed: seq<Placed<E>>, bound: int)
    requires Increasing(stream, bound) && Rising(placed, bound) && placed != []
    ensures Increasing(stream + placed, placed[|placed| - 1].position + 1)
  {
  }

  lemma {:induction false} ClientIsOk<A, C, E>(settings: Settings<A, C, E>, world: World<A, C, E>, w: int)
    requires Sound(settings, world) && w in world.clients
    ensures ClientOk(settings.aggregate, world.stream, world.clients[w])
  {
    hide Increasing, Produced, Serial, EventsOf, Exact, ClientOk;
  }

  /** Whoever held something true of the stream still does, and the committer has an exact snapshot to offer. */
  lemma {:induction false} AppendKeepsClients<A, C, E>(settings: Settings<A, C, E>, world: World<A, C, E>, w: int,
      skip: nat -> nat)
    requires Sound(settings, world) && w in world.clients && world.clients[w].Ready?
    requires Head(world.stream) == world.clients[w].expected
    ensures var next := Append(world, w, world.clients[w], skip);
            && (world.stored.Some? ==> Exact(settings.aggregate, next.stream, world.stored.value))
            && ClientsOk(settings.aggregate, next.stream, next.clients)
  {
    hide Fold, Place, Since, Exact, Produced, Serial, EventsOf, UpToPosition;
    var agg, client := settings.aggregate, world.clients[w];
    var placed := Place(client.events, world.nextPosition, skip);
    var next := Append(world, w, client, skip);
    PlaceOk(client.events, world.nextPosition, skip);
    LoadedVersionIsEnough(agg, world, w, skip);
    if world.stored.Some? {
      ExactCarries(agg, world.stream, placed, world.stored.value);
    }
    forall v | v in next.clients ensures ClientOk(agg, next.stream, next.clients[v]) {
      if v != w {
        ClientCarries(agg, world.stream, placed, world.clients[v]);
      }
    }
  }

  lemma {:induction false} AppendSound<A, C, E>(settings: Settings<A, C, E>, world: World<A, C, E>, w: int,
      skip: nat -> nat)
    requires Sound(settings, world) && w in world.clients && world.clients[w].Ready?
    requires Head(world.stream) == world.clients[w].expected
    ensures Sound(settings, Append(world, w, world.clients[w], skip))
  {
    AppendKeepsHistory(settings, world, w, skip);
    AppendKeepsClients(settings, world, w, skip);
    hide Increasing, Produced, Serial, EventsOf, Exact, ClientsOk, Place;
  }

  lemma RespondOk<A, C, E>(agg: Aggregate<A, C, E>, stream: seq<Placed<E>>, bound: int, verb: Verb, cmd: C,
      base: Option<Snapshot<A>>)
    requires Increasing(stream, bound) && (base.Some? ==> Exact(agg, stream, base.value))
    ensures ClientOk(agg, stream, Respond(agg, verb, cmd, LoadAggregate(agg, stream, base)))
  {
    LoadIsReplay(agg, stream, bound, base);
    var loaded := LoadAggregate(agg, stream, base);
    if loaded.Some? {
      assert UpToPosition(stream, loaded.value.version) == stream;
      var events := agg.handle(loaded.value.aggregate, cmd);
      if events.Some? {
        FoldConcat(agg, EventsOf(stream), events.value);
      }
    }
  }

  lemma ActSound<A, C, E>(settings: Settings<A, C, E>, world: World<A, C, E>, a: Action<C>)
    requires settings.checked && Sound(settings, world)
    ensures Sound(settings, Act(settings, world, a))
  {
    hide Fold, Place, Since, LoadAggregate, Append, Produced, Serial, EventsOf, UpToPosition;
    var client := ClientAt(world, a.w);
    match a
    case Replay(w) =>
      if client.Based? {
        RespondOk(settings.aggregate, world.stream, world.nextPosition, client.verb, client.cmd, client.base);
      }
    case Commit(w, skip) =>
      if client.Ready? && client.events != [] && Admitted(settings, world, client) {
        AppendSound(settings, world, w, skip);
      }
    case _ =>
  }

  /**
   Serial history and exact snapshots, for every interleaving of optimistic clients: each
   batch is what its command yields on exactly the events before it, or a single creation
   batch at the head, and every snapshot is the fold of the stream up to its position.
   */
  lemma {:induction false} EveryRunIsSerial<A, C, E>(settings: Settings<A, C, E>, firstPosition: int,
      actions: seq<Action<C>>)
    requires settings.checked
    ensures Sound(settings, Acts(settings, Start(firstPosition), actions))
  {
    if actions != [] {
      EveryRunIsSerial(settings, firstPosition, actions[..|actions| - 1]);
      ActSound(settings, Acts(settings, Start(firstPosition), actions[..|actions| - 1]), actions[|actions| - 1]);
    }
  }

  /** Whatever creation establishes and handling keeps is true of the aggregate after every commit. */
  lemma {:induction false} InvariantAfterEveryCommit<A(!new), C(!new), E(!new)>(agg: Aggregate<A, C, E>,
      inv: A -> bool, history: seq<Batch<C, E>>)
    requires Serial(agg, history) && history != []
    requires forall cmd, events :: agg.handleCreate(cmd) == Some(events) && events != [] ==> inv(Fold(agg, events))
    requires forall a, cmd, events :: inv(a) && agg.handle(a, cmd) == Some(events) ==> inv(ApplyAll(agg, a, events))
    ensures Produced(history) != [] && inv(Fold(agg, Produced(history)))
  {
    var before, batch := history[..|history| - 1], history[|history| - 1];
    if batch.creating {
      assert Produced(history) == batch.events;
    } else {
      InvariantAfterEveryCommit(agg, inv, before);
      FoldConcat(agg, Produced(before), batch.events);
    }
  }

  /** So the domain's own invariants hold in every reachable state. */
  lemma InvariantInEveryRun<A(!new), C(!new), E(!new)>(settings: Settings<A, C, E>, firstPosition: int,
      actions: seq<Action<C>>, inv: A -> bool)
    requires settings.checked
    requires var agg := settings.aggregate;
             forall cmd, events :: agg.handleCreate(cmd) == Some(events) && events != [] ==> inv(Fold(agg, events))
    requires var agg := settings.aggregate;
             forall a, cmd, events :: inv(a) && agg.handle(a, cmd) == Some(events) ==> inv(ApplyAll(agg, a, events))
    ensures var world := Acts(settings, Start(firstPosition), actions);
            world.stream != [] ==> inv(Fold(settings.aggregate, EventsOf(world.stream)))
  {
    EveryRunIsSerial(settings, firstPosition, actions);
    var world := Acts(settings, Start(firstPosition), actions);
    if world.stream != [] {
      InvariantAfterEveryCommit(settings.aggregate, inv, world.history);
    }
  }
}
