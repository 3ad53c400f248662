/**
 Whole commands: `create`, `update`, `upsert`, and `update_with_retry`, which repeats an
 update on conflict, while other clients act between any two steps.
 */
module Retries {
  import opened Options
  import opened Snapshots
  import opened Aggregates
  import opened Repository

  /** `SnapshotFailed` is reported after the commit has already happened. */
  datatype Outcome = Done | NotFound | Rejected | Conflicted | AlreadyExists | SnapshotFailed

  class Shared<A, C, E> {
    const settings: Settings<A, C, E>
    var world: World<A, C, E>

    constructor (settings: Settings<A, C, E>, world: World<A, C, E>)
      ensures this.settings == settings && this.world == world
    {
      this.settings, this.world := settings, world;
    }

    /** Other clients act; one client's own progress and its commits are not theirs to change. */
    method Others(self: int, actions: seq<Action<C>>)
      requires settings.checked && Sound(settings, world) && ByOthers(actions, self)
      modifies this
      ensures Sound(settings, world) && ClientAt(world, self) == old(ClientAt(world, self))
      ensures CommandsBy(world.history, self) == old(CommandsBy(world.history, self))
      ensures old(world.history) <= world.history && old(world.stream) <= world.stream
      ensures actions == [] ==> world == old(world)
    {
      var i := 0;
      while i < |actions|
        invariant 0 <= i <= |actions|
        invariant Sound(settings, world) && ClientAt(world, self) == old(ClientAt(world, self))
        invariant CommandsBy(world.history, self) == old(CommandsBy(world.history, self))
        invariant old(world.history) <= world.history && old(world.stream) <= world.stream
        invariant i == 0 ==> world == old(world)
      {
        OtherActs(settings, world, actions[i], self);
        world := Act(settings, world, actions[i]);
        i := i + 1;
      }
    }

    /**
     One command, to its end. `seen` is the stream it was handled on, `from` the position of
     the snapshot it was loaded through, `met` the stream its commit found. They and the
     storage decide how it ends; the command appends one batch, or nothing.
     */
    method Execute(self: int, verb: Verb, cmd: C, readable: bool, available: bool, skip: nat -> nat,
        between: nat -> seq<Action<C>>)
      returns (outcome: Outcome, committed: bool, ghost seen: seq<Placed<E>>, ghost from: Option<int>,
        ghost met: seq<Placed<E>>)
      requires settings.checked && Sound(settings, world) && ClientAt(world, self).Idle?
      requires forall i :: ByOthers(between(i), self)
      modifies this
      ensures Sound(settings, world) && ClientAt(world, self).Idle?
      ensures CommandsBy(world.history, self) == old(CommandsBy(world.history, self)) + if committed then [cmd] else []
      ensures old(world.history) <= world.history
      ensures old(world.stream) <= seen <= met <= world.stream
      ensures from == if readable && !verb.Create? then StoredAt(old(world.stored)) else None
      ensures from.Some? ==> WasVersion(seen, from.value)
      ensures Explained(settings, verb, seen, from, met, cmd, available, outcome, committed)
      ensures committed ==> Appended(met, Answer(settings.aggregate, verb, seen, cmd), world.stream)
      ensures outcome.Conflicted? ==> OthersCommitted(old(world.history), world.history, self)
      ensures (forall i :: between(i) == []) ==> met == seen
    {
      hide Sound, LoadAggregate, CommandsBy, Fold, EventsOf, Since, WasVersion, ShouldSnapshot, Appended, Increasing;
      var loaded;
      loaded, seen, from := LoadFor(self, verb, cmd, readable, between);
      met := seen;
      if loaded.None? && verb.Update? {
        return NotFound, false, seen, from, met;
      }
      var creating := loaded.None?;
      var events := if creating then settings.aggregate.handleCreate(cmd)
                    else settings.aggregate.handle(loaded.value.aggregate, cmd);
      if events.None? {
        return Rejected, false, seen, from, met;
      }
      if events.value == [] {
        return Done, false, seen, from, met;
      }
      var failed;
      committed, failed, met := Finalize(self, available, skip, between);
      HeadDecides(settings, world, seen, met);
      if !committed && !creating {
        HistoryGrew(settings, old(world), world);
        NoneOfThem(old(world.history), world.history, self);
      }
      outcome := if !committed then (if creating then AlreadyExists else Conflicted)
                 else if failed then SnapshotFailed else Done;
    }

    /** Load the snapshot, then the events past it, and handle the command on what they give. Creation loads nothing. */
    method LoadFor(self: int, verb: Verb, cmd: C, readable: bool, between: nat -> seq<Action<C>>)
      returns (loaded: Option<Loaded<A>>, ghost seen: seq<Placed<E>>, ghost from: Option<int>)
      requires settings.checked && Sound(settings, world) && ClientAt(world, self).Idle?
      requires forall i :: ByOthers(between(i), self)
      modifies this
      ensures Sound(settings, world) && ClientAt(world, self) == Respond(settings.aggregate, verb, cmd, loaded)
      ensures CommandsBy(world.history, self) == old(CommandsBy(world.history, self))
      ensures old(world.history) <= world.history && old(world.stream) <= seen == world.stream
      ensures from == if readable && !verb.Create? then StoredAt(old(world.stored)) else None
      ensures from.Some? ==> WasVersion(seen, from.value)
      ensures if verb.Create? then loaded.None? else LoadedOk(settings.aggregate, seen, from, loaded)
    {
      hide Sound, Act, LoadAggregate, CommandsBy, Fold, EventsOf, Since, WasVersion, Respond;
      from := if readable && !verb.Create? then StoredAt(world.stored) else None;
      BeginEffect(settings, world, self, verb, cmd, readable);
      Step(Begin(self, verb, cmd, readable));
      seen := world.stream;
      if verb.Create? {
        return None, seen, from;
      }
      Others(self, between(0));
      seen := world.stream;
      SoundLoad(settings, world, self);
      PlainDecodes(world.stream);
      var replayed := Load(settings.aggregate, Plain, world.stream, ClientAt(world, self).base);
      loaded := replayed.value;
      ReplayEffect(settings, world, self);
      Step(Replay(self));
    }

    /**
     Commit against the version loaded, or as a new stream; after a commit, offer the
     snapshot. The commit succeeds exactly when the stream it meets is at that version.
     */
    method Finalize(self: int, available: bool, skip: nat -> nat, between: nat -> seq<Action<C>>)
      returns (committed: bool, failed: bool, ghost met: seq<Placed<E>>)
      requires settings.checked && Sound(settings, world) && ClientAt(world, self).Ready?
      requires forall i :: ByOthers(between(i), self)
      modifies this
      ensures Sound(settings, world) && ClientAt(world, self).Idle?
      ensures var client := old(ClientAt(world, self));
              && (committed <==> Head(met) == client.expected)
              && CommandsBy(world.history, self)
                 == old(CommandsBy(world.history, self)) + (if committed then [client.cmd] else [])
              && (committed ==> Appended(met, Some(client.events), world.stream))
              && (failed <==> committed && !available && ShouldSnapshot(settings.policy, client.total))
      ensures old(world.history) <= world.history && old(world.stream) <= met <= world.stream
      ensures (forall i :: between(i) == []) ==> met == old(world.stream)
    {
      hide Sound, Act, CommandsBy, ShouldSnapshot, Appended;
      Others(self, between(1));
      met := world.stream;
      ReadyHasEvents(settings, world, self);
      CommitEffect(settings, world, self, skip);
      ghost var events := ClientAt(world, self).events;
      Step(Commit(self, skip));
      if ClientAt(world, self).Idle? {
        return false, false, met;
      }
      ghost var grown := world.stream;
      Others(self, between(2));
      AppendedGrows(met, Some(events), grown, world.stream);
      failed := !available && ShouldSnapshot(settings.policy, ClientAt(world, self).total);
      OfferEffect(settings, world, self, available);
      Step(Offer(self, available));
      committed := true;
    }

    method Step(a: Action<C>)
      requires settings.checked && Sound(settings, world)
      modifies this
      ensures world == Act(settings, old(world), a) && Sound(settings, world)
    {
      ActSound(settings, world, a);
      world := Act(settings, world, a);
    }

    /**
     Retry an update on conflict, at most `maxRetries` times. However other clients
     interleave, the command is attempted at most `maxRetries + 1` times and appends at most
     one batch; only running out of attempts surfaces a conflict, and each conflict means
     that somebody else has committed meanwhile. Left alone, the first attempt decides.
     */
    method UpdateWithRetry(self: int, cmd: C, maxRetries: nat, readable: nat -> bool, available: nat -> bool,
        skip: nat -> nat, between: nat -> nat -> seq<Action<C>>)
      returns (outcome: Outcome, attempts: nat, committed: bool, ghost seen: seq<Placed<E>>, ghost from: Option<int>,
        ghost met: seq<Placed<E>>)
      requires settings.checked && Sound(settings, world) && ClientAt(world, self).Idle?
      requires forall k, i :: ByOthers(between(k)(i), self)
      modifies this
      ensures Sound(settings, world)
      ensures 1 <= attempts <= maxRetries + 1
      ensures CommandsBy(world.history, self) == old(CommandsBy(world.history, self)) + if committed then [cmd] else []
      ensures old(world.history) <= world.history
      ensures outcome == Conflicted ==> attempts == maxRetries + 1
      ensures |old(world.history)| + attempts <= |world.history| + (if outcome == Conflicted then 0 else 1)
      ensures old(world.stream) <= seen <= met <= world.stream
      ensures from.Some? ==> readable(attempts - 1) && WasVersion(seen, from.value)
      ensures Explained(settings, Update, seen, from, met, cmd, available(attempts - 1), outcome, committed)
      ensures committed ==> Appended(met, Answer(settings.aggregate, Update, seen, cmd), world.stream)
      ensures (forall k, i :: between(k)(i) == []) ==> attempts == 1 && met == seen
    {
      hide Sound, Explained, WasVersion, CommandsBy, ByOthers, Appended, Answer;
      attempts := 0;
      while true
        invariant Sound(settings, world) && ClientAt(world, self).Idle?
        invariant attempts <= maxRetries
        invariant CommandsBy(world.history, self) == old(CommandsBy(world.history, self))
        invariant old(world.history) <= world.history && old(world.stream) <= world.stream
        invariant |old(world.history)| + attempts <= |world.history|
        invariant (forall k, i :: between(k)(i) == []) ==> attempts == 0
        decreases maxRetries - attempts
      {
        var n := attempts;
        attempts := attempts + 1;
        outcome, committed, seen, from, met := Execute(self, Update, cmd, readable(n), available(n), skip, between(n));
        ConflictAppendsNothing(settings, Update, seen, from, met, cmd, available(n), outcome, committed);
        if outcome != Conflicted || attempts > maxRetries {
          return;
        }
      }
    }
  }

  /** The count an update offers with: what it replayed past its snapshot, and what it appended. */
  function Counted<E>(seen: seq<Placed<E>>, from: Option<int>, events: seq<E>): nat {
    |Since(seen, from)| + |events|
  }

  /** The command makes a new stream: it is a creation, or an upsert that found none. */
  predicate Creates<E>(verb: Verb, seen: seq<Placed<E>>) {
    verb.Create? || (verb.Upsert? && seen == [])
  }

  /** What the aggregate answers to the command on the stream it saw. */
  function Answer<A, C, E>(agg: Aggregate<A, C, E>, verb: Verb, seen: seq<Placed<E>>, cmd: C): Option<seq<E>> {
    if Creates(verb, seen) then agg.handleCreate(cmd)
    else if seen == [] then None
    else agg.handle(Fold(agg, EventsOf(seen)), cmd)
  }

  /**
   Each outcome means one thing: no such aggregate, a rejected command, nothing to append,
   or events to append. These are committed exactly when the commit meets an empty stream,
   for a creation, or else the very stream the command was handled on. A snapshot error is
   reported exactly when the commit succeeded, the policy was due at the count, and the
   storage did not answer.
   */
  ghost predicate Explained<A, C, E>(settings: Settings<A, C, E>, verb: Verb, seen: seq<Placed<E>>, from: Option<int>,
      met: seq<Placed<E>>, cmd: C, available: bool, outcome: Outcome, committed: bool) {
    var creating, answer := Creates(verb, seen), Answer(settings.aggregate, verb, seen, cmd);
    if verb.Update? && seen == [] then outcome == NotFound && !committed
    else if answer.None? then outcome == Rejected && !committed
    else if answer.value == [] then outcome == Done && !committed
    else
      var count := if creating then |answer.value| else Counted(seen, from, answer.value);
      && (committed <==> met == if creating then [] else seen)
      && outcome == if !committed then (if creating then AlreadyExists else Conflicted)
                    else if !available && ShouldSnapshot(settings.policy, count) then SnapshotFailed
                    else Done
  }

  lemma ConflictAppendsNothing<A, C, E>(settings: Settings<A, C, E>, verb: Verb, seen: seq<Placed<E>>,
      from: Option<int>, met: seq<Placed<E>>, cmd: C, available: bool, outcome: Outcome, committed: bool)
    requires Explained(settings, verb, seen, from, met, cmd, available, outcome, committed)
    ensures outcome == Conflicted ==> !committed && met != seen
  {
  }

  /** The events stand in the stream right after what the commit met. */
  ghost predicate Appended<E>(met: seq<Placed<E>>, events: Option<seq<E>>, stream: seq<Placed<E>>) {
    && events.Some? && met <= stream && |met| + |events.value| <= |stream|
    && EventsOf(stream[|met|..|met| + |events.value|]) == events.value
  }

  lemma AppendedGrows<E>(met: seq<Placed<E>>, events: Option<seq<E>>, stream: seq<Placed<E>>, later: seq<Placed<E>>)
    requires Appended(met, events, stream) && stream <= later
    ensures Appended(met, events, later)
  {
    var n := |met| + |events.value|;
    assert later[|met|..n] == stream[|met|..n];
  }

  /** Somebody else has committed since, and nobody but others. */
  ghost predicate OthersCommitted<C, E>(before: seq<Batch<C, E>>, after: seq<Batch<C, E>>, self: int) {
    |before| < |after| && forall i :: |before| <= i < |after| ==> after[i].client != self
  }

  lemma {:induction false} NoneOfThem<C, E>(before: seq<Batch<C, E>>, after: seq<Batch<C, E>>, self: int)
    requires before <= after && CommandsBy(after, self) == CommandsBy(before, self)
    ensures forall i :: |before| <= i < |after| ==> after[i].client != self
  {
    if |before| < |after| {
      var front := after[..|after| - 1];
      CommandsByGrows(before, front, self);
      assert |CommandsBy(front, self)| <= |CommandsBy(after, self)|;
      NoneOfThem(before, front, self);
    }
  }

  lemma {:induction false} CommandsByGrows<C, E>(before: seq<Batch<C, E>>, after: seq<Batch<C, E>>, self: int)
    requires before <= after
    ensures CommandsBy(before, self) <= CommandsBy(after, self)
  {
    if |before| < |after| {
      CommandsByGrows(before, after[..|after| - 1], self);
    } else {
      assert before == after;
    }
  }

  /** A longer stream has a longer history. */
  lemma HistoryGrew<A, C, E>(settings: Settings<A, C, E>, before: World<A, C, E>, after: World<A, C, E>)
    requires Sound(settings, before) && Sound(settings, after)
    requires before.history <= after.history && |before.stream| < |after.stream|
    ensures |before.history| < |after.history|
  {
    assert |before.history| == |after.history| ==> before.history == after.history;
  }

  /** The version tells whether a stream has grown. */
  lemma HeadDecides<A, C, E>(settings: Settings<A, C, E>, world: World<A, C, E>, seen: seq<Placed<E>>,
      met: seq<Placed<E>>)
    requires Sound(settings, world) && seen <= met <= world.stream
    ensures Head(met) == Head(seen) <==> met == seen
    ensures Head(met) == None <==> met == []
  {
    if seen != [] && |seen| < |met| {
      assert met[|seen| - 1] == seen[|seen| - 1] && met[|met| - 1] == world.stream[|met| - 1];
    }
  }

  lemma ReadyHasEvents<A, C, E>(settings: Settings<A, C, E>, world: World<A, C, E>, self: int)
    requires Sound(settings, world) && ClientAt(world, self).Ready?
    ensures var client := ClientAt(world, self);
            client.events != [] && (client.creating ==> client.expected.None?)
  {
    ClientIsOk(settings, world, self);
  }

  /** A load gives the fold of the stream as it is, and counts what lies past its snapshot. */
  ghost predicate LoadedOk<A, C, E>(agg: Aggregate<A, C, E>, stream: seq<Placed<E>>, from: Option<int>,
      loaded: Option<Loaded<A>>) {
    if stream == [] then loaded.None?
    else
      && loaded.Some? && loaded.value.aggregate == Fold(agg, EventsOf(stream))
      && Some(loaded.value.version) == Head(stream)
      && loaded.value.eventsSinceSnapshot == |Since(stream, from)|
  }

  lemma {:induction false} SoundLoad<A, C, E>(settings: Settings<A, C, E>, world: World<A, C, E>, self: int)
    requires Sound(settings, world) && ClientAt(world, self).Based?
    ensures var base := ClientAt(world, self).base;
            && LoadedOk(settings.aggregate, world.stream, StoredAt(base),
                        LoadAggregate(settings.aggregate, world.stream, base))
            && (base.Some? ==> WasVersion(world.stream, StoredAt(base).value))
  {
    LoadIsReplay(settings.aggregate, world.stream, world.nextPosition, ClientAt(world, self).base);
  }

  predicate ByOthers<C>(actions: seq<Action<C>>, self: int) {
    forall i :: 0 <= i < |actions| ==> actions[i].w != self
  }

  /** The commands a client has committed, in order. */
  function CommandsBy<C, E>(history: seq<Batch<C, E>>, client: int): seq<C> {
    if history == [] then []
    else
      var earlier, batch := CommandsBy(history[..|history| - 1], client), history[|history| - 1];
      if batch.client == client then earlier + [batch.cmd] else earlier
  }

  lemma {:induction false} OtherActs<A, C, E>(settings: Settings<A, C, E>, world: World<A, C, E>, a: Action<C>,
      self: int)
    requires settings.checked && Sound(settings, world) && a.w != self
    ensures var next := Act(settings, world, a);
            && Sound(settings, next) && ClientAt(next, self) == ClientAt(world, self)
            && CommandsBy(next.history, self) == CommandsBy(world.history, self)
            && world.history <= next.history && world.stream <= next.stream
  {
    ActSound(settings, world, a);
    ActLeavesOther(settings, world, a, self);
  }

  /** One client's action leaves another's progress and commits as they are. */
  lemma {:induction false} ActLeavesOther<A, C, E>(settings: Settings<A, C, E>, world: World<A, C, E>, a: Action<C>,
      self: int)
    requires a.w != self
    ensures var next := Act(settings, world, a);
            && ClientAt(next, self) == ClientAt(world, self)
            && CommandsBy(next.history, self) == CommandsBy(world.history, self)
            && world.history <= next.history && world.stream <= next.stream
  {
    hide Place, LoadAggregate, Respond, AfterOffer, Admitted, CommandsBy;
    var next := Act(settings, world, a);
    if next.history != world.history {
      CommandsByAppend(world.history, next.history[|world.history|], self);
    }
  }

  lemma CommandsByAppend<C, E>(history: seq<Batch<C, E>>, batch: Batch<C, E>, client: int)
    ensures CommandsBy(history + [batch], client) ==
              CommandsBy(history, client) + (if batch.client == client then [batch.cmd] else [])
  {
    assert (history + [batch])[..|history + [batch]| - 1] == history;
  }

  /** The commit step appends this client's batch exactly at the version it expects, and else leaves it idle. */
  lemma CommitEffect<A, C, E>(settings: Settings<A, C, E>, world: World<A, C, E>, self: int, skip: nat -> nat)
    requires settings.checked && ClientAt(world, self).Ready? && ClientAt(world, self).events != []
    ensures var next := Act(settings, world, Commit(self, skip));
            var before, client := ClientAt(world, self), ClientAt(next, self);
            if Head(world.stream) == before.expected then
              && client.Offering? && client.total == before.total
              && CommandsBy(next.history, self) == CommandsBy(world.history, self) + [before.cmd]
              && Appended(world.stream, Some(before.events), next.stream)
              && world.history <= next.history && world.stream <= next.stream
            else next == world.(clients := world.clients[self := Idle])
  {
    var before := ClientAt(world, self);
    if Head(world.stream) == before.expected {
      AppendEffect(world, self, before, skip);
      hide Place, CommandsBy, Appended;
    }
  }

  lemma AppendEffect<A, C, E>(world: World<A, C, E>, self: int, client: Client<A, C, E>, skip: nat -> nat)
    requires client.Ready? && client.events != []
    ensures var next := Append(world, self, client, skip);
            && CommandsBy(next.history, self) == CommandsBy(world.history, self) + [client.cmd]
            && Appended(world.stream, Some(client.events), next.stream)
  {
    hide EventsOf, Rising;
    CommandsByAppend(world.history, Batch(self, client.creating, client.cmd, client.events), self);
    var placed := Place(client.events, world.nextPosition, skip);
    PlaceOk(client.events, world.nextPosition, skip);
    assert (world.stream + placed)[|world.stream|..|world.stream| + |placed|] == placed;
  }

  lemma BeginEffect<A, C, E>(settings: Settings<A, C, E>, world: World<A, C, E>, self: int, verb: Verb, cmd: C,
      readable: bool)
    requires ClientAt(world, self).Idle?
    ensures var next := Act(settings, world, Begin(self, verb, cmd, readable));
            && ClientAt(next, self) ==
                 (if verb.Create? then Respond(settings.aggregate, verb, cmd, None)
                  else Based(verb, cmd, if readable then world.stored else None))
            && next.history == world.history && next.stream == world.stream
  {
  }

  lemma ReplayEffect<A, C, E>(settings: Settings<A, C, E>, world: World<A, C, E>, self: int)
    requires ClientAt(world, self).Based?
    ensures var next, client := Act(settings, world, Replay(self)), ClientAt(world, self);
            && ClientAt(next, self) == Respond(settings.aggregate, client.verb, client.cmd,
                                               LoadAggregate(settings.aggregate, world.stream, client.base))
            && next.history == world.history && next.stream == world.stream
  {
  }

  lemma OfferEffect<A, C, E>(settings: Settings<A, C, E>, world: World<A, C, E>, self: int, available: bool)
    requires ClientAt(world, self).Offering?
    ensures var next := Act(settings, world, Offer(self, available));
            ClientAt(next, self).Idle? && next.history == world.history && next.stream == world.stream
  {
  }
}
