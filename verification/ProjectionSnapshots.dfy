/**
 On-demand projection loads that start from a snapshot kept at a stream position. Loaders
 and committers interleave between the snapshot load, the event load and the offer.
 */
module ProjectionSnapshots {
  import opened Options
  import opened EventLog
  import opened Filters
  import opened Snapshots
  import opened Projections
  import opened MemorySubscription

  /** `seen` is the length of the log when the events were loaded. */
  datatype Loader<P> =
    | Idle
    | Based(base: P, from: Option<int>)
    | Offering(result: P, position: int, count: nat, seen: nat)
    | Done(result: P, seen: nat)
    | Undecodable(seen: nat)

  datatype Settings<!P> = Settings(def: Projection<P>, filters: seq<EventFilter>, policy: SnapshotPolicy)

  datatype World<P> = World(log: seq<Entry>, stored: Option<Snapshot<P>>, loaders: map<int, Loader<P>>)

  datatype Action =
    | Commit(events: seq<StoredEvent>)
    | Begin(loader: int, readable: bool)
    | Load(loader: int)
    | Offer(loader: int, available: bool)

  function LoaderAt<P>(world: World<P>, l: int): Loader<P> {
    if l in world.loaders then world.loaders[l] else Idle
  }

  function LoadFrom<P>(settings: Settings<P>, log: seq<Entry>, base: P, from: Option<int>): Loader<P> {
    var events := Window(log, SetAfter(settings.filters, from), None, At(|log| - 1));
    var result := Replay(settings.def, base, events);
    if result.None? then Undecodable(|log|)
    else if events == [] then Done(result.value, |log|)
    else Offering(result.value, events[|events| - 1].event.position, |events|, |log|)
  }

  function Act<P>(settings: Settings<P>, world: World<P>, a: Action): World<P> {
    match a
    case Commit(events) =>
      world.(log := world.log + Stamped(events, |world.log|))
    case Begin(l, readable) =>
      if !LoaderAt(world, l).Idle? then world
      else if readable && world.stored.Some? then
        var snapshot := world.stored.value;
        world.(loaders := world.loaders[l := Based(snapshot.data, Some(snapshot.position.position))])
      else world.(loaders := world.loaders[l := Based(settings.def.init, None)])
    case Load(l) =>
      (match LoaderAt(world, l)
       case Based(base, from) => world.(loaders := world.loaders[l := LoadFrom(settings, world.log, base, from)])
       case _ => world)
    case Offer(l, available) =>
      (match LoaderAt(world, l)
       case Offering(result, position, count, seen) =>
         // a failed offer is logged and ignored
         var stored := AfterOffer(settings.policy, world.stored, count, Snapshot(At(position), result));
         world.(stored := if available then stored else world.stored,
                loaders := world.loaders[l := Done(result, seen)])
       case _ => world)
  }

  function Acts<P>(settings: Settings<P>, world: World<P>, actions: seq<Action>): World<P> {
    if actions == [] then world
    else Act(settings, Acts(settings, world, actions[..|actions| - 1]), actions[|actions| - 1])
  }

  function Start<P>(log: seq<Entry>): World<P> {
    World(log, None, map[])
  }

  /** What a load without any snapshot computes on a log. */
  function FromScratch<P>(settings: Settings<P>, log: seq<Entry>): Option<P> {
    Replay(settings.def, settings.def.init, Window(log, settings.filters, None, At(|log| - 1)))
  }

  ghost predicate Positioned(log: seq<Entry>) {
    Dense(log) && forall i :: 0 <= i < |log| ==> log[i].event.position == i
  }

  /** A snapshot holds the fold of the matching events up to its position. */
  ghost predicate Exact<P>(settings: Settings<P>, log: seq<Entry>, data: P, position: int) {
    0 <= position < |log| && IsFold(settings.def, log, settings.filters, Some(At(position)), data)
  }

  ghost predicate LoaderOk<P>(settings: Settings<P>, log: seq<Entry>, loader: Loader<P>) {
    match loader
    case Idle => true
    case Based(base, from) => if from.None? then base == settings.def.init else Exact(settings, log, base, from.value)
    case Offering(result, position, _, seen) =>
      seen <= |log| && FromScratch(settings, log[..seen]) == Some(result) && Exact(settings, log, result, position)
    case Done(result, seen) => seen <= |log| && FromScratch(settings, log[..seen]) == Some(result)
    case Undecodable(seen) => seen <= |log| && FromScratch(settings, log[..seen]) == None
  }

  ghost predicate Sound<P>(settings: Settings<P>, world: World<P>) {
    && Positioned(world.log)
    && (world.stored.Some? ==>
          && world.stored.value.position.xid == 0
          && Exact(settings, world.log, world.stored.value.data, world.stored.value.position.position))
    && (forall l :: l in world.loaders ==> LoaderOk(settings, world.log, world.loaders[l]))
  }

  /** Filters positioned after the snapshot select exactly what lies past it. */
  lemma PositionedWindow(log: seq<Entry>, fs: seq<EventFilter>, from: Option<int>)
    requires Positioned(log) && PositionFree(fs)
    ensures Window(log, SetAfter(fs, from), None, At(|log| - 1))
         == Window(log, fs, if from.None? then None else Some(At(from.value)), At(|log| - 1))
  {
    var lo := if from.None? then None else Some(At(from.value));
    forall e | e in log
      ensures Selected(e, SetAfter(fs, from), None, At(|log| - 1)) <==> Selected(e, fs, lo, At(|log| - 1))
    {
      MatchesAfter(fs, if from.None? then 0 else from.value, e.event);
    }
    WindowSame(log, SetAfter(fs, from), None, At(|log| - 1), fs, lo, At(|log| - 1));
  }

  /** Starting from a snapshot changes nothing: the load gives what a load from scratch gives on the same log. */
  lemma LoadIsFromScratch<P>(settings: Settings<P>, log: seq<Entry>, base: P, from: Option<int>)
    requires Positioned(log) && PositionFree(settings.filters)
    requires LoaderOk(settings, log, Based(base, from))
    ensures LoaderOk(settings, log, LoadFrom(settings, log, base, from))
  {
    var fs, top := settings.filters, At(|log| - 1);
    PositionedWindow(log, fs, from);
    DenseOrdered(log);
    assert log[..|log|] == log;
    var events := Window(log, SetAfter(fs, from), None, top);
    if from.Some? {
      WindowSplit(log, fs, None, At(from.value), top);
      ReplayConcat(settings.def, settings.def.init, Window(log, fs, None, At(from.value)), events);
    }
    if events != [] {
      LastIsTop(log, fs, if from.None? then None else Some(At(from.value)));
    }
  }

  /** Nothing matching lies past the last event loaded, so its position stands for the whole log. */
  lemma LastIsTop(log: seq<Entry>, fs: seq<EventFilter>, lo: Option<Checkpoint>)
    requires Positioned(log) && (lo.Some? ==> AtMost(lo.value, At(|log| - 1)))
    requires Window(log, fs, lo, At(|log| - 1)) != []
    ensures var events := Window(log, fs, lo, At(|log| - 1)); var p := events[|events| - 1].event.position;
            0 <= p < |log| && Window(log, fs, None, At(p)) == Window(log, fs, None, At(|log| - 1))
  {
    var top := At(|log| - 1);
    var events := Window(log, fs, lo, top);
    DenseOrdered(log);
    WindowMember(log, fs, lo, top);
    assert events[|events| - 1] in log;
    var p := events[|events| - 1].event.position;
    WindowCut(log, fs, lo, top, |events|);
    WindowSplit(log, fs, None, At(p), top);
  }

  lemma ExactCarries<P>(settings: Settings<P>, log: seq<Entry>, more: seq<Entry>, data: P, position: int)
    requires Exact(settings, log, data, position)
    requires forall i :: 0 <= i < |more| ==> more[i].checkpoint == At(|log| + i)
    ensures Exact(settings, log + more, data, position)
  {
    AppendFrozen(log, more, settings.filters, None, At(position));
  }

  lemma CommitSound<P>(settings: Settings<P>, world: World<P>, events: seq<StoredEvent>)
    requires Sound(settings, world)
    ensures Sound(settings, Act(settings, world, Commit(events)))
  {
    hide IsFold, FromScratch, Window;
    var more := Stamped(events, |world.log|);
    if world.stored.Some? {
      ExactCarries(settings, world.log, more, world.stored.value.data, world.stored.value.position.position);
    }
    forall l | l in world.loaders ensures LoaderOk(settings, world.log + more, world.loaders[l]) {
      var loader := world.loaders[l];
      assert LoaderOk(settings, world.log, loader);
      if loader.Based? && loader.from.Some? {
        ExactCarries(settings, world.log, more, loader.base, loader.from.value);
      } else if loader.Offering? {
        ExactCarries(settings, world.log, more, loader.result, loader.position);
        assert (world.log + more)[..loader.seen] == world.log[..loader.seen];
      } else if loader.Done? || loader.Undecodable? {
        assert (world.log + more)[..loader.seen] == world.log[..loader.seen];
      }
    }
  }

  lemma ActSound<P>(settings: Settings<P>, world: World<P>, a: Action)
    requires Sound(settings, world) && PositionFree(settings.filters)
    ensures Sound(settings, Act(settings, world, a))
  {
    match a
    case Commit(events) => CommitSound(settings, world, events);
    case Load(l) =>
      var loader := LoaderAt(world, l);
      if loader.Based? {
        LoadIsFromScratch(settings, world.log, loader.base, loader.from);
      }
    case _ =>
  }

  function Past(settings: Settings, log: seq<Entry>, from: Option<int>): seq<Entry> {
    Window(log, SetAfter(settings.filters, from), None, At(|log| - 1))
  }

  lemma {:induction false} LoadGives<P>(settings: Settings<P>, log: seq<Entry>, base: P, from: Option<int>)
    requires Positioned(log) && PositionFree(settings.filters) && LoaderOk(settings, log, Based(base, from))
    ensures var loader, count := LoadFrom(settings, log, base, from), |Past(settings, log, from)|;
            match FromScratch(settings, log)
            case None => loader == Undecodable(|log|)
            case Some(result) =>
              if count == 0 then loader == Done(result, |log|)
              else
                && loader.Offering? && Exact(settings, log, result, loader.position)
                && loader == Offering(result, loader.position, count, |log|)
  {
    LoadIsFromScratch(settings, log, base, from);
    hide FromScratch, Exact, Window, Replay;
    assert log[..|log|] == log;
  }

  /** The snapshot a load with this result leaves, offered at a position where it is exact. */
  ghost predicate Offered<P>(settings: Settings<P>, world: World<P>, result: P, count: nat,
      stored: Option<Snapshot<P>>) {
    exists p :: Exact(settings, world.log, result, p)
      && stored == AfterOffer(settings.policy, world.stored, count, Snapshot(At(p), result))
  }

  /**
   An undisturbed load goes through: it returns what a load from scratch gives, or fails to
   decode exactly when that does, and offers its result with the number of events it replayed.
   */
  lemma {:induction false} LoadGoesThrough<P>(settings: Settings<P>, world: World<P>, l: int, readable: bool,
      available: bool)
    requires Sound(settings, world) && PositionFree(settings.filters) && LoaderAt(world, l).Idle?
    ensures var loaded := Act(settings, Act(settings, world, Begin(l, readable)), Load(l));
            var done := Act(settings, loaded, Offer(l, available));
            var from := if readable && world.stored.Some? then Some(world.stored.value.position.position) else None;
            var count := |Past(settings, world.log, from)|;
            && done.log == world.log
            && match FromScratch(settings, world.log)
               case None => LoaderAt(done, l) == Undecodable(|world.log|) && done.stored == world.stored
               case Some(result) =>
                 && LoaderAt(done, l) == Done(result, |world.log|)
                 && if count == 0 || !available then done.stored == world.stored
                    else Offered(settings, world, result, count, done.stored)
  {
    hide FromScratch, Exact, Window, AfterOffer, LoadFrom, Past;
    var begun := Act(settings, world, Begin(l, readable));
    ActSound(settings, world, Begin(l, readable));
    var loader := LoaderAt(begun, l);
    assert LoaderOk(settings, world.log, loader);
    LoadGives(settings, world.log, loader.base, loader.from);
    var loaded := Act(settings, begun, Load(l));
    assert LoaderAt(loaded, l) == LoadFrom(settings, world.log, loader.base, loader.from);
  }

  /**
   Every load, under any interleaving of loaders and committers, returns the fold that a
   load from scratch gives on the log it read, or fails to decode exactly when that does.
   */
  lemma {:induction false} EveryLoadIsFromScratch<P>(settings: Settings<P>, log: seq<Entry>, actions: seq<Action>)
    requires Positioned(log) && PositionFree(settings.filters)
    ensures Sound(settings, Acts(settings, Start(log), actions))
  {
    if actions != [] {
      EveryLoadIsFromScratch(settings, log, actions[..|actions| - 1]);
      ActSound(settings, Acts(settings, Start(log), actions[..|actions| - 1]), actions[|actions| - 1]);
    }
  }
}
