/**
 Read your writes, from commit to read model, on both stores: the store's own loop feeds
 the shared runner, fresh or resumed from a durable snapshot, and a reader waiting for its
 token gets a state with its write in it. Both stores meet the contract the runner asks for.
 */
module EndToEnd {
  import opened Options
  import opened EventLog
  import opened Delivery
  import opened Cursors
  import opened Snapshots
  import opened Projections
  import opened Runner
  import opened Sessions
  import PostgresDatabase
  import PostgresSubscription
  import MemorySubscription

  /** `state` is one replay of a prefix of the log that holds every matching event up to the token. */
  ghost predicate ReadsPast<P>(def: Projection<P>, log: seq<Entry>, fs: seq<EventFilter>, token: Checkpoint,
      upto: Option<Checkpoint>, state: P) {
    Replay(def, def.init, UpTo(log, fs, upto)) == Some(state) && Window(log, fs, None, token) <= UpTo(log, fs, upto)
  }

  /**
   Feed what a store has yielded so far to a runner resumed from the durable snapshot, then
   read with a token. `log` is any log for which the items are faithful.
   */
  method ReadWith<P>(def: Projection<P>, fs: seq<EventFilter>, snapshots: SnapshotStore<P>, items: seq<Item>,
      token: Checkpoint, available: nat -> bool, ghost log: seq<Entry>)
    returns (state: Option<P>, decoded: bool, ghost upto: Option<Checkpoint>)
    requires Ordered(log) && Durable(def, log, fs, snapshots.stored)
    requires Faithful(items, fs, PositionOf(snapshots.stored), log)
    modifies snapshots
    ensures state.Some? ==> ReadsPast(def, log, fs, token, upto, state.value)
    ensures var from := old(PositionOf(snapshots.stored));
            && (decoded <==> Replay(def, def.init, UpTo(log, fs, from) + Fresh(items, from)).Some?)
            && (decoded ==> upto == LastKept(Fresh(items, from), from))
            && (state.Some? <==> decoded && OptAtMost(Some(token), Furthest(items, from)))
    ensures Durable(def, log, fs, snapshots.stored) && Advanced(old(snapshots.stored), snapshots.stored)
  {
    hide Faithful, GapFree, Replay, Window, Ordered, IsFold, IsEvent, Durable, Fresh, LastKept, UpTo, History,
      AllAttached;
    var runner := new ProjectionRunner(def, fs, snapshots, None, true, log);
    BaseReplay(runner, Fresh(items, runner.resume));
    decoded := Consume(runner, items, available);
    upto := runner.Shown();
    if !decoded {
      return None, false, upto;
    }
    state := runner.ReadAfter(Some(token));
  }

  /**
   Postgres, at any moment. Whatever cycles the subscriber has run, from wherever it
   started, and whatever writers do afterwards: a state read with a token is one replay of
   a prefix of the log, holding every matching event up to the token that ever commits.
   */
  method PostgresRead<P>(def: Projection<P>, subscriber: PostgresSubscription.Subscriber, snapshots: SnapshotStore<P>,
      token: Checkpoint, available: nat -> bool, ghost steps: seq<PostgresDatabase.Step>)
    returns (state: Option<P>, decoded: bool, ghost upto: Option<Checkpoint>)
    requires subscriber.Valid() && subscriber.from == PositionOf(snapshots.stored)
    requires Durable(def, PostgresDatabase.Run(subscriber.server.db, steps).table, subscriber.filters, snapshots.stored)
    modifies snapshots
    ensures var log := PostgresDatabase.Run(subscriber.server.db, steps).table;
            state.Some? ==> ReadsPast(def, log, subscriber.filters, token, upto, state.value)
    ensures var log := PostgresDatabase.Run(subscriber.server.db, steps).table;
            var events := Fresh(subscriber.out, subscriber.from);
            && (decoded <==> Replay(def, def.init, UpTo(log, subscriber.filters, subscriber.from) + events).Some?)
            && (decoded ==> upto == LastKept(events, subscriber.from))
            && (state.Some? <==> decoded && OptAtMost(Some(token), Furthest(subscriber.out, subscriber.from)))
  {
    hide Faithful, GapFree, Replay, Window, IsFold, IsEvent, Durable, Fresh, LastKept, UpTo, ReadsPast,
      PostgresDatabase.Run;
    ghost var log := PostgresDatabase.Run(subscriber.server.db, steps).table;
    PostgresDatabase.RunValid(subscriber.server.db, steps);
    PostgresSubscription.InStepForever(subscriber.server.db, steps, subscriber.filters, subscriber.from,
      subscriber.cursor, subscriber.out);
    state, decoded, upto := ReadWith(def, subscriber.filters, snapshots, subscriber.out, token, available, log);
  }

  /**
   Postgres, after a cycle. Writers keep committing throughout. Once a cycle's `xmin` is
   past the write, a reader holding its token gets exactly the replay of every matching
   event up to that cycle's boundary, the write among them, unless one of them does not decode.
   */
  method PostgresReadYourWrite<P>(def: Projection<P>, subscriber: PostgresSubscription.Subscriber,
      snapshots: SnapshotStore<P>, written: Entry, schedule: nat -> seq<PostgresDatabase.Step>, available: nat -> bool)
    returns (state: Option<P>, xmin: int)
    requires subscriber.Valid() && subscriber.from == PositionOf(snapshots.stored)
    requires Durable(def, subscriber.server.db.table, subscriber.filters, snapshots.stored)
    requires subscriber.from.Some? ==> PostgresDatabase.Settled(subscriber.server.db, subscriber.from.value.xid)
    requires written in subscriber.server.db.table
             && written.checkpoint.xid < PostgresDatabase.Xmin(subscriber.server.db)
    modifies subscriber, subscriber.server, snapshots
    ensures xmin == PostgresDatabase.Xmin(old(subscriber.server.db))
    ensures var top := PostgresSubscription.Boundary(xmin);
            var events := Window(subscriber.server.db.table, subscriber.filters, None, top);
            && state == Replay(def, def.init, events)
            && (Matches(subscriber.filters, written.event) ==> written in events)
  {
    hide Faithful, GapFree, Replay, Window, IsFold, IsEvent, Durable, Fresh, LastKept, UpTo, Delivered,
      PostgresDatabase.Run;
    ghost var before, from := subscriber.server.db, subscriber.from;
    ghost var ran;
    xmin, ran := subscriber.Cycle(schedule);
    ghost var log, top := subscriber.server.db.table, PostgresSubscription.Boundary(xmin);
    WrittenInBoundary(before, ran, written, subscriber.filters, xmin);
    DurableForever(def, before, ran, subscriber.filters, snapshots.stored);
    assert PostgresDatabase.Run(subscriber.server.db, []) == subscriber.server.db by { NoSteps(subscriber.server.db); }
    ReachesTop(log, subscriber.filters, from, Fresh(subscriber.out, from), top);
    LastReaches(subscriber.out, from, written.checkpoint);
    ghost var upto; var decoded;
    state, decoded, upto := PostgresRead(def, subscriber, snapshots, written.checkpoint, available, []);
    if state.Some? {
      StateAtTop(def, log, subscriber.filters, written.checkpoint, upto, state.value, top);
    }
  }

  lemma LastReaches(items: seq<Item>, from: Option<Checkpoint>, token: Checkpoint)
    requires items != [] && AtMost(token, ItemCheckpoint(items[|items| - 1]))
    ensures OptAtMost(Some(token), Furthest(items, from))
  {
  }

  lemma NoSteps(db: PostgresDatabase.Database)
    ensures PostgresDatabase.Run(db, []) == db
  {
  }

  lemma StateAtTop<P>(def: Projection<P>, log: seq<Entry>, fs: seq<EventFilter>, token: Checkpoint,
      upto: Option<Checkpoint>, state: P, top: Checkpoint)
    requires ReadsPast(def, log, fs, token, upto, state) && UpTo(log, fs, upto) == Window(log, fs, None, top)
    ensures Replay(def, def.init, Window(log, fs, None, top)) == Some(state)
  {
  }

  /** Having kept everything from the start point to `top`, the last event kept stands for `top`. */
  lemma ReachesTop(log: seq<Entry>, fs: seq<EventFilter>, from: Option<Checkpoint>, kept: seq<Entry>, top: Checkpoint)
    requires Ordered(log) && kept == Window(log, fs, from, top) && OptAtMost(from, Some(top))
    ensures UpTo(log, fs, LastKept(kept, from)) == UpTo(log, fs, from) + kept == Window(log, fs, None, top)
  {
    if from.Some? {
      WindowSplit(log, fs, None, from.value, top);
    } else {
      assert [] + kept == kept;
    }
    if kept != [] {
      WindowCut(log, fs, from, top, |kept|);
      WindowSplit(log, fs, None, kept[|kept| - 1].checkpoint, top);
    }
  }

  lemma WrittenInBoundary(db: PostgresDatabase.Database, steps: seq<PostgresDatabase.Step>, written: Entry,
      fs: seq<EventFilter>, xmin: int)
    requires PostgresDatabase.Valid(db) && written in db.table && written.checkpoint.xid < xmin
    ensures var top := PostgresSubscription.Boundary(xmin); var log := PostgresDatabase.Run(db, steps).table;
            && AtMost(written.checkpoint, top)
            && (Matches(fs, written.event) ==> written in Window(log, fs, None, top))
  {
    StillWritten(db, steps, written);
    PostgresSubscription.BoundaryCoversCommits(db, written, xmin);
    WindowMember(PostgresDatabase.Run(db, steps).table, fs, None, PostgresSubscription.Boundary(xmin));
  }

  /** A settled durable snapshot stays durable whatever writers do. */
  lemma DurableForever<P>(def: Projection<P>, db: PostgresDatabase.Database, steps: seq<PostgresDatabase.Step>,
      fs: seq<EventFilter>, stored: Option<Snapshot<P>>)
    requires PostgresDatabase.Valid(db) && Durable(def, db.table, fs, stored)
    requires stored.Some? ==> PostgresDatabase.Settled(db, stored.value.position.xid)
    ensures Durable(def, PostgresDatabase.Run(db, steps).table, fs, stored)
  {
    if stored.Some? {
      PostgresDatabase.SettledFrozen(db, steps, fs, None, stored.value.position);
      var e :| e in db.table && Matches(fs, e.event) && e.checkpoint == stored.value.position;
      StillWritten(db, steps, e);
    }
  }

  /** Committed rows are never removed. */
  lemma {:induction false} StillWritten(db: PostgresDatabase.Database, steps: seq<PostgresDatabase.Step>, e: Entry)
    requires PostgresDatabase.Valid(db) && e in db.table
    ensures e in PostgresDatabase.Run(db, steps).table
  {
    if steps != [] {
      var front, step := steps[..|steps| - 1], steps[|steps| - 1];
      StillWritten(db, front, e);
      PostgresDatabase.RunValid(db, front);
      var mid := PostgresDatabase.Run(db, front);
      if step.Commit? && step.xid in mid.running {
        PostgresDatabase.IntoIndexOk(mid.table, step.xid, mid.running[step.xid], mid.nextPosition);
      }
    }
  }

  /**
   In memory, at any moment: whatever the subscriber has yielded so far and whatever commits
   follow, a state read with a token is one replay of a prefix of the log, holding every
   matching event up to the token.
   */
  method MemoryRead<P>(def: Projection<P>, hub: MemorySubscription.Hub, snapshots: SnapshotStore<P>, token: Checkpoint,
      available: nat -> bool, ghost steps: seq<MemorySubscription.Step>)
    returns (state: Option<P>, decoded: bool, ghost upto: Option<Checkpoint>)
    requires MemorySubscription.Sound(hub) && hub.from == PositionOf(snapshots.stored)
    requires Durable(def, MemorySubscription.Run(hub, steps).log, hub.fs, snapshots.stored)
    modifies snapshots
    ensures var log := MemorySubscription.Run(hub, steps).log;
            state.Some? ==> ReadsPast(def, log, hub.fs, token, upto, state.value)
    ensures var log, events := MemorySubscription.Run(hub, steps).log, Fresh(hub.out, hub.from);
            && (decoded <==> Replay(def, def.init, UpTo(log, hub.fs, hub.from) + events).Some?)
            && (decoded ==> upto == LastKept(events, hub.from))
            && (state.Some? <==> decoded && OptAtMost(Some(token), Furthest(hub.out, hub.from)))
  {
    hide Faithful, GapFree, Replay, Window, IsFold, IsEvent, Durable, Fresh, LastKept, UpTo, ReadsPast,
      MemorySubscription.Run;
    MemorySubscription.FaithfulForever(hub, steps);
    MemorySubscription.LogGrows(hub, steps);
    ghost var log := MemorySubscription.Run(hub, steps).log;
    MemorySubscription.DenseOrdered(log);
    state, decoded, upto := ReadWith(def, hub.fs, snapshots, hub.out, token, available, log);
  }

  /**
   In memory, at rest. However commits and notifications interleaved, once the subscriber
   waits with nothing pending, a reader holding the token of any commit gets exactly the
   replay of every matching event in the store, unless one of them does not decode.
   */
  method MemoryReadYourWrite<P>(def: Projection<P>, start: MemorySubscription.Hub, steps: seq<MemorySubscription.Step>,
      snapshots: SnapshotStore<P>, token: nat, available: nat -> bool)
    returns (state: Option<P>)
    requires MemorySubscription.Sound(start) && start.from == PositionOf(snapshots.stored)
    requires Durable(def, start.log, start.fs, snapshots.stored)
    requires var hub := MemorySubscription.Run(start, steps);
             hub.phase.Parked? && hub.taken == hub.sent && hub.unsent == 0 && token < |hub.log|
    modifies snapshots
    ensures var hub := MemorySubscription.Run(start, steps);
            state == Replay(def, def.init, Window(hub.log, start.fs, None, MemorySubscription.At(|hub.log| - 1)))
  {
    hide Faithful, GapFree, Replay, Window, IsFold, IsEvent, Durable, Fresh, LastKept, UpTo, MemorySubscription.Run;
    var hub := MemorySubscription.Run(start, steps);
    ghost var top := MemorySubscription.At(|hub.log| - 1);
    MemorySubscription.RunSound(start, steps);
    MemorySubscription.RunKeepsQuery(start, steps);
    MemoryDurableForever(def, start, steps, snapshots.stored);
    AtRest(hub);
    assert MemorySubscription.Run(hub, []) == hub by { NoMoreSteps(hub); }
    ReachesTop(hub.log, hub.fs, hub.from, Fresh(hub.out, hub.from), top);
    LastReaches(hub.out, hub.from, MemorySubscription.At(token));
    ghost var upto; var decoded;
    state, decoded, upto := MemoryRead(def, hub, snapshots, MemorySubscription.At(token), available, []);
    if state.Some? {
      StateAtTop(def, hub.log, hub.fs, MemorySubscription.At(token), upto, state.value, top);
    }
  }

  lemma NoMoreSteps(hub: MemorySubscription.Hub)
    ensures MemorySubscription.Run(hub, []) == hub
  {
  }

  lemma AtRest(hub: MemorySubscription.Hub)
    requires MemorySubscription.Sound(hub) && hub.log != []
    requires hub.phase.Parked? && hub.taken == hub.sent && hub.unsent == 0
    requires hub.from.Some? ==> AtMost(hub.from.value, MemorySubscription.At(|hub.log| - 1))
    ensures var top := MemorySubscription.At(|hub.log| - 1);
            && Ordered(hub.log) && Fresh(hub.out, hub.from) == Window(hub.log, hub.fs, hub.from, top)
            && hub.out != [] && hub.out[|hub.out| - 1] == Frontier(top)
  {
    MemorySubscription.DenseOrdered(hub.log);
    if hub.last.Some? {
      WindowSplit(hub.log, hub.fs, hub.from, hub.last.value, MemorySubscription.At(|hub.log| - 1));
    }
  }

  lemma EventWithin(log: seq<Entry>, later: seq<Entry>, fs: seq<EventFilter>, c: Checkpoint)
    requires MemorySubscription.Dense(log) && IsEvent(log, fs, c) && log <= later
    ensures IsEvent(later, fs, c) && AtMost(c, MemorySubscription.At(|log| - 1))
  {
    hide Matches;
    var e :| e in log && Matches(fs, e.event) && e.checkpoint == c;
    var i :| 0 <= i < |log| && log[i] == e;
    assert later[i] == e;
  }

  lemma WindowWithin(log: seq<Entry>, later: seq<Entry>, fs: seq<EventFilter>, c: Checkpoint)
    requires MemorySubscription.Dense(later) && log <= later && AtMost(c, MemorySubscription.At(|log| - 1))
    ensures Window(later, fs, None, c) == Window(log, fs, None, c)
  {
    assert later == log + later[|log|..];
    MemorySubscription.AppendFrozen(log, later[|log|..], fs, None, c);
  }

  lemma {:induction false} MemoryDurableForever<P>(def: Projection<P>, start: MemorySubscription.Hub,
      steps: seq<MemorySubscription.Step>, stored: Option<Snapshot<P>>)
    requires MemorySubscription.Dense(start.log) && Durable(def, start.log, start.fs, stored)
    ensures Durable(def, MemorySubscription.Run(start, steps).log, start.fs, stored)
    ensures var log := MemorySubscription.Run(start, steps).log;
            stored.Some? ==> AtMost(stored.value.position, MemorySubscription.At(|log| - 1))
  {
    hide MemorySubscription.Run, MemorySubscription.Dense, Replay, Window, IsEvent;
    MemorySubscription.LogGrows(start, steps);
    if stored.Some? {
      EventWithin(start.log, MemorySubscription.Run(start, steps).log, start.fs, stored.value.position);
      WindowWithin(start.log, MemorySubscription.Run(start, steps).log, start.fs, stored.value.position);
    }
  }

  /**
   Postgres meets the contract, for subscribers starting anywhere and for every log any
   continuation reaches: whatever subscribers have yielded, each in step with the database.
   */
  lemma PostgresHonoursContract(db: PostgresDatabase.Database, steps: seq<PostgresDatabase.Step>, fs: seq<EventFilter>,
      source: Option<Checkpoint> -> seq<Item>, cursor: Option<Checkpoint> -> Checkpoint)
    requires PostgresDatabase.Valid(db)
    requires forall from :: PostgresSubscription.InStep(db.table, fs, from, cursor(from), source(from))
    requires forall from :: PostgresSubscription.Anchored(db, from, cursor(from))
    requires forall from :: PostgresSubscription.AllSettled(db, source(from))
    ensures HonoursContract(source, fs, PostgresDatabase.Run(db, steps).table)
  {
    hide PostgresDatabase.Run, Faithful, PostgresSubscription.AllSettled, PostgresSubscription.Anchored;
    forall from ensures Faithful(source(from), fs, from, PostgresDatabase.Run(db, steps).table) {
      PostgresSubscription.InStepForever(db, steps, fs, from, cursor(from), source(from));
    }
  }

  /** What the in-memory store has yielded to subscribers starting anywhere. Positions are not negative. */
  function MemorySource(log: seq<Entry>, unsent: nat, sent: nat, fs: seq<EventFilter>,
      steps: seq<MemorySubscription.Step>)
    : Option<Checkpoint> -> seq<Item>
  {
    (from: Option<Checkpoint>) =>
      if from.Some? && Less(from.value, MemorySubscription.At(-1)) then []
      else MemorySubscription.Run(MemorySubscription.Subscribe(log, unsent, sent, fs, from), steps).out
  }

  /** The in-memory store meets the contract, for subscribers starting anywhere and for every later log. */
  lemma MemoryHonoursContract(log: seq<Entry>, unsent: nat, sent: nat, fs: seq<EventFilter>,
      steps: seq<MemorySubscription.Step>, later: seq<MemorySubscription.Step>)
    requires MemorySubscription.Dense(log)
    ensures var hub := MemorySubscription.Run(MemorySubscription.Subscribe(log, unsent, sent, fs, None), steps);
            HonoursContract(MemorySource(log, unsent, sent, fs, steps), fs, MemorySubscription.Run(hub, later).log)
  {
    hide MemorySubscription.Run, Faithful;
    var first := MemorySubscription.Subscribe(log, unsent, sent, fs, None);
    var hub := MemorySubscription.Run(first, steps);
    forall from
      ensures
        var source := MemorySource(log, unsent, sent, fs, steps);
        Faithful(source(from), fs, from, MemorySubscription.Run(hub, later).log)
    {
      if from.Some? && Less(from.value, MemorySubscription.At(-1)) {
        NothingYielded(fs, from, MemorySubscription.Run(hub, later).log);
      } else {
        var start := MemorySubscription.Subscribe(log, unsent, sent, fs, from);
        var mine := MemorySubscription.Run(start, steps);
        MemorySubscription.SubscribeSound(log, unsent, sent, fs, from);
        MemorySubscription.RunSound(start, steps);
        MemorySubscription.RunKeepsQuery(start, steps);
        MemorySubscription.FaithfulForever(mine, later);
        MemorySubscription.SameLog(first, start, steps);
        MemorySubscription.SameLog(hub, mine, later);
      }
    }
  }

  lemma NothingYielded(fs: seq<EventFilter>, from: Option<Checkpoint>, log: seq<Entry>)
    ensures Faithful([], fs, from, log)
  {
  }
}
