/**
 A projection subscription across restarts. Each session loads the durable snapshot, runs
 against the store for a while, and ends: gracefully, by a decode failure, or by a crash.
 A crash inside a delivery leaves the storage as it was before or after that delivery's
 single offer, so cutting sessions between deliveries covers it.
 */
module Sessions {
  import opened Options
  import opened EventLog
  import opened Delivery
  import opened Cursors
  import opened Snapshots
  import opened Projections
  import opened Runner

  /**
   `source` is what the store yields to a subscriber starting after a checkpoint; the
   session handles its first `handled` items. `loadable` and `available` say when the
   snapshot storage answers.
   */
  datatype Session = Session(
    loadable: bool, target: Option<Checkpoint>, source: Option<Checkpoint> -> seq<Item>, handled: nat,
    available: nat -> bool, graceful: bool)

  /**
   Handle items one by one, up to the first that does not decode. All of them are handled
   exactly when the replay of what they deliver succeeds.
   */
  method Consume<P>(runner: ProjectionRunner<P>, items: seq<Item>, available: nat -> bool) returns (decoded: bool)
    requires runner.Valid() && runner.items == [] && Faithful(items, runner.filters, runner.resume, runner.log)
    requires runner.observed == runner.resume
    modifies runner, runner.snapshots
    ensures runner.Valid() && (decoded ==> runner.items == items)
    ensures decoded <==> Replay(runner.def, runner.base, Fresh(items, runner.resume)).Some?
    ensures runner.items <= items && runner.observed == Furthest(runner.items, runner.resume)
    ensures Advanced(old(runner.snapshots.stored), runner.snapshots.stored)
  {
    hide Faithful, Fresh, GapFree, Window, Ordered, Replay, History, AllAttached, IsFold, IsEvent, Durable, LastKept,
      Undecodable;
    var n := 0;
    while n < |items|
      invariant n <= |items| && runner.Valid() && runner.items == items[..n]
      invariant runner.observed == Furthest(runner.items, runner.resume)
      invariant Advanced(old(runner.snapshots.stored), runner.snapshots.stored)
    {
      FaithfulAt(items, n, runner.filters, runner.resume, runner.log);
      assert items[..n + 1] == items[..n] + [items[n]] && items[..n + 1][..n] == items[..n];
      ItemDecodes(runner, items, n);
      var outcome := runner.HandleDelivery(items[n], available(n));
      if outcome.DecodeFailed? {
        return false;
      }
      n := n + 1;
    }
    assert items[..|items|] == items;
    ReplayShown(runner);
    decoded := true;
  }

  /** Between deliveries the state is the replay of everything delivered for the first time. */
  lemma ReplayShown<P>(runner: ProjectionRunner<P>)
    requires runner.Readable()
    ensures Replay(runner.def, runner.base, Fresh(runner.items, runner.resume)) == Some(runner.projection)
  {
  }

  /** A new event that does not decode is one at which the replay of all items fails. */
  lemma {:induction false} ItemDecodes<P>(runner: ProjectionRunner<P>, items: seq<Item>, n: nat)
    requires runner.Valid() && n < |items| && runner.items == items[..n]
    ensures items[n].Event? && After(items[n].entry.checkpoint, runner.lastCheckpoint)
            && Undecodable(runner.def, runner.projection, items[n].entry.event) ==>
              Replay(runner.def, runner.base, Fresh(items, runner.resume)).None?
  {
    if !items[n].Event? || !After(items[n].entry.checkpoint, runner.lastCheckpoint)
      || !Undecodable(runner.def, runner.projection, items[n].entry.event) {
      return;
    }
    hide Faithful, Fresh, GapFree, Window, Ordered, Replay, History, AllAttached, IsFold, IsEvent, Durable;
    var e := items[n].entry;
    ReplayShown(runner);
    FreshAppend(items[..n], items[n], runner.resume);
    assert items[..n] + [items[n]] == items[..n + 1];
    ReplayNext(runner.def, runner.base, Fresh(items[..n], runner.resume), e);
    ApplyExactly(runner.def, runner.projection, e.event);
    FreshGrows(items, n + 1, runner.resume);
    ReplayStaysFailed(runner.def, runner.base, Fresh(items[..n + 1], runner.resume), Fresh(items, runner.resume));
  }

  /** When `start` returns, everything its store showed when the target was read is in the state. */
  lemma ReadyHasFolded<P>(runner: ProjectionRunner<P>, before: seq<Entry>)
    requires runner.Valid() && runner.caughtUp && runner.catchupTarget == LastMatching(before, runner.filters)
    requires Ordered(before) && forall e :: e in before ==> e in runner.log
    ensures var events := UpTo(runner.log, runner.filters, runner.lastCheckpoint);
            && Replay(runner.def, runner.def.init, events) == Some(runner.current)
            && forall e :: e in before && Matches(runner.filters, e.event) ==> e in events
  {
    CaughtUpCovers(before, runner.log, runner.filters, runner.lastCheckpoint);
  }

  /** And it returns as soon as anything at or past that target has been delivered, a frontier included. */
  lemma ReadyOnceReached<P>(runner: ProjectionRunner<P>, before: seq<Entry>)
    requires runner.Valid() && runner.catchupTarget == LastMatching(before, runner.filters)
    requires Ordered(before) && forall e :: e in before ==> e in runner.log
    requires OptAtMost(runner.catchupTarget, runner.observed)
    ensures runner.caughtUp
  {
    LastMatchingIsGreatest(before, runner.filters);
    if runner.catchupTarget.Some? {
      WindowMember(runner.log, runner.filters, runner.Shown(), runner.observed.value);
    }
  }

  /** Where a session starts: at the durable snapshot, if it can be loaded. */
  function StartOf<P>(session: Session, stored: Option<Snapshot<P>>): Option<Checkpoint> {
    if session.loadable then PositionOf(stored) else None
  }

  /** The items a session handles. */
  function Taken(session: Session, from: Option<Checkpoint>): seq<Item> {
    var items := session.source(from);
    if session.handled < |items| then items[..session.handled] else items
  }

  /** Replaying from the snapshot is replaying from the start. */
  lemma BaseReplay<P>(runner: ProjectionRunner<P>, events: seq<Entry>)
    requires IsFold(runner.def, runner.log, runner.filters, runner.resume, runner.base)
    ensures Replay(runner.def, runner.base, events) ==
            Replay(runner.def, runner.def.init, UpTo(runner.log, runner.filters, runner.resume) + events)
  {
    ReplayConcat(runner.def, runner.def.init, UpTo(runner.log, runner.filters, runner.resume), events);
  }

  /** One session. Wherever it ends, the live projection is one uninterrupted fold of the log. */
  method RunSession<P>(def: Projection<P>, fs: seq<EventFilter>, snapshots: SnapshotStore<P>, session: Session,
      ghost log: seq<Entry>)
    returns (runner: ProjectionRunner<P>)
    requires Ordered(log) && Durable(def, log, fs, snapshots.stored)
    requires HonoursContract(session.source, fs, log)
    modifies snapshots
    ensures Durable(def, log, fs, snapshots.stored)
    ensures Advanced(old(snapshots.stored), snapshots.stored)
    ensures IsFold(def, log, fs, runner.lastCheckpoint, runner.projection)
    ensures runner.caughtUp <==> OptAtMost(session.target, runner.lastCheckpoint)
    ensures var from := StartOf(session, old(snapshots.stored));
            var events := Fresh(Taken(session, from), from);
            Replay(def, def.init, UpTo(log, fs, from) + events).Some? ==>
              && runner.lastCheckpoint == LastKept(events, from)
              && (session.graceful && session.available(|Taken(session, from)|) && snapshots.policy.Always? ==>
                    OptAtMost(runner.lastCheckpoint, PositionOf(snapshots.stored)))
  {
    hide Faithful, Fresh, GapFree, Window, Ordered, Replay, History, AllAttached, IsFold, IsEvent, Durable, LastKept;
    runner := new ProjectionRunner(def, fs, snapshots, session.target, session.loadable, log);
    var items := session.source(runner.lastCheckpoint);
    assert Faithful(items, fs, runner.resume, log);
    if session.handled < |items| {
      FaithfulAt(items, session.handled, fs, runner.resume, log);
      items := items[..session.handled];
    }
    BaseReplay(runner, Fresh(items, runner.resume));
    var decoded := Consume(runner, items, session.available);
    if decoded && session.graceful {
      runner.Shutdown(session.available(|items|));
    }
  }

  /**
   Any number of sessions. After each of them the durable pair is a real matching event's
   checkpoint with the fold up to it, and the durable position has never moved back. With
   nothing in the way, it is past everything the last session took.
   */
  method RunSessions<P>(def: Projection<P>, fs: seq<EventFilter>, snapshots: SnapshotStore<P>, sessions: seq<Session>,
      ghost log: seq<Entry>)
    requires Ordered(log) && Durable(def, log, fs, snapshots.stored)
    requires forall s :: s in sessions ==> HonoursContract(s.source, fs, log)
    modifies snapshots
    ensures Durable(def, log, fs, snapshots.stored)
    ensures Advanced(old(snapshots.stored), snapshots.stored)
    ensures NothingInTheWay(def, snapshots.policy, sessions) && sessions != [] ==>
              CaughtUpWith(sessions[|sessions| - 1], PositionOf(snapshots.stored))
  {
    hide IsFold, IsEvent, Replay, Fresh, HonoursContract;
    var k := 0;
    while k < |sessions|
      invariant k <= |sessions| && Durable(def, log, fs, snapshots.stored)
      invariant Advanced(old(snapshots.stored), snapshots.stored)
      invariant NothingInTheWay(def, snapshots.policy, sessions) && k > 0 ==>
                  CaughtUpWith(sessions[k - 1], PositionOf(snapshots.stored))
    {
      ghost var from := StartOf(sessions[k], snapshots.stored);
      var runner := RunSession(def, fs, snapshots, sessions[k], log);
      ghost var events := Fresh(Taken(sessions[k], from), from);
      assert AlwaysDecodes(def) ==> Replay(def, def.init, UpTo(log, fs, from) + events).Some?;
      assert snapshots.policy.Always? && AlwaysDecodes(def) && Careful(sessions[k]) ==>
          OptAtMost(LastKept(events, from), PositionOf(snapshots.stored));
      k := k + 1;
    }
  }

  ghost predicate NothingInTheWay<P>(def: Projection<P>, policy: SnapshotPolicy, sessions: seq<Session>) {
    policy.Always? && AlwaysDecodes(def) && forall s :: s in sessions ==> Careful(s)
  }

  ghost predicate AlwaysDecodes<P>(def: Projection<P>) {
    forall events :: Replay(def, def.init, events).Some?
  }

  /** The session ends gracefully, with the storage answering. */
  ghost predicate Careful(session: Session) {
    session.graceful && forall n :: session.available(n)
  }

  /** The position is at or past everything the session took from the store, from where it started. */
  ghost predicate CaughtUpWith(session: Session, position: Option<Checkpoint>) {
    exists from :: OptAtMost(LastKept(Fresh(Taken(session, from), from), from), position)
  }
}
