/**
 Nothing is left behind. A transaction ends with its command, whichever way the command
 ends, and a row lock ends with its transaction; so the stability boundary moves on and
 committed events are delivered. An undisturbed command goes through.
 */
module PostgresProgress {
  import opened Options
  import opened EventLog
  import opened Delivery
  import opened PostgresDatabase
  import opened PostgresWriters
  import PostgresSubscription

  /**
   For every interleaving of writers: exactly the transactions of writers inside one are
   running, and exactly the streams of writers past their check are locked.
   */
  lemma {:induction false} EveryRunIsTidy(actions: seq<Action>)
    ensures var world := Acts(START, actions);
            && (forall x :: x in world.db.running <==> Driven(world, x))
            && (forall s :: s in world.locked <==> LockHeld(world, s))
  {
    hide Acts;
    var world := Acts(START, actions);
    ActsTidy(START, actions);
    WritersKeepStreamsInOrder(START, actions);
    forall w | w in world.writers ensures WriterOk(world, world.writers[w]) {}
  }

  ghost predicate NoneInside(world: World) {
    forall w :: w in world.writers ==> !InTransaction(world.writers[w])
  }

  /** So once no writer is inside a transaction, nothing runs, and the boundary is past every commit. */
  lemma {:induction false} NothingLeftRunning(actions: seq<Action>)
    requires NoneInside(Acts(START, actions))
    ensures var world := Acts(START, actions);
            && PostgresDatabase.Valid(world.db) && world.db.running == map[] && world.locked == {}
            && Xmin(world.db) == world.db.nextXid
            && forall e :: e in world.db.table ==> e.checkpoint.xid < Xmin(world.db)
  {
    hide Acts;
    var world := Acts(START, actions);
    WritersKeepStreamsInOrder(START, actions);
    EveryRunIsTidy(actions);
    forall x ensures x !in world.db.running {
      if x in world.db.running {
        assert false;
      }
    }
    forall s ensures s !in world.locked {
      if s in world.locked {
        assert false;
      }
    }
  }

  /**
   One cycle of any subscriber then brings delivery to exactly the matching events past its
   start that were committed when the cycle began, each once, whatever writers do meanwhile.
   */
  method DeliverAll(subscriber: PostgresSubscription.Subscriber, schedule: nat -> seq<Step>, ghost actions: seq<Action>)
    returns (ghost before: seq<Entry>)
    requires subscriber.Valid() && subscriber.server.db == Acts(START, actions).db && NoneInside(Acts(START, actions))
    modifies subscriber, subscriber.server
    ensures subscriber.Valid() && before == old(subscriber.server.db.table)
    ensures forall e :: Wanted(before, e, subscriber.filters, subscriber.from) ==>
              PostgresSubscription.Once(Delivered(subscriber.out), e)
    ensures forall e :: e in Delivered(subscriber.out) <==> Wanted(before, e, subscriber.filters, subscriber.from)
  {
    hide Acts, Delivered, PostgresSubscription.InStep, PostgresSubscription.AllSettled;
    ghost var db, fs, from := subscriber.server.db, subscriber.filters, subscriber.from;
    before := db.table;
    NothingLeftRunning(actions);
    var xmin; ghost var ran;
    xmin, ran := subscriber.Cycle(schedule);
    ghost var table := subscriber.server.db.table;
    RunValid(db, ran);
    PostgresSubscription.WindowOnce(table, fs, from, PostgresSubscription.Boundary(xmin));
    forall e | Wanted(before, e, fs, from) ensures Selected(e, fs, from, PostgresSubscription.Boundary(xmin)) {
      PostgresSubscription.BoundaryCoversCommits(db, e, xmin);
    }
    SettledFrozen(db, ran, fs, from, PostgresSubscription.Boundary(xmin));
    WindowMember(db.table, fs, from, PostgresSubscription.Boundary(xmin));
  }

  /** Committed, matching, and past the start. */
  ghost predicate Wanted(table: seq<Entry>, e: Entry, fs: seq<EventFilter>, from: Option<Checkpoint>) {
    e in table && Matches(fs, e.event) && After(e.checkpoint, from)
  }

  /**
   The conditional commit, in every reachable state. A writer waits while another holds the
   row. Else it gets the row exactly when nothing has been committed to its stream since it
   loaded; otherwise its transaction is gone, with everything else as it was.
   */
  lemma LockExactly(world: World, w: int)
    requires Sound(world) && WriterAt(world, w).Open?
    ensures var writer, next := WriterAt(world, w), Act(world, Lock(w));
            if writer.stream in world.locked then next == world
            else if IsVersion(world.db.table, writer.stream, writer.expected) then
              && next.writers[w] == Holding(writer.stream, writer.expected, writer.horizon, writer.xid)
              && next.db == world.db && writer.stream in next.locked
            else
              && next.writers == world.writers[w := Idle] && next.locked == world.locked
              && next.db.running == world.db.running - {writer.xid} && next.db.table == world.db.table
  {
    assert IsVersion(world.db.table, WriterAt(world, w).stream, Current(world, WriterAt(world, w).stream));
  }

  /** A writer that gives up, wherever it is, leaves neither transaction nor lock, and nothing it wrote is ever seen. */
  lemma GivesUp(world: World, w: int, steps: seq<Step>)
    requires Sound(world)
    ensures var writer, next := WriterAt(world, w), Act(world, Abort(w));
            && WriterAt(next, w).Idle? && next.db.table == world.db.table && next.lastPosition == world.lastPosition
            && (forall v :: v != w ==> WriterAt(next, v) == WriterAt(world, v))
            && next.db.running == world.db.running - (if InTransaction(writer) then {writer.xid} else {})
            && next.locked == world.locked - (if writer.Holding? then {writer.stream} else {})
            && (InTransaction(writer) ==> forall e :: e in Run(next.db, steps).table ==> e.checkpoint.xid != writer.xid)
  {
    var writer := WriterAt(world, w);
    assert WriterOk(world, writer);
    if InTransaction(writer) {
      AllOrNothing(world.db, writer.xid, steps);
    }
  }

  /** The kinds and payloads of a command's events, inserted one after the other. */
  function Inserts(w: int, events: seq<(string, string)>): seq<Action> {
    seq(|events|, i requires 0 <= i < |events| => Action.Insert(w, events[i].0, events[i].1))
  }

  /** A whole command: load or create, begin, lock, insert, commit. */
  function CommandOf(w: int, s: Stream, creating: bool, events: seq<(string, string)>): seq<Action> {
    [if creating then Create(w, s) else Load(w, s), Action.Begin(w), Lock(w)] + Inserts(w, events) + [Action.Commit(w)]
  }

  function RowsFor(s: Stream, xid: int, first: int, events: seq<(string, string)>): seq<Entry> {
    seq(|events|, i requires 0 <= i < |events| =>
      Entry(Checkpoint(xid, first + i), StoredEvent(s.kind, s.id, events[i].0, first + i, events[i].1)))
  }

  lemma {:induction false} ActsConcat(world: World, a: seq<Action>, b: seq<Action>)
    ensures Acts(world, a + b) == Acts(Acts(world, a), b)
    decreases |a|
  {
    if a == [] {
      assert a + b == b;
    } else {
      assert (a + b)[1..] == a[1..] + b;
      ActsConcat(Act(world, a[0]), a[1..], b);
    }
  }

  /** The stream is new exactly when the command creates it, its row is free, and nothing else is going on in `w`. */
  ghost predicate Undisturbed(world: World, w: int, s: Stream, creating: bool) {
    && Sound(world) && WriterAt(world, w).Idle? && s !in world.locked
    && (creating <==> forall e :: e in world.db.table ==> !Of(e, s))
  }

  function Locked(world: World, w: int, s: Stream): World {
    var xid := world.db.nextXid;
    World(world.db.(running := world.db.running[xid := []], nextXid := xid + 1), world.lastPosition, world.locked + {s},
          world.writers[w := Holding(s, LoadVersion(world.db.table, s), xid, xid)])
  }

  lemma ReadsVersion(world: World, w: int, s: Stream, creating: bool)
    requires Undisturbed(world, w, s, creating)
    ensures Act(world, if creating then Create(w, s) else Load(w, s)) ==
              world.(writers := world.writers[w := Loaded(s, LoadVersion(world.db.table, s), world.db.nextXid)])
    ensures LoadVersion(world.db.table, s) == Current(world, s) && s !in world.locked
  {
    LoadVersionIsVersion(world.db.table, s);
    assert IsVersion(world.db.table, s, Current(world, s));
  }

  lemma BeginsThenLocks(world: World, w: int, s: Stream)
    requires WriterAt(world, w) == Loaded(s, Current(world, s), world.db.nextXid) && s !in world.locked
    ensures var xid := world.db.nextXid;
            Act(Act(world, Action.Begin(w)), Lock(w)) ==
              World(world.db.(running := world.db.running[xid := []], nextXid := xid + 1), world.lastPosition,
                    world.locked + {s}, world.writers[w := Holding(s, Current(world, s), xid, xid)])
  {
  }

  lemma {:induction false} GetsLock(world: World, w: int, s: Stream, creating: bool)
    requires Undisturbed(world, w, s, creating)
    ensures var actions := [if creating then Create(w, s) else Load(w, s), Action.Begin(w), Lock(w)];
            Acts(world, actions) == Locked(world, w, s)
  {
    hide Undisturbed, Act, LoadVersion;
    var actions := [if creating then Create(w, s) else Load(w, s), Action.Begin(w), Lock(w)];
    ReadsVersion(world, w, s, creating);
    var loaded := Act(world, actions[0]);
    BeginsThenLocks(loaded, w, s);
    var holding := Holding(s, LoadVersion(world.db.table, s), world.db.nextXid, world.db.nextXid);
    assert loaded.writers[w := holding] == world.writers[w := holding];
    assert actions[1..][1..][1..] == [];
    assert Acts(world, actions) == Acts(loaded, actions[1..]) == Acts(Act(loaded, Action.Begin(w)), actions[1..][1..]);
    assert Acts(Act(loaded, Action.Begin(w)), actions[1..][1..]) == Act(Act(loaded, Action.Begin(w)), Lock(w));
  }

  function WithRows(world: World, xid: int, rows: seq<Entry>): World
    requires xid in world.db.running
  {
    world.(db := world.db.(running := world.db.running[xid := world.db.running[xid] + rows],
                           nextPosition := world.db.nextPosition + |rows|))
  }

  lemma InsertsOne(world: World, w: int, kind: string, data: string)
    requires WriterAt(world, w).Holding? && WriterAt(world, w).xid in world.db.running
    requires world.db.nextPosition <= I64_MAX
    ensures var writer := WriterAt(world, w); var next := Act(world, Action.Insert(w, kind, data));
            var rows := RowsFor(writer.stream, writer.xid, world.db.nextPosition, [(kind, data)]);
            && next == WithRows(world, writer.xid, rows)
            && WriterAt(next, w) == writer && writer.xid in next.db.running
  {
    var writer := WriterAt(world, w);
    var row := Entry(Checkpoint(writer.xid, world.db.nextPosition),
                     StoredEvent(writer.stream.kind, writer.stream.id, kind, world.db.nextPosition, data));
    assert RowsFor(writer.stream, writer.xid, world.db.nextPosition, [(kind, data)]) == [row];
  }

  lemma WithRowsTwice(world: World, xid: int, first: seq<Entry>, rest: seq<Entry>)
    requires xid in world.db.running
    ensures WithRows(WithRows(world, xid, first), xid, rest) == WithRows(world, xid, first + rest)
  {
    var rows := world.db.running[xid];
    assert rows + first + rest == rows + (first + rest);
    assert world.db.running[xid := rows + first][xid := rows + first + rest] ==
           world.db.running[xid := rows + (first + rest)];
  }

  lemma {:induction false} InsertsAll(world: World, w: int, events: seq<(string, string)>)
    requires WriterAt(world, w).Holding? && WriterAt(world, w).xid in world.db.running
    requires world.db.nextPosition + |events| <= I64_MAX + 1
    ensures var writer := WriterAt(world, w);
            Acts(world, Inserts(w, events)) ==
              WithRows(world, writer.xid, RowsFor(writer.stream, writer.xid, world.db.nextPosition, events))
    decreases |events|
  {
    hide Act;
    var s, xid, first := WriterAt(world, w).stream, WriterAt(world, w).xid, world.db.nextPosition;
    if events == [] {
      assert world.db.running[xid] + [] == world.db.running[xid];
    } else {
      InsertsOne(world, w, events[0].0, events[0].1);
      assert Inserts(w, events)[1..] == Inserts(w, events[1..]);
      InsertsAll(Act(world, Inserts(w, events)[0]), w, events[1..]);
      WithRowsTwice(world, xid, RowsFor(s, xid, first, [events[0]]), RowsFor(s, xid, first + 1, events[1..]));
      assert RowsFor(s, xid, first, events) ==
             RowsFor(s, xid, first, [events[0]]) + RowsFor(s, xid, first + 1, events[1..]);
    }
  }

  lemma CommitActs(world: World, w: int)
    requires WriterAt(world, w).Holding? && WriterAt(world, w).xid in world.db.running
    requires world.db.running[WriterAt(world, w).xid] != []
    ensures var writer := WriterAt(world, w); var rows := world.db.running[writer.xid];
            var next := Act(world, Action.Commit(w));
            && next.db.table == IntoIndex(world.db.table, writer.xid, rows)
            && next.db.running == world.db.running - {writer.xid} && next.locked == world.locked - {writer.stream}
            && next.writers == world.writers[w := Idle]
            && next.lastPosition == world.lastPosition[writer.stream := rows[|rows| - 1].event.position]
  {
  }

  lemma AsBefore(running: map<int, seq<Entry>>, xid: int, rows: seq<Entry>)
    requires xid !in running
    ensures running[xid := []][xid := [] + rows] - {xid} == running && [] + rows == rows
  {
  }

  lemma XidIsNew(world: World)
    requires Sound(world)
    ensures world.db.nextXid !in world.db.running && Ordered(world.db.table)
    ensures forall e :: e in world.db.table ==> e.checkpoint.xid != world.db.nextXid
  {
  }

  lemma {:induction false} CommitsReady(world: World, w: int, s: Stream, rows: seq<Entry>)
    requires Sound(world) && WriterAt(world, w).Idle? && s !in world.locked && rows != []
    requires RowsOf(rows, world.db.nextXid, world.db.nextPosition + |rows|)
    ensures var ready := WithRows(Locked(world, w, s), world.db.nextXid, rows);
            var later := Act(ready, Action.Commit(w));
            && (forall e :: e in later.db.table <==> e in world.db.table || e in rows)
            && later.db.running == world.db.running && later.locked == world.locked
            && later.writers == world.writers[w := Idle]
            && later.lastPosition == world.lastPosition[s := rows[|rows| - 1].event.position]
  {
    hide Sound, RowsOf, Ordered, IntoIndex, LoadVersion, Act;
    var xid := world.db.nextXid;
    var ready := WithRows(Locked(world, w, s), xid, rows);
    XidIsNew(world);
    AsBefore(world.db.running, xid, rows);
    assert ready.db.running == world.db.running[xid := []][xid := [] + rows];
    IntoIndexOk(world.db.table, xid, rows, world.db.nextPosition + |rows|);
    CommitActs(ready, w);
    assert world.locked + {s} - {s} == world.locked;
  }

  /**
   An undisturbed command goes through, in every reachable state with positions left: its
   events become visible, in order, at the next positions, under a transaction of its own,
   and the writer is done, with no lock or transaction left behind.
   */
  lemma {:induction false} CommandGoesThrough(world: World, w: int, s: Stream, creating: bool,
      events: seq<(string, string)>)
    requires Undisturbed(world, w, s, creating)
    requires events != [] && world.db.nextPosition + |events| <= I64_MAX + 1
    ensures var later := Acts(world, CommandOf(w, s, creating, events));
            var rows := RowsFor(s, world.db.nextXid, world.db.nextPosition, events);
            && (forall e :: e in later.db.table <==> e in world.db.table || e in rows)
            && later.db.running == world.db.running && later.locked == world.locked
            && later.writers == world.writers[w := Idle]
            && later.lastPosition == world.lastPosition[s := world.db.nextPosition + |events| - 1]
  {
    hide Sound, Act, Undisturbed, Acts, IntoIndex;
    var xid, rows := world.db.nextXid, RowsFor(s, world.db.nextXid, world.db.nextPosition, events);
    var start := [if creating then Create(w, s) else Load(w, s), Action.Begin(w), Lock(w)];
    var locked := Locked(world, w, s);
    ActsConcat(world, start + Inserts(w, events), [Action.Commit(w)]);
    ActsConcat(world, start, Inserts(w, events));
    GetsLock(world, w, s, creating);
    InsertsAll(locked, w, events);
    OneAct(WithRows(locked, xid, rows), Action.Commit(w));
    UndisturbedOk(world, w, s, creating);
    RowsForOk(s, xid, world.db.nextPosition, events);
    CommitsReady(world, w, s, rows);
  }

  lemma OneAct(world: World, a: Action)
    ensures Acts(world, [a]) == Act(world, a)
  {
    assert [a][1..] == [];
  }

  lemma UndisturbedOk(world: World, w: int, s: Stream, creating: bool)
    requires Undisturbed(world, w, s, creating)
    ensures Sound(world) && WriterAt(world, w).Idle? && s !in world.locked && world.db.nextPosition >= 1
  {
  }

  lemma RowsForOk(s: Stream, xid: int, first: int, events: seq<(string, string)>)
    requires 1 <= first && first + |events| <= I64_MAX + 1
    ensures RowsOf(RowsFor(s, xid, first, events), xid, first + |events|)
  {
  }
}
