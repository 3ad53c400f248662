/**
 Optimistic writers on Postgres. A command loads a stream, opens a transaction, locks the
 stream's row, checks the version it loaded, inserts its events and commits. Each of these
 is a separate step; any number of writers interleave.
 */
module PostgresWriters {
  import opened Options
  import opened EventLog
  import opened PostgresDatabase

  datatype Stream = Stream(kind: string, id: string)

  predicate Of(e: Entry, s: Stream) {
    e.event.aggregateKind == s.kind && e.event.aggregateId == s.id
  }

  /**
   Where a writer is in its command. `horizon` is bookkeeping of the model alone: the next
   transaction id at the moment the version was read.
   */
  datatype Writer =
    | Idle
    | Loaded(stream: Stream, expected: Option<int>, horizon: int)
    | Open(stream: Stream, expected: Option<int>, horizon: int, xid: int)
    | Holding(stream: Stream, expected: Option<int>, horizon: int, xid: int)

  /** `lastPosition` is `es_streams`; a missing key stands for both a missing row and NULL. */
  datatype World = World(
    db: Database, lastPosition: map<Stream, int>, locked: set<Stream>, writers: map<int, Writer>)

  datatype Action =
    | Load(w: int, stream: Stream)
    | Create(w: int, stream: Stream)
    | Begin(w: int)
    | Lock(w: int)
    | Insert(w: int, kind: string, data: string)
    | Commit(w: int)
    | Abort(w: int)

  const START := World(EMPTY, map[], {}, map[])

  function Current(world: World, s: Stream): Option<int> {
    if s in world.lastPosition then Some(world.lastPosition[s]) else None
  }

  function WriterAt(world: World, w: int): Writer {
    if w in world.writers then world.writers[w] else Idle
  }

  /** The version a replay of the stream ends at: the greatest visible position. */
  function LoadVersion(table: seq<Entry>, s: Stream): Option<int> {
    if table == [] then None
    else
      var e, rest := table[|table| - 1], LoadVersion(table[..|table| - 1], s);
      if Of(e, s) && (rest.None? || rest.value < e.event.position) then Some(e.event.position) else rest
  }

  function Act(world: World, a: Action): World {
    match (a, WriterAt(world, a.w))
    case (Load(w, s), Idle) =>
      var version := LoadVersion(world.db.table, s);
      // an update of a stream without events is rejected before any transaction
      if version.None? then world
      else world.(writers := world.writers[w := Loaded(s, version, world.db.nextXid)])
    case (Create(w, s), Idle) =>
      world.(writers := world.writers[w := Loaded(s, None, world.db.nextXid)])
    case (Begin(w), Loaded(s, expected, horizon)) =>
      world.(db := Next(world.db, PostgresDatabase.Begin),
             writers := world.writers[w := Open(s, expected, horizon, world.db.nextXid)])
    case (Lock(w), Open(s, expected, horizon, xid)) =>
      if s in world.locked then world // the row lock is taken: wait
      else if Current(world, s) == expected then
        world.(locked := world.locked + {s}, writers := world.writers[w := Holding(s, expected, horizon, xid)])
      else // version conflict: the transaction is dropped
        world.(db := Next(world.db, Rollback(xid)), writers := world.writers[w := Idle])
    case (Insert(w, kind, data), Holding(s, expected, horizon, xid)) =>
      var db := Next(world.db, PostgresDatabase.Insert(xid, StoredEvent(s.kind, s.id, kind, 0, data)));
      if xid in db.running then world.(db := db)
      else world.(db := db, locked := world.locked - {s}, writers := world.writers[w := Idle])
    case (Commit(w), Holding(s, expected, horizon, xid)) =>
      if xid !in world.db.running || world.db.running[xid] == [] then world
      else
        var rows := world.db.running[xid];
        World(Next(world.db, PostgresDatabase.Commit(xid)),
              world.lastPosition[s := rows[|rows| - 1].event.position],
              world.locked - {s}, world.writers[w := Idle])
    case (Abort(w), Loaded(_, _, _)) =>
      world.(writers := world.writers[w := Idle])
    case (Abort(w), Open(_, _, _, xid)) =>
      world.(db := Next(world.db, Rollback(xid)), writers := world.writers[w := Idle])
    case (Abort(w), Holding(s, _, _, xid)) =>
      world.(db := Next(world.db, Rollback(xid)), locked := world.locked - {s}, writers := world.writers[w := Idle])
    case _ => world
  }

  function Acts(world: World, actions: seq<Action>): World
    decreases |actions|
  {
    if actions == [] then world else Acts(Act(world, actions[0]), actions[1..])
  }

  ghost predicate IsVersion(table: seq<Entry>, s: Stream, v: Option<int>) {
    && (forall e :: e in table && Of(e, s) ==> v.Some? && e.event.position <= v.value)
    && (v.Some? ==> exists e :: e in table && Of(e, s) && e.event.position == v.value)
  }

  lemma {:induction false} LoadVersionIsVersion(table: seq<Entry>, s: Stream)
    ensures IsVersion(table, s, LoadVersion(table, s))
  {
    if table != [] {
      var front, e := table[..|table| - 1], table[|table| - 1];
      assert table == front + [e] && e in table;
      LoadVersionIsVersion(front, s);
    }
  }

  /** What a writer may rely on while it is between its load and its commit. */
  ghost predicate WriterOk(world: World, w: Writer) {
    match w
    case Idle => true
    case Loaded(s, expected, horizon) => ReadOk(world, s, expected, horizon)
    case Open(s, expected, horizon, xid) =>
      && ReadOk(world, s, expected, horizon) && horizon <= xid
      && xid in world.db.running && world.db.running[xid] == []
    case Holding(s, expected, horizon, xid) =>
      && ReadOk(world, s, expected, horizon) && horizon <= xid
      && s in world.locked && Current(world, s) == expected
      && xid in world.db.running && RowsAhead(world.db, s, xid)
  }

  /** Everything at or below the version read was written by transactions older than the read. */
  ghost predicate ReadOk(world: World, s: Stream, expected: Option<int>, horizon: int) {
    && horizon <= world.db.nextXid
    && (expected.Some? ==>
          && Current(world, s).Some? && expected.value <= Current(world, s).value
          && forall e :: e in world.db.table && Of(e, s) && e.event.position <= expected.value ==>
               e.checkpoint.xid < horizon)
  }

  ghost predicate RowsAhead(db: Database, s: Stream, xid: int)
    requires xid in db.running
  {
    forall r :: r in db.running[xid] ==>
      Of(r, s) && forall e :: e in db.table && Of(e, s) ==> e.event.position < r.event.position
  }

  predicate SameStream(a: Entry, b: Entry) {
    a.event.aggregateKind == b.event.aggregateKind && a.event.aggregateId == b.event.aggregateId
  }

  /** Within a stream, delivery order and position order are the same order. */
  ghost predicate StreamsInOrder(table: seq<Entry>) {
    forall a, b :: a in table && b in table && SameStream(a, b) ==>
      (a.event.position < b.event.position <==> Less(a.checkpoint, b.checkpoint))
  }

  ghost predicate Sound(world: World) {
    && Valid(world.db)
    && (forall s :: IsVersion(world.db.table, s, Current(world, s)))
    && StreamsInOrder(world.db.table)
    && (forall w :: w in world.writers ==> WriterOk(world, world.writers[w]))
    && (forall v, w :: v in world.writers && w in world.writers && v != w ==> Apart(world.writers[v], world.writers[w]))
  }

  /** Two writers never share a transaction or a lock. */
  ghost predicate Apart(v: Writer, w: Writer) {
    && ((v.Open? || v.Holding?) && (w.Open? || w.Holding?) ==> v.xid != w.xid)
    && (v.Holding? && w.Holding? ==> v.stream != w.stream)
  }

  /** The database step behind an action of a writer, if it takes one. */
  function DatabaseStep(world: World, a: Action): Option<Step> {
    match (a, WriterAt(world, a.w))
    case (Begin(_), Loaded(_, _, _)) => Some(PostgresDatabase.Begin)
    case (Lock(_), Open(s, expected, _, xid)) =>
      if s !in world.locked && Current(world, s) != expected then Some(Rollback(xid)) else None
    case (Insert(_, kind, data), Holding(s, _, _, xid)) =>
      Some(PostgresDatabase.Insert(xid, StoredEvent(s.kind, s.id, kind, 0, data)))
    case (Commit(_), Holding(_, _, _, xid)) =>
      if xid in world.db.running && world.db.running[xid] != [] then Some(PostgresDatabase.Commit(xid)) else None
    case (Abort(_), Open(_, _, _, xid)) => Some(Rollback(xid))
    case (Abort(_), Holding(_, _, _, xid)) => Some(Rollback(xid))
    case _ => None
  }

  lemma ActStepsDatabase(world: World, a: Action)
    ensures Act(world, a).db ==
            (if DatabaseStep(world, a).None? then world.db else Next(world.db, DatabaseStep(world, a).value))
  {
  }

  /** All that another writer can notice of an action that commits nothing. */
  ghost predicate QuietEffect(world: World, next: World, w: int) {
    var old', new' := WriterAt(world, w), WriterAt(next, w);
    && next.db.table == world.db.table && next.lastPosition == world.lastPosition
    && world.db.nextXid <= next.db.nextXid
    && (forall x :: x in world.db.running && !((old'.Open? || old'.Holding?) && old'.xid == x) ==>
          x in next.db.running && next.db.running[x] == world.db.running[x])
    && (forall s :: s in world.locked && !(old'.Holding? && old'.stream == s) ==> s in next.locked)
    && (forall v :: v != w ==> WriterAt(next, v) == WriterAt(world, v))
    && (new'.Open? || new'.Holding? ==>
         new'.xid == world.db.nextXid || ((old'.Open? || old'.Holding?) && old'.xid == new'.xid))
    && (new'.Holding? ==> new'.stream !in world.locked || (old'.Holding? && old'.stream == new'.stream))
  }

  lemma {:induction false} ActIsQuiet(world: World, a: Action)
    requires Valid(world.db) && !a.Commit?
    ensures QuietEffect(world, Act(world, a), a.w)
  {
  }

  /** An action that commits nothing leaves every other writer's footing alone. */
  lemma QuietForOthers(world: World, next: World, w: int, v: int)
    requires Sound(world) && QuietEffect(world, next, w) && v != w
    ensures WriterOk(next, WriterAt(next, v))
  {
    assert WriterOk(world, WriterAt(world, v));
    assert v in world.writers && w in world.writers ==> Apart(world.writers[v], world.writers[w]);
  }

  lemma QuietApart(world: World, next: World, w: int, v: int)
    requires Sound(world) && QuietEffect(world, next, w) && v != w
    ensures Apart(WriterAt(next, v), WriterAt(next, w)) && Apart(WriterAt(next, w), WriterAt(next, v))
  {
    assert WriterOk(world, WriterAt(world, v));
    assert v in world.writers && w in world.writers ==> Apart(world.writers[v], world.writers[w]);
  }

  lemma QuietForOne(world: World, a: Action)
    requires Sound(world) && !a.Commit?
    ensures WriterOk(Act(world, a), WriterAt(Act(world, a), a.w))
  {
    assert WriterOk(world, WriterAt(world, a.w));
    if a.Load? {
      LoadVersionIsVersion(world.db.table, a.stream);
      assert IsVersion(world.db.table, a.stream, Current(world, a.stream));
    }
  }

  lemma QuietSound(world: World, a: Action)
    requires Sound(world) && !a.Commit?
    ensures Sound(Act(world, a))
  {
    var next := Act(world, a);
    ActStepsDatabase(world, a);
    if DatabaseStep(world, a).Some? {
      NextValid(world.db, DatabaseStep(world, a).value);
    }
    ActIsQuiet(world, a);
    QuietForOne(world, a);
    QuietKeepsSound(world, next, a.w);
  }

  lemma QuietKeepsSound(world: World, next: World, w: int)
    requires Sound(world) && QuietEffect(world, next, w) && Valid(next.db) && WriterOk(next, WriterAt(next, w))
    ensures Sound(next)
  {
    forall s ensures IsVersion(next.db.table, s, Current(next, s)) {
      assert IsVersion(world.db.table, s, Current(world, s));
    }
    forall v | v in next.writers ensures WriterOk(next, next.writers[v]) {
      assert next.writers[v] == WriterAt(next, v);
      if v != w {
        QuietForOthers(world, next, w, v);
      }
    }
    forall u, v | u in next.writers && v in next.writers && u != v ensures Apart(next.writers[u], next.writers[v]) {
      assert WriterAt(next, u) == next.writers[u] && WriterAt(next, v) == next.writers[v];
      if u == w {
        QuietApart(world, next, w, v);
      } else if v == w {
        QuietApart(world, next, w, u);
      } else {
        assert WriterAt(next, u) == WriterAt(world, u) && WriterAt(next, v) == WriterAt(world, v);
        assert u in world.writers && v in world.writers ==> Apart(world.writers[u], world.writers[v]);
      }
    }
  }

  /** All that matters of a commit of `rows` to stream `s` by transaction `xid`. */
  ghost predicate CommitEffect(world: World, next: World, s: Stream, xid: int, rows: seq<Entry>) {
    && (forall e :: e in next.db.table <==> e in world.db.table || e in rows)
    && (forall r :: r in rows ==> Of(r, s) && r.checkpoint.xid == xid && r.checkpoint.position == r.event.position)
    && (forall r, e :: r in rows && e in world.db.table && Of(e, s) ==>
         e.event.position < r.event.position && e.checkpoint.xid < xid)
    && IsVersion(world.db.table, s, Current(world, s))
    && (exists last :: last in rows && next.lastPosition == world.lastPosition[s := last.event.position]
          && forall r :: r in rows ==> r.event.position <= last.event.position)
    && next.db.running == world.db.running - {xid} && next.db.nextXid == world.db.nextXid
    && next.locked == world.locked - {s}
  }

  lemma {:induction false} CommitHasEffect(world: World, w: int)
    requires Sound(world) && Act(world, Action.Commit(w)) != world
    ensures var writer, next := WriterAt(world, w), Act(world, Action.Commit(w));
            && writer.Holding? && writer.xid in world.db.running
            && CommitEffect(world, next, writer.stream, writer.xid, world.db.running[writer.xid])
            && next.writers == world.writers[w := Idle] && Valid(next.db)
  {
    hide IntoIndex, Ordered, StreamsInOrder;
    var writer := WriterAt(world, w);
    var rows := world.db.running[writer.xid];
    NextValid(world.db, PostgresDatabase.Commit(writer.xid));
    IntoIndexOk(world.db.table, writer.xid, rows, world.db.nextPosition);
    assert IsVersion(world.db.table, writer.stream, Current(world, writer.stream));
    RowsFollow(world, writer.stream, writer.xid);
    assert forall r :: r in rows ==> RowOk(r, writer.xid, world.db.nextPosition);
    assert rows[|rows| - 1] in rows;
  }

  lemma {:induction false} CommitSound(world: World, w: int)
    requires Sound(world)
    ensures Sound(Act(world, Action.Commit(w)))
  {
    var writer, next := WriterAt(world, w), Act(world, Action.Commit(w));
    if next != world {
      CommitHasEffect(world, w);
      var s, xid := writer.stream, writer.xid;
      var rows := world.db.running[xid];
      hide Act, CommitEffect, StreamsInOrder, IsVersion, WriterOk, Valid;
      CommitKeepsOrder(world, next, s, xid, rows);
      forall t ensures IsVersion(next.db.table, t, Current(next, t)) {
        CommitKeepsVersion(world, next, s, xid, rows, t);
      }
      forall v | v in next.writers ensures WriterOk(next, next.writers[v]) {
        if v == w {
          IdleOk(next);
        } else {
          assert Apart(world.writers[v], writer);
          CommitForOthers(world, next, s, xid, rows, world.writers[v], writer);
        }
      }
    }
  }

  lemma IdleOk(world: World)
    ensures WriterOk(world, Idle)
  {
  }

  lemma {:induction false} CommitKeepsOrder(world: World, next: World, s: Stream, xid: int, rows: seq<Entry>)
    requires StreamsInOrder(world.db.table) && CommitEffect(world, next, s, xid, rows)
    ensures StreamsInOrder(next.db.table)
  {
  }

  lemma {:induction false} CommitKeepsVersion(world: World, next: World, s: Stream, xid: int, rows: seq<Entry>,
      t: Stream)
    requires CommitEffect(world, next, s, xid, rows) && IsVersion(world.db.table, t, Current(world, t))
    ensures IsVersion(next.db.table, t, Current(next, t))
  {
  }

  /** A commit adds rows above every version another writer can have read. */
  lemma {:induction false} CommitForOthers(world: World, next: World, s: Stream, xid: int, rows: seq<Entry>,
      other: Writer, writer: Writer)
    requires CommitEffect(world, next, s, xid, rows) && WriterOk(world, other) && Apart(other, writer)
    requires writer.Holding? && writer.stream == s && writer.xid == xid
    ensures WriterOk(next, other)
  {
  }

  predicate Holds(w: Writer, s: Stream, xid: int) {
    w.Holding? && w.stream == s && w.xid == xid
  }

  /** A committing writer's rows come after every visible row of its stream, in both orders. */
  lemma RowsFollow(world: World, s: Stream, xid: int)
    requires Sound(world) && exists w :: w in world.writers && Holds(world.writers[w], s, xid)
    ensures xid in world.db.running
    ensures forall r, e :: r in world.db.running[xid] && e in world.db.table && Of(e, s) ==>
              e.event.position < r.event.position && e.checkpoint.xid < xid
    ensures forall r :: r in world.db.running[xid] ==> Of(r, s)
    ensures var rows := world.db.running[xid];
            forall r :: r in rows ==> r.event.position <= rows[|rows| - 1].event.position
  {
    var w :| w in world.writers && Holds(world.writers[w], s, xid);
    assert WriterOk(world, world.writers[w]);
    assert IsVersion(world.db.table, s, Current(world, s));
    var rows := world.db.running[xid];
    assert forall i :: 0 <= i < |rows| ==> rows[i] in rows && RowOk(rows[i], xid, world.db.nextPosition);
  }

  /**
   Every reachable state: `last_position` is the greatest committed position of its stream,
   and no two events of a stream are ordered differently by position and by checkpoint.
   */
  lemma {:induction false} WritersKeepStreamsInOrder(world: World, actions: seq<Action>)
    requires Sound(world)
    ensures Sound(Acts(world, actions))
    decreases |actions|
  {
    if actions != [] {
      if actions[0].Commit? {
        CommitSound(world, actions[0].w);
      } else {
        QuietSound(world, actions[0]);
      }
      WritersKeepStreamsInOrder(Act(world, actions[0]), actions[1..]);
    }
  }

  /** Whatever is delivered in checkpoint order replays each stream in position order. */
  lemma DeliveryReplaysStreams(actions: seq<Action>, fs: seq<EventFilter>, lo: Option<Checkpoint>, hi: Checkpoint)
    ensures var delivered := Window(Acts(START, actions).db.table, fs, lo, hi);
            forall i, j :: 0 <= i < j < |delivered| && SameStream(delivered[i], delivered[j]) ==>
              delivered[i].event.position < delivered[j].event.position
  {
    WritersKeepStreamsInOrder(START, actions);
    var table := Acts(START, actions).db.table;
    WindowOrdered(table, fs, lo, hi);
    WindowMember(table, fs, lo, hi);
    var delivered := Window(table, fs, lo, hi);
    forall i, j | 0 <= i < j < |delivered| && SameStream(delivered[i], delivered[j])
      ensures delivered[i].event.position < delivered[j].event.position
    {
      assert delivered[i] in table && delivered[j] in table;
    }
  }

  predicate InTransaction(w: Writer) {
    w.Open? || w.Holding?
  }

  /** Some writer is still in the transaction. */
  ghost predicate Driven(world: World, x: int) {
    exists w :: w in world.writers && InTransaction(world.writers[w]) && world.writers[w].xid == x
  }

  /** Some writer holds the stream's row lock. */
  ghost predicate LockHeld(world: World, s: Stream) {
    exists w :: w in world.writers && world.writers[w].Holding? && world.writers[w].stream == s
  }

  ghost predicate Tidy(world: World) {
    && (forall x :: x in world.db.running ==> Driven(world, x))
    && (forall s :: s in world.locked ==> LockHeld(world, s))
  }

  /** An action leaves running and locked only what was so without its writer, or what its writer now drives. */
  lemma ActLeaves(world: World, a: Action)
    ensures var old', next := WriterAt(world, a.w), Act(world, a); var new' := WriterAt(next, a.w);
            && (forall v :: v != a.w ==> WriterAt(next, v) == WriterAt(world, v))
            && (forall x :: x in next.db.running ==>
                  || (InTransaction(new') && new'.xid == x)
                  || (x in world.db.running && !(InTransaction(old') && old'.xid == x)))
            && (forall s :: s in next.locked ==>
                  || (new'.Holding? && new'.stream == s)
                  || (s in world.locked && !(old'.Holding? && old'.stream == s)))
  {
    hide IntoIndex, LoadVersion;
  }

  lemma {:induction false} ActTidy(world: World, a: Action)
    requires Tidy(world)
    ensures Tidy(Act(world, a))
  {
    hide Act;
    ActLeaves(world, a);
    var next := Act(world, a);
    forall x | x in next.db.running ensures Driven(next, x) {
      if !(InTransaction(WriterAt(next, a.w)) && WriterAt(next, a.w).xid == x) {
        var w :| w in world.writers && InTransaction(world.writers[w]) && world.writers[w].xid == x;
        assert WriterAt(next, w) == WriterAt(world, w);
      }
    }
    forall s | s in next.locked ensures LockHeld(next, s) {
      if !(WriterAt(next, a.w).Holding? && WriterAt(next, a.w).stream == s) {
        var w :| w in world.writers && world.writers[w].Holding? && world.writers[w].stream == s;
        assert WriterAt(next, w) == WriterAt(world, w);
      }
    }
  }

  lemma {:induction false} ActsTidy(world: World, actions: seq<Action>)
    requires Tidy(world)
    ensures Tidy(Acts(world, actions))
    decreases |actions|
  {
    hide Tidy, Act;
    if actions != [] {
      ActTidy(world, actions[0]);
      ActsTidy(Act(world, actions[0]), actions[1..]);
    }
  }

  /**
   Writers drive the database only through its own steps, so all that holds for every run of
   it holds here; and they leave nothing running or locked that no writer is in.
   */
  lemma {:induction false} WritersRunTheDatabase(world: World, actions: seq<Action>) returns (steps: seq<Step>)
    ensures Acts(world, actions).db == Run(world.db, steps)
    ensures Tidy(world) ==> Tidy(Acts(world, actions))
    decreases |actions|
  {
    if actions == [] {
      steps := [];
    } else {
      var a := actions[0];
      ActStepsDatabase(world, a);
      if Tidy(world) {
        ActTidy(world, a);
      }
      hide Tidy;
      var first: seq<Step> := if DatabaseStep(world, a).Some? then [DatabaseStep(world, a).value] else [];
      assert first != [] ==> first[..0] == [];
      assert Act(world, a).db == Run(world.db, first);
      var rest := WritersRunTheDatabase(Act(world, a), actions[1..]);
      RunAppend(world.db, first, rest);
      steps := first + rest;
    }
  }
}
