/**
 Why the expected version must have been loaded. The row lock and the version check alone
 do not keep a stream in delivery order; the transaction must also be younger than every
 event of the stream, and a load before opening it makes it so.
 */
module PostgresGuesses {
  import opened Options
  import opened EventLog
  import opened PostgresDatabase
  import opened PostgresWriters

  /**
   For any database and any transaction about to commit rows to a stream, positioned after
   all its visible events: streams stay in order if and only if every visible event of the
   stream was written by an older transaction.
   */
  lemma {:induction false} InOrderExactlyWhen(db: Database, s: Stream, xid: int)
    requires Valid(db) && StreamsInOrder(db.table) && xid in db.running
    requires db.running[xid] != [] && RowsAhead(db, s, xid)
    ensures StreamsInOrder(IntoIndex(db.table, xid, db.running[xid])) <==>
              forall e :: e in db.table && Of(e, s) ==> e.checkpoint.xid < xid
  {
    var rows := db.running[xid];
    var after := IntoIndex(db.table, xid, rows);
    IntoIndexOk(db.table, xid, rows, db.nextPosition);
    if forall e :: e in db.table && Of(e, s) ==> e.checkpoint.xid < xid {
      forall a, b | a in after && b in after && SameStream(a, b)
        ensures a.event.position < b.event.position <==> Less(a.checkpoint, b.checkpoint)
      {
        assert a in rows ==> RowOk(a, xid, db.nextPosition) && Of(a, s);
        assert b in rows ==> RowOk(b, xid, db.nextPosition) && Of(b, s);
      }
    } else {
      var e :| e in db.table && Of(e, s) && e.checkpoint.xid >= xid;
      var r := rows[0];
      assert r in rows && RowOk(r, xid, db.nextPosition) && Of(r, s) && SameStream(e, r);
      assert e.checkpoint.xid != xid;
      assert e in after && r in after && e.event.position < r.event.position && !Less(e.checkpoint, r.checkpoint);
    }
  }

  /** A writer that loaded its version before it opened its transaction always meets the condition. */
  lemma LoadedIsYounger(world: World, w: int)
    requires Sound(world) && w in world.writers && world.writers[w].Holding?
    ensures forall e :: e in world.db.table && Of(e, world.writers[w].stream) ==>
              e.checkpoint.xid < world.writers[w].xid
  {
    var writer := world.writers[w];
    assert WriterOk(world, writer);
    assert IsVersion(world.db.table, writer.stream, Current(world, writer.stream));
  }

  const STREAM := Stream("k", "i")

  function First(): Entry {
    Entry(Checkpoint(2, 1), StoredEvent("k", "i", "a", 1, ""))
  }

  /** Writer 0 has opened transaction 1; writer 1 has since committed position 1 in transaction 2. */
  function Overtaken(expected: Option<int>): World {
    World(Database(3, 2, map[1 := []], [First()]), map[STREAM := 1], {},
          map[0 := Open(STREAM, expected, 1, 1), 1 := Idle])
  }

  function BothOpen(): World {
    World(Database(3, 1, map[1 := [], 2 := []], []), map[], {},
          map[0 := Open(STREAM, None, 1, 1), 1 := Open(STREAM, None, 1, 2)])
  }

  lemma BothOpenReached()
    ensures Acts(START, [Create(0, STREAM), Create(1, STREAM), Action.Begin(0), Action.Begin(1)]) == BothOpen()
  {
    var actions := [Create(0, STREAM), Create(1, STREAM), Action.Begin(0), Action.Begin(1)];
    var w1 := Act(START, actions[0]);
    var w2 := Act(w1, actions[1]);
    var w3 := Act(w2, actions[2]);
    var w4 := Act(w3, actions[3]);
    assert w4.writers == BothOpen().writers && w4.db == BothOpen().db;
    assert actions[1..][1..][1..][1..] == [];
    assert Acts(START, actions) == Acts(w1, actions[1..]) == Acts(w2, actions[1..][1..])
           == Acts(w3, actions[1..][1..][1..]) == w4;
  }

  lemma OvertakenReached()
    ensures Acts(BothOpen(), [Lock(1), Action.Insert(1, "a", ""), Action.Commit(1)]) == Overtaken(None)
  {
    var actions := [Lock(1), Action.Insert(1, "a", ""), Action.Commit(1)];
    var w1 := Act(BothOpen(), actions[0]);
    var w2 := Act(w1, actions[1]);
    var w3 := Act(w2, actions[2]);
    assert w2.db.running[2] == [First()];
    assert w3.db == Overtaken(None).db && w3.writers == Overtaken(None).writers && w3.locked == {};
    assert actions[1..][1..][1..] == [];
    assert Acts(BothOpen(), actions) == Acts(w1, actions[1..]) == Acts(w2, actions[1..][1..]) == w3;
  }

  /** Had it presented what it loaded, writer 0 would meet a conflict, and its transaction would be over. */
  lemma LoadedVersionConflicts()
    ensures var next := Act(Overtaken(None), Lock(0));
            && next.writers == map[0 := Idle, 1 := Idle] && next.locked == {}
            && next.db == Database(3, 2, map[], [First()]) && Xmin(next.db) == 3
  {
    assert Overtaken(None).db.running - {1} == map[];
  }

  function Second(): Entry {
    Entry(Checkpoint(1, 2), StoredEvent("k", "i", "b", 2, ""))
  }

  lemma SecondDeliveredFirst()
    ensures IntoIndex([First()], 1, [Second()]) == [Second(), First()] && !StreamsInOrder([Second(), First()])
  {
    assert [First()][..0] == [];
    assert IntoIndex([First()], 1, [Second()]) == IntoIndex([], 1, [Second()]) + [First()];
    var table := [Second(), First()];
    assert Second() in table && First() in table && SameStream(First(), Second());
  }

  /**
   Presenting version 1, which it cannot have read, lock and check let it through, and its
   event, second by position, is delivered first.
   */
  lemma GuessedVersionReordersDelivery()
    ensures var later := Acts(Overtaken(Some(1)), [Lock(0), Action.Insert(0, "b", ""), Action.Commit(0)]).db.table;
            later == [Second(), First()] && !StreamsInOrder(later)
  {
    SecondDeliveredFirst();
    hide StreamsInOrder, IntoIndex;
    var actions := [Lock(0), Action.Insert(0, "b", ""), Action.Commit(0)];
    var w1 := Act(Overtaken(Some(1)), Lock(0));
    var w2 := Act(w1, Action.Insert(0, "b", ""));
    var w3 := Act(w2, Action.Commit(0));
    assert actions[1..][1..][1..] == [];
    assert Acts(Overtaken(Some(1)), actions) == Acts(w1, actions[1..]) == Acts(w2, actions[1..][1..]) == w3;
    assert w2.db.running[1] == [Second()];
  }
}
