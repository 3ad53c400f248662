/**
 The part of Postgres the event store relies on, as a transition system. Transactions take
 ids in increasing order, draw positions from a shared sequence while they run, and make
 their rows visible all at once when they commit. Steps of different transactions
 interleave freely, so positions become visible out of order.
 */
module PostgresDatabase {
  import opened Options
  import opened EventLog

  const I64_MAX: int := 0x7FFF_FFFF_FFFF_FFFF

  /**
   `running` holds each in-flight transaction's uncommitted rows. `table` is the committed
   content of `es_events`, in the order of its (xid, position) index.
   */
  datatype Database = Database(
    nextXid: int, nextPosition: int, running: map<int, seq<Entry>>, table: seq<Entry>)

  datatype Step =
    | Begin
    | Insert(xid: int, event: StoredEvent)
    | Commit(xid: int)
    | Rollback(xid: int)

  const EMPTY := Database(1, 1, map[], [])

  /** Place a committed transaction's rows, which all carry `xid`, into the index. */
  function IntoIndex(table: seq<Entry>, xid: int, rows: seq<Entry>): seq<Entry> {
    if table == [] || table[|table| - 1].checkpoint.xid < xid then table + rows
    else IntoIndex(table[..|table| - 1], xid, rows) + [table[|table| - 1]]
  }

  /** One atomic step. A step that is not possible in `db` changes nothing. */
  function Next(db: Database, step: Step): Database {
    match step
    case Begin =>
      db.(running := db.running[db.nextXid := []], nextXid := db.nextXid + 1)
    case Insert(xid, event) =>
      if xid !in db.running then db
      else if db.nextPosition > I64_MAX then
        // the sequence is exhausted: the statement fails and the transaction with it
        db.(running := db.running - {xid})
      else
        var row := Entry(Checkpoint(xid, db.nextPosition), event.(position := db.nextPosition));
        db.(running := db.running[xid := db.running[xid] + [row]], nextPosition := db.nextPosition + 1)
    case Commit(xid) =>
      if xid !in db.running then db
      else db.(running := db.running - {xid}, table := IntoIndex(db.table, xid, db.running[xid]))
    case Rollback(xid) =>
      // positions already drawn from the sequence are not returned
      db.(running := db.running - {xid})
  }

  function Run(db: Database, steps: seq<Step>): Database {
    if steps == [] then db else Next(Run(db, steps[..|steps| - 1]), steps[|steps| - 1])
  }

  /** Rows of one transaction: its id, and increasing positions already drawn. */
  ghost predicate RowsOf(rows: seq<Entry>, xid: int, nextPosition: int) {
    && Ordered(rows)
    && forall e :: e in rows ==> RowOk(e, xid, nextPosition)
  }

  ghost predicate RowOk(e: Entry, xid: int, nextPosition: int) {
    e.checkpoint.xid == xid && e.checkpoint.position == e.event.position && 1 <= e.event.position <= I64_MAX
    && e.event.position < nextPosition
  }

  ghost predicate Valid(db: Database) {
    && 1 <= db.nextXid && 1 <= db.nextPosition
    && (forall x :: x in db.running ==> 1 <= x < db.nextXid && RowsOf(db.running[x], x, db.nextPosition))
    && Ordered(db.table)
    && (forall e :: e in db.table ==>
          1 <= e.checkpoint.xid < db.nextXid && e.checkpoint.xid !in db.running
          && RowOk(e, e.checkpoint.xid, db.nextPosition))
  }

  lemma {:induction false} IntoIndexOk(table: seq<Entry>, xid: int, rows: seq<Entry>, nextPosition: int)
    requires Ordered(table) && RowsOf(rows, xid, nextPosition)
    requires forall e :: e in table ==> e.checkpoint.xid != xid
    ensures Ordered(IntoIndex(table, xid, rows))
    ensures forall e :: e in IntoIndex(table, xid, rows) <==> e in table || e in rows
  {
    if table == [] || table[|table| - 1].checkpoint.xid < xid {
      forall i | 0 <= i < |table| ensures table[i].checkpoint.xid < xid {
        assert i < |table| - 1 ==> Less(table[i].checkpoint, table[|table| - 1].checkpoint);
      }
      assert forall i :: |table| <= i < |table + rows| ==> (table + rows)[i] in rows;
    } else {
      var front, last := table[..|table| - 1], table[|table| - 1];
      assert last in table;
      IntoIndexOk(front, xid, rows, nextPosition);
      var t := IntoIndex(front, xid, rows);
      assert table == front + [last];
      forall i | 0 <= i < |t| ensures Less(t[i].checkpoint, last.checkpoint) {
        assert t[i] in t;
        if t[i] in front {}
      }
    }
  }

  lemma NextValid(db: Database, step: Step)
    requires Valid(db)
    ensures Valid(Next(db, step))
  {
    match step
    case Insert(xid, _) =>
      if xid in db.running {
        var rows := db.running[xid];
        assert forall i :: 0 <= i < |rows| ==> rows[i] in rows && RowOk(rows[i], xid, db.nextPosition);
      }
    case Commit(xid) =>
      if xid in db.running {
        IntoIndexOk(db.table, xid, db.running[xid], db.nextPosition);
      }
    case _ =>
  }

  lemma {:induction false} RunValid(db: Database, steps: seq<Step>)
    requires Valid(db)
    ensures Valid(Run(db, steps))
  {
    if steps != [] {
      RunValid(db, steps[..|steps| - 1]);
      NextValid(Run(db, steps[..|steps| - 1]), steps[|steps| - 1]);
    }
  }

  lemma {:induction false} RunAppend(db: Database, a: seq<Step>, b: seq<Step>)
    ensures Run(db, a + b) == Run(Run(db, a), b)
  {
    if b == [] {
      assert a + b == a;
    } else {
      assert (a + b)[..|a + b| - 1] == a + b[..|b| - 1];
      RunAppend(db, a, b[..|b| - 1]);
    }
  }

  /** `pg_snapshot_xmin`: the least running transaction id, or the next id when none runs. */
  function Xmin(db: Database): (xmin: int)
    requires 1 <= db.nextXid
    ensures 1 <= xmin <= db.nextXid
    ensures xmin == db.nextXid || xmin in db.running
    ensures forall x :: x in db.running && 1 <= x < db.nextXid ==> xmin <= x
  {
    LeastFrom(db.running.Keys, 1, db.nextXid)
  }

  function LeastFrom(xids: set<int>, x: int, bound: int): (least: int)
    requires x <= bound
    ensures x <= least <= bound
    ensures least == bound || least in xids
    ensures forall y :: y in xids && x <= y < bound ==> least <= y
    decreases bound - x
  {
    if x == bound || x in xids then x else LeastFrom(xids, x + 1, bound)
  }

  /** No transaction at or below `xid` is running or can ever start. */
  ghost predicate Settled(db: Database, xid: int) {
    xid < db.nextXid && forall x :: x in db.running ==> xid < x
  }

  lemma BelowXminSettled(db: Database)
    requires Valid(db)
    ensures Settled(db, Xmin(db) - 1)
  {
  }

  lemma {:induction false} SettledForever(db: Database, steps: seq<Step>, xid: int)
    requires Valid(db) && Settled(db, xid)
    ensures Settled(Run(db, steps), xid)
  {
    if steps != [] {
      SettledForever(db, steps[..|steps| - 1], xid);
    }
  }

  lemma {:induction false} IntoIndexWindow(table: seq<Entry>, xid: int, rows: seq<Entry>, fs: seq<EventFilter>,
      lo: Option<Checkpoint>, hi: Checkpoint)
    requires forall e :: e in rows ==> Less(hi, e.checkpoint)
    ensures Window(IntoIndex(table, xid, rows), fs, lo, hi) == Window(table, fs, lo, hi)
  {
    if table == [] || table[|table| - 1].checkpoint.xid < xid {
      WindowConcat(table, rows, fs, lo, hi);
      WindowNothing(rows, fs, lo, hi);
    } else {
      var front, last := table[..|table| - 1], table[|table| - 1];
      IntoIndexWindow(front, xid, rows, fs, lo, hi);
      WindowConcat(IntoIndex(front, xid, rows), [last], fs, lo, hi);
      WindowConcat(front, [last], fs, lo, hi);
      assert table == front + [last];
    }
  }

  /**
   The stability argument. Whatever the writers do next, the visible events at or below a
   settled transaction id never change again: nothing appears late and nothing disappears.
   */
  lemma {:induction false} SettledFrozen(db: Database, steps: seq<Step>, fs: seq<EventFilter>, lo: Option<Checkpoint>,
      hi: Checkpoint)
    requires Valid(db) && Settled(db, hi.xid)
    ensures Window(Run(db, steps).table, fs, lo, hi) == Window(db.table, fs, lo, hi)
  {
    if steps != [] {
      var front, step := steps[..|steps| - 1], steps[|steps| - 1];
      SettledFrozen(db, front, fs, lo, hi);
      RunValid(db, front);
      SettledForever(db, front, hi.xid);
      var mid := Run(db, front);
      if step.Commit? && step.xid in mid.running {
        IntoIndexWindow(mid.table, step.xid, mid.running[step.xid], fs, lo, hi);
      }
    }
  }

  /** A running transaction is exactly what keeps its own id unsettled: the gate is not stricter than it must be. */
  lemma UnsettledCanSprout(db: Database, xid: int, event: StoredEvent)
    requires Valid(db) && xid in db.running && db.nextPosition <= I64_MAX
    ensures var later := Run(db, [Insert(xid, event), Commit(xid)]);
            exists e :: e in later.table && e !in db.table && e.checkpoint.xid == xid
  {
    var s1 := Next(db, Insert(xid, event));
    assert Run(db, [Insert(xid, event)]) == Next(Run(db, []), Insert(xid, event)) by {
      assert [Insert(xid, event)][..0] == [];
    }
    assert [Insert(xid, event), Commit(xid)][..1] == [Insert(xid, event)];
    var later := Run(db, [Insert(xid, event), Commit(xid)]);
    assert later == Next(s1, Commit(xid));
    NextValid(db, Insert(xid, event));
    var rows := s1.running[xid];
    IntoIndexOk(s1.table, xid, rows, s1.nextPosition);
    assert rows[|rows| - 1] in rows;
    assert rows[|rows| - 1] in later.table;
  }

  /**
   An insert adds one row to its own transaction, the event at the next position of the
   sequence. Once the sequence is used up it fails and ends the transaction instead.
   */
  lemma InsertExactly(db: Database, xid: int, event: StoredEvent)
    requires xid in db.running
    ensures var next := Next(db, Insert(xid, event));
            && next.table == db.table && next.nextXid == db.nextXid
            && (xid in next.running <==> db.nextPosition <= I64_MAX)
            && (forall x :: x != xid ==> (x in next.running <==> x in db.running))
            && (forall x :: x in next.running && x != xid ==> next.running[x] == db.running[x])
            && (xid in next.running ==>
                  && next.nextPosition == db.nextPosition + 1 && |next.running[xid]| == |db.running[xid]| + 1
                  && db.running[xid] <= next.running[xid]
                  && var row := next.running[xid][|db.running[xid]|];
                     && row.event == event.(position := db.nextPosition)
                     && row.checkpoint == Checkpoint(xid, db.nextPosition))
  {
  }

  /** Once a transaction has ended, whichever way, its visible rows are what they are for ever. */
  lemma {:induction false} EndedForever(db: Database, steps: seq<Step>, xid: int)
    requires Valid(db) && xid < db.nextXid && xid !in db.running
    ensures var later := Run(db, steps);
            && xid < later.nextXid && xid !in later.running
            && forall e: Entry :: e.checkpoint.xid == xid ==> (e in later.table <==> e in db.table)
  {
    if steps != [] {
      var front, step := steps[..|steps| - 1], steps[|steps| - 1];
      EndedForever(db, front, xid);
      RunValid(db, front);
      var mid := Run(db, front);
      if step.Commit? && step.xid in mid.running {
        IntoIndexOk(mid.table, step.xid, mid.running[step.xid], mid.nextPosition);
      }
    }
  }

  /** All or nothing: a commit shows every row of its transaction, a rollback none, now and in every continuation. */
  lemma AllOrNothing(db: Database, xid: int, steps: seq<Step>)
    requires Valid(db) && xid in db.running
    ensures var committed := Run(Next(db, Commit(xid)), steps).table;
            var rolledBack := Run(Next(db, Rollback(xid)), steps).table;
            && (forall e: Entry :: e.checkpoint.xid == xid ==> (e in committed <==> e in db.running[xid]))
            && (forall e :: e in rolledBack ==> e.checkpoint.xid != xid)
  {
    NextValid(db, Commit(xid));
    NextValid(db, Rollback(xid));
    IntoIndexOk(db.table, xid, db.running[xid], db.nextPosition);
    EndedForever(Next(db, Commit(xid)), steps, xid);
    EndedForever(Next(db, Rollback(xid)), steps, xid);
  }

  /** A row some transaction has written and not rolled back, visible or not. */
  ghost predicate Held(db: Database, e: Entry) {
    e in db.table || exists x :: x in db.running && e in db.running[x]
  }

  /** `position` is a primary key. */
  ghost predicate DistinctPositions(db: Database) {
    forall e, f :: Held(db, e) && Held(db, f) && e.event.position == f.event.position ==> e == f
  }

  lemma NextDistinct(db: Database, step: Step)
    requires Valid(db) && DistinctPositions(db)
    ensures DistinctPositions(Next(db, step))
  {
    var next := Next(db, step);
    match step
    case Insert(xid, _) =>
      if next.nextPosition != db.nextPosition {
        var row := next.running[xid][|db.running[xid]|];
        forall e | Held(next, e) ensures e == row || (Held(db, e) && e.event.position < db.nextPosition) {
          if e !in db.table {
            var x :| x in next.running && e in next.running[x];
            assert e != row ==> e in db.running[x];
          }
        }
      }
    case Commit(xid) =>
      if xid in db.running {
        IntoIndexOk(db.table, xid, db.running[xid], db.nextPosition);
      }
      assert forall e :: Held(next, e) ==> Held(db, e);
    case _ =>
      assert forall e :: Held(next, e) ==> Held(db, e);
  }

  lemma {:induction false} RunDistinct(db: Database, steps: seq<Step>)
    requires Valid(db) && DistinctPositions(db)
    ensures DistinctPositions(Run(db, steps))
  {
    if steps != [] {
      RunDistinct(db, steps[..|steps| - 1]);
      RunValid(db, steps[..|steps| - 1]);
      NextDistinct(Run(db, steps[..|steps| - 1]), steps[|steps| - 1]);
    }
  }

  /** The point lookup of a committed position. */
  function CheckpointForPosition(table: seq<Entry>, position: int): Option<Checkpoint> {
    if table == [] then None
    else
      var e := table[|table| - 1];
      if e.event.position == position then Some(e.checkpoint) else CheckpointForPosition(table[..|table| - 1], position)
  }

  /** The lookup finds exactly the commit it is asked about, and nothing for a position never committed. */
  lemma CheckpointForPositionExact(db: Database, position: int)
    requires Valid(db) && DistinctPositions(db)
    ensures forall e :: e in db.table && e.event.position == position ==>
              CheckpointForPosition(db.table, position) == Some(e.checkpoint)
    ensures CheckpointForPosition(db.table, position).None? <==>
              forall e :: e in db.table ==> e.event.position != position
  {
    LookupFinds(db.table, position);
    if exists e :: e in db.table && e.event.position == position {
      var e :| e in db.table && e.event.position == position;
      assert Held(db, e);
      assert forall f :: f in db.table ==> Held(db, f);
    }
  }

  lemma {:induction false} LookupFinds(table: seq<Entry>, position: int)
    ensures match CheckpointForPosition(table, position)
            case None => forall e :: e in table ==> e.event.position != position
            case Some(c) => exists f :: f in table && f.event.position == position && f.checkpoint == c
  {
    if table != [] {
      var front, e := table[..|table| - 1], table[|table| - 1];
      assert table == front + [e] && e in table;
      LookupFinds(front, position);
    }
  }
}
