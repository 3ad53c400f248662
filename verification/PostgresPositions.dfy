/**
 Position-based projection snapshots on Postgres. Positions become visible out of order, so
 a snapshot at a position can miss events that commit later below it. When it cannot.
 */
module PostgresPositions {
  import opened Options
  import opened EventLog
  import opened Filters
  import opened PostgresDatabase
  import opened PostgresLoading
  import opened Projections

  /** The rows of a load up to a position. */
  function Below(rows: seq<Entry>, p: int): seq<Entry> {
    if rows == [] || rows[|rows| - 1].event.position <= p then rows else Below(rows[..|rows| - 1], p)
  }

  /** What a snapshot at `p` holds: the fold of the matching rows visible up to it. */
  function SnapshotAt<P>(def: Projection<P>, table: seq<Entry>, fs: seq<EventFilter>, p: int): Option<P> {
    Replay(def, def.init, Below(Rows(table, fs), p))
  }

  function FromScratch<P>(def: Projection<P>, table: seq<Entry>, fs: seq<EventFilter>): Option<P> {
    Replay(def, def.init, Rows(table, fs))
  }

  /** A load that starts from the snapshot and asks for the rows past its position. */
  function Through<P>(def: Projection<P>, table: seq<Entry>, fs: seq<EventFilter>, data: P, p: int): Option<P> {
    Replay(def, data, Rows(table, SetAfter(fs, Some(p))))
  }

  /** Some transaction still holds a matching row at or below `p`. */
  ghost predicate Pending(db: Database, fs: seq<EventFilter>, p: int) {
    exists x, e :: x in db.running && e in db.running[x] && Matches(fs, e.event) && e.event.position <= p
  }

  lemma {:induction false} BelowIsPrefix(rows: seq<Entry>, p: int)
    ensures var n := |Below(rows, p)|;
            && n <= |rows| && Below(rows, p) == rows[..n]
            && (n > 0 ==> rows[n - 1].event.position <= p) && (n < |rows| ==> rows[n].event.position > p)
  {
    if rows != [] && rows[|rows| - 1].event.position > p {
      BelowIsPrefix(rows[..|rows| - 1], p);
    }
  }

  lemma {:induction false} BelowOk(rows: seq<Entry>, p: int)
    requires ByPosition(rows)
    ensures var n := |Below(rows, p)|;
            && n <= |rows| && Below(rows, p) == rows[..n] && ByPosition(rows[..n]) && ByPosition(rows[n..])
            && (forall i :: 0 <= i < |rows| ==> (rows[i].event.position <= p <==> i < n))
  {
    hide Below;
    BelowIsPrefix(rows, p);
  }

  lemma {:induction false} BelowHas(rows: seq<Entry>, p: int, e: Entry)
    requires ByPosition(rows)
    ensures var n := |Below(rows, p)|;
            && n <= |rows| && (e in rows[..n] <==> e in rows && e.event.position <= p)
            && (e in rows[n..] <==> e in rows && e.event.position > p)
  {
    hide Below;
    BelowOk(rows, p);
    if e in rows {
      var i :| 0 <= i < |rows| && rows[i] == e;
      var n := |Below(rows, p)|;
      assert i < n ==> rows[..n][i] == e;
      assert i >= n ==> rows[n..][i - n] == e;
    }
  }

  lemma DistinctUnique(db: Database)
    requires DistinctPositions(db)
    ensures PositionsUnique(db.table)
  {
    assert forall e :: e in db.table ==> PostgresDatabase.Held(db, e);
  }

  lemma {:induction false} SplitHas(table: seq<Entry>, fs: seq<EventFilter>, p: int, e: Entry)
    requires PositionsUnique(table) && PositionFree(fs)
    ensures var rows, past := Rows(table, fs), Rows(table, SetAfter(fs, Some(p))); var n := |Below(rows, p)|;
            && n <= |rows| && (e in rows[..n] <==> e in table && Matches(fs, e.event) && e.event.position <= p)
            && (e in rows[n..] <==> e in past)
  {
    hide Rows, Below, Matches, SetAfter, PositionFree, PositionsUnique, ByPosition;
    RowsOk(table, fs);
    RowsOk(table, SetAfter(fs, Some(p)));
    BelowHas(Rows(table, fs), p, e);
    MatchesAfter(fs, p, e.event);
  }

  /** A load splits at any position into what a snapshot there covers and what a load past it asks for. */
  lemma {:induction false} RowsSplit(table: seq<Entry>, fs: seq<EventFilter>, p: int)
    requires PositionsUnique(table) && PositionFree(fs)
    ensures Rows(table, fs) == Below(Rows(table, fs), p) + Rows(table, SetAfter(fs, Some(p)))
    ensures forall e :: e in Below(Rows(table, fs), p) <==> e in table && Matches(fs, e.event) && e.event.position <= p
    ensures ByPosition(Below(Rows(table, fs), p))
  {
    hide Rows, Below, Matches, SetAfter, PositionFree, PositionsUnique, ByPosition;
    var rows, past := Rows(table, fs), Rows(table, SetAfter(fs, Some(p)));
    var n := |Below(rows, p)|;
    RowsOk(table, fs);
    RowsOk(table, SetAfter(fs, Some(p)));
    BelowOk(rows, p);
    forall e: Entry
      ensures e in rows[..n] <==> e in table && Matches(fs, e.event) && e.event.position <= p
      ensures e in rows[n..] <==> e in past
    {
      SplitHas(table, fs, p, e);
    }
    OrderDecides(rows[n..], past);
    assert rows == rows[..n] + rows[n..];
  }

  /** So a load from scratch folds what a snapshot taken now would hold, then the rows past it. */
  lemma ScratchSplits<P>(def: Projection<P>, table: seq<Entry>, fs: seq<EventFilter>, p: int)
    requires PositionsUnique(table) && PositionFree(fs)
    ensures FromScratch(def, table, fs) ==
            var now := SnapshotAt(def, table, fs, p); if now.None? then None else Through(def, table, fs, now.value, p)
  {
    RowsSplit(table, fs, p);
    ReplayConcat(def, def.init, Below(Rows(table, fs), p), Rows(table, SetAfter(fs, Some(p))));
  }

  /** What such a load offers is a snapshot at the last row it read, an allocated position. */
  lemma LoadOffersSnapshot<P>(def: Projection<P>, db: Database, fs: seq<EventFilter>)
    requires Valid(db) && DistinctPositions(db) && Rows(db.table, fs) != []
    ensures var rows := Rows(db.table, fs); var p := rows[|rows| - 1].event.position;
            p < db.nextPosition && SnapshotAt(def, db.table, fs, p) == FromScratch(def, db.table, fs)
  {
    var rows := Rows(db.table, fs);
    DistinctUnique(db);
    RowsOk(db.table, fs);
    assert rows[|rows| - 1] in rows;
  }

  ghost predicate SameBelow(a: seq<Entry>, b: seq<Entry>, fs: seq<EventFilter>, p: int) {
    forall e: Entry :: Matches(fs, e.event) && e.event.position <= p ==> (e in a <==> e in b)
  }

  lemma NextStable(db: Database, step: Step, fs: seq<EventFilter>, p: int)
    requires Valid(db) && p < db.nextPosition && !Pending(db, fs, p)
    ensures var next := Next(db, step);
            p < next.nextPosition && !Pending(next, fs, p) && SameBelow(next.table, db.table, fs, p)
  {
    if step.Commit? && step.xid in db.running {
      IntoIndexOk(db.table, step.xid, db.running[step.xid], db.nextPosition);
    }
  }

  lemma {:induction false} RunStable(db: Database, steps: seq<Step>, fs: seq<EventFilter>, p: int)
    requires Valid(db) && p < db.nextPosition && !Pending(db, fs, p)
    ensures var later := Run(db, steps);
            p < later.nextPosition && !Pending(later, fs, p) && SameBelow(later.table, db.table, fs, p)
  {
    if steps != [] {
      RunStable(db, steps[..|steps| - 1], fs, p);
      RunValid(db, steps[..|steps| - 1]);
      NextStable(Run(db, steps[..|steps| - 1]), steps[|steps| - 1], fs, p);
    }
  }

  /**
   For every projection: a snapshot at an allocated position below which no running
   transaction holds a matching row is invisible to every load in every continuation.
   */
  lemma SnapshotStable<P>(def: Projection<P>, db: Database, steps: seq<Step>, fs: seq<EventFilter>, p: int, data: P)
    requires Valid(db) && DistinctPositions(db) && PositionFree(fs)
    requires p < db.nextPosition && !Pending(db, fs, p) && SnapshotAt(def, db.table, fs, p) == Some(data)
    ensures var later := Run(db, steps).table;
            Through(def, later, fs, data, p) == FromScratch(def, later, fs)
  {
    var later := Run(db, steps);
    RunStable(db, steps, fs, p);
    RunDistinct(db, steps);
    DistinctUnique(db);
    DistinctUnique(later);
    RowsSplit(db.table, fs, p);
    RowsSplit(later.table, fs, p);
    OrderDecides(Below(Rows(later.table, fs), p), Below(Rows(db.table, fs), p));
    ScratchSplits(def, later.table, fs, p);
  }

  /** The projection that forgets nothing: the positions applied, in order. */
  function Journal(fs: seq<EventFilter>): Projection<seq<int>> {
    Projection([], map kind | kind in Kinds(fs) :: Note)
  }

  function Kinds(fs: seq<EventFilter>): set<string> {
    set i | 0 <= i < |fs| :: fs[i].eventKind
  }

  function Note(seen: seq<int>, e: StoredEvent): Option<seq<int>> {
    Some(seen + [e.position])
  }

  function PositionsOf(rows: seq<Entry>): seq<int> {
    seq(|rows|, i requires 0 <= i < |rows| => rows[i].event.position)
  }

  lemma {:induction false} JournalReplay(fs: seq<EventFilter>, seen: seq<int>, rows: seq<Entry>)
    requires forall e :: e in rows ==> Matches(fs, e.event)
    ensures Replay(Journal(fs), seen, rows) == Some(seen + PositionsOf(rows))
  {
    if rows != [] {
      var front, last := rows[..|rows| - 1], rows[|rows| - 1];
      assert last in rows;
      JournalReplay(fs, seen, front);
      var before := seen + PositionsOf(front);
      assert last.event.kind in Kinds(fs);
      assert PositionsOf(rows) == PositionsOf(front) + [last.event.position];
      assert Replay(Journal(fs), seen, rows) == ApplyEvent(Journal(fs), before, last.event) == Note(before, last.event);
      assert before + [last.event.position] == seen + PositionsOf(rows);
    } else {
      assert seen + PositionsOf(rows) == seen;
    }
  }

  lemma JournalSnapshot(table: seq<Entry>, fs: seq<EventFilter>, p: int)
    requires PositionsUnique(table) && PositionFree(fs)
    ensures SnapshotAt(Journal(fs), table, fs, p) == Some(PositionsOf(Below(Rows(table, fs), p)))
    ensures FromScratch(Journal(fs), table, fs)
         == Some(PositionsOf(Below(Rows(table, fs), p)) + PositionsOf(Rows(table, SetAfter(fs, Some(p)))))
    ensures var past := PositionsOf(Rows(table, SetAfter(fs, Some(p))));
            forall seen :: Through(Journal(fs), table, fs, seen, p) == Some(seen + past)
  {
    RowsSplit(table, fs, p);
    RowsOk(table, fs);
    var below, past := Below(Rows(table, fs), p), Rows(table, SetAfter(fs, Some(p)));
    assert forall e :: e in past ==> e in Rows(table, fs);
    JournalReplay(fs, [], below);
    assert [] + PositionsOf(below) == PositionsOf(below);
    forall seen ensures Through(Journal(fs), table, fs, seen, p) == Some(seen + PositionsOf(past)) {
      JournalReplay(fs, seen, past);
    }
    ScratchSplits(Journal(fs), table, fs, p);
  }

  /** In the continuation, the load through the snapshot taken at `p` in `db` agrees with a load from scratch. */
  ghost predicate Agrees(db: Database, steps: seq<Step>, fs: seq<EventFilter>, p: int) {
    var journal, later := Journal(fs), Run(db, steps).table;
    var data := SnapshotAt(journal, db.table, fs, p);
    data.Some? && Through(journal, later, fs, data.value, p) == FromScratch(journal, later, fs)
  }

  /**
   And for no weaker condition: a snapshot of the journal at an allocated position stays
   good in every continuation if and only if no running transaction holds a matching row at
   or below it.
   */
  lemma SnapshotStableExactly(db: Database, fs: seq<EventFilter>, p: int)
    requires Valid(db) && DistinctPositions(db) && PositionFree(fs) && p < db.nextPosition
    ensures (forall steps :: Agrees(db, steps, fs, p)) <==> !Pending(db, fs, p)
  {
    DistinctUnique(db);
    JournalSnapshot(db.table, fs, p);
    if Pending(db, fs, p) {
      var x, e :| x in db.running && e in db.running[x] && Matches(fs, e.event) && e.event.position <= p;
      CommitUncovers(db, fs, p, x, e);
      assert !Agrees(db, [Commit(x)], fs, p);
    } else {
      forall steps ensures Agrees(db, steps, fs, p) {
        SnapshotStable(Journal(fs), db, steps, fs, p, PositionsOf(Below(Rows(db.table, fs), p)));
      }
    }
  }

  lemma {:induction false} CommitUncovers(db: Database, fs: seq<EventFilter>, p: int, x: int, e: Entry)
    requires Valid(db) && DistinctPositions(db) && PositionFree(fs) && p < db.nextPosition
    requires x in db.running && e in db.running[x] && Matches(fs, e.event) && e.event.position <= p
    ensures !Agrees(db, [Commit(x)], fs, p)
  {
    var later := Next(db, Commit(x));
    assert [Commit(x)][..0] == [] && Run(db, [Commit(x)]) == later;
    NextDistinct(db, Commit(x));
    DistinctUnique(db);
    DistinctUnique(later);
    NewlyVisible(db, x, e);
    hide Valid, DistinctPositions, PositionsUnique, Rows, Below, Journal, Replay, Matches, PositionFree, ByPosition,
      Run, Next;
    JournalSnapshot(db.table, fs, p);
    JournalSnapshot(later.table, fs, p);
    RowsSplit(db.table, fs, p);
    RowsSplit(later.table, fs, p);
    var before, after := Below(Rows(db.table, fs), p), Below(Rows(later.table, fs), p);
    OtherPositions(before, after, e, PositionsOf(Rows(later.table, SetAfter(fs, Some(p)))));
  }

  lemma NewlyVisible(db: Database, x: int, e: Entry)
    requires Valid(db) && DistinctPositions(db) && x in db.running && e in db.running[x]
    ensures e in Next(db, Commit(x)).table
    ensures forall f :: f in db.table ==> f.event.position != e.event.position
  {
    IntoIndexOk(db.table, x, db.running[x], db.nextPosition);
    assert RowOk(e, x, db.nextPosition) && PostgresDatabase.Held(db, e);
    assert forall f :: f in db.table ==> PostgresDatabase.Held(db, f);
  }

  lemma OtherPositions(a: seq<Entry>, b: seq<Entry>, e: Entry, past: seq<int>)
    requires e in b && forall f :: f in a ==> f.event.position != e.event.position
    ensures PositionsOf(a) + past != PositionsOf(b) + past
  {
    var i :| 0 <= i < |b| && b[i] == e;
    var front := PositionsOf(a) + past;
    assert (PositionsOf(b) + past)[i] == e.event.position;
    if |a| == |b| {
      assert a[i] in a && front[i] == a[i].event.position;
    } else {
      assert |front| != |PositionsOf(b) + past|;
    }
  }

  const KIND: seq<EventFilter> := [EventFilter("a", None, None, None)]

  function Row(xid: int, position: int): Entry {
    Entry(Checkpoint(xid, position), StoredEvent("k", "i", "a", position, ""))
  }

  /** Transaction 2 has committed position 2 while transaction 1 still holds position 1. */
  function Overtaken(): Database {
    Database(3, 3, map[1 := [Row(1, 1)]], [Row(2, 2)])
  }

  lemma OvertakenReached()
    ensures var event := Row(0, 0).event;
            Run(EMPTY, [Begin, Begin, Insert(1, event), Insert(2, event), Commit(2)]) == Overtaken()
  {
    var event := Row(0, 0).event;
    var steps := [Begin, Begin, Insert(1, event), Insert(2, event), Commit(2)];
    var d1 := Next(EMPTY, steps[0]);
    var d2 := Next(d1, steps[1]);
    var d3 := Next(d2, steps[2]);
    var d4 := Next(d3, steps[3]);
    assert steps[..4][..3][..2][..1][..0] == [];
    assert Run(EMPTY, steps[..4][..3][..2][..1]) == d1;
    assert Run(EMPTY, steps[..4][..3][..2]) == d2;
    assert Run(EMPTY, steps[..4][..3]) == d3;
    assert Run(EMPTY, steps[..4]) == d4;
    assert d4.running[1] == [Row(1, 1)] && d4.running[2] == [Row(2, 2)];
    assert d4.running - {2} == Overtaken().running;
    assert IntoIndex([], 2, [Row(2, 2)]) == [Row(2, 2)];
  }

  lemma ThenCommits()
    ensures Next(Overtaken(), Commit(1)).table == [Row(1, 1), Row(2, 2)]
  {
    assert [Row(2, 2)][..0] == [];
    assert IntoIndex([Row(2, 2)], 1, [Row(1, 1)]) == IntoIndex([], 1, [Row(1, 1)]) + [Row(2, 2)];
  }

  lemma KindMatches(e: StoredEvent)
    ensures e.kind == "a" ==> Matches(KIND, e)
    ensures Matches(SetAfter(KIND, Some(2)), e) ==> e.position > 2
    ensures PositionFree(KIND)
  {
    assert e.kind == "a" ==> FilterMatches(KIND[0], e);
  }

  lemma {:induction false} OvertakenRows()
    ensures Rows([Row(2, 2)], KIND) == [Row(2, 2)]
    ensures Rows([Row(1, 1), Row(2, 2)], KIND) == [Row(1, 1), Row(2, 2)]
    ensures Rows([Row(1, 1), Row(2, 2)], SetAfter(KIND, Some(2))) == []
  {
    hide Rows, KIND, Matches, SetAfter;
    var first, second := Row(1, 1), Row(2, 2);
    KindMatches(first.event);
    KindMatches(second.event);
    LoadedRows([second], KIND, [second]);
    LoadedRows([first, second], KIND, [first, second]);
    LoadedRows([first, second], SetAfter(KIND, Some(2)), []);
  }

  /** A load there snapshots [2] at position 2; once transaction 1 commits, that snapshot hides position 1 for good. */
  lemma {:induction false} OvertakenGoesStale()
    ensures var now, later := Overtaken().table, Next(Overtaken(), Commit(1)).table;
            && SnapshotAt(Journal(KIND), now, KIND, 2) == Some([2])
            && Through(Journal(KIND), later, KIND, [2], 2) == Some([2])
            && FromScratch(Journal(KIND), later, KIND) == Some([1, 2])
  {
    hide Rows, Replay, KIND;
    ThenCommits();
    OvertakenRows();
    var first, second := Row(1, 1), Row(2, 2);
    KindMatches(first.event);
    KindMatches(second.event);
    JournalReplay(KIND, [], [second]);
    JournalReplay(KIND, [], [first, second]);
    JournalReplay(KIND, [2], []);
    assert [] + PositionsOf([second]) == [2] && [] + PositionsOf([first, second]) == [1, 2]
           && [2] + PositionsOf([]) == [2];
  }
}
