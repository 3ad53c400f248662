/**
 `load_events` on Postgres: one query per filter, joined by `UNION` and ordered by position.
 Each matching event appears once, however many filters select it.
 */
module PostgresLoading {
  import opened Options
  import opened EventLog
  import PostgresWriters

  datatype LoadResult = Loaded(rows: seq<Entry>) | InvalidPosition(after: int)

  /** The result is a function of what it must contain: rows of the table, by position. */
  ghost predicate ByPosition(rows: seq<Entry>) {
    forall i, j :: 0 <= i < j < |rows| ==> rows[i].event.position < rows[j].event.position
  }

  ghost predicate PositionsUnique(table: seq<Entry>) {
    forall e, f :: e in table && f in table && e.event.position == f.event.position ==> e == f
  }

  function Place(rows: seq<Entry>, e: Entry): seq<Entry> {
    if rows == [] || rows[|rows| - 1].event.position < e.event.position then rows + [e]
    else if rows[|rows| - 1].event.position == e.event.position then rows
    else Place(rows[..|rows| - 1], e) + [rows[|rows| - 1]]
  }

  lemma {:induction false} PlaceOk(rows: seq<Entry>, e: Entry)
    requires ByPosition(rows) && forall r :: r in rows && r.event.position == e.event.position ==> r == e
    ensures ByPosition(Place(rows, e)) && forall r :: r in Place(rows, e) <==> r in rows || r == e
  {
    if rows != [] {
      var front, last := rows[..|rows| - 1], rows[|rows| - 1];
      assert rows == front + [last] && last in rows;
      if last.event.position > e.event.position {
        PlaceOk(front, e);
        var placed := Place(front, e);
        forall i | 0 <= i < |placed| ensures placed[i].event.position < last.event.position {
          assert placed[i] in placed;
          if placed[i] != e {
            var j :| 0 <= j < |front| && front[j] == placed[i];
            assert rows[j] == front[j];
          }
        }
      }
    }
  }

  /** Rows holding the union of what the first `n` filters select. */
  ghost predicate UnionOf(rows: seq<Entry>, table: seq<Entry>, fs: seq<EventFilter>) {
    ByPosition(rows) && forall e :: e in rows <==> e in table && Matches(fs, e.event)
  }

  method LoadEvents(table: seq<Entry>, fs: seq<EventFilter>) returns (r: LoadResult)
    requires PositionsUnique(table)
    ensures r.InvalidPosition? <==>
              exists i :: 0 <= i < |fs| && fs[i].afterPosition.Some? && fs[i].afterPosition.value < 0
    ensures r.Loaded? ==> UnionOf(r.rows, table, fs)
  {
    var rows: seq<Entry> := [];
    var i := 0;
    while i < |fs|
      invariant 0 <= i <= |fs|
      invariant UnionOf(rows, table, fs[..i])
      invariant forall j :: 0 <= j < i ==> !(fs[j].afterPosition.Some? && fs[j].afterPosition.value < 0)
    {
      if fs[i].afterPosition.Some? && fs[i].afterPosition.value < 0 {
        return InvalidPosition(fs[i].afterPosition.value);
      }
      rows := AddSelected(rows, table, fs, i);
      i := i + 1;
    }
    assert fs[..|fs|] == fs;
    r := Loaded(rows);
  }

  /** `UNION` with the query of one more filter. */
  method AddSelected(before: seq<Entry>, table: seq<Entry>, fs: seq<EventFilter>, i: nat) returns (rows: seq<Entry>)
    requires i < |fs| && PositionsUnique(table) && UnionOf(before, table, fs[..i])
    ensures UnionOf(rows, table, fs[..i + 1])
  {
    rows := before;
    var j := 0;
    while j < |table|
      invariant 0 <= j <= |table|
      invariant ByPosition(rows)
      invariant forall e :: e in rows <==> e in before || (e in table[..j] && FilterMatches(fs[i], e.event))
    {
      if FilterMatches(fs[i], table[j].event) {
        PlaceOk(rows, table[j]);
        rows := Place(rows, table[j]);
      }
      j := j + 1;
    }
    assert table[..|table|] == table;
    forall e ensures Matches(fs[..i + 1], e) <==> Matches(fs[..i], e) || FilterMatches(fs[i], e) {
      MatchesOneMore(fs, i, e);
    }
  }

  lemma MatchesOneMore(fs: seq<EventFilter>, i: nat, e: StoredEvent)
    requires i < |fs|
    ensures Matches(fs[..i + 1], e) <==> Matches(fs[..i], e) || FilterMatches(fs[i], e)
  {
    var more := fs[..i + 1];
    assert forall k :: 0 <= k < i ==> more[k] == fs[..i][k];
    assert more[i] == fs[i];
  }

  ghost predicate Within(a: seq<Entry>, b: seq<Entry>) {
    forall e :: e in a ==> e in b
  }

  lemma LastIsGreatest(a: seq<Entry>, e: Entry)
    requires ByPosition(a) && e in a
    ensures e.event.position <= a[|a| - 1].event.position
    ensures e != a[|a| - 1] ==> e in a[..|a| - 1]
    ensures ByPosition(a[..|a| - 1]) && (e in a[..|a| - 1] ==> e != a[|a| - 1])
  {
    var i :| 0 <= i < |a| && a[i] == e;
    assert a == a[..|a| - 1] + [a[|a| - 1]];
    if e in a[..|a| - 1] {
      var j :| 0 <= j < |a| - 1 && a[j] == e;
    }
  }

  lemma FrontWithin(a: seq<Entry>, b: seq<Entry>)
    requires ByPosition(a) && ByPosition(b) && a != [] && b != [] && Within(a, b) && a[|a| - 1] == b[|b| - 1]
    ensures Within(a[..|a| - 1], b[..|b| - 1])
  {
    var front, rest := a[..|a| - 1], b[..|b| - 1];
    forall e | e in front ensures e in rest {
      LastIsGreatest(a, e);
      LastIsGreatest(b, e);
    }
  }

  /** Same rows in the same order: membership and ordering leave no choice. */
  lemma {:induction false} OrderDecides(a: seq<Entry>, b: seq<Entry>)
    requires ByPosition(a) && ByPosition(b) && Within(a, b) && Within(b, a)
    ensures a == b
  {
    if a != [] && b != [] {
      LastIsGreatest(a, a[|a| - 1]);
      LastIsGreatest(b, b[|b| - 1]);
      LastIsGreatest(a, b[|b| - 1]);
      LastIsGreatest(b, a[|a| - 1]);
      FrontWithin(a, b);
      FrontWithin(b, a);
      OrderDecides(a[..|a| - 1], b[..|b| - 1]);
      assert a == a[..|a| - 1] + [a[|a| - 1]] && b == b[..|b| - 1] + [b[|b| - 1]];
    } else {
      NonemptyHas(a);
      NonemptyHas(b);
    }
  }

  lemma NonemptyHas(s: seq<Entry>)
    ensures s == [] || s[0] in s
  {
  }

  /** What a load returns, as a function of the table. */
  function Rows(table: seq<Entry>, fs: seq<EventFilter>): seq<Entry> {
    if table == [] then []
    else
      var front, e := Rows(table[..|table| - 1], fs), table[|table| - 1];
      if Matches(fs, e.event) then Place(front, e) else front
  }

  lemma {:induction false} RowsOk(table: seq<Entry>, fs: seq<EventFilter>)
    requires PositionsUnique(table)
    ensures UnionOf(Rows(table, fs), table, fs)
  {
    if table != [] {
      var front, e := table[..|table| - 1], table[|table| - 1];
      assert table == front + [e];
      RowsOk(front, fs);
      PlaceOk(Rows(front, fs), e);
    }
  }

  lemma LoadedRows(table: seq<Entry>, fs: seq<EventFilter>, rows: seq<Entry>)
    requires PositionsUnique(table) && UnionOf(rows, table, fs)
    ensures rows == Rows(table, fs)
  {
    RowsOk(table, fs);
    OrderDecides(rows, Rows(table, fs));
  }

  lemma OfThatStream(s: PostgresWriters.Stream, fs: seq<EventFilter>, e: Entry)
    requires forall i :: 0 <= i < |fs| ==> fs[i].aggregateKind == Some(s.kind) && fs[i].aggregateId == Some(s.id)
    requires Matches(fs, e.event)
    ensures PostgresWriters.Of(e, s)
  {
  }

  /**
   For a stream written by optimistic writers, in any reachable state, replaying by position
   is replaying in the order of commits: loading it gives its events as the index has them.
   */
  lemma LoadReplaysStream(world: PostgresWriters.World, s: PostgresWriters.Stream, fs: seq<EventFilter>,
      rows: seq<Entry>, top: Checkpoint)
    requires PostgresWriters.Sound(world) && UnionOf(rows, world.db.table, fs)
    requires forall i :: 0 <= i < |fs| ==> fs[i].aggregateKind == Some(s.kind) && fs[i].aggregateId == Some(s.id)
    requires forall e :: e in world.db.table ==> AtMost(e.checkpoint, top)
    ensures rows == Window(world.db.table, fs, None, top)
  {
    var table := world.db.table;
    var delivered := Window(table, fs, None, top);
    WindowMember(table, fs, None, top);
    WindowOrdered(table, fs, None, top);
    forall i, j | 0 <= i < j < |delivered| ensures delivered[i].event.position < delivered[j].event.position {
      assert delivered[i] in delivered && delivered[j] in delivered;
      OfThatStream(s, fs, delivered[i]);
      OfThatStream(s, fs, delivered[j]);
      assert PostgresWriters.SameStream(delivered[i], delivered[j]);
    }
    OrderDecides(rows, delivered);
  }
}
