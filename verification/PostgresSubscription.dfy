/**
 The Postgres subscription loop: read the stability boundary once, drain every stable
 event in pages, then announce the boundary as a frontier. Between any two queries the
 writers may take any number of steps; a schedule says which.
 */
module PostgresSubscription {
  import opened Options
  import opened EventLog
  import opened Delivery
  import opened PostgresDatabase

  const BATCH_LIMIT: nat := 1024

  /** The shared server. Writers act on it between the subscriber's queries. */
  class Server {
    var db: Database

    constructor ()
      ensures db == EMPTY
    {
      db := EMPTY;
    }

    method Advance(steps: seq<Step>)
      requires PostgresDatabase.Valid(db)
      modifies this
      ensures db == Run(old(db), steps)
      ensures PostgresDatabase.Valid(db)
    {
      var i := 0;
      assert steps[..0] == [];
      while i < |steps|
        invariant 0 <= i <= |steps|
        invariant db == Run(old(db), steps[..i])
      {
        assert steps[..i + 1][..i] == steps[..i];
        db := Next(db, steps[i]);
        i := i + 1;
      }
      assert steps[..|steps|] == steps;
      RunValid(old(db), steps);
    }
  }

  /**
   The page query: rows of settled transactions past the cursor that match, in index
   order, at most `limit` of them.
   */
  function LoadStableBatch(table: seq<Entry>, fs: seq<EventFilter>, cursor: Checkpoint, xmin: int,
      limit: nat): seq<Entry> {
    if table == [] || limit == 0 then []
    else
      var e := table[0];
      if e.checkpoint.xid < xmin && Less(cursor, e.checkpoint) && Matches(fs, e.event)
      then [e] + LoadStableBatch(table[1..], fs, cursor, xmin, limit - 1)
      else LoadStableBatch(table[1..], fs, cursor, xmin, limit)
  }

  /** The synthetic watermark that closes off everything below `xmin`. */
  function Boundary(xmin: int): Checkpoint {
    Checkpoint(xmin - 1, I64_MAX)
  }

  function Take<T>(s: seq<T>, n: nat): seq<T> {
    if n < |s| then s[..n] else s
  }

  /** A page is the first `limit` entries of what is stable and still undelivered. */
  lemma {:induction false} BatchIsWindowPrefix(table: seq<Entry>, fs: seq<EventFilter>, cursor: Checkpoint, xmin: int,
      limit: nat)
    requires forall e :: e in table ==> e.checkpoint.position <= I64_MAX
    ensures LoadStableBatch(table, fs, cursor, xmin, limit)
            == Take(Window(table, fs, Some(cursor), Boundary(xmin)), limit)
  {
    if table != [] && limit != 0 {
      var e, rest := table[0], table[1..];
      assert table == [e] + rest;
      assert e in table;
      WindowConcat([e], rest, fs, Some(cursor), Boundary(xmin));
      assert [e][..0] == [];
      var here := Selected(e, fs, Some(cursor), Boundary(xmin));
      assert Window([e], fs, Some(cursor), Boundary(xmin)) == if here then [e] else [];
      BatchIsWindowPrefix(rest, fs, cursor, xmin, if here then limit - 1 else limit);
    }
  }

  /** What has been delivered, together with the cursor, is exactly right for the current table. */
  ghost predicate InStep(table: seq<Entry>, fs: seq<EventFilter>, from: Option<Checkpoint>, cursor: Checkpoint,
      out: seq<Item>) {
    && OptAtMost(from, Some(cursor))
    && Delivered(out) == Fresh(out, from) == Window(table, fs, from, cursor)
    && Faithful(out, fs, from, table)
  }

  ghost predicate AllSettled(db: Database, items: seq<Item>) {
    forall i :: 0 <= i < |items| ==> Settled(db, ItemCheckpoint(items[i]).xid)
  }

  /** The cursor is settled, or still where the subscriber was told to start. */
  ghost predicate Anchored(db: Database, from: Option<Checkpoint>, cursor: Checkpoint) {
    Settled(db, cursor.xid) || from == Some(cursor)
  }

  /** Everything already delivered stays exactly right whatever the writers do next. */
  lemma InStepForever(db: Database, steps: seq<Step>, fs: seq<EventFilter>, from: Option<Checkpoint>,
      cursor: Checkpoint, out: seq<Item>)
    requires PostgresDatabase.Valid(db) && InStep(db.table, fs, from, cursor, out)
    requires Anchored(db, from, cursor) && AllSettled(db, out)
    ensures InStep(Run(db, steps).table, fs, from, cursor, out)
    ensures Anchored(Run(db, steps), from, cursor) && AllSettled(Run(db, steps), out)
  {
    if Settled(db, cursor.xid) {
      SettledFrozen(db, steps, fs, from, cursor);
      SettledForever(db, steps, cursor.xid);
    } else {
      WindowNothing(db.table, fs, from, cursor);
      WindowNothing(Run(db, steps).table, fs, from, cursor);
    }
    forall i | 0 <= i < |out|
      ensures Window(db.table, fs, from, ItemCheckpoint(out[i]))
              == Window(Run(db, steps).table, fs, from, ItemCheckpoint(out[i]))
      ensures Settled(Run(db, steps), ItemCheckpoint(out[i]).xid)
    {
      SettledFrozen(db, steps, fs, from, ItemCheckpoint(out[i]));
      SettledForever(db, steps, ItemCheckpoint(out[i]).xid);
    }
    FaithfulFrozen(out, fs, from, db.table, Run(db, steps).table);
  }

  /** Delivering the first undelivered entry below `hi` keeps delivery in step. */
  lemma DeliverNext(table: seq<Entry>, fs: seq<EventFilter>, from: Option<Checkpoint>, cursor: Checkpoint,
      hi: Checkpoint, out: seq<Item>)
    requires Ordered(table) && InStep(table, fs, from, cursor, out) && AtMost(cursor, hi)
    requires Window(table, fs, Some(cursor), hi) != []
    ensures var w := Window(table, fs, Some(cursor), hi); var c := w[0].checkpoint;
            && Less(cursor, c) && AtMost(c, hi)
            && InStep(table, fs, from, c, out + [Event(w[0])])
            && Fresh(out + [Event(w[0])], from) == Fresh(out, from) + [w[0]]
            && Window(table, fs, Some(c), hi) == w[1..]
  {
    var w := Window(table, fs, Some(cursor), hi);
    var e := w[0];
    WindowCut(table, fs, Some(cursor), hi, 1);
    WindowSplit(table, fs, from, cursor, e.checkpoint);
    assert w[..1] == [e];
    assert Window(table, fs, from, e.checkpoint) == Fresh(out, from) + [e];
    AppendsNext(table, fs, from, cursor, out, e);
    DeliveredAppend(out, Event(e));
    FaithfulAppend(out, Event(e), fs, from, table);
  }

  lemma AppendsNext(table: seq<Entry>, fs: seq<EventFilter>, from: Option<Checkpoint>, cursor: Checkpoint,
      out: seq<Item>, e: Entry)
    requires Fresh(out, from) == Window(table, fs, from, cursor)
    requires OptAtMost(from, Some(cursor)) && Less(cursor, e.checkpoint)
    ensures Fresh(out + [Event(e)], from) == Fresh(out, from) + [e]
  {
    FreshAppend(out, Event(e), from);
    WindowMember(table, fs, from, cursor);
    var kept := Fresh(out, from);
    if kept != [] {
      assert kept[|kept| - 1] in Window(table, fs, from, cursor);
    }
  }

  /** With nothing outstanding below it, a frontier may be announced. */
  lemma FrontierInStep(table: seq<Entry>, fs: seq<EventFilter>, from: Option<Checkpoint>, cursor: Checkpoint,
      f: Checkpoint, out: seq<Item>)
    requires Ordered(table) && InStep(table, fs, from, cursor, out) && Window(table, fs, Some(cursor), f) == []
    requires AtMost(cursor, f) || from == Some(cursor)
    ensures InStep(table, fs, from, cursor, out + [Frontier(f)])
    ensures Delivered(out + [Frontier(f)]) == Window(table, fs, from, f)
  {
    if AtMost(cursor, f) {
      WindowSplit(table, fs, from, cursor, f);
    } else {
      WindowNothing(table, fs, from, cursor);
      WindowNothing(table, fs, from, f);
    }
    FaithfulAppend(out, Frontier(f), fs, from, table);
    FreshAppend(out, Frontier(f), from);
    DeliveredAppend(out, Frontier(f));
  }

  /** In checkpoint order means at most once: an entry of an ordered log sits at one index. */
  ghost predicate Once(s: seq<Entry>, e: Entry) {
    exists i :: OnlyAt(s, e, i)
  }

  ghost predicate OnlyAt(s: seq<Entry>, e: Entry, i: int) {
    0 <= i < |s| && s[i] == e && forall j :: 0 <= j < |s| && s[j] == e ==> j == i
  }

  /**
   Gap-free delivery over every continuation: at any later point, the delivered events are
   strictly increasing, all of them committed, and every matching event in (from, cursor]
   that has committed by then was delivered exactly once.
   */
  lemma GapFreeDelivery(db: Database, steps: seq<Step>, fs: seq<EventFilter>, from: Option<Checkpoint>,
      cursor: Checkpoint, out: seq<Item>)
    requires PostgresDatabase.Valid(db) && InStep(db.table, fs, from, cursor, out)
    requires Anchored(db, from, cursor) && AllSettled(db, out)
    ensures Ordered(Delivered(out))
    ensures forall e :: e in Delivered(out) ==> e in Run(db, steps).table
    ensures forall e :: e in Run(db, steps).table && Selected(e, fs, from, cursor) ==> Once(Delivered(out), e)
  {
    InStepForever(db, steps, fs, from, cursor, out);
    RunValid(db, steps);
    WindowOnce(Run(db, steps).table, fs, from, cursor);
  }

  lemma WindowOnce(table: seq<Entry>, fs: seq<EventFilter>, lo: Option<Checkpoint>, hi: Checkpoint)
    requires Ordered(table)
    ensures var w := Window(table, fs, lo, hi);
            && Ordered(w)
            && (forall e :: e in w ==> e in table)
            && (forall e :: e in table && Selected(e, fs, lo, hi) ==> Once(w, e))
  {
    WindowOrdered(table, fs, lo, hi);
    WindowMember(table, fs, lo, hi);
    OrderedOnce(Window(table, fs, lo, hi));
  }

  lemma OrderedOnce(s: seq<Entry>)
    requires Ordered(s)
    ensures forall e :: e in s ==> Once(s, e)
  {
    forall e | e in s ensures Once(s, e) {
      var i :| 0 <= i < |s| && s[i] == e;
      assert forall j :: i < j < |s| ==> Less(e.checkpoint, s[j].checkpoint);
      assert forall j :: 0 <= j < i ==> Less(s[j].checkpoint, e.checkpoint);
      assert OnlyAt(s, e, i);
    }
  }

  /** A frontier yielded now admits nothing new at or below it in any continuation. */
  lemma FrontierSoundForever(db: Database, steps: seq<Step>, fs: seq<EventFilter>, from: Option<Checkpoint>,
      cursor: Checkpoint, out: seq<Item>, i: nat)
    requires PostgresDatabase.Valid(db) && InStep(db.table, fs, from, cursor, out)
    requires Anchored(db, from, cursor) && AllSettled(db, out)
    requires i < |out| && out[i].Frontier?
    ensures forall e :: e in Run(db, steps).table && Selected(e, fs, from, out[i].frontier) ==>
              e in Fresh(out[..i], from)
  {
    InStepForever(db, steps, fs, from, cursor, out);
    FaithfulAt(out, i, fs, from, Run(db, steps).table);
    WindowMember(Run(db, steps).table, fs, from, out[i].frontier);
  }

  /** A committed write whose transaction is below `xmin` is covered by that cycle's frontier, matched or not. */
  lemma BoundaryCoversCommits(db: Database, e: Entry, xmin: int)
    requires PostgresDatabase.Valid(db) && e in db.table
    ensures e.checkpoint.xid < xmin <==> AtMost(e.checkpoint, Boundary(xmin))
  {
    assert RowOk(e, e.checkpoint.xid, db.nextPosition);
  }

  /** The unfiltered head of the log: a token for everything visible so far. */
  function LatestCheckpoint(table: seq<Entry>): Option<Checkpoint> {
    if table == [] then None else Some(table[|table| - 1].checkpoint)
  }

  /** The token is the greatest committed checkpoint: it covers every commit made before it was minted. */
  lemma LatestCoversAll(db: Database)
    requires PostgresDatabase.Valid(db)
    ensures LatestCheckpoint(db.table).None? <==> db.table == []
    ensures forall e :: e in db.table ==> AtMost(e.checkpoint, LatestCheckpoint(db.table).value)
    ensures db.table != [] ==> exists e :: e in db.table && e.checkpoint == LatestCheckpoint(db.table).value
  {
    var table := db.table;
    forall e | e in table ensures AtMost(e.checkpoint, table[|table| - 1].checkpoint) {
      var i :| 0 <= i < |table| && table[i] == e;
      assert i < |table| - 1 ==> Less(table[i].checkpoint, table[|table| - 1].checkpoint);
    }
  }

  /** What was delivered is a lawful point to resume from, now and in every continuation. */
  lemma DeliveredResumes(db: Database, steps: seq<Step>, out: seq<Item>, i: nat)
    requires PostgresDatabase.Valid(db) && AllSettled(db, out)
    requires i < |out| && out[i].Event? && out[i].entry in db.table
    ensures Settled(Run(db, steps), out[i].entry.checkpoint.xid) && out[i].entry.checkpoint.position <= I64_MAX
  {
    assert Settled(db, ItemCheckpoint(out[i]).xid);
    SettledForever(db, steps, out[i].entry.checkpoint.xid);
    assert RowOk(out[i].entry, out[i].entry.checkpoint.xid, db.nextPosition);
  }

  class Subscriber {
    const server: Server
    const filters: seq<EventFilter>
    const from: Option<Checkpoint>
    var cursor: Checkpoint
    var out: seq<Item>

    ghost predicate Valid()
      reads this, server
    {
      && PostgresDatabase.Valid(server.db)
      && InStep(server.db.table, filters, from, cursor, out)
      && Anchored(server.db, from, cursor) && cursor.position <= I64_MAX
      && AllSettled(server.db, out)
    }

    /** A fresh start, or a resume from any checkpoint, even of a transaction still running. */
    constructor (server: Server, filters: seq<EventFilter>, from: Option<Checkpoint>)
      requires PostgresDatabase.Valid(server.db)
      requires from.Some? ==> from.value.position <= I64_MAX
      ensures Valid()
      ensures this.server == server && this.filters == filters && this.from == from
      ensures out == [] && cursor == if from.Some? then from.value else Checkpoint(0, 0)
    {
      this.server := server;
      this.filters := filters;
      this.from := from;
      this.cursor := if from.Some? then from.value else Checkpoint(0, 0);
      this.out := [];
      new;
      WindowNothing(server.db.table, filters, from, cursor);
    }

    /** Nothing past the boundary has been delivered: the cursor is within it, or has not moved yet. */
    ghost predicate Within(hi: Checkpoint)
      reads this
    {
      AtMost(cursor, hi) || from == Some(cursor)
    }

    /** The matching events below `hi` that are visible and not yet delivered. */
    ghost function Outstanding(hi: Checkpoint): seq<Entry>
      reads this, server
    {
      Window(server.db.table, filters, Some(cursor), hi)
    }

    /** Writers take steps while the subscriber waits; nothing settled changes under it. */
    method Wait(steps: seq<Step>, ghost hi: Checkpoint)
      requires Valid() && Settled(server.db, hi.xid)
      modifies server
      ensures Valid() && Settled(server.db, hi.xid)
      ensures server.db == Run(old(server.db), steps)
      ensures Outstanding(hi) == old(Outstanding(hi))
    {
      InStepForever(server.db, steps, filters, from, cursor, out);
      SettledForever(server.db, steps, hi.xid);
      SettledFrozen(server.db, steps, filters, Some(cursor), hi);
      server.Advance(steps);
    }

    method Yield(e: Entry, ghost hi: Checkpoint)
      requires Valid() && Settled(server.db, hi.xid) && hi.position <= I64_MAX
      requires Outstanding(hi) != [] && e == Outstanding(hi)[0]
      modifies this
      ensures Valid() && Within(hi)
      ensures cursor == e.checkpoint && Less(old(cursor), cursor)
      ensures out == old(out) + [Event(e)]
      ensures Outstanding(hi) == old(Outstanding(hi))[1..]
    {
      WindowMember(server.db.table, filters, Some(cursor), hi);
      assert e in Outstanding(hi);
      DeliverNext(server.db.table, filters, from, cursor, hi, out);
      assert e in server.db.table;
      cursor := e.checkpoint;
      out := out + [Event(e)];
    }

    /** Query one page and yield it. */
    method DrainPage(xmin: int) returns (drained: nat)
      requires Valid() && Settled(server.db, xmin - 1) && Within(Boundary(xmin))
      modifies this
      ensures Valid() && AtMost(old(cursor), cursor) && Within(Boundary(xmin))
      ensures drained <= BATCH_LIMIT && drained <= |old(Outstanding(Boundary(xmin)))|
      ensures old(out) <= out
      ensures Outstanding(Boundary(xmin)) == old(Outstanding(Boundary(xmin)))[drained..]
      ensures drained < BATCH_LIMIT ==> Outstanding(Boundary(xmin)) == []
    {
      ghost var hi := Boundary(xmin);
      ghost var w := Outstanding(hi);
      var batch := LoadStableBatch(server.db.table, filters, cursor, xmin, BATCH_LIMIT);
      BatchIsWindowPrefix(server.db.table, filters, cursor, xmin, BATCH_LIMIT);
      drained := 0;
      while drained < |batch|
        invariant 0 <= drained <= |batch| == |Take(w, BATCH_LIMIT)|
        invariant Valid() && AtMost(old(cursor), cursor) && Within(hi)
        invariant Outstanding(hi) == w[drained..]
        invariant old(out) <= out
      {
        var e := batch[drained];
        assert e == w[drained];
        Yield(e, hi);
        drained := drained + 1;
      }
    }

    /**
     The inner loop: page through everything stable below `xmin`. It ends however the
     writers behave between queries, because the stable events are a fixed set.
     */
    method Drain(xmin: int, schedule: nat -> seq<Step>) returns (ghost ran: seq<Step>)
      requires Valid() && Settled(server.db, xmin - 1) && Within(Boundary(xmin))
      modifies this, server
      ensures Valid() && Settled(server.db, xmin - 1)
      ensures server.db == Run(old(server.db), ran)
      ensures old(out) <= out
      ensures Outstanding(Boundary(xmin)) == [] && Within(Boundary(xmin))
    {
      ran := [];
      var query := 0;
      while true
        invariant Valid() && Settled(server.db, xmin - 1) && Within(Boundary(xmin))
        invariant old(out) <= out
        invariant server.db == Run(old(server.db), ran)
        decreases |Outstanding(Boundary(xmin))|
      {
        RunAppend(old(server.db), ran, schedule(query));
        Wait(schedule(query), Boundary(xmin));
        ran := ran + schedule(query);
        query := query + 1;
        var drained := DrainPage(xmin);
        if drained < BATCH_LIMIT {
          break;
        }
      }
    }

    /** Every stable event is delivered, so everything below the boundary is closed off. */
    method Announce(xmin: int)
      requires Valid() && Settled(server.db, xmin - 1) && Within(Boundary(xmin))
      requires Outstanding(Boundary(xmin)) == []
      modifies this`out
      ensures Valid()
      ensures out == old(out) + [Frontier(Boundary(xmin))]
      ensures Delivered(out) == Window(server.db.table, filters, from, Boundary(xmin))
    {
      FrontierInStep(server.db.table, filters, from, cursor, Boundary(xmin), out);
      hide InStep, Window, Faithful, Delivered;
      out := out + [Frontier(Boundary(xmin))];
    }

    /** One pass of the outer loop: boundary, drain, frontier, all against the same `xmin`. */
    method Cycle(schedule: nat -> seq<Step>) returns (xmin: int, ghost ran: seq<Step>)
      requires Valid()
      modifies this, server
      ensures Valid()
      ensures xmin == Xmin(old(server.db))
      ensures server.db == Run(old(server.db), ran)
      ensures old(out) < out && out[|out| - 1] == Frontier(Boundary(xmin))
      ensures Delivered(out) == Window(server.db.table, filters, from, Boundary(xmin))
    {
      xmin := Xmin(server.db);
      BelowXminSettled(server.db);
      ran := Drain(xmin, schedule);
      Announce(xmin);
    }
  }
}
