/**
 The contract between a subscribable store and its subscribers, stated against a log:
 matching events arrive at least once and in checkpoint order, and a frontier closes off
 everything below it.
 */
module Delivery {
  import opened Options
  import opened EventLog

  datatype Item = Event(entry: Entry) | Frontier(frontier: Checkpoint)

  function ItemCheckpoint(item: Item): Checkpoint {
    match item
    case Event(e) => e.checkpoint
    case Frontier(f) => f
  }

  /** Every event in the stream, redeliveries included. */
  function Delivered(items: seq<Item>): seq<Entry> {
    if items == [] then []
    else
      var front, item := Delivered(items[..|items| - 1]), items[|items| - 1];
      if item.Event? then front + [item.entry] else front
  }

  lemma DeliveredAppend(items: seq<Item>, item: Item)
    ensures Delivered(items + [item]) == if item.Event? then Delivered(items) + [item.entry] else Delivered(items)
  {
    assert (items + [item])[..|items + [item]| - 1] == items;
  }

  /** Keep an item's event unless it is at or below the last one kept, or the starting point. */
  function Keep(kept: seq<Entry>, item: Item, from: Option<Checkpoint>): seq<Entry> {
    if item.Event? && After(item.entry.checkpoint, LastKept(kept, from)) then kept + [item.entry] else kept
  }

  function LastKept(kept: seq<Entry>, from: Option<Checkpoint>): Option<Checkpoint> {
    if kept == [] then from else Some(kept[|kept| - 1].checkpoint)
  }

  /** The events left after dropping every redelivery. */
  function Fresh(items: seq<Item>, from: Option<Checkpoint>): seq<Entry> {
    if items == [] then [] else Keep(Fresh(items[..|items| - 1], from), items[|items| - 1], from)
  }

  /** `item` may follow `items` for a subscriber that started after `from`. */
  ghost predicate MayFollow(items: seq<Item>, item: Item, fs: seq<EventFilter>, from: Option<Checkpoint>,
      log: seq<Entry>) {
    match item
    case Event(e) =>
      // either a redelivery, or exactly the next matching event of the log
      e in Fresh(items, from) || Fresh(items, from) + [e] == Window(log, fs, from, e.checkpoint)
    case Frontier(f) =>
      // nothing at or below the frontier is still outstanding
      Window(log, fs, from, f) <= Fresh(items, from)
  }

  /**
   A stream of items honours the store contract with respect to `log`. A store owes this
   for every log that any continuation of its execution can reach.
   */
  ghost predicate Faithful(items: seq<Item>, fs: seq<EventFilter>, from: Option<Checkpoint>, log: seq<Entry>) {
    items == [] ||
    (Faithful(items[..|items| - 1], fs, from, log)
     && MayFollow(items[..|items| - 1], items[|items| - 1], fs, from, log))
  }

  /** A store honours the contract for subscribers starting anywhere. */
  ghost predicate HonoursContract(source: Option<Checkpoint> -> seq<Item>, fs: seq<EventFilter>, log: seq<Entry>) {
    forall from :: Faithful(source(from), fs, from, log)
  }

  lemma FaithfulAppend(items: seq<Item>, item: Item, fs: seq<EventFilter>, from: Option<Checkpoint>, log: seq<Entry>)
    requires Faithful(items, fs, from, log) && MayFollow(items, item, fs, from, log)
    ensures Faithful(items + [item], fs, from, log)
  {
    assert (items + [item])[..|items + [item]| - 1] == items;
  }

  lemma {:induction false} FaithfulAt(items: seq<Item>, n: nat, fs: seq<EventFilter>, from: Option<Checkpoint>,
      log: seq<Entry>)
    requires n < |items| && Faithful(items, fs, from, log)
    ensures Faithful(items[..n], fs, from, log) && MayFollow(items[..n], items[n], fs, from, log)
  {
    var front := items[..|items| - 1];
    if n < |front| {
      FaithfulAt(front, n, fs, from, log);
      assert front[..n] == items[..n];
    }
  }

  /** A log change that leaves every delivered interval alone keeps the contract. */
  lemma {:induction false} FaithfulFrozen(items: seq<Item>, fs: seq<EventFilter>, from: Option<Checkpoint>,
      log: seq<Entry>, log': seq<Entry>)
    requires Faithful(items, fs, from, log)
    requires forall i :: 0 <= i < |items| ==>
               Window(log, fs, from, ItemCheckpoint(items[i])) == Window(log', fs, from, ItemCheckpoint(items[i]))
    ensures Faithful(items, fs, from, log')
  {
    if items != [] {
      FaithfulFrozen(items[..|items| - 1], fs, from, log, log');
    }
  }

  lemma FreshAppend(items: seq<Item>, item: Item, from: Option<Checkpoint>)
    ensures Fresh(items + [item], from) == Keep(Fresh(items, from), item, from)
  {
    assert (items + [item])[..|items + [item]| - 1] == items;
  }

  lemma {:induction false} FreshGrows(items: seq<Item>, n: nat, from: Option<Checkpoint>)
    requires n <= |items|
    ensures Fresh(items[..n], from) <= Fresh(items, from)
  {
    if n == |items| {
      assert items[..n] == items;
    } else {
      FreshGrows(items[..|items| - 1], n, from);
      assert items[..|items| - 1][..n] == items[..n];
    }
  }

  /** `kept` is in order and is the whole of the log from `from` up to its last event. */
  ghost predicate GapFree(kept: seq<Entry>, fs: seq<EventFilter>, from: Option<Checkpoint>, log: seq<Entry>) {
    && Ordered(kept)
    && (kept != [] ==> kept == Window(log, fs, from, kept[|kept| - 1].checkpoint))
  }

  lemma KeepGapFree(items: seq<Item>, item: Item, fs: seq<EventFilter>, from: Option<Checkpoint>, log: seq<Entry>)
    requires Ordered(log) && GapFree(Fresh(items, from), fs, from, log) && MayFollow(items, item, fs, from, log)
    ensures GapFree(Fresh(items + [item], from), fs, from, log)
    ensures item.Event? ==> item.entry in Fresh(items + [item], from)
    ensures Fresh(items, from) <= Fresh(items + [item], from)
  {
    FreshAppend(items, item, from);
    var kept := Fresh(items, from);
    if item.Event? {
      var e := item.entry;
      if e in kept {
        var i :| 0 <= i < |kept| && kept[i] == e;
        assert i < |kept| - 1 ==> Less(kept[i].checkpoint, kept[|kept| - 1].checkpoint);
      } else {
        WindowOrdered(log, fs, from, e.checkpoint);
        WindowMember(log, fs, from, e.checkpoint);
        var all := kept + [e];
        assert all[|kept|] == e && e in all;
        assert kept != [] ==> all[|kept| - 1] == kept[|kept| - 1];
      }
    }
  }

  /**
   Gap-free, in order, exactly once: what a faithful stream has delivered, redeliveries
   dropped, is the whole of the log from `from` up to the last event it delivered.
   */
  lemma {:induction false} FaithfulIsGapFree(items: seq<Item>, fs: seq<EventFilter>, from: Option<Checkpoint>,
      log: seq<Entry>)
    requires Ordered(log) && Faithful(items, fs, from, log)
    ensures GapFree(Fresh(items, from), fs, from, log)
    ensures forall i :: 0 <= i < |items| && items[i].Event? ==> items[i].entry in Fresh(items, from)
  {
    if items != [] {
      var front, item := items[..|items| - 1], items[|items| - 1];
      assert items == front + [item];
      FaithfulIsGapFree(front, fs, from, log);
      KeepGapFree(front, item, fs, from, log);
      forall i | 0 <= i < |items| && items[i].Event? ensures items[i].entry in Fresh(items, from) {
        if i < |front| {
          assert front[i] == items[i];
        }
      }
    }
  }

  /**
   Frontier soundness: once a frontier has been yielded, every event delivered for the
   first time afterwards lies strictly above it.
   */
  lemma FrontierIsFinal(items: seq<Item>, i: nat, j: nat, fs: seq<EventFilter>, from: Option<Checkpoint>,
      log: seq<Entry>)
    requires Ordered(log) && Faithful(items, fs, from, log)
    requires i < j < |items| && items[i].Frontier? && items[j].Event?
    requires items[j].entry !in Fresh(items[..i], from)
    ensures Less(items[i].frontier, items[j].entry.checkpoint)
  {
    var e, f := items[j].entry, items[i].frontier;
    FaithfulIsGapFree(items, fs, from, log);
    KeptSelected(Fresh(items, from), fs, from, log);
    FaithfulAt(items, i, fs, from, log);
    WindowMember(log, fs, from, f);
    assert !Selected(e, fs, from, f);
  }

  lemma KeptSelected(kept: seq<Entry>, fs: seq<EventFilter>, from: Option<Checkpoint>, log: seq<Entry>)
    requires GapFree(kept, fs, from, log)
    ensures forall e :: e in kept ==> e in log && After(e.checkpoint, from) && Matches(fs, e.event)
  {
    if kept != [] {
      WindowMember(log, fs, from, kept[|kept| - 1].checkpoint);
    }
  }
}
