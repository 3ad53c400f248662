/**
 The two cursors of a subscription runner. `last` follows matching events and is where a
 restart resumes; `observed` is global progress and also moves with frontiers. Between the
 two the log never holds a matching event.
 */
module Cursors {
  import opened Options
  import opened EventLog
  import opened Delivery

  ghost predicate InvariantHolds(items: seq<Item>, fs: seq<EventFilter>, resume: Option<Checkpoint>, log: seq<Entry>,
      last: Option<Checkpoint>, observed: Option<Checkpoint>) {
    && Faithful(items, fs, resume, log)
    && GapFree(Fresh(items, resume), fs, resume, log)
    && last == LastKept(Fresh(items, resume), resume)
    && OptAtMost(resume, last) && OptAtMost(last, observed)
    && (observed.Some? ==> Window(log, fs, last, observed.value) == [])
  }

  lemma Initially(fs: seq<EventFilter>, resume: Option<Checkpoint>, log: seq<Entry>)
    ensures InvariantHolds([], fs, resume, log, resume, resume)
  {
    if resume.Some? {
      WindowNothing(log, fs, resume, resume.value);
    }
  }

  /** The matching events of the log past one cursor, up to another. */
  function Between(log: seq<Entry>, fs: seq<EventFilter>, lo: Option<Checkpoint>, hi: Option<Checkpoint>): seq<Entry> {
    if hi.None? then [] else Window(log, fs, lo, hi.value)
  }

  /** The matching events of the log from the start up to a cursor. */
  function UpTo(log: seq<Entry>, fs: seq<EventFilter>, upto: Option<Checkpoint>): seq<Entry> {
    Between(log, fs, None, upto)
  }

  /** A cursor names a matching event of the log, not a synthetic point. */
  ghost predicate IsEvent(log: seq<Entry>, fs: seq<EventFilter>, c: Checkpoint) {
    exists e :: e in log && Matches(fs, e.event) && e.checkpoint == c
  }

  function OptMax(a: Option<Checkpoint>, c: Checkpoint): Option<Checkpoint> {
    if a.None? || Less(a.value, c) then Some(c) else a
  }

  /** How far a subscriber has seen: its start, or the greatest checkpoint of an item, frontiers included. */
  function Furthest(items: seq<Item>, from: Option<Checkpoint>): Option<Checkpoint> {
    if items == [] then from else OptMax(Furthest(items[..|items| - 1], from), ItemCheckpoint(items[|items| - 1]))
  }

  lemma {:induction false} FurthestIsGreatest(items: seq<Item>, from: Option<Checkpoint>)
    ensures var f := Furthest(items, from);
            && OptAtMost(from, f) && (forall i :: 0 <= i < |items| ==> OptAtMost(Some(ItemCheckpoint(items[i])), f))
            && (f == from || exists i :: 0 <= i < |items| && f == Some(ItemCheckpoint(items[i])))
  {
    if items != [] {
      var front := items[..|items| - 1];
      FurthestIsGreatest(front, from);
      assert forall i :: 0 <= i < |front| ==> front[i] == items[i];
    }
  }

  /** A frontier moves `observed` alone. */
  lemma AfterFrontier(items: seq<Item>, f: Checkpoint, fs: seq<EventFilter>, resume: Option<Checkpoint>,
      log: seq<Entry>, last: Option<Checkpoint>, observed: Option<Checkpoint>)
    requires Ordered(log) && InvariantHolds(items, fs, resume, log, last, observed)
    requires MayFollow(items, Frontier(f), fs, resume, log)
    ensures InvariantHolds(items + [Frontier(f)], fs, resume, log, last, OptMax(observed, f))
  {
    FaithfulAppend(items, Frontier(f), fs, resume, log);
    FreshAppend(items, Frontier(f), resume);
    var kept := Fresh(items, resume);
    if last.Some? && AtMost(f, last.value) {
      WindowNothing(log, fs, last, f);
    } else if kept != [] {
      WindowSplit(log, fs, resume, last.value, f);
      assert Window(log, fs, resume, f) == kept + Window(log, fs, last, f);
      assert |Window(log, fs, resume, f)| <= |kept|;
    }
  }

  /** A redelivered event moves nothing. */
  lemma AfterRedelivery(items: seq<Item>, e: Entry, fs: seq<EventFilter>, resume: Option<Checkpoint>, log: seq<Entry>,
      last: Option<Checkpoint>, observed: Option<Checkpoint>)
    requires Ordered(log) && InvariantHolds(items, fs, resume, log, last, observed)
    requires MayFollow(items, Event(e), fs, resume, log) && !After(e.checkpoint, last)
    ensures InvariantHolds(items + [Event(e)], fs, resume, log, last, observed)
    ensures OptAtMost(Some(e.checkpoint), observed)
  {
    FaithfulAppend(items, Event(e), fs, resume, log);
    FreshAppend(items, Event(e), resume);
  }

  /** A new event is the next one of the log. */
  lemma NextEvent(items: seq<Item>, e: Entry, fs: seq<EventFilter>, resume: Option<Checkpoint>, log: seq<Entry>,
      last: Option<Checkpoint>)
    requires Ordered(log) && GapFree(Fresh(items, resume), fs, resume, log)
    requires last == LastKept(Fresh(items, resume), resume) && OptAtMost(resume, last)
    requires MayFollow(items, Event(e), fs, resume, log) && After(e.checkpoint, last)
    ensures e in log && Matches(fs, e.event)
    ensures Window(log, fs, last, e.checkpoint) == [e]
    ensures UpTo(log, fs, Some(e.checkpoint)) == UpTo(log, fs, last) + [e]
  {
    var kept, c := Fresh(items, resume), e.checkpoint;
    NewIsNext(items, e, fs, resume, log, last);
    var next := Window(log, fs, last, c);
    if kept != [] {
      WindowSplit(log, fs, resume, last.value, c);
      assert kept + next == kept + [e];
      assert next == (kept + next)[|kept|..];
    } else {
      assert kept + [e] == [e];
    }
    assert next == [e];
    WindowMember(log, fs, last, c);
    assert e in next;
    if last.Some? {
      WindowSplit(log, fs, None, last.value, c);
    }
  }

  /** A new event moves both cursors to it. */
  lemma AfterEvent(items: seq<Item>, e: Entry, fs: seq<EventFilter>, resume: Option<Checkpoint>, log: seq<Entry>,
      last: Option<Checkpoint>, observed: Option<Checkpoint>)
    requires Ordered(log) && InvariantHolds(items, fs, resume, log, last, observed)
    requires MayFollow(items, Event(e), fs, resume, log) && After(e.checkpoint, last)
    ensures IsEvent(log, fs, e.checkpoint)
    ensures OptMax(observed, e.checkpoint) == Some(e.checkpoint)
    ensures InvariantHolds(items + [Event(e)], fs, resume, log, Some(e.checkpoint), Some(e.checkpoint))
  {
    var c := e.checkpoint;
    NextEvent(items, e, fs, resume, log, last);
    if observed.Some? {
      WindowMember(log, fs, last, observed.value);
    }
    KeepGapFree(items, Event(e), fs, resume, log);
    FaithfulAppend(items, Event(e), fs, resume, log);
    FreshAppend(items, Event(e), resume);
    WindowNothing(log, fs, Some(c), c);
  }

  /** Past the next event there is no more below a cursor than there was before it. */
  lemma NothingPast(log: seq<Entry>, fs: seq<EventFilter>, last: Option<Checkpoint>, c: Checkpoint,
      observed: Checkpoint)
    requires After(c, last) && Window(log, fs, last, observed) == []
    ensures Window(log, fs, Some(c), observed) == []
  {
    WindowMember(log, fs, last, observed);
    WindowNothing(log, fs, Some(c), observed);
  }

  lemma NewIsNext(items: seq<Item>, e: Entry, fs: seq<EventFilter>, resume: Option<Checkpoint>, log: seq<Entry>,
      last: Option<Checkpoint>)
    requires GapFree(Fresh(items, resume), fs, resume, log) && last == LastKept(Fresh(items, resume), resume)
    requires MayFollow(items, Event(e), fs, resume, log) && After(e.checkpoint, last)
    ensures Fresh(items, resume) + [e] == Window(log, fs, resume, e.checkpoint)
  {
    var kept := Fresh(items, resume);
    forall i | 0 <= i < |kept| ensures kept[i] != e {
      assert i < |kept| - 1 ==> Less(kept[i].checkpoint, kept[|kept| - 1].checkpoint);
    }
  }

  /**
   Reading at `observed` is reading everything: a token at or below global progress finds
   all its matching events, each once and in order, among those up to `last`.
   */
  lemma TokenCovered(log: seq<Entry>, fs: seq<EventFilter>, last: Option<Checkpoint>, observed: Checkpoint,
      token: Checkpoint)
    requires Ordered(log) && AtMost(token, observed)
    requires Window(log, fs, last, observed) == []
    ensures Window(log, fs, None, token) <= UpTo(log, fs, last)
  {
    WindowPrefix(log, fs, None, token, observed);
    if last.Some? {
      if AtMost(last.value, observed) {
        WindowSplit(log, fs, None, last.value, observed);
      } else {
        WindowPrefix(log, fs, None, token, last.value);
      }
    }
  }

  /**
   Catch-up readiness: once the cursor has reached the last matching checkpoint of an
   earlier log, every matching event that log showed lies among those up to the cursor.
   */
  lemma CaughtUpCovers(before: seq<Entry>, log: seq<Entry>, fs: seq<EventFilter>, last: Option<Checkpoint>)
    requires Ordered(before) && forall e :: e in before ==> e in log
    requires OptAtMost(LastMatching(before, fs), last)
    ensures forall e :: e in before && Matches(fs, e.event) ==> e in UpTo(log, fs, last)
  {
    LastMatchingIsGreatest(before, fs);
    if last.Some? {
      WindowMember(log, fs, None, last.value);
    }
  }
}
