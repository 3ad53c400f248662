/** Optional values. */
module Options {
  datatype Option<+T> = None | Some(value: T)
}

/**
 The log both stores present to their readers: entries stamped with an ordered
 checkpoint, and the filters that select them.

 A Postgres checkpoint is the pair (transaction id, position). The in-memory store's
 checkpoint is the bare position, which is embedded here with transaction id 0.
 */
module EventLog {
  import opened Options

  datatype Checkpoint = Checkpoint(xid: int, position: int)

  /** Lexicographic order, the derived `Ord` of a watermark. */
  predicate Less(a: Checkpoint, b: Checkpoint) {
    a.xid < b.xid || (a.xid == b.xid && a.position < b.position)
  }

  predicate AtMost(a: Checkpoint, b: Checkpoint) {
    !Less(b, a)
  }

  /** `None` lies below every checkpoint, so a missing cursor admits everything. */
  predicate After(c: Checkpoint, lo: Option<Checkpoint>) {
    lo.None? || Less(lo.value, c)
  }

  /** The order of `Option<Checkpoint>`: `None` is least. */
  predicate OptAtMost(a: Option<Checkpoint>, b: Option<Checkpoint>) {
    a.None? || (b.Some? && AtMost(a.value, b.value))
  }

  datatype StoredEvent = StoredEvent(
    aggregateKind: string, aggregateId: string, kind: string, position: int, data: string)

  datatype EventFilter = EventFilter(
    eventKind: string, aggregateKind: Option<string>, aggregateId: Option<string>, afterPosition: Option<int>)

  predicate FilterMatches(f: EventFilter, e: StoredEvent) {
    && f.eventKind == e.kind
    && (f.aggregateKind.None? || f.aggregateKind.value == e.aggregateKind)
    && (f.aggregateId.None? || f.aggregateId.value == e.aggregateId)
    && (f.afterPosition.None? || e.position > f.afterPosition.value)
  }

  /** A filter set selects the union of what its filters select; the empty set selects nothing. */
  predicate Matches(fs: seq<EventFilter>, e: StoredEvent) {
    exists i :: 0 <= i < |fs| && FilterMatches(fs[i], e)
  }

  datatype Entry = Entry(checkpoint: Checkpoint, event: StoredEvent)

  ghost predicate Ordered(log: seq<Entry>) {
    forall i, j :: 0 <= i < j < |log| ==> Less(log[i].checkpoint, log[j].checkpoint)
  }

  predicate Selected(e: Entry, fs: seq<EventFilter>, lo: Option<Checkpoint>, hi: Checkpoint) {
    After(e.checkpoint, lo) && AtMost(e.checkpoint, hi) && Matches(fs, e.event)
  }

  /** The matching entries of `log` in the interval (lo, hi], in log order. */
  function Window(log: seq<Entry>, fs: seq<EventFilter>, lo: Option<Checkpoint>, hi: Checkpoint): seq<Entry> {
    if log == [] then []
    else
      var rest := Window(log[..|log| - 1], fs, lo, hi);
      var e := log[|log| - 1];
      if Selected(e, fs, lo, hi) then rest + [e] else rest
  }

  lemma {:induction false} WindowConcat(a: seq<Entry>, b: seq<Entry>, fs: seq<EventFilter>, lo: Option<Checkpoint>,
      hi: Checkpoint)
    ensures Window(a + b, fs, lo, hi) == Window(a, fs, lo, hi) + Window(b, fs, lo, hi)
  {
    if b == [] {
      assert a + b == a;
    } else {
      var b' := b[..|b| - 1];
      assert (a + b)[..|a + b| - 1] == a + b';
      WindowConcat(a, b', fs, lo, hi);
    }
  }

  lemma {:induction false} WindowMember(log: seq<Entry>, fs: seq<EventFilter>, lo: Option<Checkpoint>, hi: Checkpoint)
    ensures forall e :: e in Window(log, fs, lo, hi) <==> e in log && Selected(e, fs, lo, hi)
  {
    if log != [] {
      WindowMember(log[..|log| - 1], fs, lo, hi);
      assert log == log[..|log| - 1] + [log[|log| - 1]];
    }
  }

  lemma {:induction false} WindowOrdered(log: seq<Entry>, fs: seq<EventFilter>, lo: Option<Checkpoint>, hi: Checkpoint)
    requires Ordered(log)
    ensures Ordered(Window(log, fs, lo, hi))
  {
    if log != [] {
      var front := log[..|log| - 1];
      WindowOrdered(front, fs, lo, hi);
      WindowMember(front, fs, lo, hi);
      var w := Window(front, fs, lo, hi);
      forall i | 0 <= i < |w| ensures Less(w[i].checkpoint, log[|log| - 1].checkpoint) {
        assert w[i] in front;
      }
    }
  }

  /** Entries outside the interval contribute nothing. */
  lemma WindowNothing(log: seq<Entry>, fs: seq<EventFilter>, lo: Option<Checkpoint>, hi: Checkpoint)
    requires forall e :: e in log ==> !Selected(e, fs, lo, hi)
    ensures Window(log, fs, lo, hi) == []
  {
    WindowMember(log, fs, lo, hi);
    if Window(log, fs, lo, hi) != [] {
      assert Window(log, fs, lo, hi)[0] in Window(log, fs, lo, hi);
    }
  }

  /** Only which entries are selected matters, not how the interval is written. */
  lemma {:induction false} WindowSame(log: seq<Entry>, fs: seq<EventFilter>, lo: Option<Checkpoint>, hi: Checkpoint,
      fs': seq<EventFilter>, lo': Option<Checkpoint>, hi': Checkpoint)
    requires forall e :: e in log ==> (Selected(e, fs, lo, hi) <==> Selected(e, fs', lo', hi'))
    ensures Window(log, fs, lo, hi) == Window(log, fs', lo', hi')
  {
    if log != [] {
      WindowSame(log[..|log| - 1], fs, lo, hi, fs', lo', hi');
      assert log[|log| - 1] in log;
    }
  }

  /** An interval splits at any inner point. */
  lemma {:induction false} WindowSplit(log: seq<Entry>, fs: seq<EventFilter>, lo: Option<Checkpoint>, mid: Checkpoint,
      hi: Checkpoint)
    requires Ordered(log) && OptAtMost(lo, Some(mid)) && AtMost(mid, hi)
    ensures Window(log, fs, lo, hi) == Window(log, fs, lo, mid) + Window(log, fs, Some(mid), hi)
  {
    if log != [] {
      var front, e := log[..|log| - 1], log[|log| - 1];
      WindowSplit(front, fs, lo, mid, hi);
      if AtMost(e.checkpoint, mid) {
        WindowNothing(front, fs, Some(mid), hi);
      }
    }
  }

  /** A lower bound gives a prefix: later entries never slip in below. */
  lemma WindowPrefix(log: seq<Entry>, fs: seq<EventFilter>, lo: Option<Checkpoint>, mid: Checkpoint, hi: Checkpoint)
    requires Ordered(log) && AtMost(mid, hi)
    ensures Window(log, fs, lo, mid) <= Window(log, fs, lo, hi)
  {
    if OptAtMost(lo, Some(mid)) {
      WindowSplit(log, fs, lo, mid, hi);
    } else {
      WindowNothing(log, fs, lo, mid);
    }
  }

  /** The first k entries of a window are the window up to the k-th entry's checkpoint. */
  lemma WindowCut(log: seq<Entry>, fs: seq<EventFilter>, lo: Option<Checkpoint>, hi: Checkpoint, k: nat)
    requires Ordered(log) && 0 < k <= |Window(log, fs, lo, hi)|
    ensures var w := Window(log, fs, lo, hi); var c := w[k - 1].checkpoint;
            && After(c, lo) && AtMost(c, hi)
            && Window(log, fs, lo, c) == w[..k]
            && Window(log, fs, Some(c), hi) == w[k..]
  {
    var w := Window(log, fs, lo, hi);
    var c := w[k - 1].checkpoint;
    WindowOrdered(log, fs, lo, hi);
    WindowMember(log, fs, lo, hi);
    assert w[k - 1] in w;
    WindowSplit(log, fs, lo, c, hi);
    var below, above := Window(log, fs, lo, c), Window(log, fs, Some(c), hi);
    WindowMember(log, fs, lo, c);
    WindowMember(log, fs, Some(c), hi);
    assert forall i :: 0 <= i < |below| ==> below[i] in below && w[i] == below[i];
    assert forall i :: |below| <= i < |w| ==> w[i] == above[i - |below|] && w[i] in above;
    assert forall i :: 0 <= i < |below| ==> AtMost(w[i].checkpoint, c);
    assert forall i :: |below| <= i < |w| ==> Less(c, w[i].checkpoint);
    assert k < |w| ==> Less(c, w[k].checkpoint);
    assert |below| == k;
  }

  /** The checkpoint of the last matching entry: what catch-up aims for. */
  function LastMatching(log: seq<Entry>, fs: seq<EventFilter>): Option<Checkpoint> {
    if log == [] then None
    else if Matches(fs, log[|log| - 1].event) then Some(log[|log| - 1].checkpoint)
    else LastMatching(log[..|log| - 1], fs)
  }

  lemma {:induction false} LastMatchingIsGreatest(log: seq<Entry>, fs: seq<EventFilter>)
    requires Ordered(log)
    ensures var last := LastMatching(log, fs);
            forall e :: e in log && Matches(fs, e.event) ==> last.Some? && AtMost(e.checkpoint, last.value)
    ensures var last := LastMatching(log, fs);
            last.Some? ==> exists e :: e in log && Matches(fs, e.event) && e.checkpoint == last.value
  {
    if log != [] {
      var front, e := log[..|log| - 1], log[|log| - 1];
      assert log == front + [e] && e in log;
      if !Matches(fs, e.event) {
        LastMatchingIsGreatest(front, fs);
      }
    }
  }
}
