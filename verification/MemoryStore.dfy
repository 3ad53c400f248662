/**
 The in-memory event store: a map of per-stream vectors and one position counter, which
 together must behave as a single global log.
 */
module MemoryStore {
  import opened Options
  import opened EventLog

  datatype StreamKey = StreamKey(kind: string, id: string)

  datatype CommitResult =
    | Committed(lastPosition: int)
    | Conflict(expected: Option<int>, actual: Option<int>)

  /** An event already serialised to its kind and its data. */
  datatype Staged = Staged(kind: string, data: string)

  function KeyOf(e: StoredEvent): StreamKey {
    StreamKey(e.aggregateKind, e.aggregateId)
  }

  function OfStream(log: seq<StoredEvent>, key: StreamKey): seq<StoredEvent> {
    if log == [] then []
    else
      var rest, e := OfStream(log[..|log| - 1], key), log[|log| - 1];
      if KeyOf(e) == key then rest + [e] else rest
  }

  function MatchingEvents(log: seq<StoredEvent>, fs: seq<EventFilter>): seq<StoredEvent> {
    if log == [] then []
    else
      var rest, e := MatchingEvents(log[..|log| - 1], fs), log[|log| - 1];
      if Matches(fs, e) then rest + [e] else rest
  }

  /** A batch stamped with its stream and consecutive positions from `first`. */
  function Stamp(key: StreamKey, staged: seq<Staged>, first: int): seq<StoredEvent> {
    seq(|staged|, i requires 0 <= i < |staged| =>
      StoredEvent(key.kind, key.id, staged[i].kind, first + i, staged[i].data))
  }

  /** What was handed to the store. */
  function Unstamp(stored: seq<StoredEvent>): seq<Staged> {
    seq(|stored|, i requires 0 <= i < |stored| => Staged(stored[i].kind, stored[i].data))
  }

  /** Stamping keeps every event as it is, in order, on its own stream and at its own position. */
  lemma StampRoundTrip(key: StreamKey, staged: seq<Staged>, first: int)
    ensures var stored := Stamp(key, staged, first);
            && Unstamp(stored) == staged
            && forall i :: 0 <= i < |stored| ==> KeyOf(stored[i]) == key && stored[i].position == first + i
  {
  }

  /**
   Read back: after a batch is appended, the stream reads as before and then the batch, and
   every other stream reads as before.
   */
  lemma CommitReadsBack(log: seq<StoredEvent>, key: StreamKey, staged: seq<Staged>, other: StreamKey)
    ensures var later := log + Stamp(key, staged, |log|);
            Unstamp(OfStream(later, other)) ==
              Unstamp(OfStream(log, other)) + if other == key then staged else []
  {
    var stored := Stamp(key, staged, |log|);
    OfStreamConcat(log, stored, other);
    OfStreamUniform(stored, other, key);
    StampRoundTrip(key, staged, |log|);
    var before := OfStream(log, other);
    assert Unstamp(before + stored) == Unstamp(before) + Unstamp(stored);
    assert Unstamp(before) + [] == Unstamp(before);
  }

  lemma {:induction false} OfStreamConcat(a: seq<StoredEvent>, b: seq<StoredEvent>, key: StreamKey)
    ensures OfStream(a + b, key) == OfStream(a, key) + OfStream(b, key)
  {
    if b == [] {
      assert a + b == a;
    } else {
      assert (a + b)[..|a + b| - 1] == a + b[..|b| - 1];
      OfStreamConcat(a, b[..|b| - 1], key);
    }
  }

  lemma {:induction false} OfStreamUniform(b: seq<StoredEvent>, key: StreamKey, own: StreamKey)
    requires forall e :: e in b ==> KeyOf(e) == own
    ensures OfStream(b, key) == if key == own then b else []
  {
    if b != [] {
      OfStreamUniform(b[..|b| - 1], key, own);
      assert b == b[..|b| - 1] + [b[|b| - 1]] && b[|b| - 1] in b;
    }
  }

  lemma {:induction false} OfStreamMember(log: seq<StoredEvent>, key: StreamKey)
    ensures forall e :: e in OfStream(log, key) <==> e in log && KeyOf(e) == key
  {
    if log != [] {
      OfStreamMember(log[..|log| - 1], key);
      assert log == log[..|log| - 1] + [log[|log| - 1]];
    }
  }

  lemma {:induction false} OfStreamIncreasing(log: seq<StoredEvent>, key: StreamKey)
    requires forall i :: 0 <= i < |log| ==> log[i].position == i
    ensures forall i, j :: 0 <= i < j < |OfStream(log, key)| ==>
              OfStream(log, key)[i].position < OfStream(log, key)[j].position
  {
    if log != [] {
      var front := log[..|log| - 1];
      OfStreamIncreasing(front, key);
      OfStreamMember(front, key);
      var s := OfStream(front, key);
      assert forall i :: 0 <= i < |s| ==> s[i] in front && s[i].position < |front|;
      var all := OfStream(log, key);
      assert all == s || all == s + [log[|front|]];
      forall i, j | 0 <= i < j < |all| ensures all[i].position < all[j].position {
        assert all[i] == s[i];
        if j < |s| {
          assert all[j] == s[j];
        } else {
          assert all[j] == log[|front|];
        }
      }
    }
  }

  class Store {
    var streams: map<StreamKey, seq<StoredEvent>>
    var nextPosition: nat
    /** The single log the map and the counter stand for. */
    ghost var log: seq<StoredEvent>

    ghost predicate Valid()
      reads this
    {
      && nextPosition == |log|
      && (forall i :: 0 <= i < |log| ==> log[i].position == i)
      && (forall key :: StreamAt(key) == OfStream(log, key))
    }

    function StreamAt(key: StreamKey): seq<StoredEvent>
      reads this
    {
      if key in streams then streams[key] else []
    }

    function Version(key: StreamKey): Option<int>
      reads this
    {
      var s := StreamAt(key);
      if s == [] then None else Some(s[|s| - 1].position)
    }

    /** The version is the position of the stream's last event; a stream without events has none. */
    lemma VersionIsLast(key: StreamKey)
      requires Valid()
      ensures Version(key).None? <==> forall e :: e in log ==> KeyOf(e) != key
      ensures Version(key).Some? ==> exists e :: e in log && KeyOf(e) == key && Version(key) == Some(e.position)
      ensures Version(key).Some? ==> forall e :: e in log && KeyOf(e) == key ==> e.position <= Version(key).value
    {
      OfStreamMember(log, key);
      OfStreamIncreasing(log, key);
      var s := StreamAt(key);
      assert s == OfStream(log, key);
      if s != [] {
        assert s[|s| - 1] in s;
        forall e | e in s ensures e.position <= s[|s| - 1].position {
          var i :| 0 <= i < |s| && s[i] == e;
        }
      } else {
        forall e | e in log ensures KeyOf(e) != key {
          assert e !in OfStream(log, key);
        }
      }
    }

    constructor ()
      ensures Valid() && log == []
    {
      streams := map[];
      nextPosition := 0;
      log := [];
    }

    /** Give each staged event the next position. */
    method AssignPositions(key: StreamKey, staged: seq<Staged>) returns (stored: seq<StoredEvent>, lastPosition: int)
      requires staged != []
      modifies this`nextPosition
      ensures stored == Stamp(key, staged, old(nextPosition))
      ensures nextPosition == old(nextPosition) + |staged| && lastPosition == nextPosition - 1
    {
      stored, lastPosition := [], 0;
      var i := 0;
      while i < |staged|
        invariant 0 <= i <= |staged|
        invariant nextPosition == old(nextPosition) + i
        invariant stored == Stamp(key, staged[..i], old(nextPosition))
        invariant i > 0 ==> lastPosition == nextPosition - 1
      {
        var position := nextPosition;
        nextPosition := nextPosition + 1;
        lastPosition := position;
        stored := stored + [StoredEvent(key.kind, key.id, staged[i].kind, position, staged[i].data)];
        i := i + 1;
      }
      assert staged[..|staged|] == staged;
    }

    lemma AppendPartitions(key: StreamKey, stored: seq<StoredEvent>)
      requires forall k :: StreamAt(k) == OfStream(log, k)
      requires forall e :: e in stored ==> KeyOf(e) == key
      ensures forall k :: OfStream(log + stored, k) == if k == key then StreamAt(k) + stored else StreamAt(k)
    {
      forall k ensures OfStream(log + stored, k) == if k == key then StreamAt(k) + stored else StreamAt(k) {
        OfStreamConcat(log, stored, k);
        OfStreamUniform(stored, k, key);
      }
    }

    /** Append a batch under the write lock. */
    method CommitStaged(key: StreamKey, staged: seq<Staged>) returns (lastPosition: int)
      requires Valid() && staged != []
      modifies this
      ensures Valid()
      ensures log == old(log) + Stamp(key, staged, |old(log)|)
      ensures lastPosition == |log| - 1 && Version(key) == Some(lastPosition)
    {
      hide OfStream;
      var stored: seq<StoredEvent>;
      stored, lastPosition := AssignPositions(key, staged);
      AppendPartitions(key, stored);
      streams := streams[key := StreamAt(key) + stored];
      log := log + stored;
      assert StreamAt(key)[|StreamAt(key)| - 1] == stored[|stored| - 1];
    }

    /** Append without a version check: last writer wins. */
    method CommitEvents(key: StreamKey, staged: seq<Staged>) returns (lastPosition: int)
      requires Valid() && staged != []
      modifies this
      ensures Valid()
      ensures log == old(log) + Stamp(key, staged, |old(log)|)
      ensures lastPosition == |log| - 1 && Version(key) == Some(lastPosition)
    {
      lastPosition := CommitStaged(key, staged);
    }

    /** Append only when the stream is still at the expected version; a conflict changes nothing. */
    method CommitEventsOptimistic(key: StreamKey, expected: Option<int>, staged: seq<Staged>) returns (r: CommitResult)
      requires Valid() && staged != []
      modifies this
      ensures Valid()
      ensures r.Committed? <==> expected == old(Version(key))
      ensures r.Committed? ==> log == old(log) + Stamp(key, staged, |old(log)|) && Version(key) == Some(r.lastPosition)
      ensures r.Conflict? ==> unchanged(this) && r == Conflict(expected, old(Version(key)))
    {
      var current := Version(key);
      if expected.Some? {
        if current != expected {
          return Conflict(expected, current);
        }
      } else if current.Some? {
        return Conflict(None, current);
      }
      var lastPosition := CommitStaged(key, staged);
      r := Committed(lastPosition);
    }

    /**
     Collect what matches from every stream, keyed by position, then list it in key order:
     the global log filtered by the union of the filters, in order, without duplicates.
     */
    method LoadMatchingEvents(fs: seq<EventFilter>) returns (events: seq<StoredEvent>)
      requires Valid()
      ensures events == MatchingEvents(log, fs)
    {
      var matched: map<int, StoredEvent> := map[];
      var todo := streams.Keys;
      while todo != {}
        invariant todo <= streams.Keys
        invariant MatchedFrom(matched, fs, streams.Keys - todo)
        decreases |todo|
      {
        var key :| key in todo;
        matched := CollectStream(matched, fs, key, streams.Keys - todo);
        assert streams.Keys - (todo - {key}) == streams.Keys - todo + {key};
        todo := todo - {key};
      }
      assert streams.Keys - todo == streams.Keys;
      events := [];
      var p := 0;
      while p < nextPosition
        invariant 0 <= p <= nextPosition
        invariant events == MatchingEvents(log[..p], fs)
      {
        InSomeStream(p);
        assert log[..p + 1][..p] == log[..p];
        if p in matched {
          events := events + [matched[p]];
        }
        p := p + 1;
      }
      assert log[..nextPosition] == log;
    }

    /** The head of the log, read off the counter. */
    method LatestCheckpoint() returns (r: Option<int>)
      requires Valid()
      ensures r.None? <==> log == []
      ensures r.Some? ==> forall f :: f in log ==> f.position <= r.value
      ensures r.Some? ==> exists e :: e in log && e.position == r.value
    {
      r := if nextPosition == 0 then None else Some(nextPosition - 1);
      assert log != [] ==> log[|log| - 1] in log;
    }

    /** A position is a valid token exactly when an event has been committed at it. */
    method CheckpointForPosition(position: nat) returns (r: Option<int>)
      requires Valid()
      ensures r.Some? <==> exists e :: e in log && e.position == position
      ensures r.Some? ==> r.value == position
    {
      r := if position < nextPosition then Some(position) else None;
      assert position < nextPosition ==> log[position] in log && log[position].position == position;
    }

    /** `matched` holds exactly the matching events of the streams in `done`. */
    ghost predicate MatchedFrom(matched: map<int, StoredEvent>, fs: seq<EventFilter>, done: set<StreamKey>)
      reads this
    {
      forall p :: (p in matched <==> 0 <= p < |log| && KeyOf(log[p]) in done && Matches(fs, log[p]))
        && (p in matched ==> 0 <= p < |log| && matched[p] == log[p])
    }

    method CollectStream(before: map<int, StoredEvent>, fs: seq<EventFilter>, key: StreamKey,
        ghost done: set<StreamKey>)
      returns (matched: map<int, StoredEvent>)
      requires Valid() && key in streams && key !in done && MatchedFrom(before, fs, done)
      ensures MatchedFrom(matched, fs, done + {key})
    {
      matched := before;
      var stream := streams[key];
      assert stream == StreamAt(key);
      StreamHolds(key);
      var i := 0;
      while i < |stream|
        invariant 0 <= i <= |stream|
        invariant forall p :: p in matched ==>
                    p in before || (0 <= p < |log| && KeyOf(log[p]) == key && Matches(fs, log[p]))
        invariant forall p :: p in matched ==> 0 <= p < |log| && matched[p] == log[p]
        invariant forall p :: p in before ==> p in matched
        invariant forall j :: 0 <= j < i && Matches(fs, stream[j]) ==> stream[j].position in matched
      {
        var e := stream[i];
        assert InLog(e, key);
        if e.position !in matched && Matches(fs, e) {
          matched := matched[e.position := e];
        }
        i := i + 1;
      }
      forall p | 0 <= p < |log| && KeyOf(log[p]) == key && Matches(fs, log[p]) ensures p in matched {
        var j :| 0 <= j < |stream| && stream[j] == log[p];
      }
    }

    ghost predicate InLog(e: StoredEvent, key: StreamKey)
      reads this
    {
      0 <= e.position < |log| && log[e.position] == e && KeyOf(e) == key
    }

    /** A stream's vector holds the log's events of that stream, and nothing else. */
    lemma StreamHolds(key: StreamKey)
      requires Valid()
      ensures var s := StreamAt(key);
              && (forall i :: 0 <= i < |s| ==> InLog(s[i], key))
              && (forall p :: 0 <= p < |log| && KeyOf(log[p]) == key ==> log[p] in s)
    {
      OfStreamMember(log, key);
      var s := StreamAt(key);
      assert s == OfStream(log, key);
      assert forall i :: 0 <= i < |s| ==> s[i] in s;
    }

    lemma InSomeStream(p: nat)
      requires Valid() && p < nextPosition
      ensures KeyOf(log[p]) in streams
    {
      OfStreamMember(log, KeyOf(log[p]));
      assert log[p] in StreamAt(KeyOf(log[p]));
    }

    /** The streams partition the positions handed out, each in increasing order. */
    lemma StreamsPartitionPositions()
      requires Valid()
      ensures forall p :: 0 <= p < nextPosition ==> log[p] in StreamAt(KeyOf(log[p]))
      ensures forall key, e :: e in StreamAt(key) ==>
                0 <= e.position < nextPosition && log[e.position] == e && KeyOf(e) == key
      ensures forall key, i, j :: 0 <= i < j < |StreamAt(key)| ==> StreamAt(key)[i].position < StreamAt(key)[j].position
    {
      forall key
        ensures forall e :: e in StreamAt(key) <==> e in log && KeyOf(e) == key
      {
        OfStreamMember(log, key);
        assert StreamAt(key) == OfStream(log, key);
      }
      forall key, i, j | 0 <= i < j < |StreamAt(key)| ensures StreamAt(key)[i].position < StreamAt(key)[j].position {
        OfStreamIncreasing(log, key);
        assert StreamAt(key) == OfStream(log, key);
      }
    }
  }
}
