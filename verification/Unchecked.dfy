/**
 The unchecked strategy appends whatever has happened meanwhile, but its prepared snapshot
 does not know of it. When that snapshot is right, and when it is not.
 */
module Unchecked {
  import opened Options
  import opened Snapshots
  import opened Aggregates
  import opened Repository

  /** An aggregate that remembers every event, so no two histories look alike. */
  function Journal(): Aggregate<seq<int>, int, int> {
    Aggregate((e: int) => [e], (a: seq<int>, e: int) => a + [e], (a: seq<int>, c: int) => Some([c]),
              (c: int) => Some([c]))
  }

  lemma {:induction false} JournalFold(events: seq<int>)
    requires events != []
    ensures Fold(Journal(), events) == events
  {
    if |events| > 1 {
      JournalFold(events[..|events| - 1]);
    }
  }

  /** No two histories fold to the same state. */
  ghost predicate FoldInjective<A(!new), C(!new), E(!new)>(agg: Aggregate<A, C, E>) {
    forall a, b :: a != [] && b != [] && Fold(agg, a) == Fold(agg, b) ==> a == b
  }

  lemma JournalInjective()
    ensures FoldInjective(Journal())
  {
    forall a, b: seq<int> | a != [] && b != [] && Fold(Journal(), a) == Fold(Journal(), b) ensures a == b {
      JournalFold(a);
      JournalFold(b);
    }
  }

  /**
   Landing on the version it loaded is enough for any aggregate (`LoadedVersionIsEnough`),
   and no less will do for one that tells its histories apart: the snapshot an unchecked
   update offers is exact if and only if nothing was committed between its load and its commit.
   */
  lemma {:induction false} ExactExactlyWhenNothingIntervened<A(!new), C(!new), E(!new)>(agg: Aggregate<A, C, E>,
      world: World<A, C, E>, w: int, skip: nat -> nat)
    requires FoldInjective(agg) && Increasing(world.stream, world.nextPosition)
    requires w in world.clients && world.clients[w].Ready? && !world.clients[w].creating
    requires ClientOk(agg, world.stream, world.clients[w])
    ensures var next := Append(world, w, world.clients[w], skip);
            var offered := Snapshot(At(next.clients[w].position), world.clients[w].prepared);
            Exact(agg, next.stream, offered) <==> Head(world.stream) == world.clients[w].expected
  {
    hide Fold, Since, Place;
    var client, next := world.clients[w], Append(world, w, world.clients[w], skip);
    if Head(world.stream) == client.expected {
      LoadedVersionIsEnough(agg, world, w, skip);
    } else {
      var placed := Place(client.events, world.nextPosition, skip);
      PlaceOk(client.events, world.nextPosition, skip);
      EventsOfConcat(world.stream, placed);
      var before := UpToPosition(world.stream, client.expected.value);
      ShorterBefore(world.stream, client.expected.value);
      assert UpToPosition(next.stream, next.clients[w].position) == next.stream;
      assert |EventsOf(before) + client.events| < |EventsOf(next.stream)|;
    }
  }

  /** A stream that has moved past a version is longer than it was then. */
  lemma {:induction false} ShorterBefore<E>(stream: seq<Placed<E>>, p: int)
    requires WasVersion(stream, p) && Head(stream) != Some(p)
    ensures |UpToPosition(stream, p)| < |stream|
  {
    if stream[|stream| - 1].position > p {
      UpToPositionShort(stream[..|stream| - 1], p);
    }
  }

  lemma {:induction false} UpToPositionShort<E>(stream: seq<Placed<E>>, p: int)
    ensures |UpToPosition(stream, p)| <= |stream|
  {
    if stream != [] {
      UpToPositionShort(stream[..|stream| - 1], p);
    }
  }

  /** Two clients have loaded version 0 of the journal [7], and are ready to append 8 and 9. */
  function Racing(): World<seq<int>, int, int> {
    World([Placed(0, 7)], 1, None,
          map[1 := Ready(8, false, Some(0), [8], [7, 8], 2), 2 := Ready(9, false, Some(0), [9], [7, 9], 2)], [])
  }

  lemma BothLoadVersionZero()
    ensures var settings := Settings(Journal(), false, Always);
            var loading := World([Placed(0, 7)], 1, None,
                                 map[1 := Based(Update, 8, None), 2 := Based(Update, 9, None)], []);
            Act(settings, Act(settings, loading, Replay(1)), Replay(2)) == Racing()
  {
    assert LoadAggregate(Journal(), [Placed(0, 7)], None) == Some(Loaded([7], 0, 1));
    hide LoadAggregate, Since, Fold, EventsOf;
    assert [8][..0] == [] && [9][..0] == [];
    assert ApplyAll(Journal(), [7], [8]) == [7, 8] && ApplyAll(Journal(), [7], [9]) == [7, 9];
  }

  /** The first has committed. */
  function Overtaken(): World<seq<int>, int, int> {
    World([Placed(0, 7), Placed(1, 8)], 2, None,
          map[1 := Offering(1, [7, 8], 2), 2 := Ready(9, false, Some(0), [9], [7, 9], 2)], [Batch(1, false, 8, [8])])
  }

  lemma FirstCommits()
    ensures Act(Settings(Journal(), false, Always), Racing(), Commit(1, (i: nat) => 0)) == Overtaken()
  {
    assert [8][..0] == [];
    assert Place([8], 1, (i: nat) => 0) == [Placed(1, 8)];
  }

  /** Then the second commits and offers a snapshot that misses the first one's event. */
  lemma RaceLosesAnEvent()
    ensures var settings := Settings(Journal(), false, Always);
            var last := Act(settings, Act(settings, Overtaken(), Commit(2, (i: nat) => 0)), Offer(2, true));
            last.stream == [Placed(0, 7), Placed(1, 8), Placed(2, 9)] && last.stored == Some(Snapshot(At(2), [7, 9]))
  {
    assert [9][..0] == [];
    assert Place([9], 2, (i: nat) => 0) == [Placed(2, 9)];
  }
}
