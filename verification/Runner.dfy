/**
 The shared subscription runner driving a projection: deduplication, the two cursors,
 catch-up readiness, snapshot maintenance, and the live state shared with readers.

 `log` is the log as any later moment shows it; the store contract says the items
 delivered are faithful to it. Every statement below therefore holds in every continuation.
 */
module Runner {
  import opened Options
  import opened EventLog
  import opened Delivery
  import opened Cursors
  import opened Snapshots
  import opened Projections

  datatype Outcome = Processed | DecodeFailed

  /** The event has a handler, and it does not decode. */
  predicate Undecodable<P>(def: Projection<P>, p: P, e: StoredEvent) {
    e.kind in def.handlers && def.handlers[e.kind](p, e).None?
  }

  /** What the event's handler makes of the state; without one the state stays. */
  function Handled<P>(def: Projection<P>, p: P, e: StoredEvent): P
    requires !Undecodable(def, p, e)
  {
    if e.kind in def.handlers then def.handlers[e.kind](p, e).value else p
  }

  lemma ApplyExactly<P>(def: Projection<P>, p: P, e: StoredEvent)
    ensures ApplyEvent(def, p, e) == if Undecodable(def, p, e) then None else Some(Handled(def, p, e))
  {
  }

  /** How a reader of `updates()` joined: the snapshot it was given, after how many events. */
  datatype Joined<P> = Joined(snapshot: P, after: nat)

  class ProjectionRunner<P> {
    const def: Projection<P>
    const filters: seq<EventFilter>
    const snapshots: SnapshotStore<P>
    const catchupTarget: Option<Checkpoint>
    ghost const resume: Option<Checkpoint>
    ghost const base: P
    ghost const log: seq<Entry>

    var projection: P
    var current: P
    var lastCheckpoint: Option<Checkpoint>
    var observed: Option<Checkpoint>
    var progress: Option<Checkpoint>
    var caughtUp: bool
    var eventsSinceSnapshot: nat
    /** The receivers of the channel, each with its place in it. */
    var consumers: map<int, nat>
    var broadcast: seq<P>
    /** What the store has delivered, and the state after each event applied. */
    ghost var items: seq<Item>
    ghost var states: seq<P>
    ghost var joined: map<int, Joined<P>>

    ghost function Kept(): seq<Entry>
      reads this
    {
      Fresh(items, resume)
    }

    /** The checkpoint of the last event that readers can see. */
    ghost function Shown(): Option<Checkpoint>
      reads this
    {
      LastKept(Kept(), resume)
    }

    /** Holds between any two steps of the runner, so at any moment a reader may look. */
    ghost predicate Readable()
      reads this
    {
      && Ordered(log) && Faithful(items, filters, resume, log) && GapFree(Kept(), filters, resume, log)
      && current == projection && progress == observed
      && OptAtMost(resume, Shown())
      && IsFold(def, log, filters, Shown(), current)
      && (observed.Some? ==> Window(log, filters, Shown(), observed.value) == [])
      && Streaming()
    }

    /** Every consumer has its boundary exact: no state lost or repeated since it joined. */
    ghost predicate Streaming()
      reads this
    {
      && History(def, base, Kept(), states)
      && current == StateAfter(base, states, |states|)
      && AllAttached(base, states, joined, consumers, broadcast)
    }

    /** The states a consumer is sent. */
    ghost function Stream(id: int): seq<P>
      requires id in consumers && consumers[id] <= |broadcast|
      reads this
    {
      broadcast[consumers[id]..]
    }

    /** Holds between deliveries. */
    ghost predicate Valid()
      reads this, snapshots
    {
      && Readable()
      && lastCheckpoint == Shown() && OptAtMost(lastCheckpoint, observed)
      && (lastCheckpoint.Some? ==> IsEvent(log, filters, lastCheckpoint.value))
      && (caughtUp <==> OptAtMost(catchupTarget, lastCheckpoint))
      && Durable(def, log, filters, snapshots.stored)
      && (eventsSinceSnapshot == 0 ==> OptAtMost(lastCheckpoint, PositionOf(snapshots.stored)))
    }

    /**
     Start a subscription. A snapshot that cannot be loaded counts as missing. `target` is
     the store's last matching checkpoint, read before subscribing.
     */
    constructor (def: Projection<P>, filters: seq<EventFilter>, snapshots: SnapshotStore<P>,
        target: Option<Checkpoint>, loadable: bool, ghost log: seq<Entry>)
      requires Ordered(log) && Durable(def, log, filters, snapshots.stored)
      ensures Valid() && items == [] && consumers == map[]
      ensures this.def == def && this.filters == filters && this.snapshots == snapshots
      ensures this.catchupTarget == target && this.log == log
      ensures lastCheckpoint == resume ==
              if loadable && snapshots.stored.Some? then Some(snapshots.stored.value.position) else None
      ensures observed == resume && IsFold(def, log, filters, resume, base)
    {
      var from := if loadable && snapshots.stored.Some? then Some(snapshots.stored.value.position) else None;
      var state := if loadable && snapshots.stored.Some? then snapshots.stored.value.data else def.init;
      this.def, this.filters, this.snapshots, this.catchupTarget := def, filters, snapshots, target;
      this.resume, this.base, this.log := from, state, log;
      projection, current := state, state;
      lastCheckpoint, observed, progress := from, from, from;
      caughtUp := target.None? || OptAtMost(target, from);
      eventsSinceSnapshot := 0;
      consumers, broadcast := map[], [];
      items, states, joined := [], [], map[];
      new;
      Initially(filters, from, log);
    }

    /**
     Apply a matching event, then publish and broadcast the new state under one lock. It
     fails exactly when the kind's handler cannot decode the event.
     */
    method OnEvent(item: Item) returns (outcome: Outcome)
      requires Readable() && item.Event? && After(item.entry.checkpoint, Shown())
      requires MayFollow(items, item, filters, resume, log)
      modifies this`projection, this`current, this`eventsSinceSnapshot, this`broadcast, this`items, this`states
      ensures outcome.Processed? ==> Readable() && items == old(items) + [item]
      ensures outcome.Processed? ==> eventsSinceSnapshot == old(eventsSinceSnapshot) + 1
      ensures outcome.DecodeFailed? ==> unchanged(this)
      ensures var e := item.entry.event;
              outcome.DecodeFailed? <==> e.kind in def.handlers && def.handlers[e.kind](old(projection), e).None?
      ensures outcome.Processed? ==> projection == Handled(def, old(projection), item.entry.event)
    {
      hide Faithful, Fresh, GapFree, MayFollow, Window, Ordered, Replay, History, AllAttached, IsFold, LastKept,
        ApplyEvent;
      var entry := item.entry;
      ApplyExactly(def, projection, entry.event);
      var next := ApplyEvent(def, projection, entry.event);
      if next.None? {
        return DecodeFailed;
      }
      EventShown(item, next.value);
      HistoryAppend(def, base, Kept(), states, entry, next.value);
      AttachedAppend(base, states, joined, consumers, broadcast, next.value);
      projection := next.value;
      eventsSinceSnapshot := eventsSinceSnapshot + 1;
      current := projection;
      if consumers != map[] {
        broadcast := broadcast + [current];
      }
      items := items + [item];
      states := states + [current];
      outcome := Processed;
    }

    /** The event is the next of the log, so the fold stays a fold, up to its checkpoint. */
    lemma EventShown(item: Item, next: P)
      requires Readable() && item.Event? && After(item.entry.checkpoint, Shown())
      requires MayFollow(items, item, filters, resume, log)
      requires ApplyEvent(def, projection, item.entry.event) == Some(next)
      ensures Fresh(items + [item], resume) == Kept() + [item.entry]
      ensures Faithful(items + [item], filters, resume, log) && GapFree(Kept() + [item.entry], filters, resume, log)
      ensures LastKept(Kept() + [item.entry], resume) == Some(item.entry.checkpoint)
      ensures OptAtMost(resume, Some(item.entry.checkpoint))
      ensures IsFold(def, log, filters, Some(item.entry.checkpoint), next)
      ensures observed.Some? ==> Window(log, filters, Some(item.entry.checkpoint), observed.value) == []
    {
      hide Faithful, GapFree, Fresh, MayFollow, History, AllAttached, ApplyEvent, Window, IsFold, UpTo, Ordered;
      var e := item.entry;
      NextEvent(items, e, filters, resume, log, Shown());
      FaithfulAppend(items, item, filters, resume, log);
      FreshAppend(items, item, resume);
      KeepGapFree(items, item, filters, resume, log);
      FoldNext(def, log, filters, Shown(), projection, e, next);
      if observed.Some? {
        NothingPast(log, filters, Shown(), e.checkpoint, observed.value);
      }
    }

    /** Move global progress forwards, never back, and publish it. */
    method AdvanceObserved(candidate: Checkpoint)
      requires progress == observed
      modifies this`observed, this`progress
      ensures progress == observed == OptMax(old(observed), candidate)
    {
      if observed.None? || Less(observed.value, candidate) {
        observed := Some(candidate);
        progress := observed;
      }
    }

    /** Offer the current state as a snapshot; the pending count restarts only when it is stored. */
    method MaintainSnapshot(available: bool)
      requires Durable(def, log, filters, snapshots.stored)
      requires lastCheckpoint.Some? ==> IsEvent(log, filters, lastCheckpoint.value)
      requires IsFold(def, log, filters, lastCheckpoint, projection)
      modifies this`eventsSinceSnapshot, snapshots
      ensures Durable(def, log, filters, snapshots.stored)
      ensures Advanced(old(snapshots.stored), snapshots.stored)
      ensures snapshots.stored ==
              if available && old(eventsSinceSnapshot) > 0 && lastCheckpoint.Some? then
                var offered := Snapshot(lastCheckpoint.value, projection);
                AfterOffer(snapshots.policy, old(snapshots.stored), old(eventsSinceSnapshot), offered)
              else old(snapshots.stored)
      ensures eventsSinceSnapshot == if snapshots.stored != old(snapshots.stored) then 0 else old(eventsSinceSnapshot)
      ensures snapshots.stored != old(snapshots.stored) ==> PositionOf(snapshots.stored) == lastCheckpoint
    {
      if eventsSinceSnapshot > 0 && lastCheckpoint.Some? {
        var offer := snapshots.OfferSnapshot(eventsSinceSnapshot, Snapshot(lastCheckpoint.value, projection),
          available);
        if offer.Stored? {
          eventsSinceSnapshot := 0;
        }
      }
    }

    /** Handle one delivery. The store contract is the only thing asked of it. */
    method HandleDelivery(item: Item, available: bool) returns (outcome: Outcome)
      requires Valid() && MayFollow(items, item, filters, resume, log)
      modifies this, snapshots
      ensures Valid()
      ensures outcome.Processed? ==> items == old(items) + [item]
      ensures outcome.Processed? ==> observed == OptMax(old(observed), ItemCheckpoint(item))
      ensures outcome.DecodeFailed? <==>
                && item.Event? && After(item.entry.checkpoint, old(lastCheckpoint))
                && Undecodable(def, old(projection), item.entry.event)
      ensures outcome.DecodeFailed? ==> unchanged(this) && unchanged(snapshots)
      ensures Advanced(old(snapshots.stored), snapshots.stored)
      ensures consumers == old(consumers) && joined == old(joined)
    {
      hide Faithful, Fresh, GapFree, MayFollow, Window, Ordered, Replay, History, AllAttached, IsFold, IsEvent, Durable;
      if item.Frontier? {
        AfterFrontier(items, item.frontier, filters, resume, log, lastCheckpoint, observed);
        FreshAppend(items, item, resume);
        items := items + [item];
        AdvanceObserved(item.frontier);
        return Processed;
      }
      if lastCheckpoint.Some? && AtMost(item.entry.checkpoint, lastCheckpoint.value) {
        AfterRedelivery(items, item.entry, filters, resume, log, lastCheckpoint, observed);
        FreshAppend(items, item, resume);
        items := items + [item];
        return Processed;
      }
      outcome := HandleEvent(item, available);
    }

    /** A new matching event: apply and publish it, persist, then move global progress. */
    method HandleEvent(item: Item, available: bool) returns (outcome: Outcome)
      requires Valid() && item.Event? && After(item.entry.checkpoint, lastCheckpoint)
      requires MayFollow(items, item, filters, resume, log)
      modifies this, snapshots
      ensures Valid()
      ensures outcome.Processed? ==> items == old(items) + [item]
      ensures outcome.Processed? ==> observed == OptMax(old(observed), item.entry.checkpoint)
      ensures outcome.DecodeFailed? ==> unchanged(this) && unchanged(snapshots)
      ensures outcome.DecodeFailed? <==> Undecodable(def, old(projection), item.entry.event)
      ensures var offered := Snapshot(item.entry.checkpoint, projection);
              outcome.Processed? && available ==>
                snapshots.stored ==
                AfterOffer(snapshots.policy, old(snapshots.stored), old(eventsSinceSnapshot) + 1, offered)
      ensures outcome.Processed? && !available ==> snapshots.stored == old(snapshots.stored)
      ensures Advanced(old(snapshots.stored), snapshots.stored)
      ensures consumers == old(consumers) && joined == old(joined)
    {
      hide Faithful, Fresh, GapFree, MayFollow, Window, Ordered, Replay, History, AllAttached, IsFold, IsEvent,
        Durable, AfterOffer;
      var c := item.entry.checkpoint;
      AfterEvent(items, item.entry, filters, resume, log, lastCheckpoint, observed);
      outcome := OnEvent(item);
      if outcome.DecodeFailed? {
        return;
      }
      lastCheckpoint := Some(c);
      MaintainSnapshot(available);
      AdvanceObserved(c);
      if !caughtUp && (catchupTarget.None? || OptAtMost(catchupTarget, lastCheckpoint)) {
        caughtUp := true;
      }
    }

    /** A graceful stop offers the state one last time. */
    method Shutdown(available: bool)
      requires Valid()
      modifies this`eventsSinceSnapshot, snapshots
      ensures Valid() && Advanced(old(snapshots.stored), snapshots.stored)
      ensures available && snapshots.policy.Always? ==> OptAtMost(lastCheckpoint, PositionOf(snapshots.stored))
      ensures snapshots.stored ==
              if available && old(eventsSinceSnapshot) > 0 && lastCheckpoint.Some? then
                var offered := Snapshot(lastCheckpoint.value, projection);
                AfterOffer(snapshots.policy, old(snapshots.stored), old(eventsSinceSnapshot), offered)
              else old(snapshots.stored)
    {
      MaintainSnapshot(available);
    }

    /** Join the update stream and take the snapshot under the lock that `OnEvent` holds. */
    method Updates(id: int) returns (snapshot: P)
      requires Readable() && id !in consumers
      modifies this`consumers, this`joined
      ensures Readable() && snapshot == current
      ensures consumers == old(consumers)[id := |broadcast|]
      ensures joined == old(joined)[id := Joined(snapshot, |Kept()|)]
    {
      hide Faithful, Fresh, GapFree, Window, Ordered, IsFold, Replay;
      snapshot := current;
      consumers := consumers[id := |broadcast|];
      joined := joined[id := Joined(snapshot, |states|)];
    }

    method Detach(id: int)
      requires Readable()
      modifies this`consumers
      ensures Readable() && consumers == old(consumers) - {id}
    {
      hide Faithful, Fresh, GapFree, Window, Ordered, IsFold, Replay, History;
      consumers := consumers - {id};
    }

    /**
     Read your writes. `None` means still waiting. A state returned is one replay of a
     prefix of the log, each event applied once, holding every matching event up to the
     token, in every continuation of the log.
     */
    method ReadAfter(token: Option<Checkpoint>) returns (state: Option<P>)
      requires Readable()
      ensures state.Some? <==> token.None? || (progress.Some? && AtMost(token.value, progress.value))
      ensures state.Some? ==> Replay(def, def.init, UpTo(log, filters, Shown())) == state
      ensures state.Some? && token.Some? ==> Window(log, filters, None, token.value) <= UpTo(log, filters, Shown())
    {
      if token.Some? {
        if progress.None? || Less(progress.value, token.value) {
          return None;
        }
        TokenCovered(log, filters, Shown(), observed.value, token.value);
      }
      state := Some(current);
    }

    /** What a consumer sees: the state after k events, then exactly the states after k + 1, k + 2, ... */
    lemma UpdatesBoundary(id: int)
      requires Readable() && id in consumers
      ensures id in joined && consumers[id] <= |broadcast|
      ensures var k := joined[id].after; var stream := Stream(id);
              && k + |stream| == |Kept()|
              && Replay(def, base, Kept()[..k]) == Some(joined[id].snapshot)
              && forall i :: 0 <= i < |stream| ==> Replay(def, base, Kept()[..k + i + 1]) == Some(stream[i])
    {
      hide Faithful, GapFree, Window, Ordered, IsFold, Replay;
      var k, stream := joined[id].after, Stream(id);
      assert Attached(base, states, joined[id], consumers[id], broadcast);
      HistoryAt(def, base, Kept(), states, k);
      forall i | 0 <= i < |stream| ensures Replay(def, base, Kept()[..k + i + 1]) == Some(stream[i]) {
        HistoryAt(def, base, Kept(), states, k + i + 1);
        assert stream[i] == states[k..][i] == states[k + i];
      }
    }
  }

  ghost predicate AllAttached<P>(base: P, states: seq<P>, joined: map<int, Joined<P>>, consumers: map<int, nat>,
      broadcast: seq<P>) {
    forall c :: c in consumers ==> c in joined && Attached(base, states, joined[c], consumers[c], broadcast)
  }

  ghost predicate Attached<P>(base: P, states: seq<P>, j: Joined<P>, start: nat, broadcast: seq<P>) {
    && j.after <= |states| && start <= |broadcast|
    && j.snapshot == StateAfter(base, states, j.after)
    && broadcast[start..] == states[j.after..]
  }

  lemma AttachedAppend<P>(base: P, states: seq<P>, joined: map<int, Joined<P>>, consumers: map<int, nat>,
      broadcast: seq<P>, p: P)
    requires AllAttached(base, states, joined, consumers, broadcast)
    ensures AllAttached(base, states + [p], joined, consumers,
                        if consumers == map[] then broadcast else broadcast + [p])
  {
    forall c | c in consumers ensures Attached(base, states + [p], joined[c], consumers[c], broadcast + [p]) {
      assert Attached(base, states, joined[c], consumers[c], broadcast);
      assert (broadcast + [p])[consumers[c]..] == broadcast[consumers[c]..] + [p];
      assert (states + [p])[joined[c].after..] == states[joined[c].after..] + [p];
    }
  }

  /** The durable pair is a real matching event's checkpoint with the fold up to it. */
  ghost predicate Durable<P>(def: Projection<P>, log: seq<Entry>, fs: seq<EventFilter>, stored: Option<Snapshot<P>>) {
    stored.Some? ==>
      IsEvent(log, fs, stored.value.position) && IsFold(def, log, fs, Some(stored.value.position), stored.value.data)
  }

  function PositionOf<P>(stored: Option<Snapshot<P>>): Option<Checkpoint> {
    if stored.None? then None else Some(stored.value.position)
  }

  /** The durable position never goes backwards. */
  ghost predicate Advanced<P>(before: Option<Snapshot<P>>, after: Option<Snapshot<P>>) {
    after == before || (after.Some? && (before.None? || Less(before.value.position, after.value.position)))
  }
}
