/**
 The shared runner driving a reactor: reactions are retried with back-off, progress is
 persisted in batches, and a stop or a crash may come at any point. Reactions happen at
 least once, and a restart repeats only a bounded number of them.
 */
module Reactor {
  import opened Options
  import opened EventLog
  import opened Delivery
  import opened Cursors
  import opened Snapshots

  /** One run of a handler. A retryable failure waits; a stop may arrive during the wait. */
  datatype Attempt = Succeeds | FailsDecode | FailsFatal | FailsRetryable(stopRequested: bool)

  datatype Outcome = Processed | Stopped | Failed | Crashed

  /** Delays are in nanoseconds; no `maxRetries` means retrying for ever. */
  datatype RetryPolicy = RetryPolicy(initialDelay: nat, maxDelay: nat, maxRetries: Option<nat>)

  /** After `tries` runs no retry is left. */
  predicate Exhausted(policy: RetryPolicy, tries: nat) {
    policy.maxRetries.Some? && tries > policy.maxRetries.value
  }

  /** The attempts lead up to attempt `k`: all before it failed retryably, undisturbed, with a retry left. */
  ghost predicate LeadsTo(attempts: seq<Attempt>, policy: RetryPolicy, k: int) {
    0 <= k < |attempts| && !Exhausted(policy, k) && forall i :: 0 <= i < k ==> attempts[i] == FailsRetryable(false)
  }

  ghost predicate Succeeded(attempts: seq<Attempt>, policy: RetryPolicy) {
    exists k :: LeadsTo(attempts, policy, k) && attempts[k].Succeeds?
  }

  /** A stop arrives while the handler waits for its next attempt. */
  ghost predicate Interrupted(attempts: seq<Attempt>, policy: RetryPolicy) {
    exists k :: LeadsTo(attempts, policy, k) && attempts[k] == FailsRetryable(true) && !Exhausted(policy, k + 1)
  }

  /**
   How the world treats one delivery: the handler's attempts (the process dies if they run
   out), whether it dies between reaction and persistence, and whether storage answers.
   */
  datatype Script = Script(attempts: seq<Attempt>, crashAfterReaction: bool, available: bool)

  /** What reactions have done to the outside world; it outlives every session. */
  class Effects {
    var completed: seq<Entry>
    ghost var high: Option<Checkpoint>

    constructor ()
      ensures completed == [] && high == None
    {
      completed, high := [], None;
    }
  }

  /** Every event up to the cursor has had its reaction, or has no handler. */
  ghost predicate Reacted(log: seq<Entry>, fs: seq<EventFilter>, handlers: set<string>, completed: seq<Entry>,
      upto: Option<Checkpoint>) {
    forall e :: e in UpTo(log, fs, upto) && e.event.kind in handlers ==> e in completed
  }

  function Position(stored: Option<Snapshot<()>>): Option<Checkpoint> {
    if stored.None? then None else Some(stored.value.position)
  }

  /** The persisted checkpoint is a real matching event, and nothing at or below it was skipped. */
  ghost predicate AtLeastOnce(log: seq<Entry>, fs: seq<EventFilter>, handlers: set<string>,
      stored: Option<Snapshot<()>>, completed: seq<Entry>) {
    && Reacted(log, fs, handlers, completed, Position(stored))
    && (stored.Some? ==> IsEvent(log, fs, stored.value.position))
  }

  /** Completed reactions reach at most one span of events past the persisted checkpoint. */
  ghost predicate BoundedRepeats(log: seq<Entry>, fs: seq<EventFilter>, policy: SnapshotPolicy,
      position: Option<Checkpoint>, completed: seq<Entry>, high: Option<Checkpoint>) {
    && (forall e :: e in completed ==>
         e in log && Matches(fs, e.event) && high.Some? && AtMost(e.checkpoint, high.value))
    && (Span(policy).Some? ==> |Between(log, fs, position, high)| <= Span(policy).value)
  }

  lemma ReactedGrows(log: seq<Entry>, fs: seq<EventFilter>, handlers: set<string>, before: seq<Entry>,
      after: seq<Entry>, upto: Option<Checkpoint>)
    requires Reacted(log, fs, handlers, before, upto) && before <= after
    ensures Reacted(log, fs, handlers, after, upto)
  {
  }

  lemma EventReacted(log: seq<Entry>, fs: seq<EventFilter>, handlers: set<string>, before: seq<Entry>,
      after: seq<Entry>, last: Option<Checkpoint>, e: Entry)
    requires Reacted(log, fs, handlers, before, last)
    requires after == before + if e.event.kind in handlers then [e] else []
    requires UpTo(log, fs, Some(e.checkpoint)) == UpTo(log, fs, last) + [e]
    ensures Reacted(log, fs, handlers, after, Some(e.checkpoint))
  {
    assert e.event.kind in handlers ==> after[|before|] == e;
  }

  /** A reaction may run ahead of the persisted checkpoint by one more event, still within the span. */
  lemma EventRepeats(log: seq<Entry>, fs: seq<EventFilter>, policy: SnapshotPolicy, position: Option<Checkpoint>,
      completed: seq<Entry>, high: Option<Checkpoint>, last: Option<Checkpoint>, e: Entry, handled: bool)
    requires BoundedRepeats(log, fs, policy, position, completed, high)
    requires e in log && Matches(fs, e.event)
    requires Between(log, fs, position, Some(e.checkpoint)) == Between(log, fs, position, last) + [e]
    requires Span(policy).Some? ==> |Between(log, fs, position, last)| < Span(policy).value
    ensures BoundedRepeats(log, fs, policy, position, completed + (if handled then [e] else []),
                           if handled then OptMax(high, e.checkpoint) else high)
  {
  }

  /** Persisting further ahead only shortens what a restart can repeat. */
  lemma PositionMoves(log: seq<Entry>, fs: seq<EventFilter>, policy: SnapshotPolicy, position: Option<Checkpoint>,
      next: Option<Checkpoint>, completed: seq<Entry>, high: Option<Checkpoint>)
    requires Ordered(log) && BoundedRepeats(log, fs, policy, position, completed, high) && OptAtMost(position, next)
    ensures BoundedRepeats(log, fs, policy, next, completed, high)
  {
    if high.Some? && next.Some? {
      if AtMost(next.value, high.value) {
        WindowSplit(log, fs, position, next.value, high.value);
      } else {
        WindowNothing(log, fs, next, high.value);
      }
    }
  }

  class ReactorRunner {
    const filters: seq<EventFilter>
    const handlers: set<string>
    const retryPolicy: RetryPolicy
    const checkpoints: SnapshotStore<()>
    const effects: Effects
    const catchupTarget: Option<Checkpoint>
    ghost const resume: Option<Checkpoint>
    ghost const log: seq<Entry>

    var lastCheckpoint: Option<Checkpoint>
    var observed: Option<Checkpoint>
    var caughtUp: bool
    var eventsSinceCheckpoint: nat
    ghost var items: seq<Item>

    /** What is durable survives a crash at any point. */
    ghost predicate Recoverable()
      reads this, checkpoints, effects
    {
      && AtLeastOnce(log, filters, handlers, checkpoints.stored, effects.completed)
      && BoundedRepeats(log, filters, checkpoints.policy, Position(checkpoints.stored), effects.completed, effects.high)
    }

    /** The pending count is the number of events handled since the persisted checkpoint. */
    ghost predicate Paced()
      reads this, checkpoints
    {
      && OptAtMost(Position(checkpoints.stored), lastCheckpoint)
      && eventsSinceCheckpoint == |Between(log, filters, Position(checkpoints.stored), lastCheckpoint)|
      && (Span(checkpoints.policy).Some? ==> eventsSinceCheckpoint < Span(checkpoints.policy).value)
    }

    /** Holds between deliveries. */
    ghost predicate Valid()
      reads this, checkpoints, effects
    {
      && Ordered(log) && InvariantHolds(items, filters, resume, log, lastCheckpoint, observed)
      && (lastCheckpoint.Some? ==> IsEvent(log, filters, lastCheckpoint.value))
      && Reacted(log, filters, handlers, effects.completed, lastCheckpoint)
      && (caughtUp <==> OptAtMost(catchupTarget, lastCheckpoint))
      && Recoverable() && Paced()
    }

    /** Start from the persisted checkpoint; a checkpoint that cannot be loaded prevents the start. */
    constructor (filters: seq<EventFilter>, handlers: set<string>, retryPolicy: RetryPolicy,
        checkpoints: SnapshotStore<()>, effects: Effects, target: Option<Checkpoint>, ghost log: seq<Entry>)
      requires Ordered(log)
      requires AtLeastOnce(log, filters, handlers, checkpoints.stored, effects.completed)
      requires BoundedRepeats(log, filters, checkpoints.policy, Position(checkpoints.stored),
                              effects.completed, effects.high)
      ensures Valid() && items == []
      ensures this.filters == filters && this.handlers == handlers && this.retryPolicy == retryPolicy
      ensures this.checkpoints == checkpoints && this.effects == effects && this.catchupTarget == target
              && this.log == log
      ensures lastCheckpoint == resume == Position(checkpoints.stored)
    {
      var from := if checkpoints.stored.Some? then Some(checkpoints.stored.value.position) else None;
      this.filters, this.handlers, this.retryPolicy := filters, handlers, retryPolicy;
      this.checkpoints, this.effects, this.catchupTarget := checkpoints, effects, target;
      this.resume, this.log := from, log;
      lastCheckpoint, observed := from, from;
      caughtUp := target.None? || OptAtMost(target, from);
      eventsSinceCheckpoint := 0;
      items := [];
      new;
      Initially(filters, from, log);
    }

    /**
     Run the handler until it succeeds, fails for good, or is told to stop. `tries` counts
     its runs: all but the last failed retryably with a retry left, and the last one
     decides. `waits` are the back-off delays slept, or begun, in between.
     */
    method OnEvent(entry: Entry, attempts: seq<Attempt>) returns (outcome: Outcome, tries: nat, waits: seq<nat>)
      modifies effects
      ensures entry.event.kind !in handlers ==> tries == 0 && outcome.Processed?
      ensures outcome.Processed? <==> entry.event.kind !in handlers || Succeeded(attempts, retryPolicy)
      ensures outcome.Stopped? <==> entry.event.kind in handlers && Interrupted(attempts, retryPolicy)
      ensures entry.event.kind in handlers ==>
                if outcome.Crashed? then
                  && tries == |attempts| && !Exhausted(retryPolicy, tries)
                  && forall i :: 0 <= i < tries ==> attempts[i] == FailsRetryable(false)
                else
                  && tries > 0 && LeadsTo(attempts, retryPolicy, tries - 1)
                  && (attempts[tries - 1] == FailsRetryable(false) ==> Exhausted(retryPolicy, tries))
                  && outcome == Decided(attempts[tries - 1], Exhausted(retryPolicy, tries))
      ensures outcome.Failed? && attempts[tries - 1].FailsRetryable? ==> retryPolicy.maxRetries == Some(tries - 1)
      ensures |waits| == if outcome.Processed? || outcome.Failed? then Monus(tries) else tries
      ensures forall i :: 0 <= i < |waits| ==>
                waits[i] == NextDelay(retryPolicy.initialDelay, retryPolicy.maxDelay, i)
      ensures effects.completed ==
              if tries > 0 && outcome.Processed? then old(effects.completed) + [entry] else old(effects.completed)
      ensures !outcome.Processed? || tries == 0 ==> unchanged(effects)
      ensures effects.high ==
              if tries > 0 && outcome.Processed? then OptMax(old(effects.high), entry.checkpoint) else old(effects.high)
    {
      tries, waits := 0, [];
      if entry.event.kind !in handlers {
        return Processed, 0, [];
      }
      var retryIndex := 0;
      while tries < |attempts|
        invariant tries == retryIndex == |waits| <= |attempts|
        invariant !Exhausted(retryPolicy, tries)
        invariant forall i :: 0 <= i < tries ==> attempts[i] == FailsRetryable(false)
        invariant forall i :: 0 <= i < |waits| ==>
                    waits[i] == NextDelay(retryPolicy.initialDelay, retryPolicy.maxDelay, i)
        invariant unchanged(effects)
      {
        hide NextDelay;
        assert LeadsTo(attempts, retryPolicy, tries);
        var attempt := attempts[tries];
        tries := tries + 1;
        match attempt {
          case Succeeds =>
            effects.completed := effects.completed + [entry];
            effects.high := OptMax(effects.high, entry.checkpoint);
            return Processed, tries, waits;
          case FailsDecode => return Outcome.Failed, tries, waits;
          case FailsFatal => return Outcome.Failed, tries, waits;
          case FailsRetryable(stopRequested) =>
            if retryPolicy.maxRetries.Some? && retryIndex >= retryPolicy.maxRetries.value {
              return Outcome.Failed, tries, waits;
            }
            waits := waits + [NextDelay(retryPolicy.initialDelay, retryPolicy.maxDelay, retryIndex)];
            retryIndex := retryIndex + 1;
            if stopRequested {
              return Stopped, tries, waits;
            }
        }
      }
      outcome := Crashed;
    }

    /** Count the event and offer the checkpoint. A storage failure is fatal. */
    method Persist(checkpoint: Checkpoint, available: bool) returns (outcome: Outcome)
      modifies this`eventsSinceCheckpoint, checkpoints
      ensures outcome == Processed || outcome == Outcome.Failed
      ensures var due := ShouldSnapshot(checkpoints.policy, old(eventsSinceCheckpoint) + 1);
              var ahead := old(checkpoints.stored).None? || Less(old(checkpoints.stored).value.position, checkpoint);
              && (outcome.Failed? <==> due && !available)
              && checkpoints.stored ==
                 (if due && available && ahead then Some(Snapshot(checkpoint, ())) else old(checkpoints.stored))
              && eventsSinceCheckpoint == (if due && available && ahead then 0 else old(eventsSinceCheckpoint) + 1)
    {
      eventsSinceCheckpoint := eventsSinceCheckpoint + 1;
      outcome := OfferCheckpoint(checkpoint, available);
    }

    method OfferCheckpoint(checkpoint: Checkpoint, available: bool) returns (outcome: Outcome)
      modifies this`eventsSinceCheckpoint, checkpoints
      ensures outcome == Processed || outcome == Outcome.Failed
      ensures var due := old(eventsSinceCheckpoint) > 0
              && ShouldSnapshot(checkpoints.policy, old(eventsSinceCheckpoint));
              var ahead := old(checkpoints.stored).None? || Less(old(checkpoints.stored).value.position, checkpoint);
              && (outcome.Failed? <==> due && !available)
              && checkpoints.stored ==
                 (if due && available && ahead then Some(Snapshot(checkpoint, ())) else old(checkpoints.stored))
              && eventsSinceCheckpoint == (if due && available && ahead then 0 else old(eventsSinceCheckpoint))
    {
      if eventsSinceCheckpoint == 0 {
        return Processed;
      }
      var offer := checkpoints.OfferSnapshot(eventsSinceCheckpoint, Snapshot(checkpoint, ()), available);
      if offer.Stored? {
        eventsSinceCheckpoint := 0;
      }
      outcome := if offer.Failed? then Outcome.Failed else Processed;
    }

    /** The reaction succeeds, if one is due, the process lives on, and the checkpoint is persisted, if that is due. */
    ghost predicate GetsThrough(entry: Entry, script: Script, pending: nat) {
      && (entry.event.kind !in handlers || Succeeded(script.attempts, retryPolicy))
      && !script.crashAfterReaction && (ShouldSnapshot(checkpoints.policy, pending + 1) ==> script.available)
    }

    /**
     Handle one delivery. Whatever happens, what is durable stays recoverable; unless the
     process ends here, the runner is ready for the next delivery.
     */
    method HandleDelivery(item: Item, script: Script) returns (outcome: Outcome)
      requires Valid() && MayFollow(items, item, filters, resume, log)
      modifies this, checkpoints, effects
      ensures Recoverable()
      ensures outcome.Processed? ==> Valid() && items == old(items) + [item]
      ensures outcome.Processed? ==> observed == OptMax(old(observed), ItemCheckpoint(item))
      ensures outcome.Stopped? ==> Valid() && unchanged(this) && unchanged(checkpoints) && unchanged(effects)
      ensures old(effects.completed) <= effects.completed
      ensures OptAtMost(old(Position(checkpoints.stored)), Position(checkpoints.stored))
      ensures var isNew := item.Event? && After(item.entry.checkpoint, old(lastCheckpoint));
              && (outcome.Processed? <==> isNew ==> GetsThrough(item.entry, script, old(eventsSinceCheckpoint)))
              && (outcome.Stopped? <==>
                    isNew && item.entry.event.kind in handlers && Interrupted(script.attempts, retryPolicy))
    {
      hide Faithful, Fresh, GapFree, MayFollow, Window, Ordered, IsEvent, Reacted, BoundedRepeats, Succeeded,
        Interrupted;
      if item.Frontier? {
        AfterFrontier(items, item.frontier, filters, resume, log, lastCheckpoint, observed);
        items := items + [item];
        observed := OptMax(observed, item.frontier);
        return Processed;
      }
      if lastCheckpoint.Some? && AtMost(item.entry.checkpoint, lastCheckpoint.value) {
        AfterRedelivery(items, item.entry, filters, resume, log, lastCheckpoint, observed);
        items := items + [item];
        return Processed;
      }
      outcome := HandleEvent(item, script);
    }

    /** What holds once the reaction to the next event has completed, or was not needed. */
    lemma ReactionKeeps(item: Item, completed: seq<Entry>, high: Option<Checkpoint>)
      requires Valid() && item.Event? && After(item.entry.checkpoint, lastCheckpoint)
      requires MayFollow(items, item, filters, resume, log)
      requires var handled := item.entry.event.kind in handlers;
               && completed == effects.completed + (if handled then [item.entry] else [])
               && high == if handled then OptMax(effects.high, item.entry.checkpoint) else effects.high
      ensures var c, position, policy := Some(item.entry.checkpoint), Position(checkpoints.stored), checkpoints.policy;
              && AtLeastOnce(log, filters, handlers, checkpoints.stored, completed)
              && Reacted(log, filters, handlers, completed, c)
              && BoundedRepeats(log, filters, policy, position, completed, high)
              && BoundedRepeats(log, filters, policy, c, completed, high)
              && |Between(log, filters, position, c)| == eventsSinceCheckpoint + 1
              && Between(log, filters, c, c) == []
              && OptAtMost(position, c)
    {
      var e, position := item.entry, Position(checkpoints.stored);
      NextEvent(items, e, filters, resume, log, lastCheckpoint);
      if lastCheckpoint.Some? {
        WindowSplit(log, filters, position, lastCheckpoint.value, e.checkpoint);
      }
      ReactedGrows(log, filters, handlers, effects.completed, completed, position);
      EventReacted(log, filters, handlers, effects.completed, completed, lastCheckpoint, e);
      var handled := e.event.kind in handlers;
      EventRepeats(log, filters, checkpoints.policy, position, effects.completed, effects.high, lastCheckpoint, e,
        handled);
      PositionMoves(log, filters, checkpoints.policy, position, Some(e.checkpoint), completed, high);
      WindowNothing(log, filters, Some(e.checkpoint), e.checkpoint);
    }

    /** A new matching event: react, then persist, then move global progress. */
    method HandleEvent(item: Item, script: Script) returns (outcome: Outcome)
      requires Valid() && item.Event? && After(item.entry.checkpoint, lastCheckpoint)
      requires MayFollow(items, item, filters, resume, log)
      modifies this, checkpoints, effects
      ensures Recoverable()
      ensures outcome.Processed? ==> Valid() && items == old(items) + [item]
      ensures outcome.Processed? ==> observed == OptMax(old(observed), item.entry.checkpoint)
      ensures outcome.Stopped? ==> Valid() && unchanged(this) && unchanged(checkpoints) && unchanged(effects)
      ensures old(effects.completed) <= effects.completed
      ensures OptAtMost(old(Position(checkpoints.stored)), Position(checkpoints.stored))
      ensures outcome.Processed? <==> GetsThrough(item.entry, script, old(eventsSinceCheckpoint))
      ensures outcome.Stopped? <==> item.entry.event.kind in handlers && Interrupted(script.attempts, retryPolicy)
    {
      hide Faithful, Fresh, GapFree, MayFollow, Window, Between, Ordered, IsEvent, Reacted, BoundedRepeats, Succeeded,
        Interrupted, LeadsTo, NextDelay;
      AfterEvent(items, item.entry, filters, resume, log, lastCheckpoint, observed);
      ghost var handled := item.entry.event.kind in handlers;
      ghost var completed := effects.completed + (if handled then [item.entry] else []);
      ReactionKeeps(item, completed, if handled then OptMax(effects.high, item.entry.checkpoint) else effects.high);
      var tries, waits;
      outcome, tries, waits := OnEvent(item.entry, script.attempts);
      if !outcome.Processed? {
        return;
      }
      assert effects.completed == completed;
      if script.crashAfterReaction {
        return Crashed;
      }
      lastCheckpoint := Some(item.entry.checkpoint);
      outcome := Persist(item.entry.checkpoint, script.available);
      if outcome.Failed? {
        return;
      }
      items := items + [item];
      observed := OptMax(observed, item.entry.checkpoint);
      if !caughtUp && (catchupTarget.None? || OptAtMost(catchupTarget, lastCheckpoint)) {
        caughtUp := true;
      }
    }

    /** Waiting for a token: once reached, every event up to it has had its reaction. */
    method WaitFor(token: Checkpoint) returns (reached: bool)
      requires Valid()
      ensures reached <==> observed.Some? && AtMost(token, observed.value)
      ensures reached ==> Reacted(log, filters, handlers, effects.completed, Some(token))
    {
      reached := observed.Some? && AtMost(token, observed.value);
      if reached {
        TokenCovered(log, filters, lastCheckpoint, observed.value, token);
      }
    }

    /**
     A graceful stop offers the checkpoint of the last processed event once more. Every due
     offer was already made after its event, so this one is never due and changes nothing.
     */
    method Shutdown(available: bool) returns (outcome: Outcome)
      requires Valid()
      modifies this`eventsSinceCheckpoint, checkpoints
      ensures outcome.Processed? && Recoverable()
      ensures checkpoints.stored == old(checkpoints.stored)
    {
      outcome := Processed;
      if lastCheckpoint.Some? {
        outcome := OfferCheckpoint(lastCheckpoint.value, available);
      }
    }
  }

  /** What the last attempt decides. A retryable failure is the last only with no retry left, or told to stop. */
  function Decided(last: Attempt, exhausted: bool): Outcome {
    match last
    case Succeeds => Processed
    case FailsRetryable(_) => if exhausted then Outcome.Failed else Stopped
    case _ => Outcome.Failed
  }

  function Monus(tries: nat): nat {
    if tries == 0 then 0 else tries - 1
  }

  /** The longest `Duration`, in nanoseconds. */
  const DURATION_MAX: nat := 0xFFFF_FFFF_FFFF_FFFF * 1_000_000_000 + 999_999_999

  function Pow2(n: nat): (p: nat)
    ensures p >= 1
  {
    if n == 0 then 1 else 2 * Pow2(n - 1)
  }

  /** `1 << retryIndex` in 32 bits, pinned at the top once it overflows. */
  function Multiplier(retryIndex: nat): nat {
    if retryIndex < 32 then Pow2(retryIndex) else 0xFFFF_FFFF
  }

  function Least(a: nat, b: nat): nat {
    if a < b then a else b
  }

  function NextDelay(initial: nat, max: nat, retryIndex: nat): nat {
    Least(Least(initial * Multiplier(retryIndex), DURATION_MAX), max)
  }

  /** Back-off starts at the initial delay, never shortens, and never passes the maximum. */
  lemma {:induction false} BackoffGrowsToMax(initial: nat, max: nat, i: nat, j: nat)
    requires i <= j && max <= DURATION_MAX
    ensures NextDelay(initial, max, i) <= NextDelay(initial, max, j) <= max
    ensures NextDelay(initial, max, 0) == Least(initial, max)
  {
    assert Multiplier(0) == 1;
    hide Multiplier;
    MultiplierGrows(i, j);
    TimesGrows(initial, Multiplier(i), Multiplier(j));
  }

  /** While 32 bits suffice, each delay is twice the one before, or the maximum if that is less. */
  lemma {:induction false} BackoffDoubles(initial: nat, max: nat, i: nat)
    requires max <= DURATION_MAX && i < 31
    ensures NextDelay(initial, max, i + 1) == Least(2 * NextDelay(initial, max, i), max)
  {
    assert Multiplier(i + 1) == 2 * Multiplier(i);
    hide Multiplier;
    TimesTwice(initial, Multiplier(i));
  }

  /** From then on it is one delay for ever, nearly twice the last of these. */
  lemma BackoffTops(initial: nat, max: nat, i: nat)
    requires max <= DURATION_MAX && i >= 32
    ensures NextDelay(initial, max, i) == Least(0xFFFF_FFFF * initial, max)
  {
  }

  lemma TimesGrows(a: nat, x: nat, y: nat)
    requires x <= y
    ensures a * x <= a * y
  {
  }

  lemma TimesTwice(a: nat, x: nat)
    ensures a * (2 * x) == 2 * (a * x)
  {
  }

  lemma MultiplierGrows(i: nat, j: nat)
    requires i <= j
    ensures Multiplier(i) <= Multiplier(j)
  {
    if j < 32 {
      Pow2Grows(i, j);
    } else if i < 32 {
      Pow2Grows(i, 31);
      assert Pow2(31) == 0x8000_0000 by {
        assert Pow2(8) == 0x100;
        assert Pow2(16) == 0x1_0000;
        assert Pow2(24) == 0x100_0000;
      }
    }
  }

  lemma {:induction false} Pow2Grows(i: nat, j: nat)
    requires i <= j
    ensures Pow2(i) <= Pow2(j)
  {
    if i < j {
      Pow2Grows(i, j - 1);
    }
  }
}
