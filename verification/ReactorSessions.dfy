/** A reactor across stops, failures and crashes, one instance per checkpoint. */
module ReactorSessions {
  import opened Options
  import opened EventLog
  import opened Delivery
  import opened Cursors
  import opened Snapshots
  import opened Reactor

  /** The first `handled` items of what the store yields, each with its script, then how the session ends. */
  datatype Session = Session(
    target: Option<Checkpoint>, source: Option<Checkpoint> -> seq<Item>, handled: nat,
    scripts: nat -> Script, graceful: bool, available: bool)

  /** The handler gets there within its retries, the process lives on, and the storage answers. */
  ghost predicate Smooth(script: Script, policy: RetryPolicy) {
    Succeeded(script.attempts, policy) && !script.crashAfterReaction && script.available
  }

  /** The items a session is given the time to handle. */
  function Taken(session: Session, from: Option<Checkpoint>): seq<Item> {
    var items := session.source(from);
    if session.handled < |items| then items[..session.handled] else items
  }

  /** One session. `ready` is the catch-up signal `start` waits for. */
  method RunSession(filters: seq<EventFilter>, handlers: set<string>, retryPolicy: RetryPolicy,
      checkpoints: SnapshotStore<()>, effects: Effects, session: Session, ghost log: seq<Entry>) returns (ready: bool)
    requires Ordered(log) && HonoursContract(session.source, filters, log)
    requires AtLeastOnce(log, filters, handlers, checkpoints.stored, effects.completed)
    requires BoundedRepeats(log, filters, checkpoints.policy, Position(checkpoints.stored),
                            effects.completed, effects.high)
    modifies checkpoints, effects
    ensures AtLeastOnce(log, filters, handlers, checkpoints.stored, effects.completed)
    ensures BoundedRepeats(log, filters, checkpoints.policy, Position(checkpoints.stored),
                           effects.completed, effects.high)
    ensures old(effects.completed) <= effects.completed
    ensures OptAtMost(old(Position(checkpoints.stored)), Position(checkpoints.stored))
    ensures ready ==> Reacted(log, filters, handlers, effects.completed, session.target)
    ensures (forall n :: Smooth(session.scripts(n), retryPolicy)) ==>
              var from := old(Position(checkpoints.stored));
              var reached := LastKept(Fresh(Taken(session, from), from), from);
              && Reacted(log, filters, handlers, effects.completed, reached)
              && (ready <==> OptAtMost(session.target, reached))
  {
    hide Faithful, Fresh, GapFree, Window, Between, LastKept, Ordered, IsEvent, BoundedRepeats, Reacted, Succeeded;
    var runner := new ReactorRunner(filters, handlers, retryPolicy, checkpoints, effects, session.target, log);
    var items := session.source(runner.lastCheckpoint);
    ghost var from := runner.resume;
    assert Faithful(items, filters, from, log);
    ready := runner.caughtUp;
    ReactedBelow(log, filters, handlers, effects.completed,
      if ready then session.target else None, runner.lastCheckpoint);
    var n, outcome := 0, Processed;
    while n < |items| && n < session.handled
      invariant n <= |items| && runner.Valid() && runner.items == items[..n]
      invariant fresh(runner) && runner.checkpoints == checkpoints && runner.effects == effects
      invariant runner.filters == filters && runner.handlers == handlers && runner.log == log && runner.resume == from
      invariant runner.catchupTarget == session.target
      invariant old(effects.completed) <= effects.completed
      invariant OptAtMost(old(Position(checkpoints.stored)), Position(checkpoints.stored))
      invariant outcome == Processed
      invariant ready == runner.caughtUp && n <= session.handled
      invariant ready ==> Reacted(log, filters, handlers, effects.completed, session.target)
    {
      ghost var completed := effects.completed;
      FaithfulAt(items, n, filters, from, log);
      assert items[..n + 1] == items[..n] + [items[n]];
      outcome := runner.HandleDelivery(items[n], session.scripts(n));
      if ready {
        ReactedGrows(log, filters, handlers, completed, effects.completed, session.target);
      }
      if !outcome.Processed? {
        break;
      }
      ready := runner.caughtUp;
      ReactedBelow(log, filters, handlers, effects.completed,
        if ready then session.target else None, runner.lastCheckpoint);
      n := n + 1;
    }
    assert outcome.Processed? ==> items[..n] == Taken(session, from);
    if outcome.Stopped? || (outcome.Processed? && session.graceful) {
      var ended := runner.Shutdown(session.available);
    }
  }

  lemma ReactedBelow(log: seq<Entry>, fs: seq<EventFilter>, handlers: set<string>, completed: seq<Entry>,
      upto: Option<Checkpoint>, last: Option<Checkpoint>)
    requires Ordered(log) && Reacted(log, fs, handlers, completed, last) && OptAtMost(upto, last)
    ensures Reacted(log, fs, handlers, completed, upto)
  {
    if upto.Some? {
      WindowPrefix(log, fs, None, upto.value, last.value);
    }
  }

  /** When `start` returns, every event its store showed has had its reaction. */
  lemma ReadyHasReacted(before: seq<Entry>, log: seq<Entry>, fs: seq<EventFilter>, handlers: set<string>,
      completed: seq<Entry>)
    requires Ordered(before) && forall e :: e in before ==> e in log
    requires Reacted(log, fs, handlers, completed, LastMatching(before, fs))
    ensures forall e :: e in before && Matches(fs, e.event) && e.event.kind in handlers ==> e in completed
  {
    CaughtUpCovers(before, log, fs, LastMatching(before, fs));
  }

  /**
   At least once, over any run of sessions: every event at or below the persisted
   checkpoint has had its reaction or has no handler, wherever sessions were cut short.
   And at most one span of completed reactions lies past it, to be repeated on restart.
   */
  method RunSessions(filters: seq<EventFilter>, handlers: set<string>, retryPolicy: RetryPolicy,
      checkpoints: SnapshotStore<()>, effects: Effects, sessions: seq<Session>, ghost log: seq<Entry>)
    requires Ordered(log) && forall s :: s in sessions ==> HonoursContract(s.source, filters, log)
    requires checkpoints.stored == None && effects.completed == [] && effects.high == None
    modifies checkpoints, effects
    ensures AtLeastOnce(log, filters, handlers, checkpoints.stored, effects.completed)
    ensures Span(checkpoints.policy).Some? ==>
              |Repeatable(effects.completed, checkpoints.stored)| <= Span(checkpoints.policy).value
    ensures (forall s, n :: s in sessions ==> Smooth(s.scripts(n), retryPolicy)) && sessions != [] ==>
              ReactedToAll(log, filters, handlers, effects.completed, sessions[|sessions| - 1])
  {
    hide Smooth;
    var k := 0;
    while k < |sessions|
      invariant k <= |sessions|
      invariant (forall s, n :: s in sessions ==> Smooth(s.scripts(n), retryPolicy)) && k > 0 ==>
                  ReactedToAll(log, filters, handlers, effects.completed, sessions[k - 1])
      invariant AtLeastOnce(log, filters, handlers, checkpoints.stored, effects.completed)
      invariant BoundedRepeats(log, filters, checkpoints.policy, Position(checkpoints.stored),
                               effects.completed, effects.high)
    {
      ghost var from := Position(checkpoints.stored);
      var ready := RunSession(filters, handlers, retryPolicy, checkpoints, effects, sessions[k], log);
      k := k + 1;
    }
    RepeatsWithinSpan(log, filters, checkpoints.policy, checkpoints.stored, effects.completed, effects.high);
  }

  /** Everything the session took from the store, from where it started, has had its reaction. */
  ghost predicate ReactedToAll(log: seq<Entry>, fs: seq<EventFilter>, handlers: set<string>, completed: seq<Entry>,
      session: Session) {
    exists from :: Reacted(log, fs, handlers, completed, LastKept(Fresh(Taken(session, from), from), from))
  }

  /** The completed reactions that a restart from the persisted checkpoint will run again. */
  function Repeatable(completed: seq<Entry>, stored: Option<Snapshot<()>>): set<Entry> {
    set e | e in completed && After(e.checkpoint, Position(stored))
  }

  lemma RepeatsWithinSpan(log: seq<Entry>, fs: seq<EventFilter>, policy: SnapshotPolicy, stored: Option<Snapshot<()>>,
      completed: seq<Entry>, high: Option<Checkpoint>)
    requires BoundedRepeats(log, fs, policy, Position(stored), completed, high)
    ensures Span(policy).Some? ==> |Repeatable(completed, stored)| <= Span(policy).value
  {
    var between := Between(log, fs, Position(stored), high);
    if high.Some? {
      WindowMember(log, fs, Position(stored), high.value);
    }
    assert forall e :: e in Repeatable(completed, stored) ==> e in between;
    AtMostLength(Repeatable(completed, stored), between);
  }

  lemma {:induction false} AtMostLength(s: set<Entry>, all: seq<Entry>)
    requires forall e :: e in s ==> e in all
    ensures |s| <= |all|
  {
    if all != [] {
      var front, last := all[..|all| - 1], all[|all| - 1];
      assert all == front + [last];
      AtMostLength(s - {last}, front);
    }
  }
}
