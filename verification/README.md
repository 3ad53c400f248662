# Sourcery, modelled and proved

Sourcery is an event-sourcing runtime: commands append events to streams, projections fold
events into read models, reactors answer events with effects, and two stores (Postgres and
in-memory) keep the log. This project models the concurrent parts of that runtime and
proves the guarantees its comments promise, over every interleaving and every run.

One log connects everything. `EventLog` gives entries stamped with an ordered checkpoint
and `Window`, the matching entries of an interval. `Delivery` states the contract between
a subscribable store and its subscribers against such a log. A store owes the contract for
every log that any continuation of its execution reaches; the runner asks for nothing else.

- **Postgres** (`PostgresDatabase`, `PostgresSubscription`, `PostgresWriters`,
  `PostgresProgress`, `PostgresGuesses`, `PostgresLoading`, `PostgresPositions`). Transactions begin, draw positions from a shared
  sequence, commit or roll back in any interleaving, so positions become visible out of
  order. The subscriber's `xmin` read and each page query are separate steps; a schedule
  says what writers do between them. Delivery gated on `xid < xmin` is gap-free, in order
  and exactly once, and its frontiers are final. Commands end their transactions, so the gate
  moves on and every commit is delivered.
- **The in-memory store** (`MemoryStore`, `MemorySubscription`, `MemoryProgress`). A map of vectors and a
  counter behave as one log. Appends and notifications are separate steps, the channel
  drops under lag, and no commit is lost.
- **The shared runner** (`Cursors`, `Projections`, `Filters`, `Runner`, `Sessions`,
  `Reactor`, `ReactorSessions`). Two cursors, deduplication, readiness, persistence,
  read-your-writes, live updates, retries, stops, crashes and restarts. `EndToEnd` joins
  the runner to each store.
- **The command pipeline** (`Aggregates`, `Snapshots`, `Repository`, `ReplayBound`,
  `Retries`, `Unchecked`, `ProjectionSnapshots`). Snapshot load, event load, conditional
  commit and snapshot offer are separate steps of any number of clients. Histories are
  serial and snapshots are invisible.
- **The storefront saga** (`Products`, `Inventory`, `Shops`, `OrderLines`, `Reactions`,
  `Redelivery`, `Coordinator`). Reactions are loops of commands, cut short anywhere and
  redelivered, with compensation, at once or after other things have happened.

Interleaving is data: state machines take a sequence of steps, methods take a schedule, and
results hold for all of them. What the environment provides is stated, not assumed away:
transaction ids are handed out in increasing order; `pg_snapshot_xmin` is the least running
id, or the next id; positions returned by an insert follow insertion order.

Where the code falls short of a stronger claim, the project says exactly when:

- An unchecked update of any aggregate whose fold loses nothing leaves an exact snapshot if
  and only if nothing was committed between its load and its commit
  (`Unchecked.ExactExactlyWhenNothingIntervened`); `Unchecked.RaceLosesAnEvent` is a race that
  loses an event.
- An update reports `CommandError::Snapshot` if and only if its events were committed, the
  policy was due at the count it offered with, and the storage did not answer
  (`Retries.Shared.Execute`): that error does not mean nothing was appended.
- A position-based projection snapshot on Postgres is invisible to every later load if and
  only if no running transaction holds a matching row at or below it
  (`PostgresPositions.SnapshotStable`, `PostgresPositions.SnapshotStableExactly`);
  `PostgresPositions.OvertakenGoesStale` is a database, reached from the empty one, where a
  load's own snapshot hides an event for good.
- A commit let in by lock and version check keeps its stream in delivery order if and only if
  every visible event of the stream is of an older transaction
  (`PostgresGuesses.InOrderExactlyWhen`). A version that was loaded ensures it
  (`PostgresGuesses.LoadedIsYounger`); a guessed one need not
  (`PostgresGuesses.GuessedVersionReordersDelivery`, reached from the empty database).
- A reaction delivered again after other things have happened leaves the shop alone if and
  only if the shop stands where the reaction would put it
  (`Redelivery.PlacedUntouchedExactlyWhen`, `Redelivery.CapturedUntouchedExactlyWhen`,
  `Redelivery.FailedUntouchedExactlyWhen`), and a restart that repeats a span of reactions
  leaves it alone throughout iff that holds of each (`Redelivery.ReplayHarmlessExactlyWhen`). From the
  empty shop, by an ordinary sale, a repeated `OrderPlaced` cancels a paid order
  (`Redelivery.CancelsPaidOrder`), or a repeated pair of reactions takes an order's stock twice
  (`Redelivery.TakesStockTwice`).
- Runs that place orders with given lines keep stock held right and the read model true if
  and only if lines for one product ask for one quantity (`OrderLines.ConsistentExactlyWhen`);
  a line given twice is charged twice but held once (`Reactions.RepeatedLineHeldOnce`).
- A release or commit keeps the read model in agreement with the aggregate if and only if it
  takes what was reserved, or overshoots the only reservation (`Inventory.AgreementExactlyWhen`).
- The reactor's offer on a graceful stop never stores anything, because every due offer was
  already made after its event (`Reactor.ReactorRunner.Shutdown`).

The coordinator's comments call its reactions idempotent (examples/storefront/src/coordinator.rs:8-10).
The code is followed: that is proved for redelivery with nothing else in between, and the
conditions above say when it holds otherwise.

In `Repository` a conditional commit is one step. In memory the store's write lock makes it
one; on Postgres the row lock does, step by step in `PostgresWriters`. The filters of a
subscription carry no position of their own (`into_event_filters(None)`), and only such
filters are meant where a subscription is modelled.

## Model

| member | source | states |
|---|---|---|
| `EventLog.WindowCut` | sourcery-postgres/src/subscription.rs:206-224 | the first k entries of an interval are the interval up to the k-th checkpoint, so advancing a cursor entry by entry skips nothing |
| `EventLog.LastMatchingIsGreatest` | sourcery-postgres/src/subscription.rs:257-270 | the catch-up target is at or above every matching event of the log, and is itself a matching event's checkpoint |
| `Delivery.FaithfulIsGapFree` | sourcery-core/src/subscription.rs:201-205 | with redeliveries dropped, a faithful stream is exactly the log's matching events from the start point to the last one delivered, in strictly increasing order |
| `Delivery.FrontierIsFinal` | sourcery-core/src/subscription.rs:207-215 | after a frontier, every event delivered for the first time lies strictly above it |
| `Delivery.FaithfulFrozen` | sourcery-core/src/subscription.rs:207-212 | the contract survives any growth of the log that leaves the delivered intervals alone |
| `PostgresDatabase.Xmin` | sourcery-postgres/src/subscription.rs:118-123 | the boundary is the least running transaction id, or the next id when none runs |
| `PostgresDatabase.RunValid` | sourcery-postgres/src/lib.rs:132-139 | in every run, rows carry their transaction's id and increasing positions, and the index is strictly ordered |
| `PostgresDatabase.SettledForever` | sourcery-postgres/src/subscription.rs:18-20 | once no transaction at or below an id is running, none ever is again |
| `PostgresDatabase.SettledFrozen` | sourcery-postgres/src/subscription.rs:112-117 | whatever writers do next, the visible matching events at or below a settled transaction id never change |
| `PostgresDatabase.UnsettledCanSprout` | sourcery-postgres/src/subscription.rs:7-10 | a running transaction can still make a new row visible under its own id, so the gate is not stricter than it must be |
| `PostgresDatabase.RunDistinct` | sourcery-postgres/src/lib.rs:133 | no two rows, committed or pending, ever share a position |
| `PostgresDatabase.InsertExactly` | sourcery-postgres/src/lib.rs:264-282 | an insert adds the event at the next position to its own transaction; with the sequence used up it fails and ends the transaction |
| `PostgresDatabase.AllOrNothing` | sourcery-postgres/src/lib.rs:249-298 | a commit shows every row of its transaction, a rollback none, now and in every continuation |
| `PostgresDatabase.CheckpointForPositionExact` | sourcery-postgres/src/subscription.rs:287-301 | the token of a position is the checkpoint of the event committed there, and none exists otherwise |
| `PostgresSubscription.BatchIsWindowPrefix` | sourcery-postgres/src/subscription.rs:130-156 | a page is exactly the first `BATCH_LIMIT` stable, matching, undelivered events in (xid, position) order |
| `PostgresSubscription.Subscriber.constructor` | sourcery-postgres/src/subscription.rs:172-177 | starts from nothing, or resumes after any checkpoint, even of a transaction still running, with nothing owed below it |
| `PostgresSubscription.Subscriber.Wait` | sourcery-postgres/src/subscription.rs:206-213 | writers acting between two queries change nothing that is stable and undelivered |
| `PostgresSubscription.Subscriber.Yield` | sourcery-postgres/src/subscription.rs:216-219 | the cursor moves to exactly the next undelivered event and the stream keeps the contract |
| `PostgresSubscription.Subscriber.DrainPage` | sourcery-postgres/src/subscription.rs:207-223 | a page shorter than the limit means everything stable has been delivered |
| `PostgresSubscription.Subscriber.Drain` | sourcery-postgres/src/subscription.rs:205-224 | the paging loop ends whatever writers do, with nothing stable below `xmin` left undelivered |
| `PostgresSubscription.Subscriber.Announce` | sourcery-postgres/src/subscription.rs:226-239 | the frontier (xmin - 1, i64::MAX) is yielded only when all matching events below it are delivered |
| `PostgresSubscription.Subscriber.Cycle` | sourcery-postgres/src/subscription.rs:189-239 | one boundary, one drain, one frontier: everything delivered so far is the whole of the log up to the boundary |
| `PostgresSubscription.InStepForever` | sourcery-postgres/src/subscription.rs:24-27 | what has been delivered meets the store contract for every log any continuation reaches |
| `PostgresSubscription.GapFreeDelivery` | sourcery-postgres/src/subscription.rs:130-231 | in every continuation, delivered events are strictly increasing and committed, and every matching event in (from, cursor] that has committed by then was delivered exactly once |
| `PostgresSubscription.FrontierSoundForever` | sourcery-postgres/src/subscription.rs:226-239 | no continuation shows a matching event at or below a yielded frontier that was not delivered before it |
| `PostgresSubscription.BoundaryCoversCommits` | sourcery-postgres/src/subscription.rs:226-239 | a committed write is at or below the frontier exactly when its transaction is below `xmin`, matched or not |
| `PostgresSubscription.LatestCoversAll` | sourcery-postgres/src/subscription.rs:272-285 | the global token is the checkpoint of a committed event and covers every earlier commit |
| `PostgresSubscription.DeliveredResumes` | sourcery-postgres/src/subscription.rs:166-177 | any delivered checkpoint may be resumed from, in every continuation |
| `PostgresWriters.LoadVersionIsVersion` | sourcery-core/src/repository.rs:830-851 | the version a replay ends at is the greatest visible position of the stream |
| `PostgresWriters.WritersKeepStreamsInOrder` | sourcery-postgres/src/lib.rs:388-454 | for every interleaving of optimistic writers, `last_position` is the greatest committed position of its stream, and position order and (xid, position) order agree within a stream |
| `PostgresWriters.CommitSound` | sourcery-postgres/src/lib.rs:249-298 | the append and the `last_position` update under the row lock keep that |
| `PostgresWriters.RowsFollow` | sourcery-postgres/src/lib.rs:413-446 | a committing writer's rows come after every visible row of its stream in both orders |
| `PostgresWriters.DeliveryReplaysStreams` | sourcery-postgres/src/subscription.rs:141-152 | delivery in (xid, position) order replays each stream in position order |
| `PostgresWriters.WritersRunTheDatabase` | sourcery-postgres/src/lib.rs:388-454 | every run of writers is a run of the database, so what holds for every run of it holds for them; and no transaction is left running, and no row locked, that no writer is in |
| `PostgresProgress.EveryRunIsTidy` | sourcery-postgres/src/lib.rs:388-454 | for every interleaving of writers, exactly the transactions of writers inside one are running, and exactly the streams of writers past their check are locked: a conflict, an error or a crash ends both |
| `PostgresProgress.NothingLeftRunning` | sourcery-postgres/src/lib.rs:388-454 | so with no writer inside a transaction nothing runs, `xmin` is the next id, and every commit is below it |
| `PostgresProgress.DeliverAll` | sourcery-postgres/src/subscription.rs:189-239 | then one cycle of any subscriber brings delivery to exactly the matching events past its start that were committed when it began, each once, whatever writers do meanwhile |
| `PostgresProgress.LockExactly` | sourcery-postgres/src/lib.rs:413-446 | a writer waits while the row is locked; else it gets the row exactly when nothing was committed to its stream since it loaded, and otherwise its transaction is gone and nothing else changed |
| `PostgresProgress.GivesUp` | sourcery-postgres/src/lib.rs:401-446 | a writer that gives up anywhere leaves neither transaction nor lock, and nothing it wrote is ever seen |
| `PostgresProgress.CommandGoesThrough` | sourcery-postgres/src/lib.rs:388-454 | an undisturbed command, in every reachable state with positions left, makes its events visible in order at the next positions, sets `last_position`, and leaves nothing behind |
| `PostgresGuesses.InOrderExactlyWhen` | sourcery-postgres/src/lib.rs:413-446 | for any database and any transaction about to commit rows positioned after all visible rows of their stream: streams stay in delivery order iff every visible event of the stream is of an older transaction |
| `PostgresGuesses.LoadedIsYounger` | sourcery-postgres/src/lib.rs:388-412 | a writer that loaded its version before opening its transaction always meets that condition |
| `PostgresGuesses.LoadedVersionConflicts` | sourcery-postgres/src/lib.rs:427-438 | an overtaken writer that presents what it loaded meets a conflict: its transaction is over, no lock is held, and `xmin` moves past every commit |
| `PostgresGuesses.GuessedVersionReordersDelivery` | sourcery-postgres/src/lib.rs:427-446 | presenting a version it cannot have read, the same writer passes lock and check, and the later event is delivered first |
| `PostgresGuesses.OvertakenReached` | sourcery-postgres/src/lib.rs:388-454 | how that state comes about: two open writers, of which the younger transaction commits first |
| `PostgresGuesses.BothOpenReached` | sourcery-postgres/src/lib.rs:388-454 | and how those two come about from the empty database |
| `PostgresLoading.LoadEvents` | sourcery-postgres/src/lib.rs:458-508 | the union of the filters' rows, each once, by position; an error exactly when some filter has a negative position |
| `PostgresLoading.OrderDecides` | sourcery-postgres/src/lib.rs:472-479 | the rows to include and the order by position determine the result |
| `PostgresLoading.LoadedRows` | sourcery-postgres/src/lib.rs:458-508 | so what a load returns is a function of the committed table |
| `PostgresLoading.LoadReplaysStream` | sourcery-postgres/src/lib.rs:504 | loading a stream gives its events in commit order, in every reachable state of optimistic writers |
| `PostgresPositions.ScratchSplits` | sourcery-core/src/repository.rs:1311-1321 | a load from scratch is what a snapshot taken now would hold, then a load of the rows past it |
| `PostgresPositions.LoadOffersSnapshot` | sourcery-core/src/repository.rs:1323-1338 | what a load offers is such a snapshot, at the last row it read |
| `PostgresPositions.SnapshotStable` | sourcery-core/src/repository.rs:1298-1342 | for every projection: with no running transaction holding a matching row at or below it, loading through the snapshot gives what loading from scratch gives, in every continuation |
| `PostgresPositions.SnapshotStableExactly` | sourcery-core/src/repository.rs:1298-1342 | and under no weaker condition: the snapshot of the journal of positions stays good in every continuation iff no running transaction holds a matching row at or below it |
| `PostgresPositions.OvertakenGoesStale` | sourcery-core/src/repository.rs:1298-1342 | a load snapshots [2]; once the older transaction commits, loads through that snapshot return [2] where a load from scratch returns [1, 2] |
| `PostgresPositions.OvertakenReached` | sourcery-postgres/src/lib.rs:388-454 | that database is reached from the empty one by two interleaved transactions |
| `MemoryStore.Store.AssignPositions` | sourcery-core/src/store/inmemory.rs:414-430 | staged events get consecutive positions from the counter |
| `MemoryStore.Store.CommitStaged` | sourcery-core/src/store/inmemory.rs:403-435 | a commit appends its stamped batch to the one log that the map and the counter stand for |
| `MemoryStore.StampRoundTrip` | sourcery-core/src/store/inmemory.rs:414-430 | stamping loses nothing: kinds and payloads come back in order, on the stream and at the positions given |
| `MemoryStore.CommitReadsBack` | sourcery-core/src/store/inmemory.rs:403-435 | after a commit, its stream reads as before and then the batch, and every other stream reads as before |
| `MemoryStore.Store.VersionIsLast` | sourcery-core/src/store/inmemory.rs:123-139 | the version is the greatest position of the stream, and none exactly for a stream without events |
| `MemoryStore.Store.CommitEvents` | sourcery-core/src/store/inmemory.rs:141-168 | an unchecked commit always appends |
| `MemoryStore.Store.CommitEventsOptimistic` | sourcery-core/src/store/inmemory.rs:171-237 | commits exactly when the stream is at the expected version; a conflict reports both versions and changes nothing |
| `MemoryStore.Store.LoadMatchingEvents` | sourcery-core/src/store/inmemory.rs:438-464 | over any overlapping filters, the global log filtered by their disjunction, in order and without duplicates |
| `MemoryStore.Store.LatestCheckpoint` | sourcery-core/src/store/inmemory.rs:355-364 | the greatest committed position, `None` exactly when the store is empty |
| `MemoryStore.Store.CheckpointForPosition` | sourcery-core/src/store/inmemory.rs:366-378 | a position is a token exactly when an event is committed at it |
| `MemoryStore.Store.StreamsPartitionPositions` | sourcery-core/src/store/inmemory.rs:403-435 | the streams partition the positions handed out, each strictly increasing |
| `MemorySubscription.NoLostWakeups` | sourcery-core/src/store/inmemory.rs:289-336 | parked with nothing pending and all committers notified, the subscriber has yielded every matching event past `from` once, in order, and a frontier at the head |
| `MemorySubscription.RunSound` | sourcery-core/src/store/inmemory.rs:309-336 | every step of committers, channel and subscriber keeps delivery in line with the log and some wake-up coming |
| `MemorySubscription.FaithfulForever` | sourcery-core/src/store/inmemory.rs:280-338 | the in-memory stream meets the store contract for every log any continuation reaches |
| `MemorySubscription.DrainIsWindow` | sourcery-core/src/store/inmemory.rs:300-307 | a drain of the store is the window of its log below the head |
| `MemorySubscription.AppendIsCommit` | sourcery-core/src/store/inmemory.rs:403-435 | what the subscription sees appended is what the store commits, event for event |
| `MemoryProgress.NotificationWakes` | sourcery-core/src/store/inmemory.rs:329-336 | any pending notification, or the notice that some were dropped, wakes a waiting subscriber |
| `MemoryProgress.DeliversEverything` | sourcery-core/src/store/inmemory.rs:309-336 | from any reachable state with all notifications sent, however many were dropped, the subscriber left to itself comes to rest with every matching event delivered once, in order, and a frontier at the head |
| `Filters.MatchesAfter` | sourcery-core/src/projection.rs:363-374 | positioned filters select what the plain ones do, past the position |
| `Filters.ForEventSelects` | sourcery-core/src/store.rs:99-106 | a filter for a kind selects exactly the events of that kind |
| `Filters.AggregateFiltersSelect` | sourcery-core/src/repository.rs:171-193 | the filters of an aggregate select exactly its stream's events of its kinds, past the position |
| `Filters.SelectUnion` | sourcery-postgres/src/lib.rs:468-504 | filters together select what some of them does |
| `Filters.Builder.PushDomainEvent` | sourcery-core/src/projection.rs:257-271 | one more spec; the last handler registered for a kind is the one in force |
| `Filters.Builder.PushProjectionEvent` | sourcery-core/src/projection.rs:275-297 | one registration per kind of the sum type, in order |
| `Filters.Builder.IntoEventFilters` | sourcery-core/src/projection.rs:364-374 | every spec gets the load position |
| `Filters.Builder.SelectedIsHandled` | sourcery-core/src/projection.rs:257-297 | whatever the filters let through has a handler, and every handler's kind is asked for |
| `Cursors.AfterFrontier` | sourcery-core/src/subscription.rs:851-856 | a frontier moves global progress alone, and still no matching event lies between the two cursors |
| `Cursors.AfterRedelivery` | sourcery-core/src/subscription.rs:858-864 | an event at or below the last checkpoint is a redelivery and moves nothing |
| `Cursors.AfterEvent` | sourcery-core/src/subscription.rs:866-880 | a new event is the log's next matching event and both cursors move to it |
| `Cursors.TokenCovered` | sourcery-core/src/subscription.rs:545-577 | once progress is at or past a token, all matching events up to the token are among those up to the last checkpoint |
| `Cursors.CaughtUpCovers` | sourcery-core/src/subscription.rs:678-689 | a cursor at the catch-up target has every matching event that was visible when the target was read, for any resume point |
| `Projections.ReplayConcat` | sourcery-core/src/repository.rs:264-288 | replaying a concatenation is replaying one part after the other |
| `Projections.ReplayOne` | sourcery-core/src/repository.rs:276-285 | an event without a handler leaves the state alone; one with a handler makes of it what the handler does, or fails when that fails |
| `Runner.ProjectionRunner.constructor` | sourcery-core/src/subscription.rs:641-712 | resumes from a loadable snapshot, else from the initial state, with both cursors at the resume point |
| `Runner.ProjectionRunner.OnEvent` | sourcery-core/src/subscription.rs:925-961 | publishes and broadcasts the next fold atomically; fails exactly when the kind's handler cannot decode the event, and then changes nothing |
| `Runner.ProjectionRunner.AdvanceObserved` | sourcery-core/src/subscription.rs:1009-1020 | published progress is the maximum seen and never moves back |
| `Runner.ProjectionRunner.MaintainSnapshot` | sourcery-core/src/subscription.rs:1069-1094 | the durable pair stays a real event with the fold up to it; the pending count restarts only when stored |
| `Runner.ProjectionRunner.HandleDelivery` | sourcery-core/src/subscription.rs:844-891 | every item leaves state, cursors, readers and durable pair consistent with the log; progress is the maximum seen; only a new event whose handler cannot decode it fails; caught up exactly when the cursor is at the target |
| `Runner.ProjectionRunner.HandleEvent` | sourcery-core/src/subscription.rs:866-890 | event, then last checkpoint, then persistence, then progress, then readiness; fails exactly when the event does not decode |
| `Runner.ProjectionRunner.Shutdown` | sourcery-core/src/subscription.rs:980-995 | a graceful stop makes the pending offer, keeps the durable pair right and never moves it back; if due and the storage answers, the durable position is at or past the last event |
| `Runner.ProjectionRunner.Updates` | sourcery-core/src/subscription.rs:496-508 | snapshot and place in the stream are taken together |
| `Runner.ProjectionRunner.UpdatesBoundary` | sourcery-core/src/subscription.rs:474-508 | whoever attaches whenever: the snapshot is the state after k events, the stream exactly the states after k+1, k+2, ... |
| `Runner.ProjectionRunner.Detach` | sourcery-core/src/subscription.rs:952-956 | a consumer that goes away leaves state, broadcast history and every other consumer as they were |
| `Runner.ProjectionRunner.ReadAfter` | sourcery-core/src/subscription.rs:532-577 | returns exactly when progress has reached the token; the state is one replay of a prefix of the log holding every matching event up to the token |
| `Sessions.Consume` | sourcery-core/src/subscription.rs:811-836 | the runner's loop over a stream keeps all of that; it handles every item exactly when the replay of what they deliver decodes, and progress is then the furthest item |
| `Sessions.RunSession` | sourcery-core/src/subscription.rs:798-839 | wherever a session ends, its projection is one uninterrupted fold; ready exactly when the target is covered; if the events decode, everything taken from the store is applied |
| `Sessions.RunSessions` | sourcery-core/src/subscription.rs:1026-1094 | over any runs and crashes, the persisted pair is a matching event's checkpoint with the fold up to it, never a frontier, never moving back; with nothing in the way it is past all that the last session took |
| `Sessions.ReadyHasFolded` | sourcery-core/src/subscription.rs:641-712 | when `start` returns, everything its store showed is in the fold, for any store that honours the contract |
| `Sessions.ReadyOnceReached` | sourcery-core/src/subscription.rs:882-890 | and it returns as soon as anything at or past that target has been delivered |
| `EndToEnd.PostgresRead` | sourcery-core/src/subscription.rs:532-577 | on Postgres, for any subscriber state, any durable snapshot at its start, any token and whatever writers do next: a state is returned exactly when what was delivered decodes and has reached the token, and it is one replay of a prefix of the log with every matching event up to the token that ever commits |
| `EndToEnd.PostgresReadYourWrite` | sourcery-core/src/subscription.rs:532-543 | after one more cycle, of any subscriber, whose `xmin` is past the write, reading with its token returns exactly the replay of every matching event up to the boundary, the write included, or nothing exactly when that does not decode |
| `EndToEnd.DurableForever` | sourcery-core/src/subscription.rs:1026-1094 | a durable snapshot at a settled transaction stays the fold of the log up to it, in every continuation |
| `EndToEnd.PostgresHonoursContract` | sourcery-core/src/subscription.rs:190-215 | Postgres meets the store contract for subscribers starting anywhere, for every log any continuation reaches |
| `EndToEnd.MemoryRead` | sourcery-core/src/subscription.rs:532-577 | in memory, for any reachable state of log, channel and subscriber, resumed or fresh, any token and any later commits: the same |
| `EndToEnd.MemoryReadYourWrite` | sourcery-core/src/subscription.rs:532-543 | run from any such state until the subscriber waits with nothing pending, reading with any token returns exactly the replay of the whole log, or nothing exactly when that does not decode |
| `EndToEnd.MemoryHonoursContract` | sourcery-core/src/subscription.rs:190-215 | the in-memory store meets the contract for subscribers starting anywhere and for every later log |
| `Snapshots.SnapshotStore.OfferSnapshot` | sourcery-core/src/snapshot/inmemory.rs:217-265 | stores exactly when the policy is due and the offer is strictly ahead; a failed or declined offer changes nothing |
| `Snapshots.DueExactlyWhen` | sourcery-core/src/snapshot/inmemory.rs:69-75 | a policy is due exactly once as many events as its span have gathered; `never` never is |
| `Reactor.ReactorRunner.constructor` | sourcery-core/src/reactor.rs:411-453 | starts from the persisted checkpoint with every invariant in place |
| `Reactor.ReactorRunner.OnEvent` | sourcery-core/src/reactor.rs:561-606 | completed exactly when an attempt succeeds with all before it retryable and within the retries; stopped exactly when told to during a back-off; a retryable failure is fatal exactly when the retries are used up; each wait is the policy's delay |
| `Reactor.ReactorRunner.Persist` | sourcery-core/src/reactor.rs:608-631 | counts the event, stores when due and strictly ahead, restarts the count only then, fails exactly when due and unavailable |
| `Reactor.ReactorRunner.OfferCheckpoint` | sourcery-core/src/reactor.rs:673-706 | no offer with nothing pending; otherwise as the policy says |
| `Reactor.ReactorRunner.HandleDelivery` | sourcery-core/src/subscription.rs:844-891 | whatever happens in a delivery, what is durable stays recoverable: nothing below it skipped, at most a span of reactions past it; frontiers and redeliveries always pass, a new event exactly when its reaction and a due checkpoint do |
| `Reactor.ReactorRunner.HandleEvent` | sourcery-core/src/reactor.rs:561-631 | the same through reaction, crash before persistence, failed persistence and stop, each exactly when it happens |
| `Reactor.ReactorRunner.WaitFor` | sourcery-core/src/reactor.rs:519-531 | a token is reached exactly when progress covers it, and then every event up to it has had its reaction |
| `Reactor.ReactorRunner.Shutdown` | sourcery-core/src/reactor.rs:633-650 | the final offer is never due: it succeeds and leaves the persisted checkpoint as it was |
| `Reactor.BackoffGrowsToMax` | sourcery-core/src/reactor.rs:133-139 | back-off starts at the initial delay, never shortens and never passes the maximum |
| `Reactor.BackoffDoubles` | sourcery-core/src/reactor.rs:133-139 | while 32 bits suffice, each delay is twice the one before, or the maximum if that is less |
| `Reactor.BackoffTops` | sourcery-core/src/reactor.rs:133-139 | from then on the delay is one and the same |
| `ReactorSessions.RunSession` | sourcery-core/src/subscription.rs:798-839 | one session of any shape keeps the reactor's guarantees; readiness means every reaction up to the target has succeeded; if every reaction gets there, all events taken from the store have reacted and readiness is exact |
| `ReactorSessions.ReadyHasReacted` | sourcery-core/src/reactor.rs:427-437 | when `start` returns, every handled event its store showed has had its reaction |
| `ReactorSessions.RunSessions` | sourcery-core/src/reactor.rs:52-56 | across any stops, failures and crashes: every matching event at or below the persisted checkpoint reacted or has no handler, and with `every(n)` at most n reactions are repeated on restart; if every reaction gets there, all that the last session took has reacted |
| `Aggregates.ApplyStoredEvents` | sourcery-core/src/repository.rs:196-216 | fails exactly when some event does not decode; else the fold of the decoded events from the base state, with the last position |
| `Aggregates.CreateFromStoredEvents` | sourcery-core/src/repository.rs:222-245 | fails exactly when some event does not decode; else nothing for an empty stream, or the fold that starts with the creation event, with the last position |
| `Aggregates.CreateFromNewEvents` | sourcery-core/src/repository.rs:248-261 | the state of a new aggregate is the fold of its creation batch |
| `Repository.Load` | sourcery-core/src/repository.rs:807-853 | fails exactly when an event past the snapshot does not decode; on a stream that decodes, the loading code computes the loading function used in every result about loads |
| `Repository.LoadIsReplay` | sourcery-core/src/repository.rs:807-853 | through any exact snapshot, loading gives the state and the version of a full replay |
| `Repository.ActSound` | sourcery-core/src/repository.rs:902-987 | every step of every optimistic client keeps history serial and all snapshots, stored or in flight, exact |
| `Repository.EveryRunIsSerial` | sourcery-core/src/repository.rs:805-987 | under any interleaving, each batch is its command handled on exactly the preceding events, or a creation batch at the head; every stored snapshot is the fold of its stream up to its position |
| `Repository.InvariantAfterEveryCommit` | sourcery-core/src/repository.rs:1129-1156 | what creation establishes and handling keeps holds after every commit of a serial history |
| `Repository.InvariantInEveryRun` | sourcery-core/src/repository.rs:902-987 | so domain invariants hold in every reachable state |
| `Repository.LoadedVersionIsEnough` | sourcery-core/src/repository.rs:974-986 | a commit that lands on the version it loaded prepares an exact snapshot, under either strategy |
| `Repository.CommitsExactlyWhen` | sourcery-core/src/repository.rs:915-987 | a creation commits exactly on an empty stream, an unchecked update always, a checked one exactly when nothing was committed since its load; a commit appends the prepared events, a conflict changes nothing |
| `Repository.GivesUp` | sourcery-core/src/repository.rs:1111-1156 | a client that gives up or dies anywhere leaves stream and snapshots as they were |
| `ReplayBound.ReplayIsBounded` | sourcery-core/src/repository.rs:835-851 | with `every(n)` and once all offers have run, fewer than n events lie past the stored snapshot |
| `ReplayBound.ActBounded` | sourcery-core/src/repository.rs:915-974 | each step keeps the bound, or leaves the head's own offer pending with a count that covers the excess |
| `Retries.Shared.Execute` | sourcery-core/src/repository.rs:1027-1265 | `create`, `update` and `upsert`, one attempt: the stream loaded, the stream met at commit and the storage decide the outcome; events are committed exactly when the creation meets an empty stream, or the update the very stream it was handled on, and then stand right after it; a conflict means somebody else has committed; a snapshot error is reported iff the batch was appended, the policy was due at the count, and the storage did not answer |
| `Retries.Shared.LoadFor` | sourcery-core/src/repository.rs:807-853 | the aggregate handled is the fold of the stream as it is when its events are read, through any stored snapshot, with its version and the count of events past that snapshot; creation loads nothing |
| `Retries.Shared.Finalize` | sourcery-core/src/repository.rs:863-987 | the commit succeeds exactly when the stream it meets is at the expected version; after it the snapshot offer fails iff it was due and the storage did not answer |
| `Retries.Shared.UpdateWithRetry` | sourcery-core/src/repository.rs:1699-1713 | at most `max_retries + 1` attempts and at most one batch, whatever others do; each conflict means somebody else committed, and one surfaces only when attempts run out; left alone the first attempt decides; the last attempt is explained as above |
| `Unchecked.ExactExactlyWhenNothingIntervened` | sourcery-core/src/repository.rs:360-389 | for every aggregate whose fold is injective, an unchecked update's snapshot is exact iff nothing was committed since its load |
| `Unchecked.JournalInjective` | sourcery-core/src/repository.rs:360-389 | the journal aggregate of the race below is one of these |
| `Unchecked.BothLoadVersionZero` | sourcery-core/src/repository.rs:1129-1156 | two concurrent updates load the same version |
| `Unchecked.FirstCommits` | sourcery-core/src/repository.rs:366-388 | the first of them appends |
| `Unchecked.RaceLosesAnEvent` | sourcery-core/src/repository.rs:366-388 | the second appends as well, and its stored snapshot misses the first one's event |
| `ProjectionSnapshots.PositionedWindow` | sourcery-core/src/repository.rs:1314-1321 | events loaded through filters positioned after the snapshot are exactly those past it |
| `ProjectionSnapshots.LoadIsFromScratch` | sourcery-core/src/repository.rs:1311-1338 | a load from an exact snapshot returns, and offers, what a load from scratch computes |
| `ProjectionSnapshots.LoadGoesThrough` | sourcery-core/src/repository.rs:1298-1342 | an undisturbed load returns what a load from scratch gives, fails to decode exactly when that does, and offers its result with the number of events it replayed |
| `ProjectionSnapshots.EveryLoadIsFromScratch` | sourcery-core/src/repository.rs:1298-1342 | under any interleaving of loaders and committers in memory, every load returns the from-scratch fold of the log it read, and fails to decode exactly when that fails |
| `Products.Product.ReservedTotal` | examples/storefront/src/domain/product.rs:129-131 | the sum of all reservations |
| `Products.TotalRemove` | examples/storefront/src/domain/product.rs:129-131 | that sum does not depend on the order of summing |
| `Products.AfterCovered` | examples/storefront/src/domain/product.rs:288-350 | every command keeps reservations within the stock on hand, if a commit takes no more than was reserved |
| `Products.Product.Execute` | examples/storefront/src/domain/product.rs:272-350 | handling a command and applying its event in place keeps reservations within stock; a rejection changes nothing |
| `Products.RejectedExactlyWhen` | examples/storefront/src/domain/product.rs:272-350 | zero quantities are rejected, and a reservation when it is new and does not fit with all others; nothing else is |
| `Products.StockMoves` | examples/storefront/src/domain/product.rs:166-214 | reserving moves free stock to the order, all of it or none; releasing moves it back; committing takes exactly the held stock off the shelf and leaves free stock alone; free and held always add up to stock on hand |
| `Products.ReserveThenRelease` | examples/storefront/src/domain/product.rs:288-330 | reserving and releasing, accepted or not, gives back the very same state |
| `Products.AgainIsNothing` | examples/storefront/src/domain/product.rs:288-350 | a reserve, release or commit handled again changes nothing |
| `Inventory.InventoryAvailability.ApplyProjection` | examples/storefront/src/projections.rs:82-146 | the read model is the fold of the product events seen |
| `Inventory.ViewRows` | examples/storefront/src/projections.rs:82-146 | a product has a row exactly when it has an event, under the name it was last listed with |
| `Inventory.AgreementKept` | examples/storefront/src/projections.rs:82-146 | each event a command yields keeps the read model equal to the aggregate's stock and reserved sum |
| `Inventory.AgreementExactlyWhen` | examples/storefront/src/projections.rs:125-146 | a release or commit keeps them equal iff it takes the reserved quantity, or overshoots the only reservation |
| `Shops.ExecuteSound` | examples/storefront/src/domain/product.rs:256-350 | each command keeps reservations equal to their order lines and within stock, and the read model right |
| `Shops.EveryRunIsSound` | examples/storefront/src/domain/product.rs:128-214 | no oversell: in every reachable state each reservation is its order line's quantity, their sum fits the stock on hand, and the read model reports both exactly; orders may repeat a product at one quantity |
| `Shops.LifeCycles` | examples/storefront/src/domain/order.rs:207-275 | orders and payments move only along their life cycles, start in the first state, and payments keep their amount |
| `Shops.OrderCommands` | examples/storefront/src/domain/order.rs:207-275 | which order commands are accepted and what each does, exactly: nothing else changes, and a refusal changes nothing |
| `Shops.PaymentCommands` | examples/storefront/src/domain/payment.rs:215-309 | the same for payments |
| `Shops.StockCommandReply` | examples/storefront/src/domain/product.rs:272-350 | a stock command changes its own product alone; short exactly when a new reservation does not fit |
| `Shops.ListCommand` | examples/storefront/src/domain/product.rs:256-270 | a product is listed once, with its stock and price and nothing reserved |
| `Shops.SettledForever` | examples/storefront/src/domain/payment.rs:242-309 | shipped and cancelled orders, refunded and failed payments never change again |
| `OrderLines.ConsistentExactlyWhen` | examples/storefront/src/domain/order.rs:207-220 | for any lines: every run placing only such orders ends with stock held right and the read model true, iff lines for one product ask for one quantity |
| `OrderLines.InconsistentBreaks` | examples/storefront/src/projections.rs:125-146 | for any other lines, a run from the empty shop that breaks it |
| `OrderLines.MismatchLosesStock` | examples/storefront/src/coordinator.rs:284-299 | with lines of 0 and 5 for one product, committing drops the reservation without taking stock, and the read model still counts it |
| `OrderLines.MismatchedReached` | examples/storefront/src/domain/order.rs:207-220 | that shop is reached from the empty one |
| `Reactions.PlacedAllOrNothing` | examples/storefront/src/coordinator.rs:194-253 | every line ends held, or no earlier line does and the order is cancelled; stock on hand is untouched |
| `Reactions.PlacedAsksPayment` | examples/storefront/src/coordinator.rs:229-252 | with every line held, payment is authorised once, for the total, if there is anything to pay |
| `Reactions.PriceOfLine` | examples/storefront/src/coordinator.rs:103-117 | a line costs its quantity at its own product's price, and has no price exactly when that product is missing |
| `Reactions.PriceConcat` | examples/storefront/src/coordinator.rs:103-117 | the total is the sum over the parts, and missing exactly when that of a part is |
| `Reactions.PriceAnyOrder` | examples/storefront/src/coordinator.rs:103-117 | so it does not depend on the order of the lines |
| `Reactions.CapturedTakesStock` | examples/storefront/src/coordinator.rs:276-299 | exactly the reserved quantity leaves the shelf, and the reservation with it; a placed order is confirmed, payments stay |
| `Reactions.FailedGivesBack` | examples/storefront/src/coordinator.rs:325-329 | nothing stays reserved for the order, stock on hand is untouched, and the order is cancelled |
| `Reactions.ReactionsLeaveOthers` | examples/storefront/src/coordinator.rs:194-331 | no reaction touches another order's reservations, any price, a product its lines do not name, or another order or payment |
| `Reactions.PlacedConverges` | examples/storefront/src/coordinator.rs:194-253 | `OrderPlaced` cut short anywhere and redelivered ends in the state of one delivery, compensation included |
| `Reactions.PlacedIdempotent` | examples/storefront/src/coordinator.rs:194-253 | delivering `OrderPlaced` twice leaves products, orders and payments as once |
| `Reactions.PlacedComposes` | examples/storefront/src/coordinator.rs:194-253 | any number of interrupted deliveries stay on the way to that same state |
| `Reactions.CapturedConverges` | examples/storefront/src/coordinator.rs:266-301 | the same for `PaymentCaptured` cut short |
| `Reactions.CapturedIdempotent` | examples/storefront/src/coordinator.rs:266-301 | delivering `PaymentCaptured` twice is delivering it once |
| `Reactions.CapturedComposes` | examples/storefront/src/coordinator.rs:266-301 | any number of interrupted deliveries of `PaymentCaptured` stay on the way to that same state |
| `Reactions.FailedConverges` | examples/storefront/src/coordinator.rs:315-331 | the same for `PaymentFailed` cut short |
| `Reactions.FailedIdempotent` | examples/storefront/src/coordinator.rs:315-331 | delivering `PaymentFailed` twice is delivering it once |
| `Reactions.FailedComposes` | examples/storefront/src/coordinator.rs:315-331 | any number of interrupted deliveries of `PaymentFailed` stay on the way to that same state |
| `Reactions.RepeatedLineHeldOnce` | examples/storefront/src/coordinator.rs:103-117 | a line given twice is charged twice but held once |
| `Redelivery.PlacedUntouchedExactlyWhen` | examples/storefront/src/coordinator.rs:194-253 | whatever happened in between, a redelivered `OrderPlaced` leaves products, orders and payments alone iff every line stands where the reaction would put it, no open order is there to cancel, and no payment to ask for |
| `Redelivery.CapturedUntouchedExactlyWhen` | examples/storefront/src/coordinator.rs:266-301 | a redelivered `PaymentCaptured` leaves them alone iff the order is not waiting and none of its lines is held |
| `Redelivery.FailedUntouchedExactlyWhen` | examples/storefront/src/coordinator.rs:315-331 | a redelivered `PaymentFailed` leaves them alone iff the order is no longer open |
| `Redelivery.ReplayHarmlessExactlyWhen` | sourcery-core/src/reactor.rs:52-56 | repeating a span of reactions leaves the shop alone throughout iff each of them stands |
| `Redelivery.JustDoneStands` | sourcery-core/src/reactor.rs:52-56 | so repeating only the last reaction, all that an `always` policy allows, is harmless |
| `Redelivery.ShippedStockNeverStands` | examples/storefront/src/coordinator.rs:194-253 | the `OrderPlaced` of a confirmed order whose stock has left the shelf never stands |
| `Redelivery.SoldReached` | examples/storefront/src/coordinator.rs:194-302 | an ordinary sale from the empty shop reaches such a state |
| `Redelivery.CancelsPaidOrder` | examples/storefront/src/coordinator.rs:217-224 | from there, with the last stock sold, a repeated `OrderPlaced` cancels the order while its payment stays captured |
| `Redelivery.TakesStockTwice` | examples/storefront/src/coordinator.rs:194-302 | and with stock left, repeating `OrderPlaced` and `PaymentCaptured` takes the order's quantity a second time |
| `Coordinator.FulfillmentCoordinator.Issue` | examples/storefront/src/coordinator.rs:65-80 | one command among others' commands keeps every invariant and is exactly that command on the shop it meets; it fails to be issued only when cut short |
| `Coordinator.FulfillmentCoordinator.ForEachLine` | examples/storefront/src/coordinator.rs:120-143 | the loop over lines is one command per line, each on its own product |
| `Coordinator.FulfillmentCoordinator.OnOrderPlaced` | examples/storefront/src/coordinator.rs:194-253 | under any interference the invariants hold wherever it stops, and it stops early only when cut short within twice its lines; undisturbed, it ends in the specified state or stops on the way to it, and fails for good exactly when a product is missing |
| `Coordinator.FulfillmentCoordinator.Compensate` | examples/storefront/src/coordinator.rs:217-224 | releases exactly what was reserved, then cancels |
| `Coordinator.FulfillmentCoordinator.AuthorizePayment` | examples/storefront/src/coordinator.rs:229-252 | authorises the catalogue total once, unless a payment exists, the total is zero or a product is missing |
| `Coordinator.FulfillmentCoordinator.PriceOrder` | examples/storefront/src/coordinator.rs:103-117 | the order total at catalogue prices, an error when a product is missing |
| `Coordinator.FulfillmentCoordinator.OnPaymentCaptured` | examples/storefront/src/coordinator.rs:258-302 | as `OnOrderPlaced`, for confirming and committing |
| `Coordinator.FulfillmentCoordinator.OnPaymentFailed` | examples/storefront/src/coordinator.rs:306-332 | as `OnOrderPlaced`, for releasing and cancelling |
| `Coordinator.FulfillmentCoordinator.DeliverPlaced` | examples/storefront/src/coordinator.rs:194-253 | attempts cut short anywhere, then one that gets through: the shop ends as one undisturbed reaction leaves it; one attempt with room for its commands gets through |
| `Coordinator.FulfillmentCoordinator.DeliverCaptured` | examples/storefront/src/coordinator.rs:266-301 | the same for `PaymentCaptured` |
| `Coordinator.FulfillmentCoordinator.DeliverFailed` | examples/storefront/src/coordinator.rs:315-331 | the same for `PaymentFailed` |

## Left out

- SQL text, connections, serde and tracing: tables are maps and sequences, an event's data is an opaque value.
- Timers, polling and NOTIFY: progress is stated as safety, for example after a cycle whose `xmin` is past the token. The tokio runtime appears only as the points where steps interleave.
- The end of a subscription task as readers see it (`AwaitError::SubscriptionStopped`), and a notification channel closed because its store is gone.
- Store errors inside a subscription stream: they end a session, which the models of sessions cover by cutting it anywhere.
- Integer widths, except i64::MAX for positions and frontiers, the 32-bit multiplier and the longest `Duration` of the back-off: counters, stock and money are unbounded naturals.
- A live consumer that falls behind the update channel's capacity: it skips states and is not covered by `Runner.ProjectionRunner.UpdatesBoundary`.
- Unchecked commits racing on Postgres: `last_position` need not be the maximum then, because the insert takes no row lock first.
- Snapshots of aggregates in the storefront: its commands act on the replayed state, which `Repository.LoadIsReplay` shows to be the same.
- A command that meets an event that does not decode: it ends before it commits anything (`Repository.Load`), so the interleavings of `Repository` and `Retries` are over streams that decode.
- Reservations issued by anyone but the coordinator, and orders asking for different quantities of one product: excluded from `Shops.EveryRunIsSound`, the latter by the exact condition above.
- Two reactor instances sharing one checkpoint id: the bound on repeated reactions is for one instance.
- Metadata, causation, tracked commands, the macros, the test framework, benches, error display, the other projections and the smaller examples: plumbing, or easy members.
