# Verification of the inventory service's reliability core

A Dafny model of how the inventory service takes and ends seat holds without losing or repeating
anything: event-sourced seats under optimistic concurrency, an inbox and an outbox committed with
the events, durable timers, a poller that publishes the outbox, an offset-marking consumer with
retries and dead letters, and a browsing view re-derived from the streams.

`dafny verify dfyconfig.toml` checks everything. Nothing here is executed.

## How it is built

Everything shared is a state machine. `Engine` holds the committed tables (events, inbox, outbox,
timers) and every transaction in flight; a run is a list of actions, each one statement of one
transaction, seeing what is committed when it runs. Uncommitted rows on a unique key make a second
insert wait; sequence numbers are drawn at insert and never given back; a commit is one step. Next
to the tables the machine keeps history (whole streams, which timer belongs to which hold, which
row announces which event, who caused what, the commits in order), and `Invariants` ties tables and
history together. `CommitStep` and `Runs` prove that every action keeps that invariant;
`Guarantees` reads the promises off it. `Relay` and `RelayOrder` put the outbox pollers and the
log beside the database, `ViewRuns` the projections and rebuilds of `seat_availability`,
`Browsing` both of them over one database, and `Group` a consumer group: members, their batches,
stalls, marks and commits, failing dead letters, shutdowns, crashes and reassignments.

The service's own loops are methods of classes over those machines: `Postgres.Database` (one
method a statement), `Handlers`, `Schedulers`, `Poller.Poller`, `Projector.Projector` and
`Consumer.Consumer`. Every method is proved to make only steps of its machine, so every invariant
of the machine holds of it. Between two statements of `Database`, `Projector` and `Consumer`
everybody else may make any number of moves, and a statement may fail or wait; `Poller.Poller`
may fail at any point but runs without other pollers and enqueues between its statements, which
`Relay` covers. `quiet` and `reliable` objects are those where nobody else moves and nothing
fails; only claims that something gets done ask for them.

| module | what it holds |
|---|---|
| `Base`, `Seat`, `EventStore`, `Envelopes`, `Backoff` | the values: seats and decisions, the event table, message identity, retry waits |
| `Engine`, `Invariants`, `CommitStep`, `Runs`, `Guarantees` | the database as an interleaved machine, its invariant, and what follows |
| `Postgres`, `Handlers`, `Schedulers` | the transaction's statements, the command handler, the timer scheduler |
| `Relay`, `RelayOrder`, `Poller` | the outbox: no loss, order in the log, the draining loop |
| `Projection`, `ViewRuns`, `Projector` | the browsing view |
| `Browsing` | pollers, log and view over one database, end to end |
| `Records`, `Group`, `GroupRuns`, `Delivery`, `Consumer` | settling a record; the consumer group as a machine, its invariant, what follows; the consumer's code |
| `Uncontended`, `EarlyExpiry`, `Scenarios` | one transaction alone; exactly when a hold can end early; concrete runs showing where a promise stops |

## Where the code and its comments part

- `Rebuild` promises a single snapshot of the log, but the transaction is opened without options,
  so each of its statements sees its own snapshot (internal/platform/pg/pg.go:36). A row whose
  stream appeared after the listing and was projected before the DELETE is lost until that seat is
  projected again: `Scenarios.RebuildCanLoseARow` is such a run. Deleted rows come back exactly
  when their stream was listed (`ViewRuns.RebuildRestoresWhatItListed`), and with nobody else
  writing the rebuild is exact (`Projector.Projector.Rebuild`).
- "Marking a later offset would advance the group past the unsettled one" is prevented within one
  batch only: the stalled set is new for every poll. A session skips a record exactly when it
  marks one after a dead letter of the same partition failed (`Delivery.SkipsIffOvertaken`); from
  every state with such an unsettled record some continuation loses it
  (`Delivery.FailedLetterCanLoseItsRecord`), and `Delivery.SkippedRecordIsLost` is a run that does.
  Where no dead letter fails nothing below a commit is lost, shutdowns included.
- A timer is fenced by a hold id, not by a hold. From any state a live hold can be ended before
  its deadline exactly when the clock is before that deadline and a pending timer of the seat, due
  earlier, carries the hold's id (`EarlyExpiry.CanEndEarlyIff`); `Scenarios.ReusedHoldIdEndsEarly`
  is a run that gets there by using an id twice. With unique hold ids an expiry is never early
  (`Guarantees.ExpiryIsFenced`).
- The backoff is a left shift of an int64 with no bound. `Backoff.WaitsAreExactIff` and
  `Backoff.SafeBudgetIff` say exactly which configurations never overflow; the defaults do not.

## Model

| member | source | states |
|---|---|---|
| `Seat.Replay` | internal/inventory/seat.go:65-75 | the replay loop computes the fold, and stops with an error at the first event of an unknown type |
| `Seat.FoldStopsAt` | internal/inventory/seat.go:65-75 | the first event that does not apply decides the error of the whole fold, whatever follows |
| `Seat.FoldMeaning` | internal/inventory/seat.go:47-75 | a fold succeeds exactly on streams of seat events, its version counts them, and the last event alone decides status, hold, booking and deadline |
| `Seat.DecideKeepsAlternation` | internal/inventory/seat.go:113-207 | on an alternating stream every command is decided, answered by exactly one message, and keeps the stream alternating; a timer exactly when a hold is taken, carrying its id and deadline |
| `Seat.ExpireKeepsAlternation` | internal/inventory/seat.go:176-185 | a deadline speaks exactly when its hold is the live one, then ends that hold, and keeps the stream alternating |
| `Seat.SecondHoldNeverAppends` | internal/inventory/seat.go:113-140 | two holds never both win: the second is refused, or announced again unchanged when it is the same hold |
| `Seat.ReleaseUndoesHold` | internal/inventory/seat.go:149-160 | releasing a hold returns the seat to what it was, two versions on, and releasing again answers the same and appends nothing |
| `Seat.ReleaseIsAlwaysReleased` | internal/inventory/seat.go:149-160 | on every alternating stream a release is answered by exactly one SeatHoldReleased with the command's hold, booking, seat and reason: an event exactly when the stream ends in that hold, else a reply, whoever holds the seat by then |
| `Seat.HoldAnswers` | internal/inventory/seat.go:113-140 | on every alternating stream a hold is answered by exactly one message: its own SeatHeld and one timer at its deadline on a free seat, the stream's SeatHeld again when that hold is the live one, a refusal naming the command when another is |
| `EventStore.FillRows` | internal/platform/eventstore/eventstore.go:66-95 | the loop numbers the rows of an append expected+1, expected+2, ... in order |
| `EventStore.Read` | internal/platform/eventstore/eventstore.go:108-134 | the loop returns the stream's rows in version order |
| `EventStore.LoadReadsTheStream` | internal/platform/eventstore/eventstore.go:97-134 | loading from a gapless table gives back the whole history, oldest first |
| `EventStore.AppendExtendsTheStream` | internal/platform/eventstore/eventstore.go:51-95 | an append at a version the stream has reached works exactly when the stream is still there, and extends it at its end without gaps |
| `EventStore.AppendAloneAllowsGaps` | internal/inventory/migrations/001_events.sql:9 | the unique key alone rejects neither gaps nor a version nobody loaded: a concrete append that leaves one |
| `Envelopes.RenderHeaders` | internal/platform/envelope/envelope.go:46-67 | the loop adds the optional attributes that are set, in any map order, to the required ones |
| `Envelopes.ParseHeaders` | internal/platform/envelope/envelope.go:71-100 | the loop over the required attributes and the checks around it give the verdict `ParseVerdicts` characterises |
| `Envelopes.ParseVerdicts` | internal/platform/envelope/envelope.go:71-100 | headers parse exactly when the version is 1.0 and id, source and type are there; another version is refused by name before those are looked at, and a missing attribute is reported exactly when it is the first |
| `Envelopes.HeadersOnTheWire` | internal/platform/envelope/envelope.go:46-67 | a message travels with exactly five headers and those of four more that its envelope has, under these names, with version 1.0 and the protobuf content type |
| `Envelopes.ToWire` | internal/platform/kafka/producer.go:61-72 | a record lists each header once, in whatever order the map yields |
| `Envelopes.ReadWire` | internal/platform/kafka/consumer.go:265-278 | reading a record's headers builds the map its pairs spell, last value winning |
| `Envelopes.WireKeepsHeaders` | internal/platform/kafka/consumer.go:265-278 | whatever order headers travel in, the consumer reads the map that was sent |
| `Envelopes.EveryCopyKeepsItsIdentity` | internal/platform/envelope/envelope.go:46-100 | after any number of trips over the wire and dead-letterings a copy parses to the envelope it was rendered from, and it parses at all exactly when id, source and type are set |
| `Envelopes.ParsedEnvelopeRendersBack` | internal/platform/envelope/envelope.go:46-100 | rendering what was parsed parses to the same envelope, whatever else the record carried |
| `CommitStep.FinishKeepsInv` | internal/inventory/commands.go:105-144 | committing everything a transaction wrote keeps every invariant of the tables and of all transactions still in flight |
| `Runs.StepKeepsInv` | internal/inventory/commands.go:100-145 | each statement of any transaction keeps the invariant |
| `Runs.RunKeepsInv` | internal/inventory/commands.go:67-145 | the invariant holds after any run: any interleaving, retry, rollback and crash |
| `Runs.ConflictMeansProgress` | internal/inventory/store.go:53-66 | an append conflicts exactly when its stream has moved past the version that was loaded |
| `Guarantees.ConcurrentSeatIsSequential` | internal/inventory/commands.go:67-145 | concurrent handlers and schedulers leave each seat as one writer would, replaying the commits one by one and deciding afresh each time |
| `Guarantees.EveryCommitIsADecision` | internal/inventory/commands.go:100-145 | every committed command or expiry, replies included, is the decision at a version its stream had between its beginning and its commit; its event stands right after that version, recorded at the instant the transaction began, with the command's correlation id and id as its metadata, or for an expiry the correlation id of the hold before it and no cause |
| `Guarantees.StreamsAreWellFormed` | internal/inventory/seat.go:44-185 | in every reachable state versions are 1..n without gaps, holds and their endings alternate with matching ids, and the stream folds to version n |
| `Guarantees.LiveHoldHasADeadline` | internal/inventory/expiry.go:37-65 | in every reachable state a held seat has an unfired timer with its id, deadline and seat, even when hold ids are reused |
| `Guarantees.ExpiryIsFenced` | internal/inventory/expiry.go:37-65 | every expiry ends the hold right before it, whose id is its timer's token, once its timer is due, in the flow of the command whose commit took that hold; with unique hold ids it ends its own hold and never early |
| `Guarantees.EarlyExpiryReusedAnId` | internal/inventory/expiry.go:37-50 | an expiry before the ended hold's deadline was fired by an older hold's timer with the same id and an earlier deadline |
| `EarlyExpiry.CanEndEarlyIff` | internal/inventory/expiry.go:37-50 | from every reachable state some continuation expires a live hold before its deadline exactly when the clock is before that deadline and a pending timer of the seat, due earlier, carries the hold's id |
| `Guarantees.ClaimsCommitOnce` | internal/platform/inbox/inbox.go:30-40 | no two commits are of commands that agree in source and id, and none lacks either; no timer fires twice; a key is in the inbox exactly when it is this consumer's and a command with that source and id has committed |
| `Guarantees.EveryMessageIsInItsFlow` | internal/inventory/commands.go:126-187 | in every reachable state each outbox row is one commit's one message, event or reply, and each commit that says anything has exactly one row: to the events topic, keyed by the seat, under this service's source, a fresh id and its message's type; a command's row carries the command's correlation id, id and trace parent, an expiry's the correlation id recorded with the hold it ended and no cause |
| `Guarantees.FiredTimersWereDue` | internal/platform/timers/scheduler.go:124-138 | a timer that fired was the one scheduled with its hold and was due; its row, while kept, repeats that hold and names the instant its transaction began |
| `Guarantees.PruneForgetsOnlyHistory` | internal/platform/timers/timers.go:105-118 | pruning deletes exactly the timers that fired at or before the cutoff, never a pending one, each of a hold that is over, and touches nothing else |
| `Guarantees.Conservation` | internal/inventory/commands.go:100-145 | rows ever enqueued = commands consumed + holds expired; timers ever scheduled = holds taken; each consumed command is the cause of exactly one row, which carries its id |
| `Postgres.Database.Interleave` | internal/platform/pg/pg.go:35-53 | between two statements others may move in any way; streams, inbox and commits only grow and this transaction's record stays |
| `Postgres.Database.MarkConsumed` | internal/platform/inbox/inbox.go:30-40 | first exactly when no commit so far was of a command with the same source and id; an uncommitted mark of the same source and id is waited for |
| `Postgres.Database.LoadSeat` | internal/inventory/store.go:26-46 | loads, decodes and folds the stream and keeps the last event's metadata: the machine's load step, never failing in a reachable state |
| `Postgres.Database.AppendSeat` | internal/inventory/store.go:53-66 | the machine's append step: a version conflict exactly when the stream is past the version read, a wait only for somebody else's uncommitted event of that stream at that version, and an empty decision never conflicts |
| `Postgres.Database.Outgoing` | internal/inventory/commands.go:169-187 | one message each, in order, with its own fresh id and its type, the rest from the template |
| `Postgres.Database.Enqueue` | internal/platform/outbox/outbox.go:44-71 | timers and messages are written under newly drawn ids, in order; a message without a key is refused; what the written messages say in every reachable state is `Guarantees.EveryMessageIsInItsFlow` |
| `Postgres.Database.Commit` | internal/platform/pg/pg.go:35-53 | all or nothing; a commit may work and still report a failure; when it reports success the claim is spent |
| `Postgres.Database.MarkFired` | internal/platform/timers/timers.go:72-88 | waits only for a transaction that has claimed this timer and not committed, and then claims it exactly when it is unfired |
| `Handlers.LoadAndAppend` | internal/inventory/commands.go:110-126 | a conflict reports a version between the stream's length at the start and, strictly, at the end |
| `Handlers.ApplyInOneTransaction` | internal/inventory/commands.go:100-145 | success means a commit of a command with this source and id exists; a message that is no command, or an envelope without source or id, changes nothing; a conflict means this attempt committed nothing and others moved the stream past what it read; alone, it commits exactly the decision on everything the stream holds when no earlier commit had the same source and id, and nothing otherwise |
| `Handlers.Handle` | internal/inventory/commands.go:67-76 | the versions read strictly increase over attempts, and giving up means all 4 attempts lost to at least 4 events others committed to that stream; alone, the first attempt succeeds and commits exactly the decision on the whole stream, or nothing when an earlier commit's command had the same source and the same id |
| `Handlers.Deliver` | internal/inventory/consumers.go:42-60 | done means a command with this source and id has committed; permanent exactly for headers that are no CloudEvent, bytes that are no message, or a message that is no command, and then nothing changed; alone, every other delivery that names a seat is done |
| `Schedulers.ReadDue` | internal/platform/timers/timers.go:40-70 | the earliest due timers, in deadline order, up to the limit, and nothing claimed |
| `Schedulers.Fire` | internal/inventory/expiry.go:37-65 | a failing fire commits nothing, rolls its claim back, and leaves the timer unfired and free to be claimed |
| `Schedulers.FireOne` | internal/platform/timers/scheduler.go:124-138 | claim and effect share one commit; alone, it commits exactly the expiry the timer's token means for the seat as it is, or nothing, and takes exactly that timer off the due list |
| `Schedulers.Tick` | internal/platform/timers/scheduler.go:98-117 | every due timer read is tried, whichever of them fail, and one that did not fail has fired by the end of the pass; alone, a pass fires min(100, due) timers |
| `Schedulers.Passes` | internal/platform/timers/scheduler.go:98-117 | with no concurrent writers or failures n passes over at most 100n due timers leave none due and no hold overdue |
| `Schedulers.NoDueTimerNoOverdueHold` | internal/platform/timers/scheduler.go:93-117 | when no timer is due no seat is held past its deadline |
| `Relay.NoRowIsLost` | internal/platform/outbox/poller.go:151-205 | with any number of pollers and any failures every committed row is in the log or still unpublished and, unless an open claim holds it, claimable; flagged or pruned implies in the log |
| `Relay.FailureReleasesRows` | internal/platform/outbox/poller.go:177-205 | a rollback, crash or half-landed publish makes the batch's rows claimable again |
| `Relay.ClaimTakesTheOldest` | internal/platform/outbox/poller.go:151-167 | a claimable row is taken by the next claim unless 100 rows with lower ids are, however late it committed |
| `Relay.PruneDeletesOnlyPublished` | internal/platform/outbox/poller.go:257-265 | pruning deletes exactly the rows published before the cutoff and changes nothing else, and whatever it deletes is in the log |
| `Relay.LowestIsLowest` | internal/platform/outbox/poller.go:161-167 | ORDER BY id LIMIT n: the n smallest ids, increasing, and everything when there are no more than n |
| `RelayOrder.PublishedOrderRefinesTheStream` | internal/platform/outbox/poller.go:161-205 | with one poller and a broker that keeps each key's order, a seat's events in the log, first occurrences by id, are always a prefix of its stream |
| `Poller.Poller.Claim` | internal/platform/outbox/poller.go:208-233 | the loop locks the 100 oldest unpublished rows in id order |
| `Poller.Poller.Publish` | internal/platform/kafka/producer.go:45-57 | success puts the whole batch in the log in order; a failure may leave any part of it there and releases the claim |
| `Poller.Poller.Mark` | internal/platform/outbox/poller.go:195-203 | marks and commits, or rolls back, or commits and reports a failure |
| `Poller.Poller.Drain` | internal/platform/outbox/poller.go:177-205 | a drain publishes the 100 oldest rows in order, stamps exactly those with the instant it is, and takes exactly those off the unpublished; a failing one leaves every row claimable unless only its commit went unheard |
| `Poller.Poller.DrainAll` | internal/platform/outbox/poller.go:89-102 | with one poller and no failures exactly floor(u/100)+1 drains publish all u rows in id order and leave none |
| `Poller.LowestInTwoTakes` | internal/platform/outbox/poller.go:89-102 | taking the n lowest rows and then the m lowest of the rest is taking the n+m lowest |
| `Projection.RowReadsBack` | internal/inventory/projection.go:114-208 | reading a written row gives the seat it was folded from, NULL deadline included; a read fails exactly on a status the automaton does not have |
| `Projection.OrderAndRepeatsDoNotMatter` | internal/inventory/projection.go:80-112 | the same projections in any order, any number of times each, leave the same view |
| `Projection.ProjectingIsRebuilding` | internal/inventory/projection.go:62-112 | projections, however stale and repeated, end in the rebuilt view exactly when each stream was read in full once or was already shown in full |
| `ViewRuns.MoveKeepsSite` | internal/inventory/projection.go:50-112 | every statement of any projection or rebuild keeps the view true to the streams |
| `ViewRuns.RowsAreNeverInvented` | internal/inventory/projection.go:87-112 | in every reachable state each row is the fold of exactly the first version events of its stream, and reading it gives the seat as it then was |
| `ViewRuns.RowsShowTheirLastEvent` | internal/inventory/projection.go:98-121 | in every reachable site a stored row whose last counted event ends a hold reads free, no hold, no booking, NULL deadline; after a SeatHeld it reads held, with that event's hold, booking and deadline, NULL only for the zero instant |
| `ViewRuns.VersionsNeverFall` | internal/inventory/projection.go:80-112 | no projection or rebuild takes a row back; a row goes away only by a rebuild that deleted it without having listed it |
| `ViewRuns.RebuildRestoresWhatItListed` | internal/inventory/projection.go:56-78 | what a rebuild deleted comes back exactly when its stream had been listed |
| `ViewRuns.ViewConverges` | internal/inventory/projection.go:87-112 | in any run the view equals the rebuilt view exactly when every stream was read in full by a projection committed since the last rebuild, or shown in full by it |
| `Projector.Projector.Project` | internal/inventory/projection.go:50-54 | after success the row shows at least everything its stream held when the call began; alone it is exactly the guarded upsert of the full fold |
| `Projector.Projector.Rebuild` | internal/inventory/projection.go:62-78 | after success every stream that existed has a row at least that new; alone the view is the fold of every non-empty stream and nothing else |
| `Projector.Notify` | internal/inventory/consumers.go:74-86 | permanent exactly without a CloudEvent or a subject; done means the seat's row is up to date |
| `Browsing.HandledViewIsRebuilt` | internal/inventory/consumers.go:62-86 | in every run of commands, pollers, projections and rebuilds: once every committed event is in the log and its notification has been served since the last rebuild, the view is the fold of every stream |
| `Backoff.WaitsAreExactIff` | internal/platform/kafka/consumer.go:257-263 | the waits that can be drawn are exactly those in [d, 2d) for d = base*2^(n-1), if and only if d is at most 2^62 |
| `Backoff.SafeBudgetIff` | internal/platform/kafka/consumer.go:236-263 | no wait of a budget overflows exactly when maxAttempts is at most 1 or base*2^(maxAttempts-2) is at most 2^62 |
| `Backoff.TotalIsBounded` | internal/platform/kafka/consumer.go:257-263 | k completed waits take between base*(2^k-1) and twice that |
| `Backoff.DefaultBudgetUnderThreeSeconds` | internal/platform/kafka/consumer.go:30-45 | five calls from a base of 100 ms are a safe budget and wait less than three seconds for a record |
| `Consumer.Consumer.constructor` | internal/platform/kafka/consumer.go:98-131 | an attempt limit or base that is not positive becomes 5 attempts or 100 ms |
| `Consumer.Consumer.Attempt` | internal/platform/kafka/consumer.go:236-255 | between 1 and maxAttempts calls, stopping at the first answer that is not transient, with the waits the backoff allows; a last transient answer means the budget is spent, the context is done or a draw panicked |
| `Consumer.Consumer.SendLetter` | internal/platform/kafka/consumer.go:281-303 | success publishes a letter with the record's key, payload, headers and provenance; without a dead-letter producer it always fails |
| `Records.LetterKeepsIdentity` | internal/platform/kafka/consumer.go:288-302 | a dead letter parses to the same envelope as its record, so a replay has the same inbox key |
| `Records.LetterSaysWhereItIsFrom` | internal/platform/kafka/consumer.go:281-303 | a letter goes to its topic's .dlq topic with the record's key and payload; its four extra headers give topic, partition, offset and error back, the numbers in decimal, and every other header is the record's own |
| `Records.LetterNamesItsRecord` | internal/platform/kafka/consumer.go:288-302 | one letter never carries two records of different partitions or offsets, nor one record for two reasons |
| `Consumer.Consumer.Handle` | internal/platform/kafka/consumer.go:203-229 | a marked record is applied or dead-lettered and only its partition's mark moves; an unmarked one stalls its partition, and means shutdown, a panic, or a dead letter that could not be published |
| `Consumer.Consumer.HandleBatch` | internal/platform/kafka/consumer.go:178-197 | in each partition the marked records are a prefix of the batch's records, each settled, the marks still held are exactly theirs, and an unmarked record means shutdown or a failed letter of its partition |
| `Consumer.NothingIsSkipped` | internal/platform/kafka/consumer.go:178-197 | every record of the batch below its partition's mark is a marked one |
| `Consumer.Consumer.Run` | internal/platform/kafka/consumer.go:150-176 | a whole run makes only moves of the group: whatever the others do, its sessions skip a record only by overtaking a failed letter, and where no letter failed everything committed is settled |
| `GroupRuns.MoveKeepsFleet` | internal/platform/kafka/consumer.go:150-229 | polls, stalls, marks, failed letters, shutdowns, crashes, reassignments and commits all keep the group's invariant |
| `Delivery.SkipsIffOvertaken` | internal/platform/kafka/consumer.go:150-229 | in every reachable fleet a session's mark lies past a record it did not settle exactly when it marked a record after a dead letter of that partition failed: stalls, shutdowns, crashes and reassignments never let one slip |
| `Delivery.NoCommandAppliesTwice` | internal/platform/kafka/consumer.go:199-229 | whatever is redelivered, reassigned, crashes or reports a false failure, an applied command was applied by exactly one transaction |
| `Delivery.NothingBelowTheCommitIsLost` | internal/platform/kafka/consumer.go:150-229 | in every run each record below a committed offset was applied, by exactly one transaction, or dead-lettered, unless a session committed for that partition after overtaking a failed letter |
| `Delivery.SettledWhereNoLetterFailed` | internal/platform/kafka/consumer.go:150-229 | in every run, for every partition no dead letter ever failed for, everything below the committed offset is settled |
| `Delivery.FailedLetterCanLoseItsRecord` | internal/platform/kafka/consumer.go:178-229 | from every reachable fleet in which a live session left a record unsettled because its letter failed, some continuation commits past it while it is neither applied nor dead-lettered |
| `Delivery.SkippedRecordIsLost` | internal/platform/kafka/consumer.go:186-197 | a run that loses a record: its dead letter fails and stalls the partition, the next poll takes the record after it, and the commit covers both |
| `Scenarios.ReusedHoldIdEndsEarly` | internal/inventory/expiry.go:37-50 | a reachable state, with a hold id used twice, from which the older timer ends the newer hold before its deadline |
| `Scenarios.RebuildCanLoseARow` | internal/inventory/projection.go:56-78 | a run in which a rebuild beside a live projection loses the row of a seat that has a stream |

## Left out

- Process assembly, flags, migrations runner, topic creation and shutdown wiring: plumbing with no state of its own.
- Protobuf, protojson and registry framing: messages are datatypes, encoding is total and never empty, decoding either yields the message or nothing.
- LISTEN/NOTIFY, tickers, sleeping and logging: they decide when a drain or a pass happens, which here may be any time.
- Election by advisory lock and the Kafka client's group internals: "one poller at a time" and "the log keeps each key's order" are hypotheses of `RelayOrder`; no loss needs neither. A partition starts again at its committed offset, and one that is taken away ends its owner's session at once, so later marks and commits of it have no effect. In `Group` the database moves to any reachable state that has grown, which covers every step it makes (`GroupRuns.StepIsAllowed`).
- Inbox pruning: nothing calls it, so inbox rows persist. Trace ids in event metadata are never set by the code and are not kept.
- `HeldSeats`: LIKE matching is not modelled. `NextDue` only sets how long the scheduler sleeps.
- Statements are a little coarser than the code: beginning a transaction and its first statement are one step (a timer's transaction may have begun earlier), scheduling timers and enqueueing are one step, and a projection's upsert and commit are one step.
- A wait on somebody's uncommitted row lasts any number of their moves, or is cancelled; deadlock detection would only add cancellations.
- Outbox rows keep their envelope rather than its rendered headers; `Envelopes` proves the two carry the same.
- Message ids are fresh strings instead of UUIDv7 values; timestamps are unbounded integers of nanoseconds; a missing deadline in a command reads as the Unix epoch.
- Poller.Poller.DrainAll: the exact count is stated for a poller alone; with concurrent enqueues the loop may go on for as long as full batches keep coming.
- Poller.Poller: the class runs with no second poller and no enqueues between its statements; what those can do is proved of every interleaving in `Relay`.
- Projector.Projector.Rebuild: a wait on rows another rebuild has locked ends as a failure of the call.
- Consumer.Consumer.Run: it stops after a given number of polls if the context is not done before; the code has no such bound.
- Sagas, hotel, payment and booking: documented but not built.
