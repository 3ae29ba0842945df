# Verification of the IoT platform's delivery engine, twin graph and paging

A Dafny model of three parts of the platform, with the properties they are meant to have
for every input, every interleaving and every run.

**The Gateway store-and-forward engine** (`src/internal/gatewaysim`). A durable outbox, a
scheduler loop, a single ACK worker and a transport supervisor deliver batches at least once
over MQTT QoS 1 (section 4.3.2 of OASIS MQTT 3.1.1); the application ACK, not the PUBACK, is
the commit point.
- `Outbox.dfy` is the outbox as a class over durable rows and stream counters; `OutboxRuns.dfy`
  is about any sequence of its transactions.
- `Inflight.dfy`, `Scheduler.dfy`, `Retry.dfy` and `Batch.dfy` are the scheduler's methods, its
  delays and its sample windows; `Ack.dfy` and `AckWorker.dfy` the ACK parser and worker;
  `Latency.dfy` the latency tracker.
- `Engine.dfy` lets loop, worker, publish invocations, cancellation, crash and restart
  interleave, one atomic step each. A commit may be confirmed, lost after it landed, lost before
  it landed, or aborted. `EngineInvariant.dfy`, `EngineSteps.dfy` and `EngineTheorems.dfy` hold
  the invariant, its preservation and the results about every reachable state; `EnginePass.dfy`
  shows that an undisturbed pass of the engine is the pass of the scheduler class.
- `Transport.dfy` does the same for connection lifetimes, publish slots and shutdown. The
  `failed` flag is stored outside the mutex, and that window is a state of its own.
  `TransportSafety.dfy` and `TransportTheorems.dfy` hold the proofs; `TransportRecovery.dfy` shows
  that the supervisor comes back after a loss, `TransportPublish.dfy` what a publish does to its
  lifetime, `TransportStop.dfy` what a shutdown brings about; `TransportObjects.dfy` ties the
  critical sections of the source, as methods on objects, to the steps.

**The provisioning and PATCH transactions.** `Graph.dfy` states what the four calls are for as
atomic changes of a relational graph, and the graph invariant. `GraphRuns.dfy` runs them
statement by statement with row locks, key locks, READ COMMITTED reads and buffered writes;
`GraphSafety.dfy` and `GraphTheorems.dfy` prove that every interleaving equals the atomic calls
in the order they ended. `GraphVetting.dfy` is about graphs that may be corrupt: a success
certifies what it touched. `Repository.dfy` runs one call alone.

**Keyset pagination.** `Identity.dfy`, `Base64.dfy`, `Json.dfy`, `Cursor.dfy` and `Paging.dfy`
go from bytes to whole listings: URNs, base64url without padding (section 5 of RFC 4648), the
JSON token reader, both cursors, both paged queries, and a client that follows the cursors.
`JsonTail.dfy` and `CursorText.dfy` hold the codec against the standards it follows: the end of a
JSON text and its escapes (RFC 8259), UTF-8 (RFC 3629) and the printed URNs.
`Text.dfy` has splitting, joining and byte order. `GraphPaging.dfy` joins this to the
transactions: every graph they reach is listed completely. `Wrappers.dfy`, `Commits.dfy` and
`Numbers.dfy` hold what all parts share.

Five properties hold only under a condition, which is stated and proved exact:
- a boot stream works until it has used sequence number 2^63 - 1; its counter then wraps to a
  negative value and every later batch is refused for good (`OutboxRuns.Exhausted`,
  `OutboxRuns.ExhaustedForGood`), and accepted batches do get there (`OutboxRuns.StreamsDoEnd`);
- the counters of a run that stopped normally balance unless its context ended during an enqueue
  that landed unseen: the loop then reports no error (`EngineTheorems.NormalStopBalances`);
- a retry delay is positive for every random draw only from a base of 2 ns on
  (`Retry.DelayPositive`); the configured minimum of 1 ms is far above it;
- a Stop whose context ends before the supervisor returns can leave a later installed connection
  ready exactly if an attempt had its socket open: `installCurrent` does not look at `closed`, and
  the waits for CONNACK and SUBACK prefer a completed token to an ended context
  (`TransportTheorems.StopIsFinalIff`);
- following list cursors fails at a page break on an id that is not a canonical URN
  (`Paging.ReadAll`); graphs reached by calls with validated ids have none
  (`GraphPaging.ReachableGraphsPage`).

## Model

| member | source | states |
|---|---|---|
| `Outbox.Outbox.Enqueue` | src/internal/gatewaysim/outbox.go:423-515 | One transaction: a row answered holds the text its request renders for the stored counter of its boot (0 for a new boot), which is its first sequence, under a row id above all others; a refusal leaves rows and counters as they were; a lost confirmation may or may not have stored that same row |
| `Outbox.Outbox.Check` | src/internal/gatewaysim/outbox.go:423-494 | The message is the request rendered at the stored counter of its boot; every batch with a non-negative counter, 1 to 1000 samples that do not overflow, a rendered text, room in rows and bytes and a new id is accepted; the refusals follow in their order and nothing changes |
| `Outbox.VerdictMeans` | src/internal/gatewaysim/outbox.go:423-494 | A batch is accepted if and only if its boot's counter is not negative, it has 1 to 1000 samples that do not overflow, it renders, rows and bytes have room for it and its id is new; what is stored is that rendering |
| `Outbox.Outbox.DeletePending` | src/internal/gatewaysim/outbox.go:623-656 | Deletes exactly the pending row named and nothing else; an absent or quarantined row answers false and stays; an unknown commit may or may not have deleted it |
| `Outbox.Outbox.Quarantine` | src/internal/gatewaysim/outbox.go:661-695 | Changes the status of the pending row named and no byte of any row; anything else is unchanged |
| `Outbox.Outbox.Lookup` | src/internal/gatewaysim/outbox.go:584-599 | Answers the row if it is stored, pending or not |
| `Outbox.Outbox.PendingAfter` | src/internal/gatewaysim/outbox.go:553-580 | The page is the oldest pending rows after the cursor: ascending, distinct, cut at the limit, nothing skipped; a limit outside 1 to the row quota is refused |
| `Outbox.Outbox.Usage` | src/internal/gatewaysim/outbox.go:740-746 | Counts rows and bytes over every retained row, quarantined ones included |
| `Outbox.PageUnique` | src/internal/gatewaysim/outbox.go:553-580 | The page of a store, cursor and limit is unique: the contract of PendingAfter leaves no choice |
| `Outbox.InsertedValid` | src/internal/gatewaysim/outbox.go:496-514 | An insert keeps the store valid: new row id above all others, ids match keys, counters 64-bit |
| `OutboxRuns.Tiling` | src/internal/gatewaysim/outbox.go:423-515 | From a fresh file, after any mix of enqueues, deletes, quarantines, roll-backs and lost commits, the ranges committed for a boot stream follow each other without gap or overlap, and next_sequence is their end as a 64-bit integer |
| `OutboxRuns.EveryNumberOnce` | src/internal/gatewaysim/outbox.go:721-736 | Every sequence number below the end of a stream belongs to exactly one committed batch, and none beyond it to any |
| `OutboxRuns.Exhausted` | src/internal/gatewaysim/outbox.go:467-514 | The stored counter is negative exactly when a stream has used number 2^63 - 1, and then every batch of that boot is refused as corrupt |
| `OutboxRuns.ExhaustedForGood` | src/internal/gatewaysim/outbox.go:721-736 | Once negative the counter stays so and the refusals go on, whatever transactions follow |
| `OutboxRuns.StreamsDoEnd` | src/internal/gatewaysim/batch.go:17-24 | A run reaches that end with batches of 1 to 1000 samples, any text that fits, and one batch in the outbox at a time |
| `OutboxRuns.QuotaAlways` | src/internal/gatewaysim/outbox.go:740-746 | Retained rows and bytes never exceed the limits in any run |
| `OutboxRuns.StoredOnce` | src/internal/gatewaysim/outbox.go:467-514 | A row, once stored, keeps its id, topic and payload as long as it exists; only its status may change |
| `OutboxRuns.EveryRowRendered` | src/internal/gatewaysim/outbox.go:453-494 | Over any run from a fresh file every retained row holds the rendering, at the start of its own range, of the enqueue that stored it |
| `OutboxRuns.ValidAlways` | src/internal/gatewaysim/outbox.go:423-695 | The store stays valid in any run of transactions |
| `Retry.RetryDelay` | src/internal/gatewaysim/scheduler.go:873-899 | The base is min(max, min * 2^retries), 1 ms standing in for a minimum that is not positive and max raised to the minimum; a draw of 0.5 gives the base itself, 0 gives 0.8 of it and 0.75 gives 1.1 of it, capped, and every draw a delay between 0.8 of it, truncated, and max |
| `Retry.DelayPositive` | src/internal/gatewaysim/scheduler.go:889-899 | A retry lies in the future whatever the random draw exactly when its base is at least 2 ns; a base of 1 ns can truncate to zero |
| `Retry.JitterBounds` | src/internal/gatewaysim/scheduler.go:889-899 | Jitter never leaves [0.8 base, max] |
| `Retry.BackoffDelay` | src/internal/gatewaysim/transport.go:953-971 | The reconnect delay is between half of and the whole of min(max, base * 2^attempt) |
| `Retry.BaseGrows` | src/internal/gatewaysim/scheduler.go:873-888 | More retries never shorten the base |
| `Retry.BaseStarts` | src/internal/gatewaysim/scheduler.go:873-888 | The base of no retries is min(max, start), and each retry doubles it up to max |
| `Batch.ValidateSampleProfile` | src/internal/gatewaysim/batch.go:37-61 | Accepts exactly a positive rate that divides a second into whole microseconds, a positive sample count and a probe the telemetry validator accepts; the span is (samples - 1) intervals |
| `Batch.SamplesInPast` | src/internal/gatewaysim/batch.go:172-174 | No sample of a batch lies after the instant used to generate it, despite truncation |
| `Batch.WindowsDisjoint` | src/internal/gatewaysim/scheduler.go:566-583 | For any clock readings, even decreasing ones, the first sample of a later batch of a run is at least one interval after the last sample of an earlier one |
| `Batch.NextWindow` | src/internal/gatewaysim/scheduler.go:332-334 | A cadence apart, windows do not touch after truncation to microseconds |
| `Batch.WindowIs` | src/internal/gatewaysim/batch.go:163-174 | The last sample lies at the generating instant truncated to microseconds, and the samples are one interval apart |
| `Batch.CadenceContinues` | src/internal/gatewaysim/scheduler.go:566-583 | Batches generated exactly one cadence apart continue one another at the sampling interval |
| `Inflight.OnePageSuffices` | src/internal/gatewaysim/scheduler.go:517-553 | For any in-flight set and any page of distinct rows: afterwards no slot is free, or the page was short and all of it is in flight |
| `Inflight.ResultedMeans` | src/internal/gatewaysim/scheduler.go:633-651 | Success: awaiting the ACK, row and retries unchanged, due ackTimeout after the clock; failure: backing off, one retry more, row unchanged, due between the truncated 0.8 of the base and retryMax after it |
| `Inflight.VisitMeans` | src/internal/gatewaysim/scheduler.go:489-510 | An entry not yet due is unchanged; a due backoff is published again with its retry count; an overdue ACK wait backs off, or is dropped when its row is gone |
| `Inflight.AdmitsOldestFirst` | src/internal/gatewaysim/scheduler.go:517-553 | Of a page the oldest rows not in flight are admitted, as many as there are slots, and no entry already there changes |
| `Scheduler.Scheduler.AdmitPending` | src/internal/gatewaysim/scheduler.go:517-553 | Reads at most one page, never reports more pages, admits its oldest rows first with no retries, publishes exactly the rows it enters, and leaves a free slot only when every scanned row is in flight |
| `Scheduler.Scheduler.Replay` | src/internal/gatewaysim/scheduler.go:469-476 | Retries, then admissions: the in-flight set, the publishes started and the error, for any answers |
| `Scheduler.Scheduler.ProcessDueRetries` | src/internal/gatewaysim/scheduler.go:489-510 | An entry with now before its instant is unchanged and starts nothing; a due backoff is published again exactly once; an overdue ACK wait is looked up and backed off or dropped; an overdue row that cannot be read is the only error |
| `Scheduler.Scheduler.VisitDue` | src/internal/gatewaysim/scheduler.go:489-510 | The same for one entry |
| `Scheduler.Scheduler.Admit` | src/internal/gatewaysim/scheduler.go:557-561 | Enters the row as publishing and starts exactly one publish |
| `Scheduler.Scheduler.StartPublish` | src/internal/gatewaysim/scheduler.go:612-628 | Marks the entry publishing and launches one invocation of its id |
| `Scheduler.Scheduler.OnPublishResult` | src/internal/gatewaysim/scheduler.go:633-644 | On success the entry awaits its ACK, retries and row unchanged, due ackTimeout after the clock; on failure it backs off, one retry more, due between the truncated 0.8 of the base and retryMax later; a result of an entry that is gone or not publishing changes nothing |
| `Scheduler.Scheduler.ScheduleBackoff` | src/internal/gatewaysim/scheduler.go:647-651 | Backs the entry off: one retry more, row unchanged, due between the truncated 0.8 of the base and retryMax after the clock |
| `Scheduler.Scheduler.Generate` | src/internal/gatewaysim/scheduler.go:566-608 | The cadence moves first; success admits the new row, starts its publish and counts it; capacity pauses; an unknown commit stops the run as ambiguous; the target ends generation and starts the completion budget |
| `Scheduler.Scheduler.SyncInflight` | src/internal/gatewaysim/scheduler.go:657-673 | Keeps exactly the entries whose rows are still pending, each as it was, and lifts the pause; a failed lookup stops it |
| `Scheduler.Scheduler.Reconcile` | src/internal/gatewaysim/scheduler.go:457-483 | A pass is due retries, then admissions, then at most one new batch, generated exactly when generation is not over, not paused, due and a slot is free: the in-flight set, pause, counters and publishes afterwards are those of that change, each stop has its exact cause, every entry is settled and the next generation tick lies after now |
| `Scheduler.Scheduler.CheckCompletion` | src/internal/gatewaysim/scheduler.go:746-764 | Completed only at zero pending rows after the target; the budget error only with rows left and the deadline reached |
| `Scheduler.Scheduler.ArmTimer` | src/internal/gatewaysim/scheduler.go:691-725 | Wakes at the minimum of every retry and ACK deadline, the next generation while one may happen and the completion deadline of a finished run, and parks when there is none or the transport is not ready |
| `Scheduler.Scheduler.Pass` | src/internal/gatewaysim/scheduler.go:397-451 | Timer soundness for a retry minimum of at least 2 ns: after a ready pass every live deadline lies strictly after the earliest clock reading of the pass, which is the pass itself unless the wall clock stepped back within it, and the timer is armed for the earliest deadline |
| `EngineTheorems.StaleEntryCovered` | src/internal/gatewaysim/ack.go:424-462 | No lost wake-up: in every interleaving an in-flight entry whose row is gone is covered by a notify token, a worker between commit and signal, an unfinished sync that has yet to visit it, or a stop |
| `EngineTheorems.StalePageAndPauseCovered` | src/internal/gatewaysim/scheduler.go:517-588 | The same for a scanned row that was deleted before its admission, and for a pause set before a delete |
| `EngineTheorems.QuietMeansAccurate` | src/internal/gatewaysim/scheduler.go:440-451 | When the loop waits, no token is queued and the worker is at rest, every entry has its row and a pause means the refused batch really does not fit |
| `EngineTheorems.Conservation` | src/internal/gatewaysim/scheduler.go:566-608 | Initial pending + enqueued + a = pending + acknowledged + b at quiescent points; a is 1 exactly when the scheduler stopped on an enqueue that had landed unseen, b exactly when the worker stopped on such a delete, otherwise 0 |
| `EngineTheorems.NormalStopBalances` | src/internal/gatewaysim/scheduler.go:404-418 | After a normal stop with the worker at rest the counters balance if and only if cancellation did not cut short an enqueue that had landed; the caller is told nothing of it |
| `EngineTheorems.NormalStopMayHideAStore` | src/internal/gatewaysim/scheduler.go:411-417 | Such a stop exists: the context ends during the first enqueue of a run, whose commit lands unseen |
| `EngineTheorems.NormalStopWasCancelled` | src/internal/gatewaysim/scheduler.go:403-425 | In every reachable state a normal stop was preceded by a cancel |
| `EngineTheorems.StopHasItsReason` | src/internal/gatewaysim/scheduler.go:397-451 | The loop stops exactly at the listed events, and says which: an error or lost commit after a cancel is reported as the cancel, a peer's failure never is, a lost commit is ambiguous, Completed needs an empty outbox, and the budget error names the rows left |
| `EngineTheorems.CheckGoesOn` | src/internal/gatewaysim/scheduler.go:436-451 | After the completion check the loop comes round again unless a finite run is complete |
| `EngineTheorems.TokenIsServed` | src/internal/gatewaysim/scheduler.go:440-451 | A notify token is taken and leads back to the top with the pause lifted and exactly the entries whose rows are pending |
| `EngineTheorems.UnreadyPassIsIdle` | src/internal/gatewaysim/scheduler.go:457-468 | While the transport is not ready a pass changes nothing and starts nothing |
| `EnginePass.UndisturbedPassIsReconcile` | src/internal/gatewaysim/scheduler.go:457-483 | From any reachable state, any undisturbed run of engine steps over one pass, in any visiting order, leaves the in-flight set, pause, counters and publishes that Scheduler.Reconcile promises |
| `EnginePass.PassGetsThrough` | src/internal/gatewaysim/scheduler.go:457-483 | For all answers an undisturbed pass can get, it runs to the completion check with the effect of the scheduler's pass, or to the stop a failed enqueue demands |
| `EngineTheorems.NothingLost` | src/internal/gatewaysim/ack.go:424-452 | Across restarts, every batch ever committed is either stored with its exact bytes or was deleted by an ACK, never both |
| `EngineTheorems.OnlyAckRemoves` | src/internal/gatewaysim/outbox.go:623-656 | No step but a landing delete for its own ACK removes a row, and only a pending one |
| `EngineTheorems.PublishDiscipline` | src/internal/gatewaysim/scheduler.go:612-644 | At most one unfinished attempt or undelivered result per message, each with the committed topic and bytes; the in-flight set never exceeds MaxInflight; until cancellation an entry is publishing exactly while its attempt exists |
| `EngineTheorems.ResultIsWhatItSays` | src/internal/gatewaysim/scheduler.go:633-644 | A PUBACK consumed by the engine starts the ACK wait of its own entry, a failure backs it off within the bounds, and no other entry, row or attempt changes |
| `EngineTheorems.RetryIsWhatItSays` | src/internal/gatewaysim/scheduler.go:489-510 | The engine's retry step leaves an entry not due alone, publishes a due backoff once, and drops an overdue ACK wait exactly if its row is no longer pending, else backs it off |
| `EngineTheorems.ResultGetsThrough` | src/internal/gatewaysim/scheduler.go:612-628 | A finished publish can hand over its result even when the result queue, which never exceeds MaxInflight, is full |
| `EngineTheorems.AdmittedInOrder` | src/internal/gatewaysim/scheduler.go:557-561 | Within a run rows are admitted at most once, in strictly increasing row id |
| `EngineTheorems.ReplayBeforeGeneration` | src/internal/gatewaysim/scheduler.go:457-483 | A batch is generated only while every pending row is in flight and a slot is free |
| `EngineTheorems.PageCapUnreachable` | src/internal/gatewaysim/scheduler.go:517-553 | In no interleaving is a second page read or the page cap reported |
| `EngineTheorems.FiniteRun` | src/internal/gatewaysim/scheduler.go:595-607 | Never more batches than the target, generation ends exactly there, Completed leaves nothing pending, a budget stop has rows left |
| `EngineTheorems.CompletedIsAcknowledged` | src/internal/gatewaysim/scheduler.go:746-764 | A completed run whose worker is at rest has acknowledged everything it found and everything it stored |
| `EngineTheorems.ReachableInv` | src/internal/gatewaysim/scheduler.go:397-451 | Every reachable state meets the whole invariant, for every interleaving of loop, worker, publishes, cancellation, crash and restart |
| `Ack.TopicExact` | src/internal/gatewaysim/ack.go:136-146 | A topic names message u exactly when it is gateways/<own>/acks/<text of u> with u not nil |
| `Ack.DecodeObject` | src/internal/gatewaysim/ack.go:152-198 | Accepts exactly a flat object with the expected names, each once, and yields its members |
| `Ack.ParseCommitAck` | src/internal/gatewaysim/ack.go:76-130 | Returns u if and only if topic and payload form a strictly valid commit ACK of the own gateway for u, with a committed_at that is a UTC time other than the zero time |
| `Ack.StrictMeans` | src/internal/gatewaysim/ack.go:76-130 | An ACK is strict for u exactly if it has at most 1024 bytes, the topic gateways/own/acks/u, one object of five members with nothing after it, saying version 1, telemetry_ack, committed, a spelling of u and an instant, u is an RFC 4122 UUID of version 4 or 7, and the instant is in UTC and not the zero time |
| `AckWorker.ACKProcessor.Admit` | src/internal/gatewaysim/ack.go:339-355 | Counts every delivery under exactly one heading, queues it only if not retained, not oversize and not over capacity, changes no row |
| `AckWorker.ACKProcessor.HandleAdmission` | src/internal/gatewaysim/ack.go:424-452 | Deletes only for a strictly valid own ACK; counts and signals only a confirmed delete of a pending row; any error is fatal and counts as none |
| `AckWorker.ACKProcessor.Run` | src/internal/gatewaysim/ack.go:405-417 | ACK fold: the rows gone are exactly the pending rows with a strictly valid own ACK among the admissions handled, the counter is their number, everything else is untouched; after a fatal delete at most that one row more |
| `AckWorker.OrderIrrelevant` | src/internal/gatewaysim/ack.go:405-452 | The acknowledged set depends neither on order nor on duplicates |
| `AckWorker.FoldStep` | src/internal/gatewaysim/ack.go:424-452 | One more admission removes its row exactly when it is still pending |
| `TransportTheorems.LifetimeSafety` | src/internal/gatewaysim/transport.go:647-720 | In every interleaving at most one lifetime is open, installed epochs strictly increase, the current lifetime is the last installed, and it is failed only while a goroutine that failed it is still before its clearCurrent |
| `TransportTheorems.OnlyOwnCallbackClears` | src/internal/gatewaysim/transport.go:1001-1008 | A step withdraws the current lifetime exactly if it is the clear of that lifetime's own callback or supervisor, or Stop; it is never replaced directly |
| `TransportTheorems.PublishAccounting` | src/internal/gatewaysim/transport.go:555-642 | Slots taken equal the calls holding one plus the invocations not yet returned, at most MaxInflight; running invocations belong to the latest lifetime and none runs while the supervisor opens one |
| `TransportTheorems.NoOpAfterClose` | src/internal/gatewaysim/transport.go:185-242 | Over any run, no operation begins on a lifetime once its closeSocket has run |
| `TransportTheorems.StuckForever` | src/internal/gatewaysim/transport.go:879-911 | Once a teardown is stuck the transport is never ready again and no further lifetime is opened or installed, over any run |
| `TransportTheorems.StopIsFinalIff` | src/internal/gatewaysim/transport.go:444-476 | After Stop took the current lifetime the transport can become ready again if and only if a connection attempt was past its dial and had not failed |
| `TransportTheorems.StopMayComeTooEarly` | src/internal/gatewaysim/transport.go:444-476 | Such a Stop exists: one whose context ends while the supervisor, its SUBACK granted, is about to install |
| `TransportTheorems.ReachableInv` | src/internal/gatewaysim/transport.go:656-720 | Every reachable state meets the whole transport invariant; what the supervisor then does is stated by ExitHasACause and CanAlwaysRecover |
| `TransportRecovery.ExitHasACause` | src/internal/gatewaysim/transport.go:656-720 | The supervisor has returned only if the transport was stopped, cancelled or stuck |
| `TransportRecovery.CanAlwaysRecover` | src/internal/gatewaysim/transport.go:697-719 | From every reachable state that is neither shut down nor stuck nor about to record a stuck teardown, some steps lead to a ready transport, and if the current lifetime had failed, to one under a greater epoch |
| `TransportRecovery.ReachableAlert` | src/internal/gatewaysim/transport.go:853-863 | No wake-up is lost: a lifetime that failed or was withdrawn while the supervisor waits on it has been woken or a goroutine on its way will wake it |
| `TransportPublish.ReachableOrderly` | src/internal/gatewaysim/transport.go:233-242 | In every interleaving a closed socket belongs to a lifetime already marked failed |
| `TransportPublish.BeginsOnlyOpen` | src/internal/gatewaysim/transport.go:585-612 | A publish begins only on the latest lifetime and only while it is neither closed nor failed, with the slot its call took |
| `TransportPublish.UnconfirmedTakesDown` | src/internal/gatewaysim/transport.go:615-652 | An unconfirmed publish by its own steps leaves its lifetime failed, closed, not current and the supervisor woken, and touches no other |
| `TransportPublish.ReadyPublishes` | src/internal/gatewaysim/transport.go:555-612 | On a ready transport with a slot free a publish comes to run on the current lifetime and changes nothing else |
| `TransportPublish.UnusableRefused` | src/internal/gatewaysim/transport.go:566-597 | A publish that finds its lifetime failed or unsubscribed returns at once, starts nothing and keeps no slot |
| `TransportStop.NoNewLifetime` | src/internal/gatewaysim/transport.go:429-442 | After a shutdown no lifetime is opened over any run, except the one the supervisor had already decided to open |
| `TransportStop.StopReconnectOnlyFlags` | src/internal/gatewaysim/transport.go:429-442 | StopReconnect sets both flags and leaves the current lifetime to serve |
| `TransportStop.StopTearsDown` | src/internal/gatewaysim/transport.go:444-476 | A Stop that finds a current lifetime withdraws it, fails it and closes its socket before it waits for its invocations |
| `TransportStop.SupervisorReturns` | src/internal/gatewaysim/transport.go:656-720 | After a shutdown the supervisor can return from every state that meets the invariant, without a stuck teardown unless it was about to record one |
| `TransportObjects.Lifetime.BeginOp` | src/internal/gatewaysim/transport.go:185-193 | Begins an operation exactly on a lifetime neither closed nor failed |
| `TransportObjects.Connection.OpenLifetime` | src/internal/gatewaysim/transport.go:725-726 | A fresh lifetime under the next epoch is the step that opens one |
| `TransportObjects.Connection.InstallCurrent` | src/internal/gatewaysim/transport.go:990-999 | Installs exactly a usable lifetime |
| `TransportObjects.Connection.ClearCurrent` | src/internal/gatewaysim/transport.go:1001-1008 | Clears only the lifetime it was called for; pointer identity and epoch agree |
| `TransportObjects.Connection.TakeCurrent` | src/internal/gatewaysim/transport.go:1010-1019 | Hands out the current lifetime and leaves none |
| `TransportObjects.Connection.Ready` | src/internal/gatewaysim/transport.go:501-507 | Ready exactly with a current, subscribed, not failed lifetime and no stuck teardown |
| `TransportObjects.Connection.FailCurrent` | src/internal/gatewaysim/transport.go:647-652 | Undisturbed, its four steps leave the lifetime failed, closed, woken and not current |
| `TransportObjects.Connection.OnLost` | src/internal/gatewaysim/transport.go:853-859 | Undisturbed, it leaves the lifetime failed, woken and not current, its socket as it was |
| `GraphTheorems.SerialisedInCommitOrder` | src/internal/gateway/postgres_sensor_provisioning.go:15-210 | From any well-formed graph, after any interleaving of statements, commits, lost confirmations and aborts: the graph is well formed, it and every reply are those of the finished calls run one at a time in the order they ended; and each finished call was, in the graph just before it, authorised if not refused, refused exactly for a reason the tables show, and had exactly the effect its fields ask for |
| `GraphTheorems.NoDeadlock` | src/internal/gateway/postgres_sensor_provisioning.go:15-210 | In every reachable state with a transaction open some transaction can take its next step: the row locks never form a cycle |
| `GraphTheorems.UpdatedAtNeverRegresses` | src/internal/digitaltwin/postgres_gateway_patch.go:155-191 | With a database clock that does not go back, no twin's updated_at ever does, over any run |
| `GraphTheorems.ReplyIsStored` | src/internal/digitaltwin/postgres_sensor_patch.go:158-210 | What a caller is told at commit is what the tables then hold and what it asked for |
| `GraphTheorems.CommitProtects` | src/internal/digitaltwin/postgres_sensor_patch.go:77-120 | A commit leaves alone every row another transaction has locked |
| `GraphSafety.StatementStep` | src/internal/gateway/postgres_sensor_provisioning.go:166-240 | Every statement of every call either carries on what the transaction may rely on, or refuses exactly as the atomic call would at that moment |
| `GraphSafety.CommitMatches` | src/internal/digitaltwin/postgres_gateway_patch.go:140-201 | The buffered writes of a transaction are the whole atomic change and its reply is that call's reply |
| `Graph.ExpectedKeeps` | src/internal/gateway/postgres_gateway_provisioning.go:45-77 | Each atomic call keeps one owner and one same-named twin with state per gateway, one same-named twin with state and hasSensor edge per sensor, and no orphans |
| `Graph.ReplyIsCommittedRow` | src/internal/gateway/postgres_gateway_provisioning.go:45-77 | Reply and stored row agree for all four calls |
| `Graph.ExpectedJustified` | src/internal/digitaltwin/postgres_sensor_patch.go:60-120 | Forbidden exactly for a missing administrator flag or a row that is not the owner's, NotFound exactly for an unknown owner, an absent entity or a caller without a row, Conflict exactly for a create with other values; what is not refused has the administrator flag or the owner's row its mode demands |
| `Graph.ExpectedEffect` | src/internal/gateway/postgres_gateway_provisioning.go:45-117 | What is not refused creates or edits exactly its own rows, with the fields asked for, and leaves every other row, membership, twin, state and edge as it was |
| `Graph.WellFormedMeans` | src/internal/gateway/postgres_gateway_provisioning.go:45-117 | Read off the tables: one owner per gateway, one canonical twin with state under its name, one linked twin per sensor, and no twin, membership or edge besides |
| `Graph.ReplayIsNoOp` | src/internal/gateway/postgres_sensor_provisioning.go:199-240 | A successful create sent again answers the same row, not created, and changes nothing |
| `Graph.SameValuePatch` | src/internal/digitaltwin/postgres_gateway_patch.go:123-153 | A PATCH to the stored values changes nothing, timestamp included |
| `GraphVetting.SuccessMeansInOrder` | src/internal/digitaltwin/postgres_gateway_patch.go:94-121 | On a graph that may be corrupt, a call that gets to its commit leaves owner, twin, state, name and edge of its own entity in order; corruption it meets is refused and never repaired |
| `GraphVetting.InOrderMeans` | src/internal/digitaltwin/postgres_gateway_patch.go:94-121 | In order means, row by row: the sole owner of a new gateway, its one gateway twin with state under its name, and a sensor's twin with state, name and edge |
| `GraphVetting.SensorCallsShareTheParent` | src/internal/digitaltwin/postgres_sensor_patch.go:60-86 | Sensor PATCHes and either-mode creates on different sensors of a gateway never wait for each other |
| `GraphVetting.OtherCreatesOwnTheParent` | src/internal/gateway/postgres_sensor_provisioning.go:15-60 | An administrator's or owner's create holds its gateway row alone: whoever else locks that row waits |
| `GraphVetting.VettedStep` | src/internal/gateway/postgres_sensor_provisioning.go:166-240 | On any graph, a statement that goes on keeps on record what the earlier ones checked |
| `Repository.Repository.Perform` | src/internal/gateway/postgres_gateway_provisioning.go:15-117 | A call running alone ends, on any graph the foreign keys allow: a success was authorised by the administrator flag or the caller's owner row in the graph before it and leaves its own part in order; a refusal or a commit that did not land changes nothing; on a well-formed graph each refusal has exactly its reason, a success exactly its effect, and the graph stays well formed |
| `Identity.ParseExact` | src/internal/digitaltwin/identity.go:69-116 | Parsing accepts a string as u if and only if u is valid and the string is its printed URN |
| `Identity.PrintInjective` | src/internal/digitaltwin/mapper/identity.go:7-15 | Distinct valid identities have distinct URNs |
| `Identity.Fits` | src/internal/digitaltwin/identity.go:69-72 | The 160-byte cap never rejects a valid URN |
| `CursorText.KnownUrns` | src/internal/digitaltwin/identity.go:69-116 | Known URNs parse to their ids; the reserved backend_service is refused as a gateway and accepted as a sensor |
| `CursorText.KnownIds` | src/internal/gateway/identifier.go:8-32 | Ids of 1 to 64 letters, digits, underscores and hyphens with a letter or digit first are accepted, and known bad ones refused |
| `Base64.DecodeEncode` | src/internal/digitaltwin/cursor.go:395-409 | Unpadded base64url decoding undoes encoding, for every byte string |
| `Base64.EncodedLength` | src/internal/digitaltwin/cursor.go:61-68 | The encoded length is ceil(4n/3) |
| `Base64.AlphabetIs` | src/internal/digitaltwin/cursor.go:61-68 | The 64 digits are those of the URL-safe alphabet of section 5 of RFC 4648, in order |
| `Base64.TestVectors` | src/internal/digitaltwin/cursor.go:61-68 | The test vectors of section 10 of RFC 4648 without padding |
| `Base64.DecodedLength` | src/internal/digitaltwin/cursor.go:405-409 | Any number of digits decodes but one that leaves a single digit over, to floor(3n/4) bytes |
| `Json.DecodeObject` | src/internal/digitaltwin/cursor.go:80-144 | The token loop computes the recursive reader: known keys once each, strings without NUL, null where allowed, nothing after the object |
| `Json.ReadShownObject` | src/internal/digitaltwin/cursor.go:42-59 | Reading back a printed object of plain members gives those members |
| `Json.ReadShownExactly` | src/internal/digitaltwin/cursor.go:80-144 | A printed object of plain members is read if and only if its keys are known and distinct and null stands only where allowed |
| `JsonTail.NothingFollows` | src/internal/digitaltwin/cursor.go:136-144 | After an accepted object only space is tolerated, whatever else follows is refused |
| `CursorText.EscapeReads` | src/internal/digitaltwin/cursor.go:80-144 | Four hexadecimal digits in either case after a u escape read as the UTF-8 of their number |
| `Cursor.HasForbiddenEscapes` | src/internal/digitaltwin/cursor.go:426-447 | True exactly if an escaped NUL or surrogate escape starts somewhere |
| `CursorText.ForbiddenMeans` | src/internal/digitaltwin/cursor.go:426-447 | Of escapes with four digits exactly NUL and the surrogates are refused |
| `CursorText.Utf8Exact` | src/internal/digitaltwin/cursor.go:413-415 | Text passes the UTF-8 check if and only if it encodes a sequence of Unicode scalar values |
| `CursorText.AcceptedStringsAreSound` | src/internal/digitaltwin/cursor.go:395-423 | Every JSON string in an accepted cursor, however escaped, decodes to well-formed UTF-8 without NUL |
| `Cursor.UnpackCursor` | src/internal/digitaltwin/cursor.go:395-423 | Hands out only text within the cap that is valid UTF-8, without NUL or forbidden escapes, and gives packed text back unchanged |
| `Cursor.UnpackPack` | src/internal/digitaltwin/cursor.go:395-423 | Plain text up to the decoded cap survives packing and unpacking; the encoded cap then never applies |
| `CursorText.LineBreaksAreSkipped` | src/internal/digitaltwin/cursor.go:395-409 | A packed cursor with line breaks after it unpacks to the same text up to 768 bytes in all, and is refused past them |
| `Cursor.ListRoundTrip` | src/internal/digitaltwin/cursor.go:29-71 | A list cursor can be made exactly for a valid URN that matches the filters, no size cap refuses one, and decoding and validating give back key and filters |
| `CursorText.MatchesMeans` | src/internal/digitaltwin/cursor.go:29-41 | A list cursor exists exactly for the URN of an entity of the gateway and type the filters name |
| `CursorText.ListDecodesExactly` | src/internal/digitaltwin/cursor.go:74-184 | Whatever plain values stand under k, g and t, the cursor decodes exactly if k is a valid URN and t is null, Gateway or Sensor |
| `CursorText.ListText` | src/internal/digitaltwin/cursor.go:43-59 | The canonical JSON inside a list cursor, byte for byte |
| `Cursor.ParseListBinds` | src/internal/digitaltwin/cursor.go:187-238 | Whatever is accepted is bound to the request's filters and could have been issued for them |
| `Cursor.DecodeListCursor` | src/internal/digitaltwin/cursor.go:74-184 | The decoder undoes the encoder, and whatever else it accepts names a valid URN and type |
| `Cursor.RelationRoundTrip` | src/internal/digitaltwin/cursor.go:241-276 | The same for relationship cursors: encodable exactly for a gateway and a sensor of it |
| `CursorText.LinkedMeans` | src/internal/digitaltwin/cursor.go:241-260 | A relationship cursor joins the URN of a gateway to that of a sensor of the same gateway |
| `CursorText.RelationDecodesExactly` | src/internal/digitaltwin/cursor.go:279-370 | Whatever plain texts stand under s, r and k, the cursor decodes exactly if they are a gateway, hasSensor and a sensor of that gateway |
| `Cursor.ParseRelationBinds` | src/internal/digitaltwin/cursor.go:373-393 | Whatever is accepted for a source is bound to it and names a sensor of that gateway |
| `Cursor.DecodeRelationshipCursor` | src/internal/digitaltwin/cursor.go:279-370 | The decoder undoes the encoder and yields only linked URNs |
| `Paging.ListEntities` | src/internal/digitaltwin/postgres_twin_reader.go:37-147 | Each error exactly when its cause holds (InvalidInput for a limit above 200 or a filter that is no valid gateway id or type); otherwise the first rows after the cursor, 50 by default, and a next cursor exactly when more follow, which names the last row shown |
| `Paging.RelationshipPage` | src/internal/digitaltwin/postgres_twin_reader.go:169-366 | A page goes only to a member of the gateway, whose row and twin exist; each error exactly when its cause holds; a page is the first rows after the cursor with a next cursor exactly when more follow |
| `Paging.ReadAll` | src/internal/digitaltwin/postgres_twin_reader.go:76-147 | Following the cursors yields the authorised filtered rows in byte order, each once, in ceil(n/limit) pages, if and only if every page break falls on an id a cursor can carry |
| `Paging.ReadAllRelationships` | src/internal/digitaltwin/postgres_twin_reader.go:202-366 | The same for relationships |
| `Paging.CanonicalBreakable` | src/internal/digitaltwin/postgres_twin_reader.go:133-142 | With canonical ids following the cursors never fails |
| `Paging.LinkedBreakable` | src/internal/digitaltwin/postgres_twin_reader.go:329-342 | With canonical ids relationship pages never fail either |
| `GraphPaging.ReachableGraphsPage` | src/internal/digitaltwin/postgres_twin_reader.go:76-147 | From a well-formed graph with valid ids, over any run of calls with validated ids, ids stay valid and no listing of the graph, for any caller, filter and limit, nor any gateway's relationships, can fail at a page break |
| `GraphPaging.ListTwins` | src/internal/digitaltwin/postgres_twin_reader.go:76-147 | Following the cursors over such a graph shows exactly the twins the caller may list, each once, in byte order |
| `GraphPaging.ListSensors` | src/internal/digitaltwin/postgres_twin_reader.go:202-366 | Following the relationship cursors of a gateway shows exactly its sensors, each once, in byte order |
| `GraphPaging.SensorsPage` | src/internal/digitaltwin/postgres_twin_reader.go:202-366 | On a well-formed graph, with an accepted limit and a cursor that is absent or parses, a caller without a membership row gets Missing and a member a page of the gateway's sensors only |
| `GraphPaging.TableExists` | src/internal/digitaltwin/postgres_twin_reader.go:76-107 | Every graph with valid ids has its rows in strict byte order of entity_id, so the results above are about every such graph |
| `Paging.ForeignIdStopsPaging` | src/internal/digitaltwin/postgres_twin_reader.go:133-142 | An id that is no URN stops a client at a page break |
| `Paging.WhereOrdered` | src/internal/digitaltwin/postgres_twin_reader.go:76-107 | A listing is exactly the selected rows, in strict byte order |
| `Paging.AboveRow` | src/internal/digitaltwin/postgres_twin_reader.go:95-103 | Past the key of a row come exactly the rows after it |
| `Text.LessIsByteOrder` | src/internal/digitaltwin/postgres_twin_reader.go:95-107 | The order of a listing is that of the first differing byte, a prefix before its extensions |
| `Latency.LatencyTracker.RecordFirstPublish` | src/internal/gatewaysim/latency.go:105-136 | First registration wins, a full tracker takes no new id, every call is counted once; in-flight and completed ids stay disjoint and within capacity |
| `Latency.LatencyTracker.RecordAckDeleted` | src/internal/gatewaysim/latency.go:140-172 | One non-negative sample per known message; the overflow branch is unreachable; every call is counted once |
| `Latency.LatencyTracker.TakeSnapshot` | src/internal/gatewaysim/latency.go:284-314 | min, P50, P95 and max of the samples, in that order, P50 and P95 nearest-rank percentiles |
| `Latency.NearestRank` | src/internal/gatewaysim/latency.go:269-281 | The chosen sample is the p-th percentile: at least p percent of samples do not exceed it and fewer than p percent are below it |

## Left out

- TLS, dialing, the Paho client, the classification of connect errors and the SUBACK check: a
  handshake and a publish succeed or fail nondeterministically.
- SQLite and PostgreSQL: transactional stores with unique keys, increasing row ids, row locks and
  per-statement reads are assumed, not proved. The twin row locks of the PATCH calls are not
  modelled, because whoever takes one already holds the gateway or sensor row exclusively.
- Surrogate UUIDs of twins: a twin is identified with its URN. Fresh message ids from the UUID
  library are assumed never to repeat.
- Role changes, membership removal and telemetry writes running beside the graph transactions;
  the `FOR SHARE` lock on a membership row therefore has nothing to conflict with.
- Input validation before a graph transaction begins, the platform-admin and profile lookups:
  their answers are part of the call.
- encoding/json beyond flat objects, google/uuid and time.Parse in the ACK parser: the payload is
  the decoded document and the library parsers are parameters with the laws they document.
- The telemetry batch validator and serialiser: a parameter that is assumed to refuse sequence
  overflow. `syntheticValue` and the sample values themselves.
- Exact floating point: jitter factors are reals, scaled and truncated.
- Retry.RetryDelay: doubles unbounded integers; the source doubles int64 nanoseconds, which the
  configuration bounds keep far from overflow.
- Latency.LatencyTracker.TakeSnapshot: leaves out the run, generation and drain durations, and the
  disabled tracker, which records nothing.
- The engine, the transport and the graph transactions interleave as steps on values: an object's
  identity appears only in `TransportObjects.dfy` and in the single-threaded classes, and Go's
  memory model is taken to be sequentially consistent for the atomic flags.
- TransportObjects.Connection.FailCurrent: states an undisturbed call; its interleavings are steps
  of `Transport.dfy`.
- TransportObjects.Connection.OnLost: likewise.
- Which publish outcome Paho reports, the grace wait after a timed-out publish, and counters and
  logs of the transport.
- Liveness: that a pending row is eventually delivered needs a fair scheduler, network and broker;
  proved is that the loop, the result queue and the transport can always go on.
- GetDetail for sensors, temporal history, HTTP handlers, authentication middleware, credential
  composition, configuration loading and the command line: branch-by-branch code that would only
  add easy members.
