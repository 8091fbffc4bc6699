# The transactional outbox, modelled and proved

A registration writes a user and an outbox row in one transaction. Any number of relays claim
pending rows with `FOR UPDATE SKIP LOCKED`, produce each to Kafka, mark it in the same
transaction and commit; a purge deletes published rows; a human may put a parked row back. The
design promises guarantees about whole runs of this system - nothing lost, no phantom, mutual
exclusion, bounded and identical duplicates, order, drain - each resting on several small
functions together. This project states and proves them.

It has two layers.

**A step system** (`Protocol.dfy`). The state is the committed `users` and `outbox` tables, the id
sequence, the open registration and relay transactions with their uncommitted overlays and row
locks, the broker's log, the produce calls whose relay has died, and a clock. A step is one
statement of one transaction, one produce call, one purge page or one manual replay, and everything
the environment may choose - who moves next, the ids a claim takes, whether a produce is
acknowledged, refused, or fails although the broker appended, which transaction or session dies -
is part of the step. `Enabled` and `Apply` follow the SQL: no UPDATE looks at the status it
overwrites, ids are taken at insert, rows become visible at commit, and nothing ties a user to a
row. Three fields are history: `journal` (every row ever inserted), `purged`, and the row id each
log entry is tagged with. `purged` and the tag decide nothing; `journal` stands for the UUIDs
already minted, so that "no UUID is minted twice", which the source relies on, can be said.

- `Invariant.dfy`: what every step keeps. `Safety.dfy`, `Accounting.dfy`: the guarantees and the
  counts, over every run from empty tables. `Stamps.dfy`: what the relay's own columns say, and
  since when. `FirstPublication.dfy`, `DrainOrder.dfy`, `Overtaking.dfy`, `LateRegistration.dfy`:
  when publish order holds, and how it fails.
  `Draining.dfy`, `Arrivals.dfy`, `ZeroWait.dfy`: what passes do to the backlog, and when they end.
- `Wire.dfy`: the record a row becomes, its header list, routing and the two error classes.

**Classes that refine it.** `Cluster.dfy` holds the shared state; before every call a script lets
other transactions take any enabled steps and decides whether this call fails and what the broker
answers. Quantifying over the script quantifies over interleavings and faults, and an error is always
traced to the beat of the script that failed, or to the state that refused. The use cases and
adapters are classes over that cluster (`PublishPendingBatch.dfy`, `Registration.dfy`,
`PurgePublished.dfy`); each method's contract says that it only continues the cluster's run of
steps, so every theorem about runs applies to it. `RelayLoop.dfy` is the driver loop with its clock,
`BackToBack.dfy` that loop over real passes, `Backoff.dfy` the retry arithmetic on a 64-bit integer.
A cluster may be told to hold still: then the clock stands and nothing new becomes due, while the
other relays go on as they like.

Where the code differs from what is written about it, the model follows the code. Each promise that
is not kept on every input has a theorem saying exactly when it is:

- The comment at `internal/accounts/infrastructure/postgres/outbox_relay.go:49-51` says that LIMIT is
  applied before locked rows are skipped; the integration test at
  `internal/accounts/infrastructure/postgres/outbox_relay_integration_test.go:98-121` wants two full,
  disjoint batches. The claim here is the lowest `limit` due rows that nobody else holds. Safety is
  proved for any ascending set of such rows.
- Publish order is not unconditional. First publications ascend, across passes that roll back after lost
  acks and transient failures, crash, or leave a produce call behind, as long as rows become visible and
  available in id order, no reschedule of a row that has yet to be published is committed, and nobody
  replays a pending row (`FirstPublicationInIdOrder`). A backlog comes out in id order, however the relay waits and
  drains, if and only if no pending row becomes due later than a higher one
  (`BacklogInIdOrderExactly`), and one claim keeps the order if and only if no pending row below a
  claimable one is locked or not yet due (`ClaimKeepsOrderExactly`). A transient failure moves one
  row's `available_at`, and any other due row overtakes it (`OneTransientFailureReorders`). Order also
  fails without any error: a row's `available_at` is the start of its registration's transaction and
  the claim's `now()` is the start of the relay's, so a row whose transaction began late is not yet
  due while one that began early is (`VisibleOrderIsNotEnough`).
- A user and its event row commit together if the aggregate still holds its registration. The
  aggregates are drained before the COMMIT, so calling `Do` again with the same ones after a failed
  COMMIT commits a user whom no event announces (`RetryWithSameAggregate`); `DrainedRetry` and
  `DrainedRetryRun` do so from any empty tables, with nothing but a lost COMMIT. `Do` gives every user
  a row if and only if each aggregate still held an event; users and rows are in bijection throughout
  a run if and only if every registration it commits pairs its own (`OneEventExactly`), as those of
  `RegisterUser` do.
- A COMMIT that returns an error may have been applied. "Every row it claimed is still pending"
  (`internal/accounts/presentation/worker/relay.go:274-276`) is true of a failed pass if and only if
  it rolled back or had nothing but a reschedule to commit (`BatchStillPending`); `AppliedCommitError`
  is an input for which it is not. A failed DELETE of the purge may have been applied as well.
- "A backoff lies in the future" holds if and only if both the base and the cap are at least two
  nanoseconds (`BackoffIsPositive`): one nanosecond with a jitter below 1 is truncated to nothing, and
  `internal/platform/config/config.go:202-221` lets it through, like a cap that is not positive. On
  that condition, and on no other, passes without a wait between them are at most as many as the rows
  that were due (`ZeroWaitBoundExactly`).
- `min(cap, base * 2^n)` is missed by one nanosecond when a doubling lands exactly one below the cap
  (`LadderIsTheFormula`). The doubling stays in int64 for every cap that is not negative, and for no
  negative one (`LadderFitsExactly`), which the configuration lets through, too; `After` is modelled
  with the wrap-around.
- A transient failure does not always wait IdleMax: a full batch is tested first (`Relay.NextWait`).
- The warning that the drain grace expired does not mean that a pass rolled back. It is given if and
  only if the loop stops after the grace (`Relay.Run`), which a late timer is enough for
  (`WarnsWithoutCancelling`). A pass was cancelled and rolled back if and only if the last one would have
  outlived the grace and reports an error that is not that of an applied COMMIT (`Drive`);
  only then are its rows pending and what it had published comes again (`WarningComesTrue`).
  The clean-stop line does mean that no pass was cancelled.
- The manual UPDATE that puts a parked row back (`README.md:113-116`) has no guard on the status: it
  also makes a published row pending again, and `DuplicateAccounting` counts what comes of it.
- The default arm of the error switch in `publishBatch` is unreachable once `Topics.For` and
  `classify` are wired in; it is an assertion here.

## Model

| member | source | states |
|---|---|---|
| Safety.NothingLost | internal/accounts/application/publish_pending_batch.go:136-197 | In every run, a row committed at any moment is ever after still unpublished with its content intact, or its exact record is in the broker's log, purged or not |
| Safety.EveryRowWasBorn | internal/accounts/infrastructure/postgres/uow.go:64-90 | Every row ever in the table came into it by the commit of one transaction that inserted it; if that transaction paired its users and rows, the row's user was inserted by the same step |
| Safety.NoPhantom | internal/accounts/infrastructure/postgres/uow.go:64-90 | Every broker record is, field by field, the record of a row that one transaction committed, together with its user if it paired them, and neither was committed before |
| Safety.ConsumerReads | internal/accounts/application/publish_pending_batch.go:202-254 | Over every run, of every broker record: the topic is the one its aggregate type routes to, the key the aggregate id, the value the payload; `ce_id`, `ce_type`, `ce_specversion`, `schema_version` and `content-type` say what the row says, and every other header is stored with it |
| Safety.SameKeyExactly | internal/accounts/application/publish_pending_batch.go:216-219 | Two broker records have the same key, and so the same partition of a topic, if and only if their rows are about the same aggregate |
| Safety.DuplicatesAreExactCopies | internal/accounts/application/publish_pending_batch.go:202-254 | Two broker records carry the same event id exactly when they are the same record of the same row, header list included: deduplicating by id is sound and complete |
| Safety.LegalTransitions | internal/accounts/infrastructure/postgres/outbox_relay.go:115-172 | Though no UPDATE guards the status, a committed row changes only from pending by the commit of the relay that locks it, or to pending by a replay; it comes in as pending by a registration, and goes out as published by the purge |
| Safety.MarkTouchesOneRow | internal/accounts/infrastructure/postgres/outbox_relay.go:155-172 | Whenever a mark runs, its row is committed, pending, locked by this transaction alone and unmarked: the one-row check never fails |
| Safety.MutualExclusion | internal/accounts/infrastructure/postgres/outbox_relay.go:97-113 | No row is locked by two open relay transactions, in any interleaving |
| Safety.OneEventExactly | internal/accounts/infrastructure/postgres/uow.go:64-90 | Users and ever-committed outbox rows are in bijection by aggregate id in every state of a run up to now if and only if every registration committed up to now pairs its own users and rows, which no constraint demands |
| Safety.OneEventPerRegistration | internal/accounts/application/register_user.go:46-68 | So in every run whose registrations are `RegisterUser`'s there are exactly as many rows ever committed as users, and one for each |
| Safety.UserWithoutRow | internal/accounts/infrastructure/postgres/tracker.go:34-51 | A run from any empty tables that commits a user and no row |
| Safety.DrainedRetryRun | internal/accounts/infrastructure/postgres/uow.go:64-90 | A run from any empty tables in which a registration that pairs user and row is rolled back, and the retry, drained, commits the user and no row |
| Safety.AbortLeavesNothing | internal/platform/postgres/pool.go:47-61 | A row of a rolled-back registration is in no later table and in no later log |
| Safety.AbortLeavesNoUser | internal/platform/postgres/pool.go:47-61 | A user of a rolled-back registration is committed later only by the commit of another transaction that inserted it |
| Safety.RunGrows | internal/accounts/application/publish_pending_batch.go:99-123 | Between any two states of a run nothing committed, journalled or logged is taken back |
| Safety.Reachable | internal/accounts/infrastructure/postgres/outbox_relay.go:85-113 | The invariant holds in every reachable state |
| Invariant.StepKeepsInv | internal/accounts/infrastructure/postgres/outbox_relay.go:105-200 | Every enabled step, of registration, relay, purge or human, keeps the invariant over tables, log, locks and open transactions |
| Invariant.RegCommitKeepsInv | internal/accounts/infrastructure/postgres/uow.go:64-90 | Committing a registration moves its users and rows over together, and keeps both unique keys and every open claim |
| Invariant.AppendKeepsInv | internal/accounts/infrastructure/postgres/outbox_repo.go:18-66 | An insert takes a fresh id, never handed out again even after a rollback |
| Invariant.ClaimKeepsInv | internal/accounts/infrastructure/postgres/outbox_relay.go:52-113 | A claim of any ascending set of due, unlocked rows keeps the locks of all open passes disjoint |
| Invariant.PublishKeepsInv | internal/accounts/application/publish_pending_batch.go:202-224 | A produce, whatever its outcome, keeps the invariant: what is appended is the committed row's record |
| Invariant.MarkKeepsInv | internal/accounts/infrastructure/postgres/outbox_relay.go:122-153 | A mark keeps the invariant: it changes no content column and publishes exactly an acknowledged row |
| Invariant.RelayCommitKeepsInv | internal/platform/postgres/pool.go:47-61 | Committing a pass keeps the invariant: its marks land on rows that no other open pass depends on |
| Invariant.PurgeKeepsInv | internal/accounts/infrastructure/postgres/outbox_relay.go:191-200 | A purge page keeps the invariant: it takes logged rows only, and none that a pass has locked |
| Invariant.ReplayKeepsInv | README.md:113-116 | Putting back a row that no relay has locked keeps the invariant, whatever the row's status |
| Invariant.LostKeepsInv | internal/accounts/application/publish_pending_batch.go:202-224 | A session and its locks lost during a produce call keep the invariant: what the call may still append is a committed row's record |
| Invariant.CurrentRow | internal/accounts/infrastructure/postgres/outbox_relay.go:155-172 | The row a pass is about to produce or mark is the committed, pending, unmarked row it claimed |
| Accounting.TallyBalances | internal/accounts/application/publish_pending_batch.go:141-152 | At every moment the copies of a row in the log are its settled acks, its acks in rolled-back passes, its lost acks, its orphaned produces and its open ack; and what was settled and not put back by hand was settled once |
| Accounting.CausesAreSteps | internal/accounts/application/publish_pending_batch.go:86-93 | Each cause of a copy is counted once for each step of the run that is one: a rollback or a lost session with an ack, a failed produce that landed, an orphaned one, a replay of the published row |
| Accounting.DuplicateAccounting | internal/accounts/application/publish_pending_batch.go:86-93 | With no pass holding an open ack, the places of a row in the log are as many as (1 if it is published or purged) + the steps that undid an ack of it + the failed produce calls of it that landed + the orphaned ones + its replays after it was published |
| Accounting.RollbackBlastRadius | internal/accounts/application/publish_pending_batch.go:86-93 | A rolled-back or lost pass adds one possible duplicate to each row it had acknowledged and to no other, and those are at most its batch, which is at most BatchSize |
| Accounting.LostProduceMayLand | internal/accounts/application/publish_pending_batch.go:202-224 | A session that dies during a produce call leaves its row pending and unlocked, and that call may still append one more record of the row |
| Accounting.AttemptsCountDeferrals | internal/accounts/infrastructure/postgres/outbox_relay.go:127-141 | Over any run `attempts` is the number of committed transient failures of the row since its insert or last replay; rolled-back ones do not count |
| Accounting.MarkHasCause | internal/accounts/application/publish_pending_batch.go:154-185 | A committed pass that parks or reschedules a row had a produce call of it fail permanently or transiently, and last_error tells that call's error |
| Accounting.ParkedOnlyByPermanentError | internal/accounts/application/publish_pending_batch.go:154-161 | A failed row has stood as it is since the commit of a pass in which producing it failed permanently, with the error that its last_error tells; no number of transient failures parks it |
| Stamps.InsertedFresh | internal/accounts/infrastructure/postgres/outbox_repo.go:18-22 | Every row ever in the table came in by one INSERT of one transaction, under the next id of the sequence, pending, never tried, without error or publish time, and available since that transaction's BEGIN |
| Stamps.CommitStamps | internal/accounts/infrastructure/postgres/outbox_relay.go:115-153 | At every commit of a pass, column by column: an acknowledged row is published with the pass's now() and no last error; any other that it marked is failed, or pending with one attempt more, with its error; no other row and no other column changes |
| Stamps.PublishedWhen | internal/accounts/infrastructure/postgres/outbox_relay.go:122-125 | A published row says when the pass began whose commit published it; that pass had its ack, its last_error is empty, and it has not changed since |
| Stamps.DeletableExactly | internal/accounts/infrastructure/postgres/outbox_relay.go:191-200 | In any state a purge may delete a row if and only if it is published and its retention is over |
| Stamps.DeletableOnceRetained | internal/accounts/infrastructure/postgres/outbox_relay.go:191-200 | A row published at any moment has its publish time, not later than the clock; once that time and the retention have passed it is purged, or was replayed in between, or may be deleted |
| Stamps.ReplayedIsClaimable | README.md:113-116 | A replay makes the row pending, untried, without error and available now, keeps its content and id, changes nothing else, and the next pass to begin may claim the row |
| FirstPublication.FirstPublicationInIdOrder | internal/accounts/application/publish_pending_batch.go:125-138 | With one relay transaction at a time, rows visible in id order and none that waits in the table available later than the next registration began, a fixed verdict per row, no committed reschedule of a row that has yet to be published and no replay of a pending one, first occurrences in the log have increasing ids: across passes that are rolled back, for lost acks and transient failures too, crashed, or cut off in the middle of a produce call that goes on |
| FirstPublication.PassProducesAscending | internal/accounts/application/publish_pending_batch.go:128-138 | In any run whatsoever, one pass produces strictly increasing ids |
| FirstPublication.ClaimKeepsOrderExactly | internal/accounts/infrastructure/postgres/outbox_relay.go:105-113 | Claims of every size leave no lower pending row behind if and only if no pending row below a claimable one is locked or not yet due |
| DrainOrder.BacklogInIdOrderExactly | internal/accounts/infrastructure/postgres/outbox_relay.go:105-113 | From any state without an open pass, a fault-free relay of any batch size publishes the accepted pending rows in id order at all sequences of waits, if and only if no accepted pending row becomes due later than a higher one |
| DrainOrder.DrainEffect | internal/accounts/application/publish_pending_batch.go:128-138 | Draining at one time settles exactly the rows due then and logs their accepted ones in id order, whatever the batch size |
| DrainOrder.LaterIsLoggedLater | internal/accounts/infrastructure/postgres/outbox_relay.go:105-113 | A row that becomes due later than another is logged after it at the times that the two fix |
| DrainOrder.DrainAllIsARun | internal/accounts/presentation/worker/relay.go:98-120 | Waiting and draining, again and again, is a run of the protocol |
| LateRegistration.VisibleOrderIsNotEnough | migrations/accounts/0001_init.sql:38 | For any two registrations, times and batch size a run from empty tables that meets every premise of the order theorem but the one about `available_at`: the lower row is visible alone, then both, and the higher one is published first |
| Overtaking.OneTransientFailureReorders | internal/accounts/application/publish_pending_batch.go:163-185 | Of the lowest due row and any other due row, whatever else is pending and however soon the first may be tried again, one transient failure publishes the other first: a run of one relay, every claim taking the lowest due rows |
| Overtaking.DeferringPass | internal/accounts/application/publish_pending_batch.go:163-185 | A pass that meets a transient failure first is a run that reschedules that one row, produces nothing and commits |
| Ordering.Lowest | internal/accounts/infrastructure/postgres/outbox_relay.go:111-112 | ORDER BY id LIMIT k: ascending, from the set, as many as there are up to k, all below what is left out |
| Ordering.LowestByRank | internal/accounts/infrastructure/postgres/outbox_relay.go:111-112 | An id is among the k lowest exactly when it is in the set and fewer than k members lie below it |
| Draining.ClaimByStateNeverSkips | internal/accounts/infrastructure/postgres/outbox_relay.go:85-113 | In any run a committed row is at any later moment delivered, parked or pending, and if pending a claim takes it exactly when it is due, unlocked and fewer than LIMIT such rows lie below it, whatever was claimed or became visible before |
| Draining.MarksByVerdict | internal/accounts/application/publish_pending_batch.go:141-185 | The marks of a pass that may commit publish exactly its acknowledged rows and reschedule exactly the row it stopped on |
| Draining.PassAccounting | internal/accounts/application/publish_pending_batch.go:136-197 | Claimed = published + permanent + transient + untouched, at most one transient, and rows are left untouched only behind one |
| Draining.CommitMovesBacklog | internal/accounts/infrastructure/postgres/outbox_relay.go:320-330 | At every commit of a pass in any run the pending count falls by published + permanent and the failed count rises by permanent |
| Draining.CommitMovesCounts | internal/accounts/infrastructure/postgres/outbox_relay.go:320-330 | The same for the table alone, and the published count rises by the acknowledged rows |
| Draining.BatchStillPending | internal/accounts/presentation/worker/relay.go:274-285 | After a pass has ended all rows it claimed are pending if and only if it did not commit, or committed nothing but a reschedule |
| Draining.ZeroWaitPassesTerminate | internal/accounts/presentation/worker/relay.go:201-205 | Between any two moments of a run with a still clock, nothing new pending and every committed reschedule in the future, working passes are at most as many as the due rows they took away, under any interleaving of relays and faults |
| ZeroWait.BackoffLandsLater | internal/accounts/application/publish_pending_batch.go:163-185 | With a base and cap of two nanoseconds or more, what a pass reschedules by the schedule comes back later than the failure was seen |
| ZeroWait.ZeroWaitOnSchedule | internal/accounts/presentation/worker/relay.go:201-205 | On such a schedule the bound on working passes holds of every run that reschedules by it |
| ZeroWait.ZeroWaitBoundExactly | internal/platform/backoff/backoff.go:54-62 | It holds of every run on the schedule if and only if both base and cap are at least two nanoseconds |
| Draining.FaultFreePass | internal/accounts/application/publish_pending_batch.go:64-97 | A fault-free pass with a fixed verdict per row is a run of protocol steps ending in the state AfterPass computes |
| Draining.DrainTakesCeilingPasses | internal/accounts/application/publish_pending_batch.go:293-297 | A due set of size D is emptied in exactly ceil(D / BatchSize) fault-free passes |
| Draining.SettledByRank | internal/accounts/infrastructure/postgres/outbox_relay.go:111-112 | A due row is still due after n fault-free passes if and only if at least n full batches lie below it: pass number rank / BatchSize + 1 settles it, no earlier and no later |
| Arrivals.SettledByRankWithArrivals | internal/accounts/infrastructure/postgres/outbox_relay.go:111-112 | With any registrations and any time between the passes, a due row is still due after n passes if and only if for no m up to n the first m batches are more than its rank and the lower rows that had become due by then; after that it is settled for good |
| Draining.CeilingIsQuotient | internal/accounts/application/publish_pending_batch.go:293-297 | That count is D / BatchSize rounded up |
| Draining.DrainIsARun | internal/accounts/presentation/worker/relay.go:98-120 | The whole drain is one run of protocol steps |
| Draining.BatchingRefinesOnePass | internal/accounts/application/publish_pending_batch.go:136-197 | For a fixed verdict per row, draining with any positive BatchSize leaves the same table and the same log as one pass over everything due |
| Wire.Classify | internal/accounts/infrastructure/kafka/publisher.go:81-124 | Every produce error is in exactly one class; permanent are exactly the broker's own non-retriable and unknown-topic errors |
| Wire.TopicFor | internal/accounts/application/topics.go:22-30 | Routes exactly the present, non-empty entries; anything else is a permanent error and in no other class |
| Wire.PublishHeaders | internal/accounts/application/publish_pending_batch.go:243-254 | The header map holds the stored and the five derived headers and nothing else, and no stored header shadows a derived one |
| Wire.ItoaRoundTrip | internal/accounts/application/publish_pending_batch.go:251 | The schema version is read back from its header exactly, negative ones too, from digits without a leading zero |
| Wire.RecordHeaders | internal/accounts/infrastructure/kafka/publisher.go:65-77 | The header list is strictly sorted by key, loses nothing and adds nothing, whatever order the map is read in |
| Wire.BeforeExactly | internal/accounts/infrastructure/kafka/publisher.go:57-60 | Header keys are compared as Go compares strings: at the first difference, where one has ended or has the lesser character |
| Wire.SortedListIsUnique | internal/accounts/infrastructure/kafka/publisher.go:57-60 | A header map has only one sorted list, so equal header sets are equal on the wire |
| Clusters.Cluster.Perform | internal/accounts/infrastructure/postgres/outbox_relay.go:162-172 | Whatever takes effect is one enabled step of the protocol |
| Clusters.Cluster.Draw | internal/accounts/infrastructure/postgres/outbox_relay.go:97-101 | Between two statements of a transaction the others may do anything, but not to that transaction - and any run of theirs that a script plays is taken to its end; while the cluster holds still, anything but moving the clock or making rows due |
| PublishPendingBatches.RelayOutbox.ClaimPending | internal/accounts/infrastructure/postgres/outbox_relay.go:52-113 | Fails exactly when the statement does, and then nothing is claimed; otherwise locks and returns the lowest due rows nobody else holds, at most `limit`, in id order, as one step of the run |
| PublishPendingBatches.RelayOutbox.MarkOne | internal/accounts/infrastructure/postgres/outbox_relay.go:115-172 | Fails exactly when the statement does, whatever others did meanwhile; otherwise one row that was pending and unmarked carries the mark, every column as the UPDATE says |
| PublishPendingBatches.BuildRecord | internal/accounts/infrastructure/kafka/publisher.go:41-47 | The record handed to the client is the one the protocol appends, with topic, key, value and headers as the contract promises |
| PublishPendingBatches.PublishPendingBatch.Publish | internal/accounts/application/publish_pending_batch.go:202-224 | It succeeds if and only if there is a topic and the broker acknowledges, with this row's record last in the log; an error is in exactly one class, permanent exactly for a missing topic, an unknown one or a broker error that is not retriable; the produce call is the run's last step, and appended if the broker did |
| PublishPendingBatches.PublishPendingBatch.Defer | internal/accounts/application/publish_pending_batch.go:163-185 | A transiently failed row is rescheduled one jittered rung of the ladder after the moment the failure is seen, at the attempts recorded before it |
| PublishPendingBatches.ReschedulesByFormula | internal/accounts/application/publish_pending_batch.go:163-185 | A row that a pass has rescheduled comes back between half and one and a half times min(cap, base * 2^attempts), a nanosecond more at most, after the moment of its failure, at the attempts it had before |
| PublishPendingBatches.PublishPendingBatch.Settle | internal/accounts/application/publish_pending_batch.go:141-194 | One outcome is counted at the ack and marked by its class; it stops the batch only if transient, and fails exactly when its last statement does; the unclassified arm is dead |
| PublishPendingBatches.PublishPendingBatch.PublishBatch | internal/accounts/application/publish_pending_batch.go:136-197 | The result's counts and failures are those of the transaction's marks, each failure with its row's event id and last_error; an error is a failed statement, and without a fault every row is published, or parked for want of a topic |
| PublishPendingBatches.PublishPendingBatch.Finish | internal/platform/postgres/pool.go:47-61 | Rolls back and returns the failure unchanged, or commits; the COMMIT takes effect exactly if it succeeds or fails after having been applied, and either failure is reported as its own |
| PublishPendingBatches.PublishPendingBatch.AppliedCommitError | internal/platform/postgres/pool.go:47-61 | A COMMIT that is applied and fails to say so: an error is reported, and not every claimed row is pending |
| PublishPendingBatches.PublishPendingBatch.Observe | internal/accounts/application/publish_pending_batch.go:112-123 | Returns the backlog, the age of the oldest pending row, the failed and the stuck count of the present table, or records the failure in their place; the rest of the result stays as the pass left it |
| PublishPendingBatches.OldestAge | internal/accounts/infrastructure/postgres/outbox_relay.go:318-330 | The age counts from the oldest pending row, and is zero when none is pending |
| PublishPendingBatches.PublishPendingBatch.Execute | internal/accounts/application/publish_pending_batch.go:64-97 | The pass is a continuation of the run that ends its own transaction by one commit or rollback; it committed if and only if it reports no error or the error is the COMMIT's and that was applied; the rows it claimed are all pending after it if and only if it rolled back or only rescheduled; without an error it claimed the lowest due rows and every claimed row is published, parked, rescheduled or untouched behind the one rescheduled; an error names the call that failed, and if no call fails and the broker acknowledges there is none, and all that was claimed is published, or parked for want of a topic; the reported backlog and failed count are those at the beginning, moved by exactly what the pass reports, if nobody else changed the tables, and the stuck rows are always the pending ones that commits have rescheduled that often |
| Registration.User.PullEvents | internal/accounts/domain/recorder.go:27-31 | Returns the recorded events and leaves none |
| Registration.Register | internal/accounts/domain/user.go:64-92 | Succeeds exactly on valid input, with a fresh aggregate whose one event is the registration with this id, address and name, version 1, at this time; otherwise the first failing check's error |
| Registration.Tracker.Drain | internal/accounts/infrastructure/postgres/tracker.go:44-51 | Each aggregate's events once, at its first mention, in order of first mention, even when references repeat; afterwards all are drained |
| Registration.PulledRegistrations | internal/accounts/infrastructure/postgres/tracker.go:34-43 | For distinct fresh users the drained events are one registration each, in order |
| Registration.StoredHeaders | internal/accounts/application/envelope.go:156-165 | Correlation and trace are each stored exactly when they are not empty, under their own key and unchanged, and there is no other key |
| Registration.KeysNotInUse | internal/accounts/infrastructure/postgres/user_repo.go:36-54 | An INSERT has nobody to wait for if and only if neither the id nor the address is among those of the committed users and of all open transactions |
| Registration.UnitOfWork.From | internal/accounts/application/envelope.go:67-125 | One envelope per event, in order, with the event's routing columns and time, the id minted for it on both row and payload, all of the event in the payload's data, and the schema, correlation and trace of the contract; it stops only at an unmapped event, which it names, or when no id is to be had |
| Registration.UserRepository.Save | internal/accounts/infrastructure/postgres/user_repo.go:36-54 | Inserts and tracks, or changes neither; it fails only with its statement or on a key in use, and the error is ErrEmailTaken if and only if the INSERT is carried out, the id is new and a committed user or one of this transaction has the address |
| Registration.OutboxRepository.Append | internal/accounts/infrastructure/postgres/outbox_repo.go:36-66 | The transaction's rows are the envelopes under ascending ids in envelope order, relay columns at their defaults, up to the first INSERT that fails: with its statement, or on an id minted before |
| Registration.UnitOfWork.Do | internal/accounts/infrastructure/postgres/uow.go:64-90 | For any aggregates: without an error one step committed exactly these users and rows announcing exactly the drained events; once the COMMIT is reached the aggregates are drained, and every user has an event row if and only if each aggregate still held an event; an error is the failed BEGIN, the failed COMMIT, or a rollback for a failed call, a key or address in use, an unmapped event or a repeated id in the state that met it |
| Registration.CompleteExactly | internal/accounts/infrastructure/postgres/uow.go:64-90 | The same of the transaction alone, for every set of aggregates that record facts about themselves |
| Registration.UnitOfWork.RetryWithSameAggregate | internal/accounts/infrastructure/postgres/uow.go:64-90 | After a failed COMMIT a second call with the same aggregate, if it succeeds, commits the user and no row; and so it goes for every new user whose first COMMIT alone is lost |
| Registration.DrainedRetry | internal/accounts/infrastructure/postgres/uow.go:64-90 | An input for every user and any empty tables |
| Registration.RegisterUser.Execute | internal/accounts/application/register_user.go:46-68 | Success means one step committed this user and exactly one row announcing it, whose occurred_at is the clock in a state after the call and not after the transaction's BEGIN; whatever is reported, what it may have committed pairs its user with its row; a wakeup is sent exactly on success; a domain error is reported exactly for invalid input, the first failing check's, and begins no transaction; any other error is a failed call, or a key, address or id in use |
| PurgePublisheds.OutboxPurger.PurgePage | internal/accounts/infrastructure/postgres/outbox_relay.go:191-234 | Deletes exactly the lowest eligible rows, at most `limit`, and nothing else; on an error either that or nothing has happened |
| PurgePublisheds.PurgePublished.Execute | internal/accounts/application/purge_published.go:34-57 | Terminates; every row it removes was published longer ago than the retention, every other row stands, and run to its end it leaves none of the former; run to its end it removed exactly the E eligible rows, reporting E in E / batch + 1 passes; stopped early, exactly the lowest rows it reports, and exactly one page more if the DELETE that failed was applied |
| PurgePublisheds.FullPagesThenShort | internal/accounts/application/purge_published.go:52-55 | Full pages and one short one are as many as the quotient says |
| Backoff.After | internal/platform/backoff/backoff.go:41-63 | On int64 and for every base, cap and number of attempts the loop computes the saturating doubling, wrap-around included, truncates the jittered product toward zero, and leaves a product outside int64 to the platform |
| Backoff.SaturatingIsLadder | internal/platform/backoff/backoff.go:48-51 | For a base and cap that are not negative the doubling never wraps: it is the ladder on unbounded integers |
| Backoff.LadderMonotone | internal/platform/backoff/backoff.go:42-51 | The delay before jitter is positive, never shrinks with the attempts and never exceeds the cap |
| Backoff.LadderIsTheFormula | internal/platform/backoff/backoff.go:16-18 | It equals min(cap, base * 2^n) exactly unless base * 2^n is one below the cap, always so for an even cap, and is never more than one above |
| Backoff.LadderFitsExactly | internal/platform/backoff/backoff.go:48-51 | The doubling stays in int64 for all attempts if and only if the cap is not negative |
| Backoff.JitterBounds | internal/platform/backoff/backoff.go:65-70 | The factor and its truncation keep a delay between its half and one and a half times itself |
| Backoff.JitteredTruncates | internal/platform/backoff/backoff.go:62 | The jittered delay is the exact product truncated toward zero |
| Backoff.JitteredIsPositive | internal/platform/backoff/backoff.go:62 | A delay survives every jitter if and only if it is at least two nanoseconds |
| Backoff.BackoffIsPositive | internal/platform/backoff/backoff.go:41-63 | Every jittered rung of the ladder is positive if and only if base and cap are both at least two nanoseconds |
| RelayLoop.Relay.NextWait | internal/accounts/presentation/worker/relay.go:201-220 | A full batch asks for no wait, even with a transient failure; any other transient failure for IdleMax, work for IdleMin, and nothing for the idle period, which then doubles, capped |
| RelayLoop.Relay.Wait | internal/accounts/presentation/worker/relay.go:234-266 | A wait that was not cut short took at least half of what was asked, even when the waiter fails at once; only a wakeup resets the ladder |
| RelayLoop.Relay.ExecutePass | internal/accounts/presentation/worker/relay.go:152-172 | A pass is cancelled if and only if it would still run DrainGrace after the stop signal; otherwise it takes the time it takes |
| RelayLoop.Relay.TakeTurn | internal/accounts/presentation/worker/relay.go:98-120 | One turn adds the record that the script determines in every field, the wakeup and the cut included, and keeps the ladder, the poll-rate bound and the shutdown rule |
| RelayLoop.Relay.Run | internal/accounts/presentation/worker/relay.go:84-188 | For every script: every turn begins before the stop signal and is the one the script determines; the k-th empty pass since the last work or wakeup asked for min(IdleMax, IdleMin * 2^k); a full batch asks for no wait, a failed pass or else one with a transient failure for IdleMax, any other with work for IdleMin; elapsed time is at least IdleMax / 2 per failed or transiently failed pass and IdleMin / 2 per other pass that was neither full nor cut short; without a waiter a stop signal ends a wait at once; at most the last pass outlives the stop signal; a pass was cancelled if and only if the last would have outlived the grace; the warning is given if and only if the loop stops after the grace; a clean stop cancelled none |
| RelayLoop.WarnsWithoutCancelling | internal/accounts/presentation/worker/relay.go:180-187 | An input for which the warning is given and no pass was cancelled |
| BackToBack.Drive | internal/accounts/presentation/worker/relay.go:84-188 | The loop over real passes while everyone else moves: each record is what one pass reported, with its cause, the passes following each other in the run and in the script; and a pass was cancelled and rolled back if and only if the last one would have outlived the grace and has an error that is not that of an applied COMMIT |
| BackToBack.WarningComesTrue | internal/accounts/presentation/worker/relay.go:180-187 | After a pass of the loop all rows it claimed are pending if and only if it reported an error that is not that of an applied COMMIT, or had only rescheduled; and in the first case exactly each row it had published is to be published once more |
| BackToBack.PassesWithoutWait | internal/accounts/presentation/worker/relay.go:98-120 | The loop over real passes to the first wait, on a cluster that holds still while the other relays interleave and fail: the passes that no wait follows have each committed a full batch, one after the other, and are at most as many as the rows that were due; the last pass asks for the wait by its result, or for IdleMax because a call has failed |
| RelayLoop.ClimbLadder | internal/accounts/presentation/worker/relay.go:215-219 | The idle field is the rung of the current streak of empty passes, after every kind of pass |
| RelayLoop.LadderLaw | internal/accounts/presentation/worker/relay.go:215-219 | The k-th empty pass since the last that found work, or was followed by a wakeup, asked for min(IdleMax, IdleMin * 2^k); failed passes in between do not count |

## Left out

- Arrivals.SettledByRankWithArrivals: between the passes no replay, no purge and no other relay, with which the row's place is `ClaimByStateNeverSkips`, at any one moment.
- Registration.OutboxRepository.Append: a UUID minted twice is refused even where PostgreSQL no longer knows the first row (purged or rolled back); the source relies on that never happening, and the order and duplicate theorems do too.
- PublishPendingBatches.PublishPendingBatch.Execute: the pass it models does not lose its own session during a produce call, though any other relay may (`RelayLost`, `OrphanPublish`), with every safety theorem holding of it.
- PurgePublisheds.PurgePublished.Execute: no concurrent step between its pages and a fixed clock, and a positive batch, which the configuration check demands; a purge interleaved with everything else is the step `PurgePage` of the protocol.
- RelayLoop.Relay.Run: a finite number of turns of the endless loop, for every number and every script; the result of a pass is the script's, real passes being those of `Drive` and `PassesWithoutWait`.
- BackToBack.Drive: the loop's clock is not the database's; a cancelled context shows in a pass as calls that fail.
- BackToBack.PassesWithoutWait: the passes themselves take no time, since the clock stands still while rows are to stay as due as they are.
- ZeroWait.ZeroWaitBoundExactly: caps above two thirds of the largest int64, where a jittered product can leave int64 and what it becomes is the platform's choice.
- Backoff.After: the jitter is a real number in [0.5, 1.5) and the product is exact before it is truncated; float64 rounding and the random generator are not modelled.
- Payload bytes: the payload is its CloudEvents attributes and data; how they are written as JSON, timestamps included, is opaque. JSONB keeps headers as a map.
- Email and display-name parsing, and UUID generation: parse results and minted ids are inputs.
- A statement error that aborts a transaction is the failure of the call that meets it; connection pools, isolation levels above the lock and overlay semantics, and vacuum are not modelled.
- Clock skew between the process and the database: there is one monotone clock; no safety theorem compares clocks.
- The `Listener` and `Notifier` connections, wakeup usage reporting and all logging: only the waiter's contract matters, and no safety theorem depends on wakeups.
- HTTP, DTOs, configuration parsing, wiring, deployment, and the notifications context with its inbox: no behaviour of the outbox depends on them.
