/**
 The relay pass: claim, produce row by row, mark, commit - on a cluster where other
 transactions move between any two statements and any call may fail. Every method
 continues the cluster's run of protocol steps, and says which steps of it were its own.
 */
module PublishPendingBatches {
  import opened Wrappers
  import opened Ordering
  import opened Wire
  import opened Protocol
  import opened Invariant
  import opened Safety
  import opened Accounting
  import opened Draining
  import opened Clusters
  import opened ZeroWait
  import Backoff

  datatype PassError = BeginFailed | StatementFailed | CommitFailed

  datatype Failure = Failure(outboxId: RowId, eventId: Uuid, reason: string)

  datatype OutboxStats = OutboxStats(backlog: nat, oldestPendingAge: int, failedRows: nat, stuckRows: nat)

  datatype PublishResult = PublishResult(
    claimed: nat, published: nat, transient: seq<Failure>, permanent: seq<Failure>,
    stats: Option<OutboxStats>, statsErr: Option<PassError>, batchSize: nat)
  {
    // The worker must not sleep: there is certainly more.
    predicate Full() {
      batchSize > 0 && claimed >= batchSize
    }
  }

  datatype PublishPolicy = PublishPolicy(batchSize: nat, base: Backoff.int64, cap: Backoff.int64, maxAttempts: nat)

  // The schedule always waits, at least a nanosecond.
  ghost predicate InTheFuture(p: PublishPolicy) {
    p.base >= 2 && p.cap >= 2 && Fits(p.cap as int)
  }

  function IdsOf(failures: seq<Failure>): set<RowId> {
    set f | f in failures :: f.outboxId
  }

  // Everything but the counts and failures is carried over.
  predicate SamePass(a: PublishResult, b: PublishResult) {
    a.claimed == b.claimed && a.batchSize == b.batchSize && a.stats == b.stats && a.statsErr == b.statsErr
  }

  // The transaction of a pass that is still open, in this state.
  ghost predicate Open(s: State, tx: TxId, x: RelayTx) {
    tx in s.relays && s.relays[tx] == x
  }

  // What the result says about the pass, whether or not it commits.
  ghost predicate Reported(res: PublishResult, x: RelayTx) {
    && res.claimed == |x.batch|
    && res.published == |x.acked|
  }

  // Each failure names its row's event, and the reason that the mark wrote into last_error.
  ghost predicate Told(failures: seq<Failure>, writes: map<RowId, Row>) {
    forall i :: 0 <= i < |failures| ==>
      && failures[i].outboxId in writes
      && failures[i].eventId == writes[failures[i].outboxId].envelope.eventId
      && writes[failures[i].outboxId].lastError == Some(failures[i].reason)
  }

  // And what it names, row by row.
  ghost predicate Named(res: PublishResult, x: RelayTx) {
    && Told(res.permanent, x.writes) && Told(res.transient, x.writes)
    && IdsOf(res.permanent) == WithStatus(x.writes, Failed)
    && |res.permanent| == |WithStatus(x.writes, Failed)|
    && IdsOf(res.transient) == WithStatus(x.writes, Pending)
    && |res.transient| == |WithStatus(x.writes, Pending)|
  }

  // Of the rows handled so far, those with a topic were acknowledged, and only those.
  ghost predicate Routed(topics: Topics, x: RelayTx) {
    forall i :: 0 <= i < x.handled && i < |x.batch| ==>
      (x.batch[i].id in x.acked <==> Routable(topics, x.batch[i].envelope.aggregateType))
  }

  // Every row that was claimed has been published, or refused for want of a topic.
  ghost predicate SettledAll(topics: Topics, x: RelayTx) {
    x.phase.Ready? && x.handled == |x.batch| && Routed(topics, x)
  }

  // An error means that the last call failed, and if none did then everything is settled.
  ghost predicate Justified(script: nat -> Beat, from: nat, to: nat, err: Option<PassError>, topics: Topics,
                            x: RelayTx)
  {
    && from <= to
    && (err.Some? ==> err.value == StatementFailed && Struck(script, from, to))
    && (Healthy(script, from, to) ==> err.None? && SettledAll(topics, x))
  }

  // What failed, of the calls made by the beats from `from` up to `to`: the BEGIN, which was the only
  // one; the statement that was the last before the ROLLBACK; or the COMMIT, which was the last.
  ghost predicate CausedBy(script: nat -> Beat, from: nat, to: nat, err: Option<PassError>) {
    match err
    case None => true
    case Some(BeginFailed) => to == from + 1 && BeatAt(script, from).fails
    case Some(StatementFailed) => from < to && Struck(script, from, to - 1)
    case Some(CommitFailed) => from < to && BeatAt(script, to - 1).commit.CommitError?
  }

  // How the protocol sees it; whether a failed call appended shows in the log only.
  function OutcomeOf(err: Option<PublishError>): Outcome {
    if err.None? then Ack else Error(err.value, false)
  }

  // The last log entry is this row's record.
  ghost predicate Produced(s: State, pending: PendingMessage) {
    && |s.log| > 0 && Routable(s.topics, pending.envelope.aggregateType)
    && s.log[|s.log| - 1] == LogEntry(pending.id, Encode(s.topics, pending.envelope))
    && Carries(s.topics, pending.envelope, s.log[|s.log| - 1].record)
  }

  lemma ProducedIs(s: State, log: seq<LogEntry>, pending: PendingMessage, record: Record)
    requires Routable(s.topics, pending.envelope.aggregateType) && record == Encode(s.topics, pending.envelope)
    requires s.log == log + [LogEntry(pending.id, record)]
    ensures Produced(s, pending)
  {
    EncodeCarries(s.topics, pending.envelope);
  }

  // What Publish makes of the broker's reply.
  function Answer(topics: Topics, aggregateType: string, reply: ProduceReply): Option<PublishError> {
    match TopicFor(topics, aggregateType)
    case Err(e) => Some(e)
    case Ok(_) =>
      match reply
      case Acknowledged => None
      case Errored(cause, _) => Some(Classify(cause))
  }

  // An ack is the broker's; a failure is permanent if it has no topic, an unknown one, or an error of
  // the broker's that it does not call retriable.
  predicate Decided(topics: Topics, aggregateType: string, reply: ProduceReply, err: Option<PublishError>) {
    && (err.None? <==> Routable(topics, aggregateType) && reply.Acknowledged?)
    && (err.Some? ==>
          (ClassOf(err.value) == Permanent
           <==> !Routable(topics, aggregateType)
                || (reply.error.FromBroker?
                    && (reply.error.code == 3 || reply.error.code == 100 || !reply.error.retriable))))
  }

  // The last step of the run is this produce call, and it appended if the broker did.
  ghost predicate JustProduced(run: Run, tx: TxId, topics: Topics, aggregateType: string, reply: ProduceReply,
                               err: Option<PublishError>)
  {
    && |run.steps| > 0
    && run.steps[|run.steps| - 1]
       == RelayPublish(tx, if err.None? then Ack
                           else Error(err.value, Routable(topics, aggregateType) && reply.Errored? && reply.appended))
  }

  // The pass may commit, and its result says what it then will have done.
  ghost predicate Committable(res: PublishResult, x: RelayTx, policy: PublishPolicy, failedAt: Instant, jitter: real) {
    && MayCommit(x) && x.limit == policy.batchSize && Named(res, x)
    && BacksOff(x, policy.base as int, policy.cap as int, failedAt, jitter)
  }

  // x' is x after marking its current row, which was committed, pending and unmarked.
  ghost predicate Marked(rows: map<RowId, Row>, x: RelayTx, x': RelayTx, mark: Mark)
    requires x.handled < |x.batch|
  {
    var id := Current(x).id;
    && id in rows && rows[id].status == Pending && rows[id].envelope == Current(x).envelope && id !in x.writes
    && x' == x.(writes := x.writes[id := MarkRow(rows[id], mark, x.now)],
                handled := x.handled + 1,
                phase := if mark.AsRescheduled? then Stopped else Ready)
  }

  // The row as each of the three UPDATEs writes it.
  predicate Written(row: Row, write: Row, mark: Mark, now: Instant) {
    match mark
    case AsPublished => write == Row(row.envelope, Published, row.attempts, row.availableAt, None, Some(now))
    case AsFailed(reason) =>
      write == Row(row.envelope, Failed, row.attempts, row.availableAt, Some(reason), row.publishedAt)
    case AsRescheduled(at, reason) =>
      write == Row(row.envelope, row.status, row.attempts + 1, at, Some(reason), row.publishedAt)
  }

  // ---------------------------------------------------------------- the claim as a step

  // Step c of the run claimed the lowest due rows that nobody else held.
  ghost predicate ClaimedAt(run: Run, c: nat, tx: TxId, limit: nat, batch: seq<PendingMessage>) {
    && IsRun(run) && c < |run.steps| && tx in run.states[c].relays
    && var ids := Lowest(Claimable(run.states[c], tx), limit);
       && run.steps[c] == RelayClaim(tx, limit, ids)
       && (forall i :: 0 <= i < |ids| ==> ids[i] in run.states[c].rows)
       && batch == Messages(run.states[c], ids)
  }

  // The last step claimed the lowest due rows that nobody else held, and nothing is done yet.
  ghost predicate JustClaimed(run: Run, s: State, tx: TxId, limit: nat, batch: seq<PendingMessage>) {
    && |run.steps| > 0 && ClaimedAt(run, |run.steps| - 1, tx, limit, batch)
    && tx in s.relays && s.relays[tx].batch == batch && s.relays[tx].limit == limit
    && s.relays[tx].phase.Ready? && s.relays[tx].handled == 0
    && s.relays[tx].acked == {} && s.relays[tx].writes == map[]
  }

  lemma LowestMayBeClaimed(s: State, tx: TxId, limit: nat)
    requires tx in s.relays && s.relays[tx].phase.Begun?
    ensures Enabled(s, RelayClaim(tx, limit, Lowest(Claimable(s, tx), limit)))
  {
    var ids := Lowest(Claimable(s, tx), limit);
    forall i | 0 <= i < |ids|
      ensures ids[i] in Claimable(s, tx)
    {
      assert ids[i] in Elements(ids);
    }
  }

  lemma ClaimRecorded(before: Run, after: Run, tx: TxId, limit: nat, ids: seq<RowId>)
    requires IsRun(before) && Enabled(Last(before), RelayClaim(tx, limit, ids))
    requires ids == Lowest(Claimable(Last(before), tx), limit)
    requires after == Extend(before, RelayClaim(tx, limit, ids))
    ensures ClaimedAt(after, |after.steps| - 1, tx, limit, Messages(Last(before), ids))
  {
    var c := |after.steps| - 1;
    assert after.states[c] == Last(before) && after.steps[c] == RelayClaim(tx, limit, ids);
  }

  lemma ClaimLands(before: Run, tx: TxId, limit: nat)
    requires IsRun(before) && Inv(Last(before)) && tx in Last(before).relays && Last(before).relays[tx].phase.Begun?
    ensures var s := Last(before);
      var ids := Lowest(Claimable(s, tx), limit);
      var step := RelayClaim(tx, limit, ids);
      && Enabled(s, step) && |ids| <= limit
      && JustClaimed(Extend(before, step), Apply(s, step), tx, limit, Messages(s, ids))
  {
    var s := Last(before);
    var ids := Lowest(Claimable(s, tx), limit);
    LowestMayBeClaimed(s, tx, limit);
    BegunIsEmpty(s.rows, s.log, s.relays[tx]);
    ClaimRecorded(before, Extend(before, RelayClaim(tx, limit, ids)), tx, limit, ids);
  }

  // ---------------------------------------------------------------- RelayOutbox

  // The relay's half of the table, bound to one claiming transaction.
  class RelayOutbox {
    const cluster: Cluster
    const tx: TxId

    constructor (cluster: Cluster, tx: TxId)
      ensures this.cluster == cluster && this.tx == tx
    {
      this.cluster := cluster;
      this.tx := tx;
    }

    // The result rows, one message each, in the order they come.
    static method Scan(s: State, ids: seq<RowId>) returns (batch: seq<PendingMessage>)
      requires forall i :: 0 <= i < |ids| ==> ids[i] in s.rows
      ensures batch == Messages(s, ids)
    {
      batch := [];
      for i := 0 to |ids|
        invariant |batch| == i
        invariant forall j :: 0 <= j < i ==> batch[j] == Message(s, ids[j])
      {
        batch := batch + [Message(s, ids[i])];
      }
    }

    // The lowest `limit` due rows that nobody else holds, read and locked in id order.
    method ClaimPending(limit: nat) returns (batch: seq<PendingMessage>, err: Option<PassError>)
      requires cluster.Valid() && tx in cluster.state.relays && cluster.state.relays[tx].phase.Begun?
      modifies cluster`state, cluster`run, cluster`cursor, cluster`calm
      ensures cluster.Valid() && Continues(old(cluster.run), cluster.run)
      ensures cluster.calm == old(cluster.calm)
      ensures ClockHeld(cluster.calm, old(cluster.state.clock), cluster.state.clock)
      ensures err.Some? <==> BeatAt(cluster.script, old(cluster.cursor)).fails
      ensures cluster.cursor == old(cluster.cursor) + 1
      ensures err.Some? ==> err.value == StatementFailed && Open(cluster.state, tx, old(cluster.state.relays[tx]))
      ensures err.None? ==>
        && |cluster.run.steps| > |old(cluster.run.steps)| && |batch| <= limit
        && JustClaimed(cluster.run, cluster.state, tx, limit, batch)
    {
      var beat := cluster.Draw(Some(tx));
      if beat.fails {
        return [], Some(StatementFailed);
      }
      var ids := Lowest(Claimable(cluster.state, tx), limit);
      cluster.Holds();
      ClaimLands(cluster.run, tx, limit);
      var s := cluster.state;
      cluster.Perform(RelayClaim(tx, limit, ids));
      batch := Scan(s, ids);
      err := None;
    }

    // One UPDATE that must touch exactly one row - and does, whatever the others did meanwhile:
    // it fails only if the statement itself fails.
    method MarkOne(mark: Mark) returns (err: Option<PassError>)
      requires cluster.Valid() && tx in cluster.state.relays
      requires cluster.state.relays[tx].handled < |cluster.state.relays[tx].batch|
      requires MarkFits(cluster.state.relays[tx].phase, mark)
      modifies cluster`state, cluster`run, cluster`cursor, cluster`calm
      ensures cluster.Valid() && Continues(old(cluster.run), cluster.run)
      ensures err.Some? <==> BeatAt(cluster.script, old(cluster.cursor)).fails
      ensures cluster.cursor == old(cluster.cursor) + 1
      ensures cluster.calm == old(cluster.calm)
      ensures ClockHeld(cluster.calm, old(cluster.state.clock), cluster.state.clock)
      ensures err.Some? ==> err.value == StatementFailed && Open(cluster.state, tx, old(cluster.state.relays[tx]))
      ensures err.None? ==> tx in cluster.state.relays
      ensures err.None? ==> Marked(cluster.state.rows, old(cluster.state.relays[tx]), cluster.state.relays[tx], mark)
      ensures err.None? ==>
        var x, id := old(cluster.state.relays[tx]), Current(old(cluster.state.relays[tx])).id;
        Written(cluster.state.rows[id], cluster.state.relays[tx].writes[id], mark, x.now)
    {
      var beat := cluster.Draw(Some(tx));
      if beat.fails {
        return Some(StatementFailed);
      }
      var x := cluster.state.relays[tx];
      cluster.Holds();
      CurrentRow(cluster.state.rows, cluster.state.log, x);
      var affected := if Visible(cluster.state.rows, x, Current(x).id) then 1 else 0;
      cluster.Perform(RelayMark(tx, mark));
      if affected != 1 {
        assert false;
      }
      err := None;
    }
  }

  // ---------------------------------------------------------------- the publisher

  // Publisher.Publish builds exactly the record the protocol appends for the row.
  method BuildRecord(topic: string, env: Envelope, ghost topics: Topics) returns (record: Record)
    requires Routable(topics, env.aggregateType) && topic == topics[env.aggregateType]
    ensures record == Encode(topics, env) && Carries(topics, env, record)
  {
    EncodeCarries(topics, env);
    var headers := PublishHeaders(env);
    var list := RecordHeaders(headers);
    record := Record(topic, env.aggregateId.text, env.payload, list);
  }

  // ---------------------------------------------------------------- the use case

  // One pass over the loop's prefix: what publishBatch has done and reported so far.
  ghost predicate Progress(x: RelayTx, batch: seq<PendingMessage>, i: nat, res: PublishResult) {
    && x.batch == batch && x.handled == i && i <= |batch|
    && res.published == |x.acked|
    && IdsOf(res.permanent) == WithStatus(x.writes, Failed)
    && |res.permanent| == |WithStatus(x.writes, Failed)|
    && Told(res.permanent, x.writes)
    && WithStatus(x.writes, Pending) == {} && res.transient == []
  }

  lemma OneMoreWrite(writes: map<RowId, Row>, id: RowId, row: Row, status: Status)
    requires id !in writes
    ensures WithStatus(writes[id := row], status)
            == if row.status == status then WithStatus(writes, status) + {id} else WithStatus(writes, status)
    ensures id !in WithStatus(writes, status)
  {
  }

  lemma StillTold(failures: seq<Failure>, writes: map<RowId, Row>, id: RowId, row: Row)
    requires Told(failures, writes) && id !in writes
    ensures Told(failures, writes[id := row])
  {
  }

  lemma AckMarked(rows: map<RowId, Row>, x: RelayTx, x': RelayTx, batch: seq<PendingMessage>, i: nat,
                  res: PublishResult)
    requires Progress(x, batch, i, res) && i < |batch| && batch[i].id !in x.acked
    requires Marked(rows, AfterPublish(x, Ack), x', AsPublished)
    ensures Progress(x', batch, i + 1, res.(published := res.published + 1))
  {
    var id := batch[i].id;
    OneMoreWrite(x.writes, id, x'.writes[id], Failed);
    OneMoreWrite(x.writes, id, x'.writes[id], Pending);
    StillTold(res.permanent, x.writes, id, x'.writes[id]);
  }

  lemma OneMoreFailure(failures: seq<Failure>, f: Failure, writes: map<RowId, Row>, row: Row)
    requires Told(failures, writes) && f.outboxId !in writes
    requires f.eventId == row.envelope.eventId && row.lastError == Some(f.reason)
    ensures Told(failures + [f], writes[f.outboxId := row])
    ensures IdsOf(failures + [f]) == IdsOf(failures) + {f.outboxId}
  {
  }

  lemma RefusalMarked(rows: map<RowId, Row>, x: RelayTx, x': RelayTx, batch: seq<PendingMessage>, i: nat,
                      res: PublishResult, e: PublishError, f: Failure)
    requires Progress(x, batch, i, res) && i < |batch| && ClassOf(e) == Permanent
    requires f == Failure(batch[i].id, batch[i].envelope.eventId, e.reason)
    requires Marked(rows, AfterPublish(x, Error(e, false)), x', AsFailed(e.reason))
    ensures Progress(x', batch, i + 1, res.(permanent := res.permanent + [f]))
  {
    var id := batch[i].id;
    OneMoreWrite(x.writes, id, x'.writes[id], Failed);
    OneMoreWrite(x.writes, id, x'.writes[id], Pending);
    OneMoreFailure(res.permanent, f, x.writes, x'.writes[id]);
  }

  lemma OnlyFailure(f: Failure, writes: map<RowId, Row>)
    requires f.outboxId in writes && f.eventId == writes[f.outboxId].envelope.eventId
    requires writes[f.outboxId].lastError == Some(f.reason)
    ensures Told([f], writes) && IdsOf([f]) == {f.outboxId}
  {
  }

  lemma DeferralMarked(rows: map<RowId, Row>, x: RelayTx, x': RelayTx, batch: seq<PendingMessage>, i: nat,
                       res: PublishResult, e: PublishError, at: Instant, f: Failure)
    requires Progress(x, batch, i, res) && i < |batch| && ClassOf(e) == Transient
    requires f == Failure(batch[i].id, batch[i].envelope.eventId, e.reason)
    requires Marked(rows, AfterPublish(x, Error(e, false)), x', AsRescheduled(at, e.reason))
    ensures Named(res.(transient := [f]), x') && res.published == |x'.acked| && x'.phase.Stopped?
  {
    var id := batch[i].id;
    OneMoreWrite(x.writes, id, x'.writes[id], Failed);
    OneMoreWrite(x.writes, id, x'.writes[id], Pending);
    StillTold(res.permanent, x.writes, id, x'.writes[id]);
    OnlyFailure(f, x'.writes);
  }

  lemma DeferralBacksOff(rows: map<RowId, Row>, x: RelayTx, x': RelayTx, at: Instant, reason: string,
                         base: int, cap: int, failedAt: Instant, jitter: real)
    requires x.handled < |x.batch| && Marked(rows, x, x', AsRescheduled(at, reason))
    requires OneDelayAfter(at, failedAt, base, cap, Current(x).attempts, jitter)
    ensures BacksOff(x', base, cap, failedAt, jitter)
  {
  }

  lemma OneMoreRouted(topics: Topics, x: RelayTx, y: RelayTx, outcome: Outcome)
    requires x.handled < |x.batch| && y.batch == x.batch && y.handled == x.handled + 1
    requires forall i :: 0 <= i < x.handled ==> x.batch[i].id != Current(x).id
    requires y.acked == AfterPublish(x, outcome).acked && Current(x).id !in x.acked
    ensures Routed(topics, x) && (outcome.Ack? <==> Routable(topics, Current(x).envelope.aggregateType)) ==>
      Routed(topics, y)
  {
  }

  // With a healthy broker an error is a missing topic, and that is permanent.
  lemma HealthyAnswer(script: nat -> Beat, from: nat, to: nat, topics: Topics, aggregateType: string)
    requires Healthy(script, from, to) && from < to
    ensures var err := Answer(topics, aggregateType, BeatAt(script, from).produce);
            && (err.None? <==> Routable(topics, aggregateType))
            && (err.Some? ==> ClassOf(err.value) == Permanent)
  {
    assert Fine(BeatAt(script, from));
  }

  lemma JustifiedSince(script: nat -> Beat, from: nat, since: nat, to: nat, err: Option<PassError>, topics: Topics,
                       x: RelayTx)
    requires from <= since && Justified(script, since, to, err, topics, x)
    ensures Justified(script, from, to, err, topics, x)
  {
  }

  // How a pass ended, for use in specifications: before its transaction began, or by step `at` of
  // the run and beat `beat` of the script, with the transaction as x.
  datatype PassEnd =
    | NotBegun
    | Ended(tx: TxId, x: RelayTx, at: nat, failedAt: Instant, jitter: real, beat: nat)

  // The last own step of the pass is its commit or its rollback, and then it is closed.
  ghost predicate EndedBy(run: Run, end: PassEnd) {
    && end.Ended? && IsRun(run) && end.at < |run.steps|
    && Open(run.states[end.at], end.tx, end.x)
    && (run.steps[end.at] == RelayCommit(end.tx) || run.steps[end.at] == RelayRollback(end.tx))
  }

  // It committed if it reports no error, and then the COMMIT said so; or if the COMMIT's failure is
  // the error, and that had been applied.
  ghost predicate Answered(run: Run, script: nat -> Beat, end: PassEnd, err: Option<PassError>)
    requires EndedBy(run, end)
  {
    var reply := BeatAt(script, end.beat).commit;
    && (run.steps[end.at] == RelayCommit(end.tx)
        <==> err.None? || (err == Some(CommitFailed) && reply == CommitError(true)))
    && (err.None? ==> reply.CommitOk?)
    && (err == Some(CommitFailed) ==> reply.CommitError?)
  }

  lemma EndAnswered(run: Run, script: nat -> Beat, end: PassEnd, failure: Option<PassError>, err: Option<PassError>)
    requires EndedBy(run, end) && failure != Some(CommitFailed)
    requires var reply := BeatAt(script, end.beat).commit;
      && run.steps[end.at] == (if failure.None? && (reply.CommitOk? || reply.applied)
                               then RelayCommit(end.tx) else RelayRollback(end.tx))
      && err == if failure.Some? then failure else if reply.CommitOk? then None else Some(CommitFailed)
    ensures Answered(run, script, end, err)
  {
  }

  // All that the pass had claimed is pending after it exactly if it rolled back or only rescheduled.
  ghost predicate PendingAfter(run: Run, end: PassEnd)
    requires EndedBy(run, end)
  {
    AllPending(run.states[end.at + 1].rows, end.x.batch)
    <==> run.steps[end.at] == RelayRollback(end.tx)
         || forall id :: id in end.x.writes ==> end.x.writes[id].status == Pending
  }

  // What was claimed is published, parked, rescheduled, or left behind the one row rescheduled.
  predicate Counted(res: PublishResult) {
    var settled := res.published + |res.permanent| + |res.transient|;
    settled <= res.claimed && |res.transient| <= 1 && (settled < res.claimed ==> |res.transient| == 1)
  }

  // A pass that has begun, reported: it ended since step `from`, and the result says how.
  ghost predicate Reports(run: Run, script: nat -> Beat, from: nat, end: PassEnd, res: PublishResult,
                          err: Option<PassError>)
  {
    && EndedBy(run, end) && from <= end.at && Reported(res, end.x) && Answered(run, script, end, err)
    && res.published <= res.claimed && PendingAfter(run, end) && (err.None? ==> Counted(res))
  }

  // No row of these occurred earlier.
  predicate IsOldest(rows: map<RowId, Row>, ids: set<RowId>, id: RowId) {
    && id in ids && id in rows
    && forall x :: x in ids && x in rows ==> rows[id].envelope.occurredAt <= rows[x].envelope.occurredAt
  }

  lemma {:induction false} HasOldest(rows: map<RowId, Row>, ids: set<RowId>)
    requires ids != {} && ids <= rows.Keys
    ensures exists id :: IsOldest(rows, ids, id)
  {
    var a :| a in ids;
    if ids == {a} {
      assert IsOldest(rows, ids, a);
    } else {
      HasOldest(rows, ids - {a});
      var b :| IsOldest(rows, ids - {a}, b);
      assert forall x :: x in ids ==> x == a || x in ids - {a};
      assert IsOldest(rows, ids, if rows[a].envelope.occurredAt <= rows[b].envelope.occurredAt then a else b);
    }
  }

  function OldestOf(rows: map<RowId, Row>, ids: set<RowId>): (at: int)
    requires ids != {} && ids <= rows.Keys
    ensures exists id :: IsOldest(rows, ids, id) && at == rows[id].envelope.occurredAt
  {
    HasOldest(rows, ids);
    var times := set id | id in ids :: rows[id].envelope.occurredAt;
    assert exists at :: at in times && forall id :: id in ids ==> at <= rows[id].envelope.occurredAt by {
      var id :| IsOldest(rows, ids, id);
      assert rows[id].envelope.occurredAt in times;
    }
    var at :| at in times && forall id :: id in ids ==> at <= rows[id].envelope.occurredAt;
    assert exists id :: IsOldest(rows, ids, id) && at == rows[id].envelope.occurredAt by {
      var id :| id in ids && rows[id].envelope.occurredAt == at;
      assert IsOldest(rows, ids, id);
    }
    at
  }

  // How long the oldest pending row has been waiting; zero when there is none.
  function OldestAge(rows: map<RowId, Row>, now: Instant): (age: int)
    ensures var pending := WithStatus(rows, Pending);
            if pending == {} then age == 0
            else && (exists id :: id in pending && age == now - rows[id].envelope.occurredAt)
                 && forall id :: id in pending ==> now - rows[id].envelope.occurredAt <= age
  {
    var pending := WithStatus(rows, Pending);
    if pending == {} then 0 else now - OldestOf(rows, pending)
  }

  // Tried so often that somebody should look; nothing else comes of it.
  function Stuck(rows: map<RowId, Row>, maxAttempts: nat): set<RowId> {
    set id | id in rows && rows[id].status == Pending && rows[id].attempts >= maxAttempts
  }

  function StatsOf(s: State, maxAttempts: nat): OutboxStats {
    OutboxStats(|WithStatus(s.rows, Pending)|, OldestAge(s.rows, s.clock), |WithStatus(s.rows, Failed)|,
                |Stuck(s.rows, maxAttempts)|)
  }

  // From step `from` on nobody has changed the tables, but perhaps step `at`.
  ghost predicate OthersKeepTables(run: Run, from: nat, at: nat) {
    forall k :: from <= k < |run.steps| && k != at ==> !ChangesTables(run.steps[k])
  }

  lemma {:induction false} SameRows(run: Run, m: nat, n: nat)
    requires IsRun(run) && m <= n < |run.states|
    requires forall k :: m <= k < n ==> !ChangesTables(run.steps[k])
    ensures run.states[n].rows == run.states[m].rows
    decreases n
  {
    if m < n {
      SameRows(run, m, n - 1);
      StepOf(run, n - 1);
      TablesUnmoved(run.states[n - 1], run.steps[n - 1]);
    }
  }

  // The backlog is what was pending when the pass began, less what it says it published or parked; what
  // is parked is what was parked, and what it says it parked.
  ghost predicate AddsUp(stats: OutboxStats, before: map<RowId, Row>, res: PublishResult) {
    && stats.backlog + res.published + |res.permanent| == |WithStatus(before, Pending)|
    && stats.failedRows == |WithStatus(before, Failed)| + |res.permanent|
  }

  // The pending rows that commits of this run have rescheduled at least this often.
  ghost function OftenDeferred(run: Run, maxAttempts: nat): set<RowId>
    requires IsRun(run)
  {
    set id | id in WithStatus(Last(run).rows, Pending) && DeferralsAt(run, id, |run.steps|) >= maxAttempts
  }

  ghost predicate StuckAre(stats: OutboxStats, run: Run, maxAttempts: nat)
    requires IsRun(run)
  {
    stats.stuckRows == |OftenDeferred(run, maxAttempts)| && stats.stuckRows <= stats.backlog
  }

  lemma BacklogAddsUp(run: Run, from: nat, end: PassEnd, res: PublishResult, maxAttempts: nat)
    requires Execution(run) && EndedBy(run, end) && from <= end.at && run.steps[end.at] == RelayCommit(end.tx)
    requires Reported(res, end.x) && Named(res, end.x) && OthersKeepTables(run, from, end.at)
    ensures AddsUp(StatsOf(Last(run), maxAttempts), run.states[from].rows, res)
  {
    SameRows(run, from, end.at);
    CommitMovesBacklog(run, end.at);
    SameRows(run, end.at + 1, |run.steps|);
  }

  lemma StuckByDeferrals(run: Run, maxAttempts: nat)
    requires Execution(run)
    ensures StuckAre(StatsOf(Last(run), maxAttempts), run, maxAttempts)
  {
    var s := Last(run);
    forall id | id in s.rows
      ensures s.rows[id].attempts == DeferralsAt(run, id, |run.steps|)
    {
      AttemptsCountDeferrals(run, id, |run.steps|);
    }
    assert Stuck(s.rows, maxAttempts) == OftenDeferred(run, maxAttempts);
    NotLarger(Stuck(s.rows, maxAttempts), WithStatus(s.rows, Pending));
  }

  // What the pass reports of the table agrees with what it reports of itself, and with the run.
  ghost predicate FiguresAgree(run: Run, from: nat, end: PassEnd, res: PublishResult, maxAttempts: nat)
    requires IsRun(run) && from < |run.states|
  {
    res.stats.Some? ==>
      && (end.Ended? && OthersKeepTables(run, from, end.at) ==> AddsUp(res.stats.value, run.states[from].rows, res))
      && StuckAre(res.stats.value, run, maxAttempts)
  }

  lemma FiguresOf(run: Run, from: nat, end: PassEnd, res: PublishResult, maxAttempts: nat)
    requires Execution(run) && EndedBy(run, end) && from <= end.at && run.steps[end.at] == RelayCommit(end.tx)
    requires Reported(res, end.x) && Named(res, end.x)
    requires res.stats.Some? ==> res.stats == Some(StatsOf(Last(run), maxAttempts))
    ensures FiguresAgree(run, from, end, res, maxAttempts)
  {
    StuckByDeferrals(run, maxAttempts);
    if OthersKeepTables(run, from, end.at) {
      BacklogAddsUp(run, from, end, res, maxAttempts);
    }
  }

  // A row that the pass rescheduled comes back by the documented formula, after the moment of its failure.
  lemma ReschedulesByFormula(c: Cluster, policy: PublishPolicy, end: PassEnd, id: RowId)
    requires c.Valid() && EndedBy(c.run, end) && MayCommit(end.x)
    requires BacksOff(end.x, policy.base as int, policy.cap as int, end.failedAt, end.jitter)
    requires 0 < policy.base <= policy.cap && Fits(policy.cap as int)
    requires id in end.x.writes && end.x.writes[id].status == Pending
    ensures var before := c.run.states[end.at].rows;
      && id in before
      && WaitsByFormula(end.x.writes[id].availableAt - end.failedAt, policy.base as int, policy.cap as int,
                        before[id].attempts)
  {
    Reachable(c.run, end.at);
    var s := c.run.states[end.at];
    assert RelayOk(s.rows, s.log, end.x);
    RescheduledByFormula(s.rows, s.log, end.x, policy.base as int, policy.cap as int, end.failedAt, end.jitter, id);
  }

  // When a row that failed at `now` is tried again.
  method NextAttempt(now: Instant, policy: PublishPolicy, attempts: nat, beat: Beat) returns (at: Instant)
    ensures OneDelayAfter(at, now, policy.base as int, policy.cap as int, attempts, Backoff.Factor(beat.jitter))
  {
    var wait := Backoff.After(policy.base, policy.cap, attempts, Backoff.Factor(beat.jitter), beat.spill);
    at := now + wait as int;
  }

  lemma AckedFitClaim(c: Cluster, end: PassEnd)
    requires c.Valid() && EndedBy(c.run, end)
    ensures |end.x.acked| <= |end.x.batch|
  {
    Reachable(c.run, end.at);
    var s := c.run.states[end.at];
    assert RelayOk(s.rows, s.log, end.x);
    AckedFitBatch(s.log, end.x);
  }

  // At the step that ended it, the pass's transaction balances.
  lemma AccountedFor(c: Cluster, end: PassEnd)
    requires c.Valid() && EndedBy(c.run, end) && MayCommit(end.x)
    ensures var transient := |WithStatus(end.x.writes, Pending)|;
            && |end.x.batch| == |end.x.acked| + |WithStatus(end.x.writes, Failed)| + transient
                                + (|end.x.batch| - end.x.handled)
            && transient <= 1 && (end.x.handled < |end.x.batch| ==> transient == 1)
            && end.x.handled <= |end.x.batch| <= end.x.limit
  {
    Reachable(c.run, end.at);
    var s := c.run.states[end.at];
    assert RelayOk(s.rows, s.log, end.x);
    PassAccounting(s.rows, s.log, end.x);
  }

  lemma ReportIs(c: Cluster, from: nat, end: PassEnd, res: PublishResult, err: Option<PassError>)
    requires c.Valid() && EndedBy(c.run, end) && from <= end.at && Reported(res, end.x)
    requires Answered(c.run, c.script, end, err)
    requires err.None? ==> MayCommit(end.x) && Named(res, end.x)
    ensures Reports(c.run, c.script, from, end, res, err)
  {
    AckedFitClaim(c, end);
    BatchStillPending(c.run, end.at);
    if err.None? {
      AccountedFor(c, end);
    }
  }

  lemma ReportSince(run: Run, script: nat -> Beat, from: nat, since: nat, end: PassEnd, res: PublishResult,
                    err: Option<PassError>)
    requires from <= since && Reports(run, script, since, end, res, err)
    ensures Reports(run, script, from, end, res, err)
  {
  }

  lemma CausedSince(script: nat -> Beat, from: nat, since: nat, to: nat, err: Option<PassError>)
    requires from <= since && CausedBy(script, since, to, err) && err != Some(BeginFailed)
    ensures CausedBy(script, from, to, err)
  {
  }

  lemma ClaimStands(before: Run, after: Run, c: nat, tx: TxId, limit: nat, batch: seq<PendingMessage>)
    requires ClaimedAt(before, c, tx, limit, batch) && IsRun(after) && Continues(before, after)
    ensures ClaimedAt(after, c, tx, limit, batch)
  {
    assert before.states[c] == after.states[c] && before.steps[c] == after.steps[c];
  }

  lemma NotAckedYet(c: Cluster, tx: TxId)
    requires c.Valid() && tx in c.state.relays && c.state.relays[tx].phase.Ready?
    requires c.state.relays[tx].handled < |c.state.relays[tx].batch|
    ensures var x := c.state.relays[tx];
            && Current(x).id !in x.acked
            && forall i :: 0 <= i < x.handled ==> x.batch[i].id != Current(x).id
  {
    c.Holds();
    assert RelayOk(c.state.rows, c.state.log, c.state.relays[tx]);
  }

  // What was decided at the end of the pass stays decided.
  lemma EndStands(before: Run, after: Run, end: PassEnd)
    requires EndedBy(before, end) && IsRun(after) && Continues(before, after)
    ensures EndedBy(after, end) && after.steps[end.at] == before.steps[end.at]
    ensures after.states[end.at + 1] == before.states[end.at + 1]
  {
  }

  lemma ReportStands(before: Run, after: Run, script: nat -> Beat, from: nat, end: PassEnd, res: PublishResult,
                     res': PublishResult, err: Option<PassError>)
    requires Reports(before, script, from, end, res, err) && IsRun(after) && Continues(before, after)
    requires res' == res.(stats := res'.stats, statsErr := res'.statsErr)
    ensures Reports(after, script, from, end, res', err)
  {
    EndStands(before, after, end);
  }

  lemma AckedIsNotPending(c: Cluster, tx: TxId, x: RelayTx, at: nat)
    requires c.Valid() && at < |c.run.steps| && c.run.steps[at] == RelayCommit(tx)
    requires Open(c.run.states[at], tx, x) && x.acked != {}
    ensures exists id :: id in x.writes && x.writes[id].status != Pending
  {
    Reachable(c.run, at);
    StepOf(c.run, at);
    var s := c.run.states[at];
    assert RelayOk(s.rows, s.log, x);
    var id :| id in x.acked;
    AckedIsMarked(s.rows, s.log, x, id);
  }

  lemma ComesBackLater(c: Cluster, tx: TxId, policy: PublishPolicy, failedAt: Instant, jitter: real)
    requires c.Valid() && tx in c.state.relays && MayCommit(c.state.relays[tx])
    requires BacksOff(c.state.relays[tx], policy.base as int, policy.cap as int, failedAt, jitter)
    ensures InTheFuture(policy) ==> LandsLater(c.state.relays[tx], failedAt)
  {
    c.Holds();
    if InTheFuture(policy) {
      assert RelayOk(c.state.rows, c.state.log, c.state.relays[tx]);
      BackoffLandsLater(c.state.rows, c.state.log, c.state.relays[tx], policy.base as int, policy.cap as int,
                        failedAt, jitter);
    }
  }

  class PublishPendingBatch {
    const cluster: Cluster
    const policy: PublishPolicy

    constructor (cluster: Cluster, policy: PublishPolicy)
      ensures this.cluster == cluster && this.policy == policy
    {
      this.cluster := cluster;
      this.policy := policy;
    }

    // The publisher's produce call: the record goes to the broker, or may have gone there.
    method Produce(tx: TxId, pending: PendingMessage, record: Record, reply: ProduceReply)
      returns (err: Option<PublishError>)
      requires cluster.Valid() && tx in cluster.state.relays
      requires cluster.state.relays[tx].phase.Ready?
      requires cluster.state.relays[tx].handled < |cluster.state.relays[tx].batch|
      requires pending == Current(cluster.state.relays[tx])
      requires Routable(cluster.topics, pending.envelope.aggregateType)
      requires record == Encode(cluster.topics, pending.envelope)
      modifies cluster`state, cluster`run, cluster`calm
      ensures cluster.Valid() && Continues(old(cluster.run), cluster.run)
      ensures cluster.calm == old(cluster.calm)
      ensures cluster.state.clock == old(cluster.state.clock)
      ensures err == Answer(cluster.topics, pending.envelope.aggregateType, reply)
      ensures JustProduced(cluster.run, tx, cluster.topics, pending.envelope.aggregateType, reply, err)
      ensures Open(cluster.state, tx, AfterPublish(old(cluster.state.relays[tx]), OutcomeOf(err)))
      ensures err.None? ==> Produced(cluster.state, pending)
    {
      match reply {
        case Acknowledged =>
          ghost var log := cluster.state.log;
          cluster.Perform(RelayPublish(tx, Ack));
          ProducedIs(cluster.state, log, pending, record);
          err := None;
        case Errored(cause, appended) =>
          var e := Classify(cause);
          cluster.Perform(RelayPublish(tx, Error(e, appended)));
          err := Some(e);
      }
    }

    // Route, then produce: an unmapped aggregate type is refused without a network call.
    // Whatever goes wrong is in exactly one of the two classes.
    method Publish(tx: TxId, pending: PendingMessage) returns (err: Option<PublishError>)
      requires cluster.Valid() && tx in cluster.state.relays
      requires cluster.state.relays[tx].phase.Ready?
      requires cluster.state.relays[tx].handled < |cluster.state.relays[tx].batch|
      requires pending == Current(cluster.state.relays[tx])
      modifies cluster`state, cluster`run, cluster`cursor, cluster`calm
      ensures cluster.Valid() && Continues(old(cluster.run), cluster.run)
      ensures cluster.cursor == old(cluster.cursor) + 1
      ensures err == Answer(cluster.topics, pending.envelope.aggregateType,
                            BeatAt(cluster.script, old(cluster.cursor)).produce)
      ensures var reply := BeatAt(cluster.script, old(cluster.cursor)).produce;
        && Decided(cluster.topics, pending.envelope.aggregateType, reply, err)
        && JustProduced(cluster.run, tx, cluster.topics, pending.envelope.aggregateType, reply, err)
      ensures err.Some? ==> InExactlyOneClass(err.value)
      ensures cluster.calm == old(cluster.calm)
      ensures ClockHeld(cluster.calm, old(cluster.state.clock), cluster.state.clock)
      ensures Open(cluster.state, tx, AfterPublish(old(cluster.state.relays[tx]), OutcomeOf(err)))
      ensures err.None? ==> Produced(cluster.state, pending)
    {
      var beat := cluster.Draw(Some(tx));
      var route := TopicFor(cluster.topics, pending.envelope.aggregateType);
      match route {
        case Err(e) =>
          cluster.Perform(RelayPublish(tx, Error(e, false)));
          err := Some(e);
        case Ok(topic) =>
          var record := BuildRecord(topic, pending.envelope, cluster.topics);
          err := Produce(tx, pending, record, beat.produce);
      }
    }

    // Not this row's fault: it comes back after a backoff counted from now, and the pass stops.
    method Defer(outbox: RelayOutbox, pending: PendingMessage, failure: PublishError, start: PublishResult,
                 ghost x: RelayTx, ghost i: nat)
      returns (res: PublishResult, err: Option<PassError>, ghost failedAt: Instant, ghost jitter: real)
      requires outbox.cluster == cluster && cluster.Valid() && ClassOf(failure) == Transient
      requires x.phase.Ready? && Progress(x, x.batch, i, start) && i < |x.batch| && x.batch[i] == pending
      requires Open(cluster.state, outbox.tx, AfterPublish(x, Error(failure, false)))
      modifies cluster`state, cluster`run, cluster`cursor, cluster`calm
      ensures cluster.Valid() && Continues(old(cluster.run), cluster.run)
      ensures SamePass(start, res)
      ensures cluster.cursor == old(cluster.cursor) + 2
      ensures jitter == Backoff.Factor(BeatAt(cluster.script, old(cluster.cursor)).jitter)
      ensures err.Some? <==> Struck(cluster.script, old(cluster.cursor), cluster.cursor)
      ensures cluster.calm == old(cluster.calm)
      ensures ClockHeld(cluster.calm, old(cluster.state.clock), cluster.state.clock)
      ensures outbox.tx in cluster.state.relays && old(cluster.state.clock) <= failedAt <= cluster.state.clock
      ensures var y := cluster.state.relays[outbox.tx];
        && y.batch == x.batch && y.limit == x.limit && res.published == |y.acked|
        && (err.None? ==> y.phase.Stopped? && Named(res, y)
                          && BacksOff(y, policy.base as int, policy.cap as int, failedAt, jitter))
      ensures err.Some? ==> err.value == StatementFailed
    {
      res := start;
      var f := Failure(pending.id, pending.envelope.eventId, failure.reason);
      var beat := cluster.Draw(Some(outbox.tx));
      var at := NextAttempt(cluster.state.clock, policy, pending.attempts, beat);
      failedAt, jitter := cluster.state.clock, Backoff.Factor(beat.jitter);
      err := outbox.MarkOne(AsRescheduled(at, f.reason));
      if err.None? {
        DeferralMarked(cluster.state.rows, x, cluster.state.relays[outbox.tx], x.batch, i, res, failure, at, f);
        DeferralBacksOff(cluster.state.rows, AfterPublish(x, Error(failure, false)), cluster.state.relays[outbox.tx],
                         at, f.reason, policy.base as int, policy.cap as int, failedAt, jitter);
        res := res.(transient := [f]);
      }
    }

    // Retrying cannot help: the row is parked, and the pass goes on.
    method Park(outbox: RelayOutbox, pending: PendingMessage, failure: PublishError, start: PublishResult,
                ghost x: RelayTx, ghost i: nat)
      returns (res: PublishResult, err: Option<PassError>)
      requires outbox.cluster == cluster && cluster.Valid() && ClassOf(failure) == Permanent
      requires x.phase.Ready? && Progress(x, x.batch, i, start) && i < |x.batch| && x.batch[i] == pending
      requires Open(cluster.state, outbox.tx, AfterPublish(x, Error(failure, false)))
      modifies cluster`state, cluster`run, cluster`cursor, cluster`calm
      ensures cluster.Valid() && Continues(old(cluster.run), cluster.run)
      ensures SamePass(start, res) && cluster.cursor == old(cluster.cursor) + 1
      ensures err.Some? <==> Struck(cluster.script, old(cluster.cursor), cluster.cursor)
      ensures cluster.calm == old(cluster.calm)
      ensures ClockHeld(cluster.calm, old(cluster.state.clock), cluster.state.clock)
      ensures outbox.tx in cluster.state.relays
      ensures var y := cluster.state.relays[outbox.tx];
        && y.batch == x.batch && y.limit == x.limit && y.acked == x.acked && res.published == start.published
        && (err.None? ==> y.phase.Ready? && Progress(y, x.batch, i + 1, res))
      ensures err.Some? ==> err.value == StatementFailed
    {
      res := start;
      var f := Failure(pending.id, pending.envelope.eventId, failure.reason);
      err := outbox.MarkOne(AsFailed(f.reason));
      if err.None? {
        RefusalMarked(cluster.state.rows, x, cluster.state.relays[outbox.tx], x.batch, i, res, failure, f);
        res := res.(permanent := res.permanent + [f]);
      }
    }

    // The switch on one produce call's outcome: count and mark, park, or reschedule and stop.
    method Settle(outbox: RelayOutbox, pending: PendingMessage, failure: Option<PublishError>, start: PublishResult,
                  ghost x: RelayTx, ghost i: nat)
      returns (res: PublishResult, err: Option<PassError>, stop: bool, ghost failedAt: Instant, ghost jitter: real)
      requires outbox.cluster == cluster && cluster.Valid()
      requires failure.Some? ==> InExactlyOneClass(failure.value)
      requires x.phase.Ready? && Progress(x, x.batch, i, start) && i < |x.batch|
      requires x.batch[i] == pending && pending.id !in x.acked
      requires Open(cluster.state, outbox.tx, AfterPublish(x, OutcomeOf(failure)))
      modifies cluster`state, cluster`run, cluster`cursor, cluster`calm
      ensures cluster.Valid() && Continues(old(cluster.run), cluster.run)
      ensures SamePass(start, res) && cluster.cursor > old(cluster.cursor)
      ensures err.Some? <==> Struck(cluster.script, old(cluster.cursor), cluster.cursor)
      ensures stop ==> failure.Some? && ClassOf(failure.value) == Transient
      ensures cluster.calm == old(cluster.calm)
      ensures ClockHeld(cluster.calm, old(cluster.state.clock), cluster.state.clock)
      ensures outbox.tx in cluster.state.relays
      ensures var y := cluster.state.relays[outbox.tx];
        && y.batch == x.batch && y.limit == x.limit && res.published == |y.acked|
        && (err.None? && !stop ==> y.phase.Ready? && Progress(y, x.batch, i + 1, res)
                                   && y.acked == AfterPublish(x, OutcomeOf(failure)).acked)
        && (err.None? && stop ==> y.phase.Stopped? && Named(res, y)
                                  && BacksOff(y, policy.base as int, policy.cap as int, failedAt, jitter))
      ensures err.Some? ==> err.value == StatementFailed
      ensures err.None? && stop ==> old(cluster.state.clock) <= failedAt <= cluster.state.clock
    {
      res, stop := start, false;
      failedAt, jitter := cluster.state.clock, 1.0;
      if failure.None? {
        res := res.(published := res.published + 1);
        err := outbox.MarkOne(AsPublished);
        if err.None? {
          AckMarked(cluster.state.rows, x, cluster.state.relays[outbox.tx], x.batch, i, start);
        }
      } else if ClassOf(failure.value) == Permanent {
        res, err := Park(outbox, pending, failure.value, res, x, i);
      } else if ClassOf(failure.value) == Transient {
        res, err, failedAt, jitter := Defer(outbox, pending, failure.value, res, x, i);
        stop := err.None?;
      } else {
        // The default arm, which abandons the pass, is never reached.
        assert false;
      }
    }

    // One turn of the loop over the batch.
    method PublishOne(outbox: RelayOutbox, pending: PendingMessage, start: PublishResult, ghost i: nat)
      returns (res: PublishResult, err: Option<PassError>, stop: bool, ghost failedAt: Instant, ghost jitter: real)
      requires outbox.cluster == cluster && cluster.Valid()
      requires outbox.tx in cluster.state.relays && cluster.state.relays[outbox.tx].phase.Ready?
      requires var x := cluster.state.relays[outbox.tx];
        Progress(x, x.batch, i, start) && i < |x.batch| && x.batch[i] == pending
      modifies cluster`state, cluster`run, cluster`cursor, cluster`calm
      ensures cluster.Valid() && Continues(old(cluster.run), cluster.run)
      ensures cluster.calm == old(cluster.calm)
      ensures ClockHeld(cluster.calm, old(cluster.state.clock), cluster.state.clock)
      ensures SamePass(start, res) && outbox.tx in cluster.state.relays && cluster.cursor > old(cluster.cursor)
      ensures err.Some? <==> Struck(cluster.script, old(cluster.cursor), cluster.cursor)
      ensures Healthy(cluster.script, old(cluster.cursor), cluster.cursor)
              && Routed(cluster.topics, old(cluster.state.relays[outbox.tx])) ==>
        err.None? && !stop && Routed(cluster.topics, cluster.state.relays[outbox.tx])
      ensures var x, y := old(cluster.state.relays[outbox.tx]), cluster.state.relays[outbox.tx];
        && y.batch == x.batch && y.limit == x.limit && res.published == |y.acked|
        && (err.None? && !stop ==> y.phase.Ready? && Progress(y, x.batch, i + 1, res))
        && (err.None? && stop ==> y.phase.Stopped? && Named(res, y)
                                  && BacksOff(y, policy.base as int, policy.cap as int, failedAt, jitter))
      ensures err.Some? ==> err.value == StatementFailed
      ensures err.None? && stop ==> old(cluster.state.clock) <= failedAt <= cluster.state.clock
    {
      ghost var x, from := cluster.state.relays[outbox.tx], cluster.cursor;
      NotAckedYet(cluster, outbox.tx);
      var failure := Publish(outbox.tx, pending);
      ghost var since := cluster.cursor;
      res, err, stop, failedAt, jitter := Settle(outbox, pending, failure, start, x, i);
      StruckSince(cluster.script, from, since, cluster.cursor);
      if Healthy(cluster.script, from, cluster.cursor) {
        HealthyAnswer(cluster.script, from, cluster.cursor, cluster.topics, pending.envelope.aggregateType);
        HealthyIsNotStruck(cluster.script, from, cluster.cursor);
        OneMoreRouted(cluster.topics, x, cluster.state.relays[outbox.tx], OutcomeOf(failure));
      }
    }

    method PublishBatch(outbox: RelayOutbox, batch: seq<PendingMessage>, start: PublishResult)
      returns (res: PublishResult, err: Option<PassError>, ghost failedAt: Instant, ghost jitter: real)
      requires outbox.cluster == cluster && cluster.Valid()
      requires outbox.tx in cluster.state.relays && cluster.state.relays[outbox.tx].phase.Ready?
      requires Progress(cluster.state.relays[outbox.tx], batch, 0, start)
      modifies cluster`state, cluster`run, cluster`cursor, cluster`calm
      ensures cluster.Valid() && Continues(old(cluster.run), cluster.run)
      ensures SamePass(start, res)
      ensures outbox.tx in cluster.state.relays
      ensures var y := cluster.state.relays[outbox.tx];
        && y.batch == batch && y.limit == old(cluster.state.relays[outbox.tx].limit)
        && res.published == |y.acked|
        && (err.None? ==> MayCommit(y) && Named(res, y)
                          && BacksOff(y, policy.base as int, policy.cap as int, failedAt, jitter))
      ensures cluster.calm == old(cluster.calm)
      ensures ClockHeld(cluster.calm, old(cluster.state.clock), cluster.state.clock)
      ensures err.None? ==> old(cluster.state.clock) <= failedAt <= cluster.state.clock
      ensures Justified(cluster.script, old(cluster.cursor), cluster.cursor, err, cluster.topics,
                        cluster.state.relays[outbox.tx])
    {
      res := start;
      failedAt, jitter := cluster.state.clock, 1.0;
      for i := 0 to |batch|
        invariant cluster.Valid() && Continues(old(cluster.run), cluster.run)
        invariant SamePass(start, res)
        invariant outbox.tx in cluster.state.relays && cluster.state.relays[outbox.tx].phase.Ready?
        invariant Progress(cluster.state.relays[outbox.tx], batch, i, res)
        invariant cluster.state.relays[outbox.tx].limit == old(cluster.state.relays[outbox.tx].limit)
        invariant old(cluster.state.clock) == failedAt
        invariant cluster.calm == old(cluster.calm) && cluster.cursor >= old(cluster.cursor)
        invariant Healthy(cluster.script, old(cluster.cursor), cluster.cursor) ==>
          Routed(cluster.topics, cluster.state.relays[outbox.tx])
        invariant ClockHeld(cluster.calm, old(cluster.state.clock), cluster.state.clock)
      {
        var stop;
        ghost var seen, factor;
        res, err, stop, seen, factor := PublishOne(outbox, batch[i], res, i);
        if err.Some? {
          return;
        }
        if stop {
          failedAt, jitter := seen, factor;
          return;
        }
      }
      err := None;
    }

    // What runs once the batch has been claimed, by the last step of the run.
    method PublishClaimed(outbox: RelayOutbox, batch: seq<PendingMessage>)
      returns (res: PublishResult, err: Option<PassError>,
               ghost claim: nat, ghost failedAt: Instant, ghost jitter: real)
      requires outbox.cluster == cluster && cluster.Valid() && |batch| <= policy.batchSize
      requires JustClaimed(cluster.run, cluster.state, outbox.tx, policy.batchSize, batch)
      modifies cluster`state, cluster`run, cluster`cursor, cluster`calm
      ensures cluster.Valid() && Continues(old(cluster.run), cluster.run)
      ensures cluster.calm == old(cluster.calm)
      ensures ClockHeld(cluster.calm, old(cluster.state.clock), cluster.state.clock)
      ensures err.None? ==> old(cluster.state.clock) <= failedAt <= cluster.state.clock
      ensures res.batchSize == policy.batchSize && res.stats.None? && res.statsErr.None?
      ensures outbox.tx in cluster.state.relays && Reported(res, cluster.state.relays[outbox.tx])
      ensures res.claimed <= policy.batchSize
      ensures err.None? ==>
        && Committable(res, cluster.state.relays[outbox.tx], policy, failedAt, jitter)
        && ClaimedAt(cluster.run, claim, outbox.tx, policy.batchSize, cluster.state.relays[outbox.tx].batch)
        && |old(cluster.run.steps)| == claim + 1
      ensures Justified(cluster.script, old(cluster.cursor), cluster.cursor, err, cluster.topics,
                        cluster.state.relays[outbox.tx])
    {
      claim := |cluster.run.steps| - 1;
      ghost var claimed := cluster.run;
      res := PublishResult(|batch|, 0, [], [], None, None, policy.batchSize);
      res, err, failedAt, jitter := PublishBatch(outbox, batch, res);
      ClaimStands(claimed, cluster.run, claim, outbox.tx, policy.batchSize, batch);
    }

    // What runs inside the claiming transaction.
    method ClaimAndPublish(outbox: RelayOutbox)
      returns (res: PublishResult, err: Option<PassError>,
               ghost claim: nat, ghost failedAt: Instant, ghost jitter: real)
      requires outbox.cluster == cluster && cluster.Valid()
      requires outbox.tx in cluster.state.relays && cluster.state.relays[outbox.tx].phase.Begun?
      requires cluster.state.relays[outbox.tx].batch == [] && cluster.state.relays[outbox.tx].acked == {}
      modifies cluster`state, cluster`run, cluster`cursor, cluster`calm
      ensures cluster.Valid() && Continues(old(cluster.run), cluster.run)
      ensures cluster.calm == old(cluster.calm)
      ensures ClockHeld(cluster.calm, old(cluster.state.clock), cluster.state.clock)
      ensures err.None? ==> old(cluster.state.clock) <= failedAt <= cluster.state.clock
      ensures res.batchSize == policy.batchSize && res.stats.None? && res.statsErr.None?
      ensures outbox.tx in cluster.state.relays && Reported(res, cluster.state.relays[outbox.tx])
      ensures res.claimed <= policy.batchSize
      ensures err.None? ==>
        && Committable(res, cluster.state.relays[outbox.tx], policy, failedAt, jitter)
        && ClaimedAt(cluster.run, claim, outbox.tx, policy.batchSize, cluster.state.relays[outbox.tx].batch)
        && |old(cluster.run.steps)| <= claim
      ensures Justified(cluster.script, old(cluster.cursor), cluster.cursor, err, cluster.topics,
                        cluster.state.relays[outbox.tx])
    {
      res := PublishResult(0, 0, [], [], None, None, policy.batchSize);
      claim, failedAt, jitter := 0, cluster.state.clock, 1.0;
      ghost var from := cluster.cursor;
      var batch;
      batch, err := outbox.ClaimPending(policy.batchSize);
      ghost var since := cluster.cursor;
      if err.Some? {
        HealthyIsNotStruck(cluster.script, from, since);
      } else {
        res, err, claim, failedAt, jitter := PublishClaimed(outbox, batch);
        JustifiedSince(cluster.script, from, since, cluster.cursor, err, cluster.topics,
                       cluster.state.relays[outbox.tx]);
      }
    }

    // WithTx's ending: roll back on an error, else commit. A failed COMMIT may have taken effect.
    method Finish(tx: TxId, failure: Option<PassError>)
      returns (err: Option<PassError>, ghost at: nat)
      requires cluster.Valid() && tx in cluster.state.relays
      requires failure.None? ==> MayCommit(cluster.state.relays[tx])
      modifies cluster`state, cluster`run, cluster`cursor, cluster`calm
      ensures cluster.Valid() && Continues(old(cluster.run), cluster.run) && |old(cluster.run.steps)| <= at
      ensures |cluster.run.steps| == at + 1 && Open(cluster.run.states[at], tx, old(cluster.state.relays[tx]))
      ensures tx !in cluster.state.relays && cluster.cursor == old(cluster.cursor) + 1
      ensures var reply := BeatAt(cluster.script, old(cluster.cursor)).commit;
        && cluster.run.steps[at] == (if failure.None? && (reply.CommitOk? || reply.applied)
                                     then RelayCommit(tx) else RelayRollback(tx))
        && err == if failure.Some? then failure else if reply.CommitOk? then None else Some(CommitFailed)
      ensures old(cluster.calm)
              && (failure.None? ==> LandsLater(old(cluster.state.relays[tx]), old(cluster.state.clock))) ==>
        cluster.calm && cluster.state.clock == old(cluster.state.clock)
      ensures old(cluster.state.clock) <= cluster.state.clock
    {
      var beat := cluster.Draw(Some(tx));
      at := |cluster.run.steps|;
      var commits := failure.None? && (beat.commit.CommitOk? || beat.commit.applied);
      var step := if commits then RelayCommit(tx) else RelayRollback(tx);
      cluster.Perform(step);
      err := if failure.None? && !beat.commit.CommitOk? then Some(CommitFailed) else failure;
    }

    // A COMMIT that takes effect and then fails to say so: the pass reports an error, and what it
    // published is no longer pending.
    method AppliedCommitError(tx: TxId) returns (err: Option<PassError>, ghost at: nat)
      requires cluster.Valid() && tx in cluster.state.relays && MayCommit(cluster.state.relays[tx])
      requires cluster.state.relays[tx].acked != {}
      requires BeatAt(cluster.script, cluster.cursor).commit == CommitError(true)
      modifies cluster`state, cluster`run, cluster`cursor, cluster`calm
      ensures cluster.Valid() && Continues(old(cluster.run), cluster.run) && |cluster.run.steps| == at + 1
      ensures err == Some(CommitFailed)
      ensures !AllPending(cluster.run.states[at + 1].rows, old(cluster.state.relays[tx].batch))
    {
      ghost var x := cluster.state.relays[tx];
      err, at := Finish(tx, None);
      BatchStillPending(cluster.run, at);
      AckedIsNotPending(cluster, tx, x, at);
    }

    // A transaction that has claimed nothing yet, or none.
    method Begin() returns (tx: TxId, err: Option<PassError>)
      requires cluster.Valid()
      modifies cluster`state, cluster`run, cluster`cursor, cluster`calm
      ensures cluster.Valid() && Continues(old(cluster.run), cluster.run)
      ensures err.Some? <==> BeatAt(cluster.script, old(cluster.cursor)).fails
      ensures err.Some? ==> err.value == BeginFailed
      ensures cluster.cursor == old(cluster.cursor) + 1
      ensures err.None? ==> Open(cluster.state, tx, RelayTx(cluster.state.clock, 0, [], 0, Phase.Begun, map[], {}))
      ensures cluster.calm == old(cluster.calm)
      ensures ClockHeld(cluster.calm, old(cluster.state.clock), cluster.state.clock)
    {
      var beat := cluster.Draw(None);
      if beat.fails {
        return 0, Some(BeginFailed);
      }
      tx := cluster.state.nextTx;
      cluster.Perform(RelayBegin(tx));
      err := None;
    }

    // The end of it, after work that began at beat `from`.
    method EndPass(tx: TxId, failure: Option<PassError>, ghost res: PublishResult, ghost from: nat, ghost claim: nat,
                   ghost failedAt: Instant, ghost jitter: real)
      returns (err: Option<PassError>, ghost end: PassEnd)
      requires cluster.Valid() && tx in cluster.state.relays && Reported(res, cluster.state.relays[tx])
      requires failure.None? ==>
        && Committable(res, cluster.state.relays[tx], policy, failedAt, jitter)
        && ClaimedAt(cluster.run, claim, tx, policy.batchSize, cluster.state.relays[tx].batch)
        && (cluster.calm ==> failedAt == cluster.state.clock)
      requires Justified(cluster.script, from, cluster.cursor, failure, cluster.topics, cluster.state.relays[tx])
      modifies cluster`state, cluster`run, cluster`cursor, cluster`calm
      ensures cluster.Valid() && Continues(old(cluster.run), cluster.run)
      ensures EndedBy(cluster.run, end) && |old(cluster.run.steps)| <= end.at
              && Reported(res, end.x) && Answered(cluster.run, cluster.script, end, err)
      ensures err.None? ==>
        && Committable(res, end.x, policy, end.failedAt, end.jitter)
        && ClaimedAt(cluster.run, claim, end.tx, policy.batchSize, end.x.batch)
      ensures end.beat == old(cluster.cursor) && cluster.cursor == end.beat + 1
      ensures failure.Some? ==> err == failure
      ensures err != Some(BeginFailed) && from <= cluster.cursor
      ensures CausedBy(cluster.script, from, cluster.cursor, err)
      ensures Healthy(cluster.script, from, cluster.cursor) ==> err.None? && SettledAll(cluster.topics, end.x)
      ensures old(cluster.calm) && InTheFuture(policy) ==>
        cluster.calm && cluster.state.clock == old(cluster.state.clock)
    {
      ghost var x, worked, since := cluster.state.relays[tx], cluster.run, cluster.cursor;
      if failure.None? {
        ComesBackLater(cluster, tx, policy, failedAt, jitter);
      }
      ghost var at;
      err, at := Finish(tx, failure);
      end := Ended(tx, x, at, failedAt, jitter, since);
      EndAnswered(cluster.run, cluster.script, end, failure, err);
      HealthyParts(cluster.script, from, since, cluster.cursor);
      if failure.None? {
        ClaimStands(worked, cluster.run, claim, tx, policy.batchSize, x.batch);
      }
    }

    // The claiming transaction once it has begun, to its commit or rollback.
    method InTransaction(tx: TxId)
      returns (res: PublishResult, err: Option<PassError>, ghost end: PassEnd, ghost claim: nat)
      requires cluster.Valid() && tx in cluster.state.relays && cluster.state.relays[tx].phase.Begun?
      requires cluster.state.relays[tx].batch == [] && cluster.state.relays[tx].acked == {}
      modifies cluster`state, cluster`run, cluster`cursor, cluster`calm
      ensures cluster.Valid() && Continues(old(cluster.run), cluster.run)
      ensures res.batchSize == policy.batchSize && res.stats.None? && res.statsErr.None?
      ensures res.claimed <= policy.batchSize
      ensures EndedBy(cluster.run, end) && |old(cluster.run.steps)| <= end.at
              && Reported(res, end.x) && Answered(cluster.run, cluster.script, end, err)
      ensures err.None? ==>
        && Committable(res, end.x, policy, end.failedAt, end.jitter)
        && ClaimedAt(cluster.run, claim, end.tx, policy.batchSize, end.x.batch)
        && |old(cluster.run.steps)| <= claim
      ensures err != Some(BeginFailed)
      ensures old(cluster.cursor) <= end.beat && cluster.cursor == end.beat + 1
      ensures CausedBy(cluster.script, old(cluster.cursor), cluster.cursor, err)
      ensures Healthy(cluster.script, old(cluster.cursor), cluster.cursor) ==>
        err.None? && SettledAll(cluster.topics, end.x)
      ensures old(cluster.calm) && InTheFuture(policy) ==>
        cluster.calm && cluster.state.clock == old(cluster.state.clock)
    {
      ghost var from := cluster.cursor;
      var outbox := new RelayOutbox(cluster, tx);
      assert cluster.cursor == from;
      ghost var failedAt, jitter;
      var failure;
      res, failure, claim, failedAt, jitter := ClaimAndPublish(outbox);
      err, end := EndPass(tx, failure, res, from, claim, failedAt, jitter);
    }

    // And from its begin on.
    method RunPass() returns (res: PublishResult, err: Option<PassError>, ghost end: PassEnd, ghost claim: nat)
      requires cluster.Valid()
      modifies cluster`state, cluster`run, cluster`cursor, cluster`calm
      ensures cluster.Valid() && Continues(old(cluster.run), cluster.run)
      ensures res.batchSize == policy.batchSize && res.stats.None? && res.statsErr.None?
      ensures res.claimed <= policy.batchSize
      ensures end.NotBegun? ==> err == Some(BeginFailed) && res.claimed == 0 && res.published == 0
      ensures end.Ended? ==>
        Reports(cluster.run, cluster.script, |old(cluster.run.steps)|, end, res, err)
      ensures err.None? ==>
        && end.Ended? && Committable(res, end.x, policy, end.failedAt, end.jitter)
        && ClaimedAt(cluster.run, claim, end.tx, policy.batchSize, end.x.batch)
        && |old(cluster.run.steps)| <= claim
      ensures old(cluster.cursor) <= cluster.cursor
      ensures end.Ended? ==> old(cluster.cursor) <= end.beat && cluster.cursor == end.beat + 1
      ensures CausedBy(cluster.script, old(cluster.cursor), cluster.cursor, err)
      ensures Healthy(cluster.script, old(cluster.cursor), cluster.cursor) ==>
        err.None? && SettledAll(cluster.topics, end.x)
      ensures old(cluster.calm) && InTheFuture(policy) ==>
        cluster.calm && cluster.state.clock == old(cluster.state.clock)
    {
      res := PublishResult(0, 0, [], [], None, None, policy.batchSize);
      end, claim := NotBegun, 0;
      ghost var from, first := cluster.cursor, |cluster.run.steps|;
      var tx;
      tx, err := Begin();
      if err.None? {
        ghost var since, begun := cluster.cursor, cluster.run;
        res, err, end, claim := InTransaction(tx);
        CausedSince(cluster.script, from, since, cluster.cursor, err);
        ReportIs(cluster, |begun.steps|, end, res, err);
        ReportSince(cluster.run, cluster.script, first, |begun.steps|, end, res, err);
      }
    }

    // Reads the backlog after the pass has ended; a failure is recorded in place of the numbers and
    // undoes nothing.
    method Observe(start: PublishResult) returns (res: PublishResult)
      requires cluster.Valid()
      modifies cluster`state, cluster`run, cluster`cursor, cluster`calm
      ensures cluster.Valid() && Continues(old(cluster.run), cluster.run)
      ensures cluster.calm == old(cluster.calm)
      ensures ClockHeld(cluster.calm, old(cluster.state.clock), cluster.state.clock)
      ensures cluster.cursor == old(cluster.cursor) + 1
      ensures if BeatAt(cluster.script, old(cluster.cursor)).fails
              then res == start.(statsErr := Some(StatementFailed))
              else res == start.(stats := Some(StatsOf(cluster.state, policy.maxAttempts)))
    {
      var beat := cluster.Draw(None);
      if beat.fails {
        return start.(statsErr := Some(StatementFailed));
      }
      res := start.(stats := Some(StatsOf(cluster.state, policy.maxAttempts)));
    }

    // One relay pass. Its effect on the cluster is a sequence of protocol steps; among them, its own
    // last one is a commit or a rollback of the transaction that the result describes. Without an
    // error it committed, and what it claimed is accounted for. With one it rolled back - leaving
    // every row it claimed pending, `res.published` of them to be published again - unless the error
    // is the COMMIT's own and that was applied. An error means that a call has failed; if none does and
    // the broker acknowledges, every row claimed is published, or parked for want of a topic.
    method Execute() returns (res: PublishResult, err: Option<PassError>, ghost end: PassEnd, ghost claim: nat)
      requires cluster.Valid()
      modifies cluster`state, cluster`run, cluster`cursor, cluster`calm
      ensures cluster.Valid() && Continues(old(cluster.run), cluster.run)
      ensures res.batchSize == policy.batchSize && res.published <= res.claimed <= policy.batchSize
      ensures end.NotBegun? ==> err == Some(BeginFailed) && res.claimed == 0 && res.published == 0
      ensures end.Ended? ==>
        Reports(cluster.run, cluster.script, |old(cluster.run.steps)|, end, res, err)
      ensures err.None? ==>
        && end.Ended? && Committable(res, end.x, policy, end.failedAt, end.jitter)
        && ClaimedAt(cluster.run, claim, end.tx, policy.batchSize, end.x.batch)
        && |old(cluster.run.steps)| <= claim
      ensures err.None? ==>
        if Struck(cluster.script, old(cluster.cursor), cluster.cursor)
        then res.stats == None && res.statsErr == Some(StatementFailed)
        else res.stats == Some(StatsOf(cluster.state, policy.maxAttempts)) && res.statsErr == None
      ensures err.None? ==>
        FiguresAgree(cluster.run, |old(cluster.run.steps)|, end, res, policy.maxAttempts)
      ensures old(cluster.cursor) <= cluster.cursor
      ensures end.Ended? ==>
        old(cluster.cursor) <= end.beat && cluster.cursor == end.beat + if err.None? then 2 else 1
      ensures CausedBy(cluster.script, old(cluster.cursor), cluster.cursor, err)
      ensures Healthy(cluster.script, old(cluster.cursor), cluster.cursor) ==>
        err.None? && SettledAll(cluster.topics, end.x)
      ensures old(cluster.calm) && InTheFuture(policy) ==>
        cluster.calm && cluster.state.clock == old(cluster.state.clock)
    {
      ghost var from := cluster.cursor;
      ghost var first := |cluster.run.steps|;
      res, err, end, claim := RunPass();
      if err.None? {
        ghost var ended, since, done := cluster.run, cluster.cursor, res;
        res := Observe(res);
        HealthyParts(cluster.script, from, since, cluster.cursor);
        LastBeat(cluster.script, from, since, cluster.cursor);
        ReportStands(ended, cluster.run, cluster.script, first, end, done, res, err);
        ClaimStands(ended, cluster.run, claim, end.tx, policy.batchSize, end.x.batch);
        FiguresOf(cluster.run, first, end, res, policy.maxAttempts);
      }
    }
  }
}
