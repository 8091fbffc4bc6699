/**
 How the due set empties: what one claim takes, what one committed pass does to the
 counts and to the due set, and how passes of bounded size add up to one unbounded pass.
 */
module Draining {
  import opened Wrappers
  import opened Ordering
  import opened Wire
  import opened Protocol
  import opened Invariant
  import opened Safety

  function DueSet(rows: map<RowId, Row>, now: Instant): set<RowId> {
    set id | id in rows && Due(rows[id], now)
  }

  ghost function DueNow(s: State): set<RowId> {
    DueSet(s.rows, s.clock)
  }

  // ---------------------------------------------------------------- claim by state

  // A committed row is never skipped for good: at any later moment it is delivered, parked, or
  // still pending; and then a claim takes it exactly when it is due, unlocked, and fewer than
  // `limit` such rows have lower ids - whatever was claimed or became visible in between.
  lemma ClaimByStateNeverSkips(r: Run, k: nat, n: nat, id: RowId, tx: TxId, limit: nat)
    requires Execution(r) && k <= n < |r.states| && id in r.states[k].rows
    requires tx in r.states[n].relays
    ensures var now := r.states[n];
      || Delivered(now, r.states[k].rows[id].envelope)
      || (id in now.rows && now.rows[id].status == Failed)
      || (&& id in now.rows && now.rows[id].status == Pending
          && (id in Lowest(Claimable(now, tx), limit) <==>
                && now.rows[id].availableAt <= now.relays[tx].now
                && !LockedByOther(now, tx, id)
                && |Below(Claimable(now, tx), id)| < limit))
  {
    NothingLost(r, k, n, id);
    LowestByRank(Claimable(r.states[n], tx), limit, id);
  }

  // ---------------------------------------------------------------- what a committed pass counts

  function WithStatus(rows: map<RowId, Row>, status: Status): set<RowId> {
    set id | id in rows && rows[id].status == status
  }

  function BatchIds(x: RelayTx): seq<RowId> {
    seq(|x.batch|, i requires 0 <= i < |x.batch| => x.batch[i].id)
  }

  lemma WritesAreThePrefix(rows: map<RowId, Row>, log: seq<LogEntry>, x: RelayTx)
    requires RelayOk(rows, log, x)
    ensures x.writes.Keys == Elements(BatchIds(x)[..x.handled])
    ensures |x.writes| == x.handled
  {
    var ids := BatchIds(x)[..x.handled];
    forall id | id in x.writes
      ensures id in ids
    {
      assert Done(x, id);
      var i :| 0 <= i < x.handled && x.batch[i].id == id;
      assert ids[i] == id;
    }
    forall id | id in ids
      ensures id in x.writes
    {
      var i :| 0 <= i < |ids| && ids[i] == id;
      assert MarkedAt(rows, x, i);
    }
    AscendingCardinality(ids);
  }

  // The marks of a pass, by verdict: acknowledged, parked, and at most one rescheduled row.
  lemma MarksByVerdict(rows: map<RowId, Row>, log: seq<LogEntry>, x: RelayTx)
    requires RelayOk(rows, log, x) && MayCommit(x)
    ensures WithStatus(x.writes, Published) == x.acked
    ensures WithStatus(x.writes, Pending) == if x.phase.Stopped? then {x.batch[x.handled - 1].id} else {}
  {
    forall id | id in x.acked
      ensures id in WithStatus(x.writes, Published)
    {
      assert AckedOk(log, x);
      var i :| 0 <= i < |x.batch| && x.batch[i].id == id;
      assert i < x.handled && MarkedAt(rows, x, i);
    }
    forall id | id in x.writes
      ensures x.writes[id].status == Published ==> id in x.acked
      ensures x.writes[id].status == Pending <==> x.phase.Stopped? && id == x.batch[x.handled - 1].id
    {
      assert Done(x, id);
      var i :| 0 <= i < x.handled && x.batch[i].id == id;
      assert MarkedAt(rows, x, i);
    }
    if x.phase.Stopped? {
      assert MarkedAt(rows, x, x.handled - 1);
    }
  }

  lemma SplitByStatus(m: map<RowId, Row>)
    ensures |m| == |WithStatus(m, Pending)| + |WithStatus(m, Published)| + |WithStatus(m, Failed)|
  {
    var p, q, f := WithStatus(m, Pending), WithStatus(m, Published), WithStatus(m, Failed);
    assert m.Keys == p + q + f;
    assert |p + q + f| == |p + q| + |f|;
  }

  // Claimed = published + permanent + transient + untouched; at most one transient failure, and
  // rows are left untouched only behind one.
  lemma PassAccounting(rows: map<RowId, Row>, log: seq<LogEntry>, x: RelayTx)
    requires RelayOk(rows, log, x) && MayCommit(x)
    ensures var transient := |WithStatus(x.writes, Pending)|;
            && |x.batch| == |x.acked| + |WithStatus(x.writes, Failed)| + transient + (|x.batch| - x.handled)
            && transient <= 1
            && (x.handled < |x.batch| ==> transient == 1)
  {
    WritesAreThePrefix(rows, log, x);
    MarksByVerdict(rows, log, x);
    SplitByStatus(x.writes);
  }

  lemma MarksArePending(rows: map<RowId, Row>, log: seq<LogEntry>, x: RelayTx)
    requires RelayOk(rows, log, x)
    ensures forall id :: id in x.writes ==> id in rows && rows[id].status == Pending
  {
    forall id | id in x.writes
      ensures id in rows && rows[id].status == Pending
    {
      assert Done(x, id);
      var i :| 0 <= i < x.handled && x.batch[i].id == id;
      assert MarkedAt(rows, x, i);
    }
  }

  lemma OverlayTerminal(rows: map<RowId, Row>, writes: map<RowId, Row>, status: Status)
    requires status != Pending && forall id :: id in writes ==> id in rows && rows[id].status == Pending
    ensures |WithStatus(rows + writes, status)| == |WithStatus(rows, status)| + |WithStatus(writes, status)|
  {
    assert WithStatus(rows + writes, status) == WithStatus(rows, status) + WithStatus(writes, status);
  }

  lemma OverlayPending(rows: map<RowId, Row>, writes: map<RowId, Row>)
    requires forall id :: id in writes ==> id in rows && rows[id].status == Pending
    ensures |WithStatus(rows + writes, Pending)| + |WithStatus(writes, Published)| + |WithStatus(writes, Failed)|
            == |WithStatus(rows, Pending)|
  {
    var done := WithStatus(writes, Published) + WithStatus(writes, Failed);
    assert |done| == |WithStatus(writes, Published)| + |WithStatus(writes, Failed)|;
    assert WithStatus(rows, Pending) == WithStatus(rows + writes, Pending) + done;
  }

  // A committing pass moves its published and permanent counts out of the backlog, and parks
  // exactly its permanent failures; the rescheduled and the untouched rows stay in the backlog.
  lemma CommitMovesCounts(rows: map<RowId, Row>, log: seq<LogEntry>, x: RelayTx)
    requires RelayOk(rows, log, x) && MayCommit(x)
    ensures var rows' := rows + x.writes;
            && |WithStatus(rows', Pending)| + |x.acked| + |WithStatus(x.writes, Failed)| == |WithStatus(rows, Pending)|
            && |WithStatus(rows', Failed)| == |WithStatus(rows, Failed)| + |WithStatus(x.writes, Failed)|
            && |WithStatus(rows', Published)| == |WithStatus(rows, Published)| + |x.acked|
  {
    MarksArePending(rows, log, x);
    MarksByVerdict(rows, log, x);
    OverlayTerminal(rows, x.writes, Failed);
    OverlayTerminal(rows, x.writes, Published);
    OverlayPending(rows, x.writes);
  }

  // So it is at every commit of a pass in any run, whatever the others do before and after it.
  lemma CommitMovesBacklog(r: Run, k: nat)
    requires Execution(r) && k < |r.steps| && r.steps[k].RelayCommit?
    ensures Moves(r, k)
    ensures var before, after := r.states[k], r.states[k + 1];
            var x := before.relays[r.steps[k].tx];
            && |WithStatus(after.rows, Pending)| + |x.acked| + |WithStatus(x.writes, Failed)|
               == |WithStatus(before.rows, Pending)|
            && |WithStatus(after.rows, Failed)| == |WithStatus(before.rows, Failed)| + |WithStatus(x.writes, Failed)|
  {
    Reachable(r, k);
    StepOf(r, k);
    var s := r.states[k];
    assert RelayOk(s.rows, s.log, s.relays[r.steps[k].tx]);
    CommitMovesCounts(s.rows, s.log, s.relays[r.steps[k].tx]);
  }

  ghost predicate AllPending(rows: map<RowId, Row>, batch: seq<PendingMessage>) {
    forall i :: 0 <= i < |batch| ==> batch[i].id in rows && rows[batch[i].id].status == Pending
  }

  lemma CommittedBatch(rows: map<RowId, Row>, log: seq<LogEntry>, x: RelayTx)
    requires RelayOk(rows, log, x)
    ensures AllPending(rows + x.writes, x.batch) <==> forall id :: id in x.writes ==> x.writes[id].status == Pending
  {
    forall id | id in x.writes
      ensures exists i :: 0 <= i < |x.batch| && x.batch[i].id == id
    {
      assert Done(x, id);
    }
  }

  // "Every row it claimed is still pending" is true of a pass exactly when it ended without a commit,
  // or had nothing but a reschedule to commit.
  lemma BatchStillPending(r: Run, k: nat)
    requires Execution(r) && k < |r.steps|
    requires r.steps[k].RelayCommit? || r.steps[k].RelayRollback? || r.steps[k].RelayLost?
    ensures Moves(r, k)
    ensures var x, after := r.states[k].relays[r.steps[k].tx], r.states[k + 1];
            AllPending(after.rows, x.batch)
            <==> !r.steps[k].RelayCommit? || forall id :: id in x.writes ==> x.writes[id].status == Pending
  {
    Reachable(r, k);
    StepOf(r, k);
    var s := r.states[k];
    assert RelayOk(s.rows, s.log, s.relays[r.steps[k].tx]);
    if r.steps[k].RelayCommit? {
      CommittedBatch(s.rows, s.log, s.relays[r.steps[k].tx]);
    }
  }

  // ---------------------------------------------------------------- passes without a wait end

  // The row a pass has rescheduled comes back later than this.
  predicate LandsLater(x: RelayTx, clock: Instant) {
    forall id :: id in x.writes && x.writes[id].status == Pending ==> x.writes[id].availableAt > clock
  }

  // The clock stands still, nothing new becomes pending, and what a pass reschedules lies in the future.
  predicate Still(s: State, step: Step) {
    match step
    case Tick(_) => false
    case RegCommit(_) => false
    case Replay(_) => false
    case RelayCommit(tx) => tx in s.relays && LandsLater(s.relays[tx], s.clock)
    case _ => true
  }

  ghost predicate StillBetween(r: Run, m: nat, n: nat)
    requires m <= n <= |r.steps| < |r.states|
  {
    forall k {:trigger r.steps[k]} :: m <= k < n ==> Still(r.states[k], r.steps[k])
  }

  ghost function Worked(s: State, step: Step): nat
    requires Enabled(s, step)
  {
    if step.RelayCommit? && s.relays[step.tx].batch != [] then 1 else 0
  }

  // Committed passes that had claimed something, from step m to step n. Every full pass is one.
  ghost function WorkingPasses(r: Run, m: nat, n: nat): nat
    requires IsRun(r) && m <= n < |r.states|
    decreases n
  {
    if n == m then 0
    else
      StepOf(r, n - 1);
      WorkingPasses(r, m, n - 1) + Worked(r.states[n - 1], r.steps[n - 1])
  }

  lemma CommitShrinksDue(rows: map<RowId, Row>, log: seq<LogEntry>, x: RelayTx, now: Instant)
    requires RelayOk(rows, log, x) && MayCommit(x) && x.now <= now && LandsLater(x, now)
    ensures DueSet(rows + x.writes, now) <= DueSet(rows, now)
    ensures x.batch != [] ==> |DueSet(rows + x.writes, now)| < |DueSet(rows, now)|
  {
    var due, due' := DueSet(rows, now), DueSet(rows + x.writes, now);
    forall id | id in due'
      ensures id in due
    {
      assert id !in x.writes;
    }
    if x.batch != [] {
      assert x.handled > 0 && MarkedAt(rows, x, 0);
      var id := x.batch[0].id;
      assert id in due && id !in due';
      Smaller(due', due);
    }
  }

  lemma CommitShrinks(s: State, tx: TxId)
    requires Inv(s) && Enabled(s, RelayCommit(tx)) && LandsLater(s.relays[tx], s.clock)
    ensures |DueNow(Apply(s, RelayCommit(tx)))| + Worked(s, RelayCommit(tx)) <= |DueNow(s)|
  {
    var x := s.relays[tx];
    assert RelayOk(s.rows, s.log, x);
    CommitShrinksDue(s.rows, s.log, x, s.clock);
    NotLarger(DueSet(s.rows + x.writes, s.clock), DueSet(s.rows, s.clock));
  }

  // Everything else leaves the due set as it is.
  lemma OthersKeepDue(s: State, step: Step)
    requires Enabled(s, step) && Still(s, step) && !step.RelayCommit?
    ensures DueNow(Apply(s, step)) == DueNow(s)
  {
    if !ChangesTables(step) {
      TablesUnmoved(s, step);
    }
  }

  lemma StepShrinks(s: State, step: Step)
    requires Inv(s) && Enabled(s, step) && Still(s, step)
    ensures |DueNow(Apply(s, step))| + Worked(s, step) <= |DueNow(s)|
  {
    if step.RelayCommit? {
      CommitShrinks(s, step.tx);
    } else {
      OthersKeepDue(s, step);
    }
  }

  lemma NextShrinks(r: Run, m: nat, n: nat)
    requires IsRun(r) && m <= n < |r.steps| && Inv(r.states[n]) && Still(r.states[n], r.steps[n])
    ensures |DueNow(r.states[n + 1])| + WorkingPasses(r, m, n + 1) <= |DueNow(r.states[n])| + WorkingPasses(r, m, n)
  {
    StepOf(r, n);
    StepShrinks(r.states[n], r.steps[n]);
  }

  // Passes that follow each other without a wait are at most as many as the rows that were due,
  // whatever else the other transactions do in the meantime.
  lemma {:induction false} ZeroWaitPassesTerminate(r: Run, m: nat, n: nat)
    requires Execution(r) && m <= n < |r.states| && StillBetween(r, m, n)
    ensures WorkingPasses(r, m, n) + |DueNow(r.states[n])| <= |DueNow(r.states[m])|
    decreases n
  {
    if m < n {
      ZeroWaitPassesTerminate(r, m, n - 1);
      Reachable(r, n - 1);
      NextShrinks(r, m, n - 1);
    }
  }

  // ---------------------------------------------------------------- a fault-free publisher

  // A refused row fails permanently, with this reason.
  const REFUSED := PublishError(true, false, "refused")

  function OutcomeFor(id: RowId, accepts: Verdict): Outcome {
    if accepts(id) then Ack else Error(REFUSED, false)
  }

  function MarkFor(id: RowId, accepts: Verdict): Mark {
    if accepts(id) then AsPublished else AsFailed(REFUSED.reason)
  }

  // What a pass over these rows leaves in the table, and what it appends to the log.
  function Settle(rows: map<RowId, Row>, ids: set<RowId>, now: Instant, accepts: Verdict): map<RowId, Row> {
    map id | id in rows :: if id in ids then MarkRow(rows[id], MarkFor(id, accepts), now) else rows[id]
  }

  ghost predicate CanAccept(s: State, ids: seq<RowId>, accepts: Verdict) {
    forall i :: 0 <= i < |ids| ==>
      ids[i] in s.rows && (accepts(ids[i]) ==> Routable(s.topics, s.rows[ids[i]].envelope.aggregateType))
  }

  ghost function Emitted(s: State, ids: seq<RowId>, accepts: Verdict): seq<LogEntry>
    requires CanAccept(s, ids, accepts)
  {
    if ids == [] then []
    else
      var n := |ids| - 1;
      Emitted(s, ids[..n], accepts)
      + if accepts(ids[n]) then [LogEntry(ids[n], Encode(s.topics, s.rows[ids[n]].envelope))] else []
  }

  // No relay transaction is open, and the broker can take every due row it accepts.
  ghost predicate Quiet(s: State, accepts: Verdict) {
    && s.relays == map[] && (forall t :: t in s.regs ==> t < s.nextTx)
    && forall id :: id in DueNow(s) && accepts(id) ==> Routable(s.topics, s.rows[id].envelope.aggregateType)
  }

  lemma LowestCanBeAccepted(s: State, limit: nat, accepts: Verdict)
    requires Quiet(s, accepts)
    ensures CanAccept(s, Lowest(DueNow(s), limit), accepts)
  {
    var ids := Lowest(DueNow(s), limit);
    forall i | 0 <= i < |ids|
      ensures ids[i] in DueNow(s)
    {
      assert ids[i] in Elements(ids);
    }
  }

  // The state one fault-free pass over these rows leaves behind.
  ghost function PassOver(s: State, ids: seq<RowId>, accepts: Verdict): State
    requires CanAccept(s, ids, accepts)
  {
    s.(nextTx := s.nextTx + 1,
       rows := Settle(s.rows, Elements(ids), s.clock, accepts),
       log := s.log + Emitted(s, ids, accepts))
  }

  ghost function AfterPass(s: State, limit: nat, accepts: Verdict): State
    requires Quiet(s, accepts)
  {
    LowestCanBeAccepted(s, limit, accepts);
    PassOver(s, Lowest(DueNow(s), limit), accepts)
  }

  // The transaction in the middle of that pass, with the first k rows produced and marked.
  function MidPass(s: State, limit: nat, ids: seq<RowId>, k: nat, accepts: Verdict): RelayTx
    requires k <= |ids| && forall i :: 0 <= i < |ids| ==> ids[i] in s.rows
  {
    var done := Elements(ids[..k]);
    RelayTx(s.clock, limit, Messages(s, ids), k, Ready,
            map id | id in done && id in s.rows :: MarkRow(s.rows[id], MarkFor(id, accepts), s.clock),
            set id | id in done && accepts(id))
  }

  ghost function MidState(s: State, limit: nat, ids: seq<RowId>, k: nat, accepts: Verdict): State
    requires CanAccept(s, ids, accepts) && k <= |ids|
  {
    s.(nextTx := s.nextTx + 1,
       relays := map[s.nextTx := MidPass(s, limit, ids, k, accepts)],
       log := s.log + Emitted(s, ids[..k], accepts))
  }

  lemma OneMoreDone(ids: seq<RowId>, k: nat)
    requires k < |ids| && Ascending(ids)
    ensures Elements(ids[..k + 1]) == Elements(ids[..k]) + {ids[k]} && ids[k] !in Elements(ids[..k])
  {
    assert ids[..k + 1] == ids[..k] + [ids[k]];
  }

  lemma OneMoreWrite(s: State, limit: nat, ids: seq<RowId>, k: nat, accepts: Verdict)
    requires k < |ids| && Ascending(ids) && forall i :: 0 <= i < |ids| ==> ids[i] in s.rows
    ensures ids[k] !in MidPass(s, limit, ids, k, accepts).writes
    ensures var row := MarkRow(s.rows[ids[k]], MarkFor(ids[k], accepts), s.clock);
            MidPass(s, limit, ids, k + 1, accepts).writes == MidPass(s, limit, ids, k, accepts).writes[ids[k] := row]
  {
    OneMoreDone(ids, k);
  }

  lemma OneMoreAck(s: State, limit: nat, ids: seq<RowId>, k: nat, accepts: Verdict)
    requires k < |ids| && Ascending(ids) && forall i :: 0 <= i < |ids| ==> ids[i] in s.rows
    ensures MidPass(s, limit, ids, k + 1, accepts).acked
            == MidPass(s, limit, ids, k, accepts).acked + if accepts(ids[k]) then {ids[k]} else {}
  {
    OneMoreDone(ids, k);
  }

  lemma OneMoreMark(s: State, limit: nat, ids: seq<RowId>, k: nat, accepts: Verdict)
    requires k < |ids| && Ascending(ids) && forall i :: 0 <= i < |ids| ==> ids[i] in s.rows
    ensures var x := AfterPublish(MidPass(s, limit, ids, k, accepts), OutcomeFor(ids[k], accepts));
            && MarkFits(x.phase, MarkFor(ids[k], accepts))
            && AfterMark(s.rows, x, MarkFor(ids[k], accepts)) == MidPass(s, limit, ids, k + 1, accepts)
  {
    OneMoreWrite(s, limit, ids, k, accepts);
    OneMoreAck(s, limit, ids, k, accepts);
  }

  lemma OneMoreEntry(s: State, ids: seq<RowId>, k: nat, accepts: Verdict)
    requires CanAccept(s, ids, accepts) && k < |ids|
    ensures Emitted(s, ids[..k + 1], accepts) == Emitted(s, ids[..k], accepts)
            + if accepts(ids[k]) then [LogEntry(ids[k], Encode(s.topics, s.rows[ids[k]].envelope))] else []
  {
    assert ids[..k + 1][..k] == ids[..k];
  }

  lemma LogOnceMore(s: State, ids: seq<RowId>, k: nat, accepts: Verdict)
    requires CanAccept(s, ids, accepts) && k < |ids|
    ensures s.log + Emitted(s, ids[..k + 1], accepts) == s.log + Emitted(s, ids[..k], accepts)
            + if accepts(ids[k]) then [LogEntry(ids[k], Encode(s.topics, s.rows[ids[k]].envelope))] else []
  {
    OneMoreEntry(s, ids, k, accepts);
  }

  // A produce call and a mark, when the transaction is the only one open.
  lemma PublishAlone(s: State, tx: TxId, x: RelayTx, outcome: Outcome)
    requires s.relays == map[tx := x] && x.phase.Ready? && x.handled < |x.batch|
    requires Appends(outcome) ==> Routable(s.topics, Current(x).envelope.aggregateType)
    ensures Enabled(s, RelayPublish(tx, outcome))
    ensures Apply(s, RelayPublish(tx, outcome)) == s.(
      relays := map[tx := AfterPublish(x, outcome)],
      log := s.log + if Appends(outcome)
                     then [LogEntry(Current(x).id, Encode(s.topics, Current(x).envelope))] else [])
  {
    assert map[tx := x][tx := AfterPublish(x, outcome)] == map[tx := AfterPublish(x, outcome)];
    assert s.log + [] == s.log;
  }

  lemma MarkAlone(s: State, tx: TxId, x: RelayTx, mark: Mark)
    requires s.relays == map[tx := x] && x.handled < |x.batch| && MarkFits(x.phase, mark)
    ensures Enabled(s, RelayMark(tx, mark))
    ensures Apply(s, RelayMark(tx, mark)) == s.(relays := map[tx := AfterMark(s.rows, x, mark)])
  {
  }

  lemma ProduceOne(s: State, limit: nat, ids: seq<RowId>, k: nat, accepts: Verdict)
    requires CanAccept(s, ids, accepts) && k < |ids|
    ensures var mid, outcome := MidState(s, limit, ids, k, accepts), OutcomeFor(ids[k], accepts);
            && Enabled(mid, RelayPublish(s.nextTx, outcome))
            && Apply(mid, RelayPublish(s.nextTx, outcome)) == mid.(
                 relays := map[s.nextTx := AfterPublish(MidPass(s, limit, ids, k, accepts), outcome)],
                 log := s.log + Emitted(s, ids[..k + 1], accepts))
  {
    var mid, x := MidState(s, limit, ids, k, accepts), MidPass(s, limit, ids, k, accepts);
    var outcome := OutcomeFor(ids[k], accepts);
    LogOnceMore(s, ids, k, accepts);
    PublishAlone(mid, s.nextTx, x, outcome);
  }

  // Producing and marking one row are two enabled steps, from one middle state to the next.
  lemma OneMoreRow(s: State, limit: nat, ids: seq<RowId>, k: nat, accepts: Verdict)
    requires CanAccept(s, ids, accepts) && k < |ids| && Ascending(ids)
    ensures var mid := MidState(s, limit, ids, k, accepts);
            var publish := RelayPublish(s.nextTx, OutcomeFor(ids[k], accepts));
            var mark := RelayMark(s.nextTx, MarkFor(ids[k], accepts));
            && Enabled(mid, publish) && Enabled(Apply(mid, publish), mark)
            && Apply(Apply(mid, publish), mark) == MidState(s, limit, ids, k + 1, accepts)
  {
    ProduceOne(s, limit, ids, k, accepts);
    OneMoreMark(s, limit, ids, k, accepts);
    var outcome := OutcomeFor(ids[k], accepts);
    MarkAlone(Apply(MidState(s, limit, ids, k, accepts), RelayPublish(s.nextTx, outcome)), s.nextTx,
              AfterPublish(MidPass(s, limit, ids, k, accepts), outcome), MarkFor(ids[k], accepts));
  }

  // A relay that begins when no other is open may claim whatever is due.
  lemma BegunAlone(s: State)
    requires s.relays == map[] && s.nextTx !in s.regs
    ensures var begun := Apply(s, RelayBegin(s.nextTx));
            && begun == s.(nextTx := s.nextTx + 1,
                           relays := map[s.nextTx := RelayTx(s.clock, 0, [], 0, Begun, map[], {})])
            && Claimable(begun, s.nextTx) == DueNow(s)
  {
    assert Claimable(Apply(s, RelayBegin(s.nextTx)), s.nextTx) == DueNow(s);
  }

  lemma ClaimAlone(s: State, begun: State, limit: nat, ids: seq<RowId>, accepts: Verdict)
    requires CanAccept(s, ids, accepts) && Ascending(ids) && |ids| <= limit
    requires begun == s.(nextTx := s.nextTx + 1,
                         relays := map[s.nextTx := RelayTx(s.clock, 0, [], 0, Begun, map[], {})])
    requires forall i :: 0 <= i < |ids| ==> ids[i] in Claimable(begun, s.nextTx)
    ensures Enabled(begun, RelayClaim(s.nextTx, limit, ids))
    ensures Apply(begun, RelayClaim(s.nextTx, limit, ids)) == MidState(s, limit, ids, 0, accepts)
  {
    assert AfterClaim(begun, s.nextTx, limit, ids) == MidPass(s, limit, ids, 0, accepts);
  }

  lemma BeginAndClaim(s: State, limit: nat, accepts: Verdict)
    requires Quiet(s, accepts)
    ensures var ids, begun := Lowest(DueNow(s), limit), Apply(s, RelayBegin(s.nextTx));
            && CanAccept(s, ids, accepts)
            && Enabled(begun, RelayClaim(s.nextTx, limit, ids))
            && Apply(begun, RelayClaim(s.nextTx, limit, ids)) == MidState(s, limit, ids, 0, accepts)
  {
    LowestCanBeAccepted(s, limit, accepts);
    BegunAlone(s);
    var ids := Lowest(DueNow(s), limit);
    forall i | 0 <= i < |ids|
      ensures ids[i] in DueNow(s)
    {
      assert ids[i] in Elements(ids);
    }
    ClaimAlone(s, Apply(s, RelayBegin(s.nextTx)), limit, ids, accepts);
  }

  lemma ClaimedRun(s: State, limit: nat, accepts: Verdict) returns (r: Run)
    requires Quiet(s, accepts)
    ensures IsRun(r) && r.states[0] == s && CanAccept(s, Lowest(DueNow(s), limit), accepts)
    ensures Last(r) == MidState(s, limit, Lowest(DueNow(s), limit), 0, accepts)
  {
    BeginAndClaim(s, limit, accepts);
    r := Extend(Start(s), RelayBegin(s.nextTx));
    r := Extend(r, RelayClaim(s.nextTx, limit, Lowest(DueNow(s), limit)));
  }

  lemma OneRowFurther(r: Run, s: State, limit: nat, ids: seq<RowId>, k: nat, accepts: Verdict) returns (r': Run)
    requires CanAccept(s, ids, accepts) && k < |ids| && Ascending(ids)
    requires IsRun(r) && Last(r) == MidState(s, limit, ids, k, accepts)
    ensures IsRun(r') && r'.states[0] == r.states[0] && Last(r') == MidState(s, limit, ids, k + 1, accepts)
  {
    OneMoreRow(s, limit, ids, k, accepts);
    r' := Extend(r, RelayPublish(s.nextTx, OutcomeFor(ids[k], accepts)));
    r' := Extend(r', RelayMark(s.nextTx, MarkFor(ids[k], accepts)));
  }

  lemma {:induction false} PassUpTo(s: State, limit: nat, ids: seq<RowId>, k: nat, accepts: Verdict) returns (r: Run)
    requires Quiet(s, accepts) && ids == Lowest(DueNow(s), limit) && k <= |ids|
    ensures IsRun(r) && r.states[0] == s && CanAccept(s, ids, accepts)
    ensures Last(r) == MidState(s, limit, ids, k, accepts)
  {
    if k == 0 {
      r := ClaimedRun(s, limit, accepts);
    } else {
      r := PassUpTo(s, limit, ids, k - 1, accepts);
      r := OneRowFurther(r, s, limit, ids, k - 1, accepts);
    }
  }

  lemma WritesSettle(s: State, limit: nat, ids: seq<RowId>, accepts: Verdict)
    requires forall i :: 0 <= i < |ids| ==> ids[i] in s.rows
    ensures s.rows + MidPass(s, limit, ids, |ids|, accepts).writes == Settle(s.rows, Elements(ids), s.clock, accepts)
  {
    assert ids[..|ids|] == ids;
  }

  lemma CommitEndsPass(s: State, limit: nat, accepts: Verdict)
    requires Quiet(s, accepts) && CanAccept(s, Lowest(DueNow(s), limit), accepts)
    ensures var ids := Lowest(DueNow(s), limit);
            var full := MidState(s, limit, ids, |ids|, accepts);
            Enabled(full, RelayCommit(s.nextTx)) && Apply(full, RelayCommit(s.nextTx)) == AfterPass(s, limit, accepts)
  {
    var ids := Lowest(DueNow(s), limit);
    assert ids[..|ids|] == ids;
    var x := MidPass(s, limit, ids, |ids|, accepts);
    WritesSettle(s, limit, ids, accepts);
    assert map[s.nextTx := x] - {s.nextTx} == map[];
  }

  // A fault-free pass is a run of the protocol, ending in exactly the state AfterPass computes.
  lemma FaultFreePass(s: State, limit: nat, accepts: Verdict) returns (r: Run)
    requires Quiet(s, accepts)
    ensures IsRun(r) && r.states[0] == s && Last(r) == AfterPass(s, limit, accepts)
  {
    var ids := Lowest(DueNow(s), limit);
    r := PassUpTo(s, limit, ids, |ids|, accepts);
    CommitEndsPass(s, limit, accepts);
    r := Extend(r, RelayCommit(s.nextTx));
  }

  // ---------------------------------------------------------------- passes of bounded size

  // A pass over due rows takes exactly those out of the due set.
  lemma SettledDue(rows: map<RowId, Row>, ids: seq<RowId>, now: Instant, accepts: Verdict)
    requires Ascending(ids) && Elements(ids) <= DueSet(rows, now)
    ensures DueSet(Settle(rows, Elements(ids), now, accepts), now) == DueSet(rows, now) - Elements(ids)
    ensures |DueSet(rows, now) - Elements(ids)| == |DueSet(rows, now)| - |ids|
  {
    AscendingCardinality(ids);
    assert DueSet(rows, now) == (DueSet(rows, now) - Elements(ids)) + Elements(ids);
  }

  lemma PassTakesLowest(s: State, limit: nat, accepts: Verdict)
    requires Quiet(s, accepts)
    ensures var ids := Lowest(DueNow(s), limit);
            && DueNow(AfterPass(s, limit, accepts)) == DueNow(s) - Elements(ids)
            && |DueNow(AfterPass(s, limit, accepts))| == |DueNow(s)| - |ids|
    ensures Quiet(AfterPass(s, limit, accepts), accepts)
  {
    SettledDue(s.rows, Lowest(DueNow(s), limit), s.clock, accepts);
    var s' := AfterPass(s, limit, accepts);
    forall id | id in DueNow(s') && accepts(id)
      ensures Routable(s'.topics, s'.rows[id].envelope.aggregateType)
    {
      assert id in DueNow(s);
    }
  }

  // Passes of `limit` rows until nothing is due, and how many of them there are.
  ghost function Drained(s: State, limit: nat, accepts: Verdict): State
    requires Quiet(s, accepts) && limit > 0
    decreases |DueNow(s)|
  {
    if DueNow(s) == {} then s
    else
      PassTakesLowest(s, limit, accepts);
      Drained(AfterPass(s, limit, accepts), limit, accepts)
  }

  ghost function PassesNeeded(s: State, limit: nat, accepts: Verdict): nat
    requires Quiet(s, accepts) && limit > 0
    decreases |DueNow(s)|
  {
    if DueNow(s) == {} then 0
    else
      PassTakesLowest(s, limit, accepts);
      1 + PassesNeeded(AfterPass(s, limit, accepts), limit, accepts)
  }

  // d / limit, rounded up.
  function Ceiling(d: nat, limit: nat): nat
    requires limit > 0
  {
    if d == 0 then 0 else 1 + Ceiling(if d < limit then 0 else d - limit, limit)
  }

  lemma {:induction false} CeilingIsQuotient(d: nat, limit: nat)
    requires limit > 0
    ensures Ceiling(d, limit) * limit >= d
    ensures d > 0 ==> Ceiling(d, limit) > 0 && (Ceiling(d, limit) - 1) * limit < d
  {
    if d >= limit {
      var c := Ceiling(d - limit, limit);
      CeilingIsQuotient(d - limit, limit);
      assert (c + 1) * limit == c * limit + limit;
      assert c > 0 ==> c * limit == (c - 1) * limit + limit;
    }
  }

  // D due rows take exactly ceil(D / BatchSize) passes, and then nothing is due.
  lemma {:induction false} DrainTakesCeilingPasses(s: State, limit: nat, accepts: Verdict)
    requires Quiet(s, accepts) && limit > 0
    ensures PassesNeeded(s, limit, accepts) == Ceiling(|DueNow(s)|, limit)
    ensures DueNow(Drained(s, limit, accepts)) == {}
    decreases |DueNow(s)|
  {
    if DueNow(s) != {} {
      PassTakesLowest(s, limit, accepts);
      DrainTakesCeilingPasses(AfterPass(s, limit, accepts), limit, accepts);
    }
  }

  lemma {:induction false} DrainIsARun(s: State, limit: nat, accepts: Verdict) returns (r: Run)
    requires Quiet(s, accepts) && limit > 0
    ensures IsRun(r) && r.states[0] == s && Last(r) == Drained(s, limit, accepts)
    decreases |DueNow(s)|
  {
    if DueNow(s) == {} {
      r := Start(s);
    } else {
      PassTakesLowest(s, limit, accepts);
      r := FaultFreePass(s, limit, accepts);
      var rest := DrainIsARun(AfterPass(s, limit, accepts), limit, accepts);
      r := Join(r, rest);
    }
  }

  // n passes, whatever is left.
  ghost function AfterPasses(s: State, limit: nat, accepts: Verdict, n: nat): State
    requires Quiet(s, accepts)
    decreases n
  {
    if n == 0 then s
    else
      PassTakesLowest(s, limit, accepts);
      AfterPasses(AfterPass(s, limit, accepts), limit, accepts, n - 1)
  }

  // What one batch of the lowest `limit` leaves.
  function Remaining(due: set<RowId>, limit: nat): (rest: set<RowId>)
    ensures rest <= due
  {
    due - Elements(Lowest(due, limit))
  }

  // What n batches of the lowest `limit` leave.
  function Untaken(due: set<RowId>, limit: nat, n: nat): (left: set<RowId>)
    ensures left <= due
    decreases n
  {
    if n == 0 then due else Untaken(Remaining(due, limit), limit, n - 1)
  }

  lemma {:induction false} PassesTakeBatches(s: State, limit: nat, accepts: Verdict, n: nat)
    requires Quiet(s, accepts)
    ensures DueNow(AfterPasses(s, limit, accepts, n)) == Untaken(DueNow(s), limit, n)
    decreases n
  {
    if n > 0 {
      PassTakesLowest(s, limit, accepts);
      PassesTakeBatches(AfterPass(s, limit, accepts), limit, accepts, n - 1);
    }
  }

  // An id that the batch does not reach loses `limit` ids from below it.
  lemma RankFalls(due: set<RowId>, limit: nat, id: RowId)
    requires id in due && id !in Lowest(due, limit)
    ensures |Below(due - Elements(Lowest(due, limit)), id)| == |Below(due, id)| - limit
  {
    var ids := Lowest(due, limit);
    var first := Elements(ids);
    LowestByRank(due, limit, id);
    AscendingCardinality(ids);
    if |due| < limit {
      WholeSet(due, limit);
    }
    assert first <= Below(due, id);
    assert Below(due - first, id) == Below(due, id) - first;
    assert Below(due, id) == (Below(due, id) - first) + first;
  }

  // n batches of `limit` rows.
  function Batches(n: nat, limit: nat): nat {
    if n == 0 then 0 else Batches(n - 1, limit) + limit
  }

  lemma {:induction false} BatchesIsProduct(n: nat, limit: nat)
    ensures Batches(n, limit) == n * limit
  {
    if n > 0 {
      BatchesIsProduct(n - 1, limit);
    }
  }

  lemma TakenOrCloser(due: set<RowId>, limit: nat, id: RowId)
    requires id in due
    ensures var rest := Remaining(due, limit);
            if id in rest then |Below(due, id)| == |Below(rest, id)| + limit else |Below(due, id)| < limit
  {
    LowestByRank(due, limit, id);
    assert id in Lowest(due, limit) <==> id in Elements(Lowest(due, limit));
    if id !in Lowest(due, limit) {
      RankFalls(due, limit, id);
    }
  }

  lemma LeftOnceMore(due: set<RowId>, limit: nat, id: RowId, n: nat)
    requires id in due && n > 0
    requires var rest := Remaining(due, limit);
      id in rest ==> (id in Untaken(rest, limit, n - 1) <==> Batches(n - 1, limit) <= |Below(rest, id)|)
    ensures id in Untaken(due, limit, n) <==> Batches(n, limit) <= |Below(due, id)|
  {
    TakenOrCloser(due, limit, id);
  }

  lemma {:induction false} LeftByRank(due: set<RowId>, limit: nat, id: RowId, n: nat)
    requires limit > 0 && id in due
    ensures id in Untaken(due, limit, n) <==> Batches(n, limit) <= |Below(due, id)|
    decreases n
  {
    if n > 0 {
      var rest := Remaining(due, limit);
      if id in rest {
        LeftByRank(rest, limit, id, n - 1);
      }
      LeftOnceMore(due, limit, id, n);
    }
  }

  // A due row is still waiting after n fault-free passes exactly when at least n batches lie below it:
  // it is settled by pass number rank / BatchSize + 1, no earlier and no later.
  lemma SettledByRank(s: State, limit: nat, accepts: Verdict, id: RowId, n: nat)
    requires Quiet(s, accepts) && limit > 0 && id in DueNow(s)
    ensures id in DueNow(AfterPasses(s, limit, accepts, n)) <==> Batches(n, limit) <= |Below(DueNow(s), id)|
  {
    PassesTakeBatches(s, limit, accepts, n);
    LeftByRank(DueNow(s), limit, id, n);
  }

  lemma AscendingConcat(a: seq<RowId>, b: seq<RowId>)
    requires Ascending(a) && Ascending(b)
    requires forall x, y :: x in a && y in b ==> x < y
    ensures Ascending(a + b) && Elements(a + b) == Elements(a) + Elements(b)
  {
    var both := a + b;
    forall i, j | 0 <= i < j < |both|
      ensures both[i] < both[j]
    {
      if i < |a| && |a| <= j {
        assert a[i] in a && b[j - |a|] in b;
      }
    }
  }

  // The lowest `limit` ids, then all the others, are all the ids.
  lemma LowestSplits(due: set<RowId>, limit: nat)
    ensures var first := Lowest(due, limit);
            var rest := due - Elements(first);
            first + Lowest(rest, |rest|) == Lowest(due, |due|)
  {
    var first := Lowest(due, limit);
    var rest := due - Elements(first);
    var last, all := Lowest(rest, |rest|), Lowest(due, |due|);
    WholeSet(rest, |rest|);
    WholeSet(due, |due|);
    forall x, y | x in first && y in last
      ensures x < y
    {
      assert y in Elements(last) && y in rest && y !in first;
    }
    AscendingConcat(first, last);
    AscendingUnique(first + last, all);
  }

  ghost predicate SameOutcome(s: State, t: State) {
    s.rows == t.rows && s.log == t.log
  }

  ghost function Unbounded(s: State, accepts: Verdict): State
    requires Quiet(s, accepts)
  {
    AfterPass(s, |DueNow(s)|, accepts)
  }

  lemma {:induction false} EmittedConcat(s: State, s': State, a: seq<RowId>, b: seq<RowId>, accepts: Verdict)
    requires CanAccept(s, a + b, accepts) && CanAccept(s, a, accepts) && CanAccept(s', b, accepts)
    requires s'.topics == s.topics
    requires forall i :: 0 <= i < |b| ==> b[i] in s.rows && s'.rows[b[i]].envelope == s.rows[b[i]].envelope
    ensures Emitted(s, a + b, accepts) == Emitted(s, a, accepts) + Emitted(s', b, accepts)
  {
    if b == [] {
      assert a + b == a;
    } else {
      var n := |b| - 1;
      assert (a + b)[..|a + b| - 1] == a + b[..n];
      assert (a + b)[|a + b| - 1] == b[n];
      EmittedConcat(s, s', a, b[..n], accepts);
    }
  }

  // Both passes stamp the same clock, so settling the lower rows first changes nothing.
  lemma SettleTwice(rows: map<RowId, Row>, a: set<RowId>, b: set<RowId>, now: Instant, accepts: Verdict)
    requires a !! b
    ensures Settle(Settle(rows, a, now, accepts), b, now, accepts) == Settle(rows, a + b, now, accepts)
  {
  }

  lemma CanAcceptParts(s: State, a: seq<RowId>, b: seq<RowId>, accepts: Verdict)
    requires CanAccept(s, a + b, accepts)
    ensures CanAccept(s, a, accepts) && CanAccept(s, b, accepts)
  {
    forall i | 0 <= i < |a|
      ensures a[i] == (a + b)[i]
    {
    }
    forall i | 0 <= i < |b|
      ensures b[i] == (a + b)[|a| + i]
    {
    }
  }

  // A pass leaves every envelope as it was.
  lemma StillAccepted(s: State, a: seq<RowId>, b: seq<RowId>, accepts: Verdict)
    requires CanAccept(s, a, accepts) && CanAccept(s, b, accepts)
    ensures var s' := PassOver(s, a, accepts);
      && CanAccept(s', b, accepts)
      && forall i :: 0 <= i < |b| ==> b[i] in s.rows && s'.rows[b[i]].envelope == s.rows[b[i]].envelope
  {
  }

  lemma RowsTwice(rows: map<RowId, Row>, a: seq<RowId>, b: seq<RowId>, now: Instant, accepts: Verdict)
    requires Elements(a) !! Elements(b)
    ensures Settle(Settle(rows, Elements(a), now, accepts), Elements(b), now, accepts)
         == Settle(rows, Elements(a + b), now, accepts)
  {
    SettleTwice(rows, Elements(a), Elements(b), now, accepts);
    assert Elements(a + b) == Elements(a) + Elements(b);
  }

  // A pass over some rows and then one over others is one pass over all of them.
  lemma TwoPasses(s: State, a: seq<RowId>, b: seq<RowId>, accepts: Verdict)
    requires CanAccept(s, a + b, accepts) && Elements(a) !! Elements(b)
    ensures CanAccept(s, a, accepts) && CanAccept(PassOver(s, a, accepts), b, accepts)
    ensures SameOutcome(PassOver(PassOver(s, a, accepts), b, accepts), PassOver(s, a + b, accepts))
  {
    CanAcceptParts(s, a, b, accepts);
    var s' := PassOver(s, a, accepts);
    StillAccepted(s, a, b, accepts);
    EmittedConcat(s, s', a, b, accepts);
    RowsTwice(s.rows, a, b, s.clock, accepts);
  }

  // The ids of a bounded pass and of an unbounded one after it.
  lemma RemainingIds(s: State, limit: nat, accepts: Verdict)
    requires Quiet(s, accepts)
    ensures Quiet(AfterPass(s, limit, accepts), accepts)
    ensures var s' := AfterPass(s, limit, accepts);
            var first, rest := Lowest(DueNow(s), limit), Lowest(DueNow(s'), |DueNow(s')|);
            && first + rest == Lowest(DueNow(s), |DueNow(s)|)
            && Elements(first) !! Elements(rest)
  {
    var due := DueNow(s);
    PassTakesLowest(s, limit, accepts);
    var due' := DueNow(AfterPass(s, limit, accepts));
    LowestSplits(due, limit);
    WholeSet(due', |due'|);
  }

  // A bounded pass followed by an unbounded one is the unbounded one.
  lemma OnePassMore(s: State, limit: nat, accepts: Verdict)
    requires Quiet(s, accepts)
    ensures Quiet(AfterPass(s, limit, accepts), accepts)
    ensures SameOutcome(Unbounded(AfterPass(s, limit, accepts), accepts), Unbounded(s, accepts))
  {
    var s' := AfterPass(s, limit, accepts);
    RemainingIds(s, limit, accepts);
    LowestCanBeAccepted(s, |DueNow(s)|, accepts);
    TwoPasses(s, Lowest(DueNow(s), limit), Lowest(DueNow(s'), |DueNow(s')|), accepts);
  }

  lemma NothingDue(s: State, accepts: Verdict)
    requires Quiet(s, accepts) && DueNow(s) == {}
    ensures SameOutcome(s, Unbounded(s, accepts))
  {
    assert Lowest(DueNow(s), 0) == [];
    assert Settle(s.rows, Elements([]), s.clock, accepts) == s.rows;
  }

  // For any batch size, draining leaves the same rows and appends the same records as one
  // unbounded pass over everything that was due.
  lemma {:induction false} BatchingRefinesOnePass(s: State, limit: nat, accepts: Verdict)
    requires Quiet(s, accepts) && limit > 0
    ensures SameOutcome(Drained(s, limit, accepts), Unbounded(s, accepts))
    decreases |DueNow(s)|
  {
    if DueNow(s) == {} {
      NothingDue(s, accepts);
    } else {
      PassTakesLowest(s, limit, accepts);
      OnePassMore(s, limit, accepts);
      BatchingRefinesOnePass(AfterPass(s, limit, accepts), limit, accepts);
    }
  }
}
