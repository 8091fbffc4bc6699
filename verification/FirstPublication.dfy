/**
 Publish order. In any run, one pass produces its rows in ascending id order. Across
 passes - rolled back after lost acks and transient failures, crashed, orphaned or
 committed - no row's first publication overtakes a lower row's, under premises each of
 which the code can break: one relay transaction at a time, rows becoming visible in id
 order with `available_at` in the same order, no committed reschedule of a row that has yet
 to be published, no replay of a pending row, and a broker that accepts or refuses a row
 once and for all.
 */
module FirstPublication {
  import opened Wrappers
  import opened Ordering
  import opened Wire
  import opened Protocol
  import opened Invariant
  import opened Safety

  // An accepted row that is not in the log.
  ghost predicate Unpublished(log: seq<LogEntry>, accepts: Verdict, id: RowId) {
    accepts(id) && !Logged(log, id)
  }

  // A fixed verdict: an accepted row is acknowledged, or fails in a way that does not park it, whether
  // or not the broker appended; a refused one is never appended.
  predicate Abides(accepts: Verdict, id: RowId, outcome: Outcome) {
    if accepts(id) then outcome.Ack? || ClassOf(outcome.error) != Permanent
    else outcome.Error? && !outcome.appended
  }

  // What the pass reschedules is published or refused, and is not brought forward.
  ghost predicate HarmlessReschedule(rows: map<RowId, Row>, log: seq<LogEntry>, x: RelayTx, accepts: Verdict) {
    forall id :: id in x.writes && id in rows && x.writes[id].status == Pending ==>
      !Unpublished(log, accepts, id) && rows[id].availableAt <= x.writes[id].availableAt
  }

  // Every premise but the one about available_at.
  ghost predicate OrderlyButTimes(s: State, step: Step, accepts: Verdict)
    requires Enabled(s, step)
  {
    match step
    case RelayBegin(_) => s.relays == map[]
    case RelayClaim(tx, limit, ids) => ids == Lowest(Claimable(s, tx), limit)
    case RelayPublish(tx, outcome) => Abides(accepts, Current(s.relays[tx]).id, outcome)
    case RelayCommit(tx) => HarmlessReschedule(s.rows, s.log, s.relays[tx], accepts)
    case OrphanPublish(tx, appended) => appended ==> accepts(s.orphans[tx].id)
    case RegCommit(tx) => forall a, b :: a in Ever(s) && b in s.regs[tx].rows ==> a < b
    case Replay(id) => s.rows[id].status != Pending
    case _ => true
  }

  // No registration commits that began before a row became available that is visible and has yet to
  // be published.
  ghost predicate InTime(s: State, step: Step, accepts: Verdict)
    requires Enabled(s, step)
  {
    step.RegCommit? ==>
      forall a :: a in s.rows && Unpublished(s.log, accepts, a) ==> s.rows[a].availableAt <= s.regs[step.tx].now
  }

  ghost predicate Orderly(s: State, step: Step, accepts: Verdict)
    requires Enabled(s, step)
  {
    OrderlyButTimes(s, step, accepts) && InTime(s, step, accepts)
  }

  ghost predicate OrderlyRun(r: Run, accepts: Verdict) {
    && Execution(r)
    && forall k {:trigger r.steps[k]} :: 0 <= k < |r.steps| ==>
         Moves(r, k) && Orderly(r.states[k], r.steps[k], accepts)
  }

  // ---------------------------------------------------------------- what an orderly run keeps

  // No row above one that has yet to be published is available before it.
  ghost predicate AvailableInOrder(rows: map<RowId, Row>, log: seq<LogEntry>, accepts: Verdict) {
    forall a, b :: a in rows && b in rows && a < b && Unpublished(log, accepts, a) ==>
                     rows[a].availableAt <= rows[b].availableAt
  }

  // And it is available now.
  ghost predicate AvailableByNow(rows: map<RowId, Row>, log: seq<LogEntry>, accepts: Verdict, now: Instant) {
    forall a :: a in rows && Unpublished(log, accepts, a) ==> rows[a].availableAt <= now
  }

  ghost predicate RegsBegunByNow(regs: map<TxId, RegTx>, now: Instant) {
    forall t :: t in regs ==> regs[t].now <= now
  }

  ghost predicate ParkedWereRefused(rows: map<RowId, Row>, accepts: Verdict) {
    forall id :: id in rows && rows[id].status == Failed ==> !accepts(id)
  }

  // No pending row lies below a claimed row without being claimed itself.
  ghost predicate ClaimedFromBelow(rows: map<RowId, Row>, x: RelayTx) {
    forall i, b :: 0 <= i < |x.batch| && b in rows && rows[b].status == Pending && b < x.batch[i].id ==> b in Locks(x)
  }

  // None, at least, that has yet to be published.
  ghost predicate NoneLeftBelow(rows: map<RowId, Row>, log: seq<LogEntry>, x: RelayTx, accepts: Verdict) {
    forall i, b :: 0 <= i < |x.batch| && b in rows && b < x.batch[i].id && Unpublished(log, accepts, b) ==>
                     b in Locks(x)
  }

  // The rows it has handled were accepted or refused for good, but perhaps for the last.
  ghost predicate PassFollows(x: RelayTx, accepts: Verdict) {
    && (forall i :: 0 <= i < x.handled && i < |x.batch| && !(x.phase.Stopped? && i == x.handled - 1) ==>
          (accepts(x.batch[i].id) <==> x.batch[i].id in x.acked))
    && (x.phase.Acked? && x.handled < |x.batch| ==> accepts(x.batch[x.handled].id))
    && (x.phase.Refused? && x.handled < |x.batch| ==> !accepts(x.batch[x.handled].id))
  }

  ghost predicate Before(log: seq<LogEntry>, j: nat, id: RowId) {
    exists i :: 0 <= i < j && i < |log| && log[i].row == id
  }

  // Every accepted row below a logged one was logged earlier.
  ghost predicate NoOvertaking(ever: set<RowId>, log: seq<LogEntry>, accepts: Verdict) {
    && (forall j :: 0 <= j < |log| ==> log[j].row in ever && accepts(log[j].row))
    && (forall j, b {:trigger Before(log, j, b)} ::
          0 <= j < |log| && b in ever && b < log[j].row && accepts(b) ==> Before(log, j, b))
  }

  ghost predicate OneRelay(relays: map<TxId, RelayTx>) {
    forall t, u :: t in relays && u in relays ==> t == u
  }

  ghost predicate PassesFollow(rows: map<RowId, Row>, log: seq<LogEntry>, relays: map<TxId, RelayTx>,
                               accepts: Verdict)
  {
    forall t :: t in relays ==> NoneLeftBelow(rows, log, relays[t], accepts) && PassFollows(relays[t], accepts)
  }

  // Everything accepted below this row is in the log.
  ghost predicate LowerAreLogged(ever: set<RowId>, log: seq<LogEntry>, accepts: Verdict, id: RowId) {
    forall b :: b in ever && b < id && accepts(b) ==> Logged(log, b)
  }

  ghost predicate OrphansFollow(ever: set<RowId>, log: seq<LogEntry>, orphans: map<TxId, PendingMessage>,
                                accepts: Verdict)
  {
    forall t :: t in orphans && accepts(orphans[t].id) ==> LowerAreLogged(ever, log, accepts, orphans[t].id)
  }

  ghost predicate OrderInv(s: State, accepts: Verdict) {
    && OneRelay(s.relays)
    && RegsBegunByNow(s.regs, s.clock)
    && AvailableInOrder(s.rows, s.log, accepts) && AvailableByNow(s.rows, s.log, accepts, s.clock)
    && ParkedWereRefused(s.rows, accepts)
    && PassesFollow(s.rows, s.log, s.relays, accepts)
    && OrphansFollow(Ever(s), s.log, s.orphans, accepts)
    && NoOvertaking(Ever(s), s.log, accepts)
  }

  // A step of the one open pass replaces its record.
  lemma PassMoves(rows: map<RowId, Row>, log: seq<LogEntry>, relays: map<TxId, RelayTx>, tx: TxId, x: RelayTx,
                  accepts: Verdict)
    requires tx in relays && OneRelay(relays) && PassesFollow(rows, log, relays, accepts)
    requires NoneLeftBelow(rows, log, x, accepts) && PassFollows(x, accepts)
    ensures OneRelay(relays[tx := x]) && PassesFollow(rows, log, relays[tx := x], accepts)
  {
  }

  // The transaction after claiming the lowest `limit` claimable rows.
  function Claimed(s: State, tx: TxId, limit: nat): RelayTx
    requires tx in s.relays
  {
    var ids := Lowest(Claimable(s, tx), limit);
    assert forall i :: 0 <= i < |ids| ==> ids[i] in Elements(ids);
    AfterClaim(s, tx, limit, ids)
  }

  lemma ClaimedLocks(s: State, tx: TxId, limit: nat)
    requires tx in s.relays
    ensures Locks(Claimed(s, tx, limit)) == Elements(Lowest(Claimable(s, tx), limit))
  {
    var ids, x := Lowest(Claimable(s, tx), limit), Claimed(s, tx, limit);
    forall id | id in ids
      ensures id in Locks(x)
    {
      var i :| 0 <= i < |ids| && ids[i] == id;
      assert x.batch[i] in x.batch;
    }
    forall id | id in Locks(x)
      ensures id in ids
    {
      var m :| m in x.batch && m.id == id;
      var i :| 0 <= i < |x.batch| && x.batch[i] == m;
      assert ids[i] == id;
    }
  }

  lemma NothingLeftBelow(s: State, tx: TxId, limit: nat)
    requires tx in s.relays
    requires forall a, b :: a in Claimable(s, tx) && b in s.rows && s.rows[b].status == Pending && b < a ==>
                              b in Claimable(s, tx)
    ensures ClaimedFromBelow(s.rows, Claimed(s, tx, limit))
  {
    var ids, x := Lowest(Claimable(s, tx), limit), Claimed(s, tx, limit);
    ClaimedLocks(s, tx, limit);
    forall i, b | 0 <= i < |x.batch| && b in s.rows && s.rows[b].status == Pending && b < x.batch[i].id
      ensures b in Locks(x)
    {
      assert ids[i] in Elements(ids) && ids[i] in Claimable(s, tx);
      assert b in Claimable(s, tx) && ids[i] in ids;
    }
  }

  lemma WholeClaimLeavesNone(s: State, tx: TxId)
    requires tx in s.relays && ClaimedFromBelow(s.rows, Claimed(s, tx, |Claimable(s, tx)|))
    ensures forall a, b :: a in Claimable(s, tx) && b in s.rows && s.rows[b].status == Pending && b < a ==>
                             b in Claimable(s, tx)
  {
    var due := Claimable(s, tx);
    var x := Claimed(s, tx, |due|);
    ClaimedLocks(s, tx, |due|);
    WholeSet(due, |due|);
    forall a, b | a in due && b in s.rows && s.rows[b].status == Pending && b < a
      ensures b in due
    {
      assert a in Locks(x);
      var m :| m in x.batch && m.id == a;
      var i :| 0 <= i < |x.batch| && x.batch[i] == m;
    }
  }

  // `ORDER BY id` alone does not keep order. A claim of any size leaves no lower pending row behind
  // exactly when no pending row below a claimable one is itself locked or not yet due - and a
  // reschedule, or a transaction that began later, makes such a row.
  lemma ClaimKeepsOrderExactly(s: State, tx: TxId)
    requires tx in s.relays
    ensures (forall limit: nat :: ClaimedFromBelow(s.rows, Claimed(s, tx, limit)))
            <==> (forall a, b :: a in Claimable(s, tx) && b in s.rows && s.rows[b].status == Pending && b < a ==>
                                   b in Claimable(s, tx))
  {
    var due := Claimable(s, tx);
    if forall limit: nat :: ClaimedFromBelow(s.rows, Claimed(s, tx, limit)) {
      assert ClaimedFromBelow(s.rows, Claimed(s, tx, |due|));
      WholeClaimLeavesNone(s, tx);
    }
    if forall a, b :: a in due && b in s.rows && s.rows[b].status == Pending && b < a ==> b in due {
      forall limit: nat
        ensures ClaimedFromBelow(s.rows, Claimed(s, tx, limit))
      {
        NothingLeftBelow(s, tx, limit);
      }
    }
  }

  // A row below a due one that has yet to be published is due itself.
  lemma LowerIsClaimable(s: State, tx: TxId, a: RowId, b: RowId, accepts: Verdict)
    requires PublishedLogged(s.rows, s.log) && tx in s.relays && (forall t :: t in s.relays ==> t == tx)
    requires AvailableInOrder(s.rows, s.log, accepts) && ParkedWereRefused(s.rows, accepts)
    requires a in Claimable(s, tx) && b in s.rows && b < a && Unpublished(s.log, accepts, b)
    ensures b in Claimable(s, tx)
  {
    assert s.rows[b].status == Pending;
  }

  lemma ClaimLeavesNoneBelow(s: State, tx: TxId, limit: nat, accepts: Verdict)
    requires PublishedLogged(s.rows, s.log) && tx in s.relays && (forall t :: t in s.relays ==> t == tx)
    requires AvailableInOrder(s.rows, s.log, accepts) && ParkedWereRefused(s.rows, accepts)
    ensures NoneLeftBelow(s.rows, s.log, Claimed(s, tx, limit), accepts)
  {
    var ids, x := Lowest(Claimable(s, tx), limit), Claimed(s, tx, limit);
    ClaimedLocks(s, tx, limit);
    forall i, b | 0 <= i < |x.batch| && b in s.rows && b < x.batch[i].id && Unpublished(s.log, accepts, b)
      ensures b in Locks(x)
    {
      assert ids[i] in Elements(ids);
      LowerIsClaimable(s, tx, ids[i], b, accepts);
      assert ids[i] in ids;
    }
  }

  lemma LowerClaimedIsAcked(rows: map<RowId, Row>, log: seq<LogEntry>, x: RelayTx, accepts: Verdict, b: RowId)
    requires BatchOk(rows, x) && NoneLeftBelow(rows, log, x, accepts) && PassFollows(x, accepts)
    requires x.phase.Ready? && x.handled < |x.batch|
    requires b in rows && b < Current(x).id && Unpublished(log, accepts, b)
    ensures b in x.acked
  {
    assert x.batch[x.handled].id == Current(x).id;
    assert b in Locks(x);
    var m :| m in x.batch && m.id == b;
    var i :| 0 <= i < |x.batch| && x.batch[i] == m;
    assert i < x.handled;
  }

  // Everything accepted below the row being produced is in the log already.
  lemma LowerRowsAreLogged(rows: map<RowId, Row>, purged: map<RowId, Row>, log: seq<LogEntry>, x: RelayTx,
                           accepts: Verdict)
    requires RelayOk(rows, log, x) && PurgedLogged(purged, log)
    requires NoneLeftBelow(rows, log, x, accepts) && PassFollows(x, accepts)
    requires x.phase.Ready? && x.handled < |x.batch|
    ensures LowerAreLogged(rows.Keys + purged.Keys, log, accepts, Current(x).id)
  {
    forall b | b in rows.Keys + purged.Keys && b < Current(x).id && accepts(b)
      ensures Logged(log, b)
    {
      if b in rows && !Logged(log, b) {
        LowerClaimedIsAcked(rows, log, x, accepts, b);
      }
    }
  }

  lemma AppendKeepsOrder(ever: set<RowId>, log: seq<LogEntry>, accepts: Verdict, e: LogEntry)
    requires NoOvertaking(ever, log, accepts) && e.row in ever && accepts(e.row)
    requires LowerAreLogged(ever, log, accepts, e.row)
    ensures NoOvertaking(ever, log + [e], accepts)
  {
    var log' := log + [e];
    forall j, b | 0 <= j < |log'| && b in ever && b < log'[j].row && accepts(b)
      ensures Before(log', j, b)
    {
      assert Before(log, j, b) by {
        if j == |log| {
          assert Logged(log, b);
        }
      }
      var i :| 0 <= i < j && i < |log| && log[i].row == b;
      assert log'[i].row == b;
    }
  }

  // Another record in the log leaves fewer rows to wait for.
  lemma LongerLog(s: State, e: LogEntry, accepts: Verdict)
    requires AvailableInOrder(s.rows, s.log, accepts) && AvailableByNow(s.rows, s.log, accepts, s.clock)
    requires PassesFollow(s.rows, s.log, s.relays, accepts) && OrphansFollow(Ever(s), s.log, s.orphans, accepts)
    ensures var log := s.log + [e];
      && AvailableInOrder(s.rows, log, accepts) && AvailableByNow(s.rows, log, accepts, s.clock)
      && PassesFollow(s.rows, log, s.relays, accepts) && OrphansFollow(Ever(s), log, s.orphans, accepts)
  {
    var log := s.log + [e];
    forall id | Unpublished(log, accepts, id)
      ensures Unpublished(s.log, accepts, id)
    {
      if Logged(s.log, id) {
        LoggedGrows(s.log, log, id);
      }
    }
    forall id | Logged(s.log, id)
      ensures Logged(log, id)
    {
      LoggedGrows(s.log, log, id);
    }
    forall t | t in s.relays
      ensures NoneLeftBelow(s.rows, log, s.relays[t], accepts)
    {
      assert NoneLeftBelow(s.rows, s.log, s.relays[t], accepts);
    }
    forall t | t in s.orphans && accepts(s.orphans[t].id)
      ensures LowerAreLogged(Ever(s), log, accepts, s.orphans[t].id)
    {
      assert LowerAreLogged(Ever(s), s.log, accepts, s.orphans[t].id);
    }
  }

  lemma LogKeepsOrder(s: State, e: LogEntry, accepts: Verdict)
    requires OrderInv(s, accepts) && e.row in Ever(s) && accepts(e.row)
    requires LowerAreLogged(Ever(s), s.log, accepts, e.row)
    ensures OrderInv(s.(log := s.log + [e]), accepts)
  {
    SameEver(s, s.(log := s.log + [e]));
    LongerLog(s, e, accepts);
    AppendKeepsOrder(Ever(s), s.log, accepts, e);
  }

  lemma PublishFollows(rows: map<RowId, Row>, log: seq<LogEntry>, x: RelayTx, outcome: Outcome, accepts: Verdict)
    requires NoneLeftBelow(rows, log, x, accepts) && PassFollows(x, accepts)
    requires PhaseOk(x) && x.phase.Ready? && x.handled < |x.batch| && BatchOk(rows, x)
    requires Abides(accepts, Current(x).id, outcome)
    ensures NoneLeftBelow(rows, log, AfterPublish(x, outcome), accepts)
    ensures PassFollows(AfterPublish(x, outcome), accepts)
  {
    assert Locks(AfterPublish(x, outcome)) == Locks(x);
    assert x.batch[x.handled].id == Current(x).id;
  }

  // The pass's record after the produce call, before or after what it appended.
  lemma PublishMoves(s: State, tx: TxId, outcome: Outcome, log: seq<LogEntry>, accepts: Verdict)
    requires OrderInv(s, accepts) && tx in s.relays && RelayOk(s.rows, log, s.relays[tx])
    requires s.relays[tx].phase.Ready? && s.relays[tx].handled < |s.relays[tx].batch|
    requires Abides(accepts, Current(s.relays[tx]).id, outcome)
    ensures OrderInv(s.(relays := s.relays[tx := AfterPublish(s.relays[tx], outcome)]), accepts)
  {
    var x' := AfterPublish(s.relays[tx], outcome);
    SameEver(s, s.(relays := s.relays[tx := x']));
    PublishFollows(s.rows, s.log, s.relays[tx], outcome, accepts);
    PassMoves(s.rows, s.log, s.relays, tx, x', accepts);
  }

  lemma PublishKeepsOrder(s: State, step: Step, accepts: Verdict)
    requires Inv(s) && OrderInv(s, accepts) && Enabled(s, step) && step.RelayPublish? && Orderly(s, step, accepts)
    ensures OrderInv(Apply(s, step), accepts)
  {
    var tx, x := step.tx, s.relays[step.tx];
    assert RelayOk(s.rows, s.log, x);
    CurrentRow(s.rows, s.log, x);
    if Appends(step.outcome) {
      var e := LogEntry(Current(x).id, Encode(s.topics, Current(x).envelope));
      LowerRowsAreLogged(s.rows, s.purged, s.log, x, accepts);
      LogKeepsOrder(s, e, accepts);
      PublishMoves(s.(log := s.log + [e]), tx, step.outcome, s.log, accepts);
    } else {
      PublishMoves(s, tx, step.outcome, s.log, accepts);
    }
  }

  lemma RollbackKeepsOrder(s: State, tx: TxId, accepts: Verdict)
    requires OrderInv(s, accepts)
    ensures OrderInv(s.(relays := s.relays - {tx}), accepts)
  {
    SameEver(s, s.(relays := s.relays - {tx}));
  }

  // The call that a lost session leaves behind comes after everything that was to come before it.
  lemma OrphanJoins(s: State, tx: TxId, m: PendingMessage, accepts: Verdict)
    requires OrderInv(s, accepts) && LowerAreLogged(Ever(s), s.log, accepts, m.id)
    ensures OrderInv(s.(orphans := s.orphans[tx := m]), accepts)
  {
    SameEver(s, s.(orphans := s.orphans[tx := m]));
  }

  lemma LostKeepsOrder(s: State, step: Step, accepts: Verdict)
    requires Inv(s) && OrderInv(s, accepts) && Enabled(s, step) && step.RelayLost?
    ensures OrderInv(Apply(s, step), accepts)
  {
    var tx, x := step.tx, s.relays[step.tx];
    assert RelayOk(s.rows, s.log, x);
    LowerRowsAreLogged(s.rows, s.purged, s.log, x, accepts);
    OrphanJoins(s, tx, Current(x), accepts);
    RollbackKeepsOrder(s.(orphans := s.orphans[tx := Current(x)]), tx, accepts);
  }

  lemma OrphanLeaves(s: State, tx: TxId, accepts: Verdict)
    requires OrderInv(s, accepts)
    ensures OrderInv(s.(orphans := s.orphans - {tx}), accepts)
  {
    SameEver(s, s.(orphans := s.orphans - {tx}));
  }

  lemma OrphanKeepsOrder(s: State, step: Step, accepts: Verdict)
    requires Inv(s) && OrderInv(s, accepts) && Enabled(s, step) && step.OrphanPublish? && Orderly(s, step, accepts)
    ensures OrderInv(Apply(s, step), accepts)
  {
    var m, s' := s.orphans[step.tx], s.(orphans := s.orphans - {step.tx});
    OrphanLeaves(s, step.tx, accepts);
    SameEver(s, s');
    if step.appended {
      assert LowerAreLogged(Ever(s), s.log, accepts, m.id);
      LogKeepsOrder(s', LogEntry(m.id, Encode(s.topics, m.envelope)), accepts);
    }
  }

  lemma MarkFollows(rows: map<RowId, Row>, log: seq<LogEntry>, x: RelayTx, mark: Mark, accepts: Verdict)
    requires RelayOk(rows, log, x) && PassFollows(x, accepts) && NoneLeftBelow(rows, log, x, accepts)
    requires x.handled < |x.batch| && MarkFits(x.phase, mark)
    ensures PassFollows(AfterMark(rows, x, mark), accepts)
    ensures NoneLeftBelow(rows, log, AfterMark(rows, x, mark), accepts)
  {
    CurrentRow(rows, log, x);
    assert Locks(AfterMark(rows, x, mark)) == Locks(x);
    assert x.batch[x.handled].id in x.acked <==> x.phase.Acked?;
  }

  lemma MarkKeepsOrder(s: State, step: Step, accepts: Verdict)
    requires Inv(s) && OrderInv(s, accepts) && Enabled(s, step) && step.RelayMark?
    ensures OrderInv(Apply(s, step), accepts)
  {
    var x' := AfterMark(s.rows, s.relays[step.tx], step.mark);
    assert RelayOk(s.rows, s.log, s.relays[step.tx]);
    MarkFollows(s.rows, s.log, s.relays[step.tx], step.mark, accepts);
    PassMoves(s.rows, s.log, s.relays, step.tx, x', accepts);
    EverAfter(s, step);
  }

  lemma ClaimKeepsOrder(s: State, step: Step, accepts: Verdict)
    requires Inv(s) && OrderInv(s, accepts) && Enabled(s, step) && step.RelayClaim? && Orderly(s, step, accepts)
    ensures OrderInv(Apply(s, step), accepts)
  {
    var tx := step.tx;
    ClaimLeavesNoneBelow(s, tx, step.limit, accepts);
    EverAfter(s, step);
    BegunIsEmpty(s.rows, s.log, s.relays[tx]);
    PassMoves(s.rows, s.log, s.relays, tx, AfterClaim(s, tx, step.limit, step.ids), accepts);
  }

  // A commit parks refused rows only, and no row that has yet to be published has to wait for it.
  lemma CommitKeepsRows(rows: map<RowId, Row>, log: seq<LogEntry>, x: RelayTx, accepts: Verdict, now: Instant)
    requires RelayOk(rows, log, x) && MayCommit(x) && PassFollows(x, accepts)
    requires HarmlessReschedule(rows, log, x, accepts)
    requires AvailableInOrder(rows, log, accepts) && AvailableByNow(rows, log, accepts, now)
    requires ParkedWereRefused(rows, accepts)
    ensures (rows + x.writes).Keys == rows.Keys
    ensures AvailableInOrder(rows + x.writes, log, accepts) && AvailableByNow(rows + x.writes, log, accepts, now)
    ensures ParkedWereRefused(rows + x.writes, accepts)
  {
    forall id | id in x.writes
      ensures id in rows && x.writes[id].availableAt >= rows[id].availableAt
      ensures Unpublished(log, accepts, id) ==> x.writes[id].availableAt == rows[id].availableAt
      ensures x.writes[id].status == Failed ==> !accepts(id)
    {
      assert Done(x, id);
      var i :| 0 <= i < x.handled && x.batch[i].id == id;
      assert MarkedAt(rows, x, i);
    }
  }

  lemma RelayCommitKeepsOrder(s: State, step: Step, accepts: Verdict)
    requires Inv(s) && OrderInv(s, accepts) && Enabled(s, step) && step.RelayCommit? && Orderly(s, step, accepts)
    ensures OrderInv(Apply(s, step), accepts)
  {
    var s' := Apply(s, step);
    assert RelayOk(s.rows, s.log, s.relays[step.tx]);
    CommitKeepsRows(s.rows, s.log, s.relays[step.tx], accepts, s.clock);
    SameEver(s, s');
    assert s'.relays == map[];
  }

  // New rows lie above everything that was ever committed, so nothing logged is overtaken.
  lemma NewRowsKeepOrder(ever: set<RowId>, more: set<RowId>, log: seq<LogEntry>, accepts: Verdict)
    requires NoOvertaking(ever, log, accepts) && forall a, b :: a in ever && b in more ==> a < b
    ensures NoOvertaking(ever + more, log, accepts)
  {
    forall j, b | 0 <= j < |log| && b in ever + more && b < log[j].row && accepts(b)
      ensures Before(log, j, b)
    {
      assert b in ever;
    }
  }

  lemma NewRowsAboveOrphans(ever: set<RowId>, more: set<RowId>, log: seq<LogEntry>,
                            orphans: map<TxId, PendingMessage>, accepts: Verdict)
    requires OrphansFollow(ever, log, orphans, accepts) && forall a, b :: a in ever && b in more ==> a < b
    requires forall t :: t in orphans ==> orphans[t].id in ever
    ensures OrphansFollow(ever + more, log, orphans, accepts)
  {
    forall t | t in orphans && accepts(orphans[t].id)
      ensures LowerAreLogged(ever + more, log, accepts, orphans[t].id)
    {
      assert LowerAreLogged(ever, log, accepts, orphans[t].id);
    }
  }

  lemma RowsJoinInOrder(rows: map<RowId, Row>, log: seq<LogEntry>, journal: map<RowId, Envelope>, ever: set<RowId>,
                        reg: RegTx, accepts: Verdict, now: Instant)
    requires rows.Keys <= ever && RegRowsOk(journal, ever, reg) && reg.now <= now
    requires AvailableInOrder(rows, log, accepts) && AvailableByNow(rows, log, accepts, now)
    requires ParkedWereRefused(rows, accepts)
    requires forall a, b :: a in ever && b in reg.rows ==> a < b
    requires forall a :: a in rows && Unpublished(log, accepts, a) ==> rows[a].availableAt <= reg.now
    ensures AvailableInOrder(rows + reg.rows, log, accepts) && AvailableByNow(rows + reg.rows, log, accepts, now)
    ensures ParkedWereRefused(rows + reg.rows, accepts)
  {
  }

  lemma RowsJoinAbove(rows: map<RowId, Row>, more: map<RowId, Row>, log: seq<LogEntry>, x: RelayTx, accepts: Verdict)
    requires BatchOk(rows, x) && NoneLeftBelow(rows, log, x, accepts)
    requires forall a, b :: a in rows && b in more ==> a < b
    ensures NoneLeftBelow(rows + more, log, x, accepts)
  {
  }

  lemma PassesOutlast(rows: map<RowId, Row>, more: map<RowId, Row>, log: seq<LogEntry>, relays: map<TxId, RelayTx>,
                      accepts: Verdict)
    requires RelaysOk(rows, log, relays) && PassesFollow(rows, log, relays, accepts)
    requires forall a, b :: a in rows && b in more ==> a < b
    ensures PassesFollow(rows + more, log, relays, accepts)
  {
    forall t | t in relays
      ensures NoneLeftBelow(rows + more, log, relays[t], accepts)
    {
      assert RelayOk(rows, log, relays[t]);
      RowsJoinAbove(rows, more, log, relays[t], accepts);
    }
  }

  lemma RegCommitKeepsOrder(s: State, step: Step, accepts: Verdict)
    requires Inv(s) && OrderInv(s, accepts) && Enabled(s, step) && step.RegCommit? && Orderly(s, step, accepts)
    ensures OrderInv(Apply(s, step), accepts)
  {
    var reg := s.regs[step.tx];
    assert RegRowsOk(s.journal, Ever(s), reg);
    EverAfter(s, step);
    NewRowsKeepOrder(Ever(s), reg.rows.Keys, s.log, accepts);
    NewRowsAboveOrphans(Ever(s), reg.rows.Keys, s.log, s.orphans, accepts);
    RowsJoinInOrder(s.rows, s.log, s.journal, Ever(s), reg, accepts, s.clock);
    PassesOutlast(s.rows, reg.rows, s.log, s.relays, accepts);
  }

  // A pass that has claimed nothing leaves nothing behind.
  lemma PassBegins(rows: map<RowId, Row>, log: seq<LogEntry>, relays: map<TxId, RelayTx>, tx: TxId, x: RelayTx,
                   accepts: Verdict)
    requires relays == map[] && x.batch == []
    ensures OneRelay(relays[tx := x]) && PassesFollow(rows, log, relays[tx := x], accepts)
  {
  }

  lemma BeginKeepsOrder(s: State, step: Step, accepts: Verdict)
    requires Inv(s) && OrderInv(s, accepts) && Enabled(s, step) && step.RelayBegin? && Orderly(s, step, accepts)
    ensures OrderInv(Apply(s, step), accepts)
  {
    EverAfter(s, step);
    PassBegins(s.rows, s.log, s.relays, step.tx, Apply(s, step).relays[step.tx], accepts);
  }

  lemma FewerRows(rows: map<RowId, Row>, page: set<RowId>, log: seq<LogEntry>, relays: map<TxId, RelayTx>,
                  accepts: Verdict, now: Instant)
    requires AvailableInOrder(rows, log, accepts) && AvailableByNow(rows, log, accepts, now)
    requires ParkedWereRefused(rows, accepts) && PassesFollow(rows, log, relays, accepts)
    ensures AvailableInOrder(rows - page, log, accepts) && AvailableByNow(rows - page, log, accepts, now)
    ensures ParkedWereRefused(rows - page, accepts) && PassesFollow(rows - page, log, relays, accepts)
  {
    forall t | t in relays
      ensures NoneLeftBelow(rows - page, log, relays[t], accepts)
    {
      assert NoneLeftBelow(rows, log, relays[t], accepts);
    }
  }

  lemma PurgeKeepsOrder(s: State, step: Step, accepts: Verdict)
    requires Inv(s) && OrderInv(s, accepts) && Enabled(s, step) && step.PurgePage?
    ensures OrderInv(Apply(s, step), accepts)
  {
    FewerRows(s.rows, step.page, s.log, s.relays, accepts, s.clock);
    EverAfter(s, step);
  }

  // A row that was published or refused holds nobody up, whenever it comes back.
  lemma ReplayedInOrder(rows: map<RowId, Row>, log: seq<LogEntry>, relays: map<TxId, RelayTx>, accepts: Verdict,
                        now: Instant, id: RowId, row: Row)
    requires id in rows && !Unpublished(log, accepts, id) && row.availableAt == now && row.status == Pending
    requires AvailableInOrder(rows, log, accepts) && AvailableByNow(rows, log, accepts, now)
    requires ParkedWereRefused(rows, accepts) && PassesFollow(rows, log, relays, accepts)
    ensures AvailableInOrder(rows[id := row], log, accepts) && AvailableByNow(rows[id := row], log, accepts, now)
    ensures ParkedWereRefused(rows[id := row], accepts) && PassesFollow(rows[id := row], log, relays, accepts)
  {
    forall t | t in relays
      ensures NoneLeftBelow(rows[id := row], log, relays[t], accepts)
    {
      assert NoneLeftBelow(rows, log, relays[t], accepts);
    }
  }

  lemma ReplayKeepsOrder(s: State, step: Step, accepts: Verdict)
    requires Inv(s) && OrderInv(s, accepts) && Enabled(s, step) && step.Replay? && Orderly(s, step, accepts)
    ensures OrderInv(Apply(s, step), accepts)
  {
    var row := Apply(s, step).rows[step.id];
    EverAfter(s, step);
    ReplayedInOrder(s.rows, s.log, s.relays, accepts, s.clock, step.id, row);
  }

  lemma PassStepKeepsOrder(s: State, step: Step, accepts: Verdict)
    requires Inv(s) && OrderInv(s, accepts) && Enabled(s, step) && Orderly(s, step, accepts)
    requires step.RelayClaim? || step.RelayPublish? || step.RelayMark? || step.RelayCommit? || step.RelayLost?
    ensures OrderInv(Apply(s, step), accepts)
  {
    if step.RelayClaim? {
      ClaimKeepsOrder(s, step, accepts);
    } else if step.RelayPublish? {
      PublishKeepsOrder(s, step, accepts);
    } else if step.RelayMark? {
      MarkKeepsOrder(s, step, accepts);
    } else if step.RelayCommit? {
      RelayCommitKeepsOrder(s, step, accepts);
    } else {
      LostKeepsOrder(s, step, accepts);
    }
  }

  // Steps that touch no row, no pass and no record.
  lemma IdleKeepsOrder(s: State, step: Step, accepts: Verdict)
    requires OrderInv(s, accepts) && Enabled(s, step)
    requires step.Tick? || step.RegBegin? || step.RegInsertUser? || step.RegAppend? || step.RegRollback?
    ensures OrderInv(Apply(s, step), accepts)
  {
    EverAfter(s, step);
  }

  lemma StepKeepsOrder(s: State, step: Step, accepts: Verdict)
    requires Inv(s) && OrderInv(s, accepts) && Enabled(s, step) && Orderly(s, step, accepts)
    ensures OrderInv(Apply(s, step), accepts)
  {
    if step.RelayClaim? || step.RelayPublish? || step.RelayMark? || step.RelayCommit? || step.RelayLost? {
      PassStepKeepsOrder(s, step, accepts);
    } else if step.RelayBegin? {
      BeginKeepsOrder(s, step, accepts);
    } else if step.RelayRollback? {
      RollbackKeepsOrder(s, step.tx, accepts);
    } else if step.RegCommit? {
      RegCommitKeepsOrder(s, step, accepts);
    } else if step.PurgePage? {
      PurgeKeepsOrder(s, step, accepts);
    } else if step.OrphanPublish? {
      OrphanKeepsOrder(s, step, accepts);
    } else if step.Replay? {
      ReplayKeepsOrder(s, step, accepts);
    } else {
      IdleKeepsOrder(s, step, accepts);
    }
  }

  lemma NextOrder(r: Run, accepts: Verdict, n: nat)
    requires OrderlyRun(r, accepts) && n < |r.steps| && OrderInv(r.states[n], accepts)
    ensures OrderInv(r.states[n + 1], accepts)
  {
    Reachable(r, n);
    StepOf(r, n);
    StepKeepsOrder(r.states[n], r.steps[n], accepts);
  }

  lemma {:induction false} RunKeepsOrder(r: Run, accepts: Verdict, n: nat)
    requires OrderlyRun(r, accepts) && n < |r.states|
    ensures OrderInv(r.states[n], accepts)
  {
    if n > 0 {
      RunKeepsOrder(r, accepts, n - 1);
      NextOrder(r, accepts, n - 1);
    }
  }

  ghost predicate FirstCopy(log: seq<LogEntry>, j: nat)
    requires j < |log|
  {
    !Before(log, j, log[j].row)
  }

  lemma BeforeLater(log: seq<LogEntry>, i: nat, j: nat, id: RowId)
    requires i <= j
    ensures Before(log, i, id) ==> Before(log, j, id)
  {
    if Before(log, i, id) {
      var k :| 0 <= k < i && k < |log| && log[k].row == id;
      assert 0 <= k < j;
    }
  }

  // First publications carry increasing ids, across any number of rolled-back and lost passes.
  lemma FirstPublicationInIdOrder(r: Run, accepts: Verdict, n: nat, i: nat, j: nat)
    requires OrderlyRun(r, accepts) && n < |r.states| && i < j < |r.states[n].log|
    requires FirstCopy(r.states[n].log, i) && FirstCopy(r.states[n].log, j)
    ensures r.states[n].log[i].row < r.states[n].log[j].row
  {
    RunKeepsOrder(r, accepts, n);
    var log := r.states[n].log;
    assert Before(log, j, log[i].row);
    BeforeLater(log, i, j, log[j].row);
  }

  // ---------------------------------------------------------------- within one pass, in any run

  // The pass that produced position h of its batch is closed, or has moved past that position.
  ghost predicate PastPosition(s: State, tx: TxId, batch: seq<PendingMessage>, h: nat) {
    tx < s.nextTx
    && (tx in s.relays ==>
          s.relays[tx].batch == batch
          && (s.relays[tx].handled > h
              || (s.relays[tx].handled == h && !s.relays[tx].phase.Ready? && !s.relays[tx].phase.Begun?)))
  }

  lemma StepKeepsPast(s: State, step: Step, tx: TxId, batch: seq<PendingMessage>, h: nat)
    requires Inv(s) && Enabled(s, step) && PastPosition(s, tx, batch, h)
    ensures PastPosition(Apply(s, step), tx, batch, h)
  {
    if TxOf(step) != Some(tx) {
      OthersLeaveTxAlone(s, step, tx);
    } else if step.RelayMark? {
      CurrentRow(s.rows, s.log, s.relays[tx]);
    }
  }

  lemma PastNext(r: Run, n: nat, tx: TxId, batch: seq<PendingMessage>, h: nat)
    requires Execution(r) && n < |r.steps| && PastPosition(r.states[n], tx, batch, h)
    ensures PastPosition(r.states[n + 1], tx, batch, h)
  {
    Reachable(r, n);
    StepOf(r, n);
    StepKeepsPast(r.states[n], r.steps[n], tx, batch, h);
  }

  lemma {:induction false} PastForever(r: Run, m: nat, n: nat, tx: TxId, batch: seq<PendingMessage>, h: nat)
    requires Execution(r) && m <= n < |r.states| && PastPosition(r.states[m], tx, batch, h)
    ensures PastPosition(r.states[n], tx, batch, h)
    decreases n
  {
    if m < n {
      PastForever(r, m, n - 1, tx, batch, h);
      PastNext(r, n - 1, tx, batch, h);
    }
  }

  ghost function ProducedRow(r: Run, k: nat): RowId
    requires IsRun(r) && k < |r.steps| && r.steps[k].RelayPublish?
  {
    StepOf(r, k);
    Current(r.states[k].relays[r.steps[k].tx]).id
  }

  lemma PastAfterPublish(r: Run, k: nat)
    requires Execution(r) && k < |r.steps| && r.steps[k].RelayPublish?
    ensures var tx := r.steps[k].tx;
            tx in r.states[k].relays
            && PastPosition(r.states[k + 1], tx, r.states[k].relays[tx].batch, r.states[k].relays[tx].handled)
  {
    Reachable(r, k);
    StepOf(r, k);
  }

  // Whatever else happens, a pass never produces a row twice or goes back to a lower one.
  lemma PassProducesAscending(r: Run, j: nat, k: nat)
    requires Execution(r) && j < k < |r.steps|
    requires r.steps[j].RelayPublish? && r.steps[k].RelayPublish? && r.steps[j].tx == r.steps[k].tx
    ensures ProducedRow(r, j) < ProducedRow(r, k)
  {
    var tx := r.steps[j].tx;
    PastAfterPublish(r, j);
    var x := r.states[j].relays[tx];
    PastForever(r, j + 1, k, tx, x.batch, x.handled);
    StepOf(r, k);
    Reachable(r, k);
    var y := r.states[k].relays[tx];
    assert BatchOk(r.states[k].rows, y);
  }
}
