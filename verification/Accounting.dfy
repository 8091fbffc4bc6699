/**
 Counting over runs: how often a row is in the log and why, how often it was
 deferred, and what can park it. Each count reads the steps of the run, not the
 table it is compared with.
 */
module Accounting {
  import opened Wrappers
  import opened Ordering
  import opened Wire
  import opened Protocol
  import opened Invariant
  import opened Safety

  // ---------------------------------------------------------------- copies in the log

  ghost function Copies(log: seq<LogEntry>, id: RowId): nat {
    if log == [] then 0
    else Copies(log[..|log| - 1], id) + if log[|log| - 1].row == id then 1 else 0
  }

  // Every copy of a row has one of these causes.
  datatype Tally = Tally(settled: nat, rolledBack: nat, lostAcks: nat, orphaned: nat, replayed: nat)

  ghost function Count(t: Tally, s: State, step: Step, id: RowId): Tally
    requires Enabled(s, step)
  {
    match step
    case RelayCommit(tx) => if id in s.relays[tx].acked then t.(settled := t.settled + 1) else t
    case RelayRollback(tx) => if id in s.relays[tx].acked then t.(rolledBack := t.rolledBack + 1) else t
    case RelayLost(tx) => if id in s.relays[tx].acked then t.(rolledBack := t.rolledBack + 1) else t
    case OrphanPublish(tx, appended) =>
      if appended && s.orphans[tx].id == id then t.(orphaned := t.orphaned + 1) else t
    case Replay(row) =>
      if row == id && s.rows[id].status == Published && t.settled > 0
      then t.(settled := t.settled - 1, replayed := t.replayed + 1) else t
    case RelayPublish(tx, Error(_, appended)) =>
      if appended && Current(s.relays[tx]).id == id then t.(lostAcks := t.lostAcks + 1) else t
    case _ => t
  }

  // Over the first n steps: marks that committed after an ack, acks undone by a rollback or a
  // crash, produce calls that failed although the broker had appended, produce calls that outlived
  // their session, and marks that committed and were then undone by a human.
  ghost function TallyAt(r: Run, id: RowId, n: nat): Tally
    requires IsRun(r) && n < |r.states|
  {
    if n == 0 then Tally(0, 0, 0, 0, 0)
    else
      StepOf(r, n - 1);
      Count(TallyAt(r, id, n - 1), r.states[n - 1], r.steps[n - 1], id)
  }

  // An ack of the row by a pass that is still open.
  ghost predicate AckOpen(relays: map<TxId, RelayTx>, id: RowId) {
    exists t :: t in relays && id in relays[t].acked
  }

  ghost function One(b: bool): nat {
    if b then 1 else 0
  }

  ghost predicate SettledOnce(rows: map<RowId, Row>, purged: map<RowId, Row>, id: RowId) {
    (id in rows && rows[id].status == Published) || id in purged
  }

  ghost predicate Balanced(s: State, id: RowId, t: Tally) {
    && Copies(s.log, id) == t.settled + t.rolledBack + t.lostAcks + t.orphaned + t.replayed
                            + One(AckOpen(s.relays, id))
    && t.settled == One(SettledOnce(s.rows, s.purged, id))
  }

  lemma CopiesAppend(log: seq<LogEntry>, e: LogEntry, id: RowId)
    ensures Copies(log + [e], id) == Copies(log, id) + One(e.row == id)
  {
    assert (log + [e])[..|log|] == log;
  }

  lemma AckedIsLocked(log: seq<LogEntry>, x: RelayTx, id: RowId)
    requires AckedOk(log, x)
    ensures id in x.acked ==> id in Locks(x)
  {
    if id in x.acked {
      var i :| 0 <= i < |x.batch| && x.batch[i].id == id;
      assert x.batch[i] in x.batch;
    }
  }

  lemma AckedRow(s: State, tx: TxId, id: RowId)
    requires Inv(s) && tx in s.relays && id in s.relays[tx].acked
    ensures id in Locks(s.relays[tx]) && id in s.rows && s.rows[id].status == Pending
    ensures id !in s.purged && forall t :: t in s.relays && t != tx ==> id !in s.relays[t].acked
  {
    var x := s.relays[tx];
    assert RelayOk(s.rows, s.log, x);
    var i :| 0 <= i < |x.batch| && x.batch[i].id == id;
    AckedIsLocked(s.log, x, id);
    forall t | t in s.relays && t != tx
      ensures id !in s.relays[t].acked
    {
      assert Locks(x) !! Locks(s.relays[t]) && RelayOk(s.rows, s.log, s.relays[t]);
      AckedIsLocked(s.log, s.relays[t], id);
    }
  }

  lemma AckOpenPut(relays: map<TxId, RelayTx>, tx: TxId, x: RelayTx, id: RowId)
    requires id in x.acked <==> tx in relays && id in relays[tx].acked
    ensures AckOpen(relays[tx := x], id) == AckOpen(relays, id)
  {
    var relays' := relays[tx := x];
    if AckOpen(relays, id) {
      var t :| t in relays && id in relays[t].acked;
      assert t in relays' && id in relays'[t].acked;
    }
    if AckOpen(relays', id) {
      var t :| t in relays' && id in relays'[t].acked;
      assert t in relays && id in relays[t].acked;
    }
  }

  // The row being produced has no open ack yet: not in this pass, and its lock keeps others off.
  lemma CurrentNotAcked(s: State, tx: TxId)
    requires Inv(s) && tx in s.relays && s.relays[tx].phase.Ready? && s.relays[tx].handled < |s.relays[tx].batch|
    ensures !AckOpen(s.relays, Current(s.relays[tx]).id)
  {
    var id := Current(s.relays[tx]).id;
    CurrentRow(s.rows, s.log, s.relays[tx]);
    forall u | u in s.relays
      ensures id !in s.relays[u].acked
    {
      assert RelayOk(s.rows, s.log, s.relays[u]);
      AckedIsLocked(s.log, s.relays[u], id);
      assert u != tx ==> Locks(s.relays[u]) !! Locks(s.relays[tx]);
    }
  }

  lemma AckOpens(relays: map<TxId, RelayTx>, tx: TxId, outcome: Outcome, id: RowId)
    requires tx in relays && relays[tx].handled < |relays[tx].batch|
    ensures AckOpen(relays[tx := AfterPublish(relays[tx], outcome)], id)
            <==> AckOpen(relays, id) || (outcome.Ack? && Current(relays[tx]).id == id)
  {
    var x := relays[tx];
    var x' := AfterPublish(x, outcome);
    if outcome.Ack? && Current(x).id == id {
      assert tx in relays[tx := x'] && id in relays[tx := x'][tx].acked;
    } else {
      AckOpenPut(relays, tx, x', id);
    }
  }

  lemma PublishAppends(s: State, tx: TxId, outcome: Outcome, id: RowId)
    requires Enabled(s, RelayPublish(tx, outcome))
    ensures var s' := Apply(s, RelayPublish(tx, outcome));
            && Copies(s'.log, id) == Copies(s.log, id) + One(Appends(outcome) && Current(s.relays[tx]).id == id)
            && s'.relays == s.relays[tx := AfterPublish(s.relays[tx], outcome)]
            && s'.rows == s.rows && s'.purged == s.purged
  {
    var x := s.relays[tx];
    if Appends(outcome) {
      CopiesAppend(s.log, LogEntry(Current(x).id, Encode(s.topics, Current(x).envelope)), id);
    }
  }

  lemma PublishBalance(s: State, step: Step, id: RowId, t: Tally)
    requires Inv(s) && Enabled(s, step) && step.RelayPublish? && Balanced(s, id, t)
    ensures Balanced(Apply(s, step), id, Count(t, s, step, id))
  {
    var tx, outcome := step.tx, step.outcome;
    CurrentNotAcked(s, tx);
    AckOpens(s.relays, tx, outcome, id);
    PublishAppends(s, tx, outcome, id);
  }

  lemma NoAckDropped(relays: map<TxId, RelayTx>, tx: TxId, id: RowId)
    requires tx in relays && id !in relays[tx].acked
    ensures AckOpen(relays - {tx}, id) == AckOpen(relays, id)
  {
    if AckOpen(relays, id) {
      var u :| u in relays && id in relays[u].acked;
      assert u in relays - {tx} && id in (relays - {tx})[u].acked;
    }
  }

  // A pass that ends takes its open ack with it.
  lemma AckOpenDrop(s: State, tx: TxId, id: RowId)
    requires Inv(s) && tx in s.relays
    ensures id in s.relays[tx].acked ==> AckOpen(s.relays, id) && !AckOpen(s.relays - {tx}, id)
    ensures id !in s.relays[tx].acked ==> AckOpen(s.relays - {tx}, id) == AckOpen(s.relays, id)
  {
    if id in s.relays[tx].acked {
      AckedRow(s, tx, id);
    } else {
      NoAckDropped(s.relays, tx, id);
    }
  }

  // When a pass may commit, every row it acknowledged is marked published.
  lemma AckedIsMarked(rows: map<RowId, Row>, log: seq<LogEntry>, x: RelayTx, id: RowId)
    requires RelayOk(rows, log, x) && id in x.acked
    requires MayCommit(x)
    ensures id in x.writes && x.writes[id].status == Published && id in rows && rows[id].status == Pending
  {
    assert exists i :: 0 <= i < |x.batch| && x.batch[i].id == id;
    var i :| 0 <= i < |x.batch| && x.batch[i].id == id;
    assert i < x.handled;
    assert MarkedAt(rows, x, i);
  }

  // A mark belongs to a claimed, pending row, and publishes it exactly when it was acknowledged.
  lemma WriteOf(rows: map<RowId, Row>, log: seq<LogEntry>, x: RelayTx, id: RowId) returns (i: nat)
    requires RelayOk(rows, log, x) && id in x.writes
    ensures i < x.handled && x.batch[i].id == id && MarkedAt(rows, x, i)
    ensures id in rows && rows[id].status == Pending && WriteOk(rows[id], x.writes[id], id in x.acked, x.now)
  {
    assert Done(x, id);
    i :| 0 <= i < x.handled && x.batch[i].id == id;
    assert MarkedAt(rows, x, i);
  }

  // A committed pass publishes exactly the rows it had acknowledged.
  lemma CommitSettles(rows: map<RowId, Row>, purged: map<RowId, Row>, log: seq<LogEntry>, x: RelayTx, id: RowId)
    requires RelayOk(rows, log, x) && (id in x.acked ==> id !in purged)
    requires MayCommit(x)
    ensures One(SettledOnce(rows + x.writes, purged, id)) == One(SettledOnce(rows, purged, id)) + One(id in x.acked)
  {
    if id in x.acked {
      AckedIsMarked(rows, log, x, id);
    } else if id in x.writes {
      var _ := WriteOf(rows, log, x, id);
    }
  }

  lemma CommitSettlesRow(s: State, tx: TxId, id: RowId)
    requires Inv(s) && Enabled(s, RelayCommit(tx))
    ensures var x := s.relays[tx];
            One(SettledOnce(s.rows + x.writes, s.purged, id))
            == One(SettledOnce(s.rows, s.purged, id)) + One(id in x.acked)
  {
    assert RelayOk(s.rows, s.log, s.relays[tx]);
    if id in s.relays[tx].acked {
      AckedRow(s, tx, id);
    }
    CommitSettles(s.rows, s.purged, s.log, s.relays[tx], id);
  }

  lemma CommitBalance(s: State, tx: TxId, id: RowId, t: Tally)
    requires Inv(s) && Enabled(s, RelayCommit(tx)) && Balanced(s, id, t)
    ensures Balanced(Apply(s, RelayCommit(tx)), id, Count(t, s, RelayCommit(tx), id))
  {
    AckOpenDrop(s, tx, id);
    CommitSettlesRow(s, tx, id);
  }

  lemma RollbackBalance(s: State, step: Step, id: RowId, t: Tally)
    requires Inv(s) && Enabled(s, step) && (step.RelayRollback? || step.RelayLost?) && Balanced(s, id, t)
    ensures Balanced(Apply(s, step), id, Count(t, s, step, id))
  {
    AckOpenDrop(s, step.tx, id);
  }

  lemma OrphanBalance(s: State, tx: TxId, appended: bool, id: RowId, t: Tally)
    requires Enabled(s, OrphanPublish(tx, appended)) && Balanced(s, id, t)
    ensures Balanced(Apply(s, OrphanPublish(tx, appended)), id, Count(t, s, OrphanPublish(tx, appended), id))
  {
    if appended {
      CopiesAppend(s.log, LogEntry(s.orphans[tx].id, Encode(s.topics, s.orphans[tx].envelope)), id);
    }
  }

  lemma NewRowsUnsettled(journal: map<RowId, Envelope>, rows: map<RowId, Row>, purged: map<RowId, Row>, reg: RegTx,
                         id: RowId)
    requires RegRowsOk(journal, rows.Keys + purged.Keys, reg)
    ensures SettledOnce(rows + reg.rows, purged, id) == SettledOnce(rows, purged, id)
  {
  }

  lemma RegCommitBalance(s: State, step: Step, id: RowId, t: Tally)
    requires Inv(s) && Enabled(s, step) && step.RegCommit? && Balanced(s, id, t)
    ensures Balanced(Apply(s, step), id, Count(t, s, step, id))
  {
    assert RegRowsOk(s.journal, Ever(s), s.regs[step.tx]);
    NewRowsUnsettled(s.journal, s.rows, s.purged, s.regs[step.tx], id);
  }

  lemma PurgeMovesRows(rows: map<RowId, Row>, purged: map<RowId, Row>, page: set<RowId>, id: RowId)
    requires forall i :: i in page ==> i in rows && rows[i].status == Published
    ensures SettledOnce(rows - page, purged + (map i | i in page :: rows[i]), id) == SettledOnce(rows, purged, id)
  {
  }

  lemma PurgeBalance(s: State, step: Step, id: RowId, t: Tally)
    requires Enabled(s, step) && step.PurgePage? && Balanced(s, id, t)
    ensures Balanced(Apply(s, step), id, Count(t, s, step, id))
  {
    PurgeMovesRows(s.rows, s.purged, step.page, id);
  }

  lemma ReplayUnsettles(rows: map<RowId, Row>, purged: map<RowId, Row>, rows': map<RowId, Row>, row: RowId, id: RowId)
    requires row in rows && row in rows' && rows' == rows[row := rows'[row]] && rows'[row].status == Pending
    requires rows.Keys !! purged.Keys
    ensures SettledOnce(rows', purged, id)
            <==> SettledOnce(rows, purged, id) && !(row == id && rows[id].status == Published)
  {
  }

  lemma ReplayBalance(s: State, step: Step, id: RowId, t: Tally)
    requires Enabled(s, step) && step.Replay? && Balanced(s, id, t) && s.rows.Keys !! s.purged.Keys
    ensures Balanced(Apply(s, step), id, Count(t, s, step, id))
  {
    ReplayUnsettles(s.rows, s.purged, Apply(s, step).rows, step.id, id);
  }

  lemma ClaimOrMarkBalance(s: State, step: Step, id: RowId, t: Tally)
    requires TxIdsOk(s.nextTx, s.clock, s.regs, s.relays) && Enabled(s, step) && Balanced(s, id, t)
    requires step.RelayBegin? || step.RelayClaim? || step.RelayMark?
    ensures Balanced(Apply(s, step), id, Count(t, s, step, id))
  {
    match step
    case RelayBegin(tx) => AckOpenPut(s.relays, tx, RelayTx(s.clock, 0, [], 0, Begun, map[], {}), id);
    case RelayClaim(tx, limit, ids) => AckOpenPut(s.relays, tx, AfterClaim(s, tx, limit, ids), id);
    case RelayMark(tx, mark) => AckOpenPut(s.relays, tx, AfterMark(s.rows, s.relays[tx], mark), id);
  }

  lemma PassBalances(s: State, step: Step, id: RowId, t: Tally)
    requires Inv(s) && Enabled(s, step) && Balanced(s, id, t)
    requires step.RelayPublish? || step.RelayCommit? || step.RelayRollback? || step.RelayLost? || step.OrphanPublish?
    ensures Balanced(Apply(s, step), id, Count(t, s, step, id))
  {
    if step.RelayPublish? {
      PublishBalance(s, step, id, t);
    } else if step.RelayCommit? {
      CommitBalance(s, step.tx, id, t);
    } else if step.OrphanPublish? {
      OrphanBalance(s, step.tx, step.appended, id, t);
    } else {
      RollbackBalance(s, step, id, t);
    }
  }

  lemma TableBalances(s: State, step: Step, id: RowId, t: Tally)
    requires Inv(s) && Enabled(s, step) && Balanced(s, id, t)
    requires step.RegCommit? || step.PurgePage? || step.Replay?
    ensures Balanced(Apply(s, step), id, Count(t, s, step, id))
  {
    if step.RegCommit? {
      RegCommitBalance(s, step, id, t);
    } else if step.PurgePage? {
      PurgeBalance(s, step, id, t);
    } else {
      ReplayBalance(s, step, id, t);
    }
  }

  // Ticks and uncommitted registrations touch neither the log nor the table nor a pass.
  lemma IdleBalances(s: State, step: Step, id: RowId, t: Tally)
    requires Enabled(s, step) && Balanced(s, id, t)
    requires step.Tick? || step.RegBegin? || step.RegInsertUser? || step.RegAppend? || step.RegRollback?
    ensures Balanced(Apply(s, step), id, Count(t, s, step, id))
  {
  }

  lemma StepBalances(s: State, step: Step, id: RowId, t: Tally)
    requires Inv(s) && Enabled(s, step) && Balanced(s, id, t)
    ensures Balanced(Apply(s, step), id, Count(t, s, step, id))
  {
    if step.RelayPublish? || step.RelayCommit? || step.RelayRollback? || step.RelayLost? || step.OrphanPublish? {
      PassBalances(s, step, id, t);
    } else if step.RelayBegin? || step.RelayClaim? || step.RelayMark? {
      ClaimOrMarkBalance(s, step, id, t);
    } else if step.RegCommit? || step.PurgePage? || step.Replay? {
      TableBalances(s, step, id, t);
    } else {
      IdleBalances(s, step, id, t);
    }
  }

  lemma TallyNext(r: Run, id: RowId, n: nat)
    requires Execution(r) && n < |r.steps| && Balanced(r.states[n], id, TallyAt(r, id, n))
    ensures Balanced(r.states[n + 1], id, TallyAt(r, id, n + 1))
  {
    Reachable(r, n);
    StepOf(r, n);
    StepBalances(r.states[n], r.steps[n], id, TallyAt(r, id, n));
  }

  lemma {:induction false} TallyBalances(r: Run, id: RowId, n: nat)
    requires Execution(r) && n < |r.states|
    ensures Balanced(r.states[n], id, TallyAt(r, id, n))
  {
    if n > 0 {
      TallyBalances(r, id, n - 1);
      TallyNext(r, id, n - 1);
    }
  }

  // ---------------------------------------------------------------- the causes, as steps of the run

  // Step k ended a pass without a commit, and with it an ack of the row.
  ghost predicate UndoneAt(r: Run, k: nat, id: RowId)
    requires IsRun(r) && k < |r.steps|
  {
    StepOf(r, k);
    (r.steps[k].RelayRollback? || r.steps[k].RelayLost?) && id in r.states[k].relays[r.steps[k].tx].acked
  }

  // Step k was a produce call of the row that failed, and the broker has the record.
  ghost predicate AckLostAt(r: Run, k: nat, id: RowId)
    requires IsRun(r) && k < |r.steps|
  {
    StepOf(r, k);
    && r.steps[k].RelayPublish? && r.steps[k].outcome.Error? && r.steps[k].outcome.appended
    && Current(r.states[k].relays[r.steps[k].tx]).id == id
  }

  // Step k was one that had outlived its session.
  ghost predicate OrphanedAt(r: Run, k: nat, id: RowId)
    requires IsRun(r) && k < |r.steps|
  {
    StepOf(r, k);
    r.steps[k].OrphanPublish? && r.steps[k].appended && r.states[k].orphans[r.steps[k].tx].id == id
  }

  // Step k put the row back after it was published.
  ghost predicate PutBackAt(r: Run, k: nat, id: RowId)
    requires IsRun(r) && k < |r.steps|
  {
    StepOf(r, k);
    r.steps[k] == Replay(id) && r.states[k].rows[id].status == Published
  }

  ghost function UndoneAcks(r: Run, id: RowId, n: nat): set<nat>
    requires IsRun(r) && n < |r.states|
  {
    set k | 0 <= k < n && UndoneAt(r, k, id)
  }

  ghost function LostAcks(r: Run, id: RowId, n: nat): set<nat>
    requires IsRun(r) && n < |r.states|
  {
    set k | 0 <= k < n && AckLostAt(r, k, id)
  }

  ghost function OrphanedProduces(r: Run, id: RowId, n: nat): set<nat>
    requires IsRun(r) && n < |r.states|
  {
    set k | 0 <= k < n && OrphanedAt(r, k, id)
  }

  ghost function PutBacks(r: Run, id: RowId, n: nat): set<nat>
    requires IsRun(r) && n < |r.states|
  {
    set k | 0 <= k < n && PutBackAt(r, k, id)
  }

  lemma OneMoreUndone(r: Run, id: RowId, n: nat)
    requires IsRun(r) && n < |r.steps|
    ensures |UndoneAcks(r, id, n + 1)| == |UndoneAcks(r, id, n)| + One(UndoneAt(r, n, id))
  {
    assert UndoneAcks(r, id, n + 1) == UndoneAcks(r, id, n) + if UndoneAt(r, n, id) then {n} else {};
  }

  lemma OneMoreLost(r: Run, id: RowId, n: nat)
    requires IsRun(r) && n < |r.steps|
    ensures |LostAcks(r, id, n + 1)| == |LostAcks(r, id, n)| + One(AckLostAt(r, n, id))
  {
    assert LostAcks(r, id, n + 1) == LostAcks(r, id, n) + if AckLostAt(r, n, id) then {n} else {};
  }

  lemma OneMoreOrphaned(r: Run, id: RowId, n: nat)
    requires IsRun(r) && n < |r.steps|
    ensures |OrphanedProduces(r, id, n + 1)| == |OrphanedProduces(r, id, n)| + One(OrphanedAt(r, n, id))
  {
    assert OrphanedProduces(r, id, n + 1) == OrphanedProduces(r, id, n) + if OrphanedAt(r, n, id) then {n} else {};
  }

  lemma OneMorePutBack(r: Run, id: RowId, n: nat)
    requires IsRun(r) && n < |r.steps|
    ensures |PutBacks(r, id, n + 1)| == |PutBacks(r, id, n)| + One(PutBackAt(r, n, id))
  {
    assert PutBacks(r, id, n + 1) == PutBacks(r, id, n) + if PutBackAt(r, n, id) then {n} else {};
  }

  ghost predicate TalliedBySteps(r: Run, id: RowId, n: nat)
    requires IsRun(r) && n < |r.states|
  {
    var t := TallyAt(r, id, n);
    && t.rolledBack == |UndoneAcks(r, id, n)| && t.lostAcks == |LostAcks(r, id, n)|
    && t.orphaned == |OrphanedProduces(r, id, n)| && t.replayed == |PutBacks(r, id, n)|
  }

  lemma TallyNextStep(r: Run, id: RowId, n: nat)
    requires Execution(r) && n < |r.steps| && TalliedBySteps(r, id, n)
    requires Balanced(r.states[n], id, TallyAt(r, id, n))
    ensures TalliedBySteps(r, id, n + 1)
  {
    StepOf(r, n);
    OneMoreUndone(r, id, n);
    OneMoreLost(r, id, n);
    OneMoreOrphaned(r, id, n);
    OneMorePutBack(r, id, n);
  }

  lemma {:induction false} CausesAreSteps(r: Run, id: RowId, n: nat)
    requires Execution(r) && n < |r.states|
    ensures TalliedBySteps(r, id, n)
  {
    if n > 0 {
      CausesAreSteps(r, id, n - 1);
      TallyBalances(r, id, n - 1);
      TallyNextStep(r, id, n - 1);
    } else {
      assert UndoneAcks(r, id, 0) == {} && LostAcks(r, id, 0) == {};
      assert OrphanedProduces(r, id, 0) == {} && PutBacks(r, id, 0) == {};
    }
  }

  // The places of the row in the log.
  function Places(log: seq<LogEntry>, id: RowId): set<nat> {
    set j | 0 <= j < |log| && log[j].row == id
  }

  lemma {:induction false} CopiesHavePlaces(log: seq<LogEntry>, id: RowId)
    ensures Copies(log, id) == |Places(log, id)|
  {
    if log == [] {
      assert Places(log, id) == {};
    } else {
      var n := |log| - 1;
      CopiesHavePlaces(log[..n], id);
      assert Places(log, id) == Places(log[..n], id) + if log[n].row == id then {n} else {};
    }
  }

  // Duplicates are bounded by what went wrong: between passes, the copies of a row are one if its
  // published mark committed and stands, plus one for every ack that was rolled back, lost, received
  // by nobody or replayed by hand.
  lemma DuplicateAccounting(r: Run, id: RowId, n: nat)
    requires Execution(r) && n < |r.states|
    requires forall t :: t in r.states[n].relays ==> id !in r.states[n].relays[t].acked
    ensures var s := r.states[n];
            |Places(s.log, id)| == One((id in s.rows && s.rows[id].status == Published) || id in s.purged)
              + |UndoneAcks(r, id, n)| + |LostAcks(r, id, n)| + |OrphanedProduces(r, id, n)| + |PutBacks(r, id, n)|
  {
    TallyBalances(r, id, n);
    CausesAreSteps(r, id, n);
    CopiesHavePlaces(r.states[n].log, id);
  }

  lemma AckedFitBatch(log: seq<LogEntry>, x: RelayTx)
    requires AckedOk(log, x)
    requires forall i, j :: 0 <= i < j < |x.batch| ==> x.batch[i].id < x.batch[j].id
    ensures |x.acked| <= |x.batch|
  {
    var ids := seq(|x.batch|, i requires 0 <= i < |x.batch| => x.batch[i].id);
    AscendingCardinality(ids);
    forall id | id in x.acked
      ensures id in Elements(ids)
    {
      var i :| 0 <= i < |x.batch| && x.batch[i].id == id;
      assert ids[i] == id;
    }
    NotLarger(x.acked, Elements(ids));
  }

  // One rolled-back pass republishes at most its batch.
  lemma RollbackBlastRadius(r: Run, k: nat)
    requires Execution(r) && k < |r.steps| && (r.steps[k].RelayRollback? || r.steps[k].RelayLost?)
    ensures Moves(r, k)
    ensures var x := r.states[k].relays[r.steps[k].tx];
            && |x.acked| <= |x.batch| <= x.limit
            && forall id :: |UndoneAcks(r, id, k + 1)| == |UndoneAcks(r, id, k)| + One(id in x.acked)
  {
    Reachable(r, k);
    StepOf(r, k);
    var x := r.states[k].relays[r.steps[k].tx];
    assert RelayOk(r.states[k].rows, r.states[k].log, x);
    AckedFitBatch(r.states[k].log, x);
    forall id
      ensures |UndoneAcks(r, id, k + 1)| == |UndoneAcks(r, id, k)| + One(id in x.acked)
    {
      OneMoreUndone(r, id, k);
    }
  }

  // The log has grown by this row's record.
  ghost predicate OneMoreRecord(topics: Topics, log: seq<LogEntry>, log': seq<LogEntry>, id: RowId, env: Envelope) {
    && |log'| == |log| + 1 && log <= log' && log'[|log|].row == id && Carries(topics, env, log'[|log|].record)
  }

  lemma RecordAppended(topics: Topics, log: seq<LogEntry>, id: RowId, env: Envelope)
    requires Routable(topics, env.aggregateType)
    ensures OneMoreRecord(topics, log, log + [LogEntry(id, Encode(topics, env))], id, env)
  {
    EncodeCarries(topics, env);
  }

  // What an orphaned produce call appends, if it lands.
  ghost predicate Lands(s: State, tx: TxId, id: RowId, env: Envelope) {
    && Enabled(s, OrphanPublish(tx, true))
    && OneMoreRecord(s.topics, s.log, Apply(s, OrphanPublish(tx, true)).log, id, env)
  }

  lemma OrphanLands(s: State, tx: TxId, m: PendingMessage)
    requires tx in s.orphans && s.orphans[tx] == m && Routable(s.topics, m.envelope.aggregateType)
    ensures Lands(s, tx, m.id, m.envelope)
  {
    var log := Apply(s, OrphanPublish(tx, true)).log;
    assert log == s.log + [LogEntry(m.id, Encode(s.topics, m.envelope))];
    assert OneMoreRecord(s.topics, s.log, log, m.id, m.envelope) by {
      RecordAppended(s.topics, s.log, m.id, m.envelope);
    }
  }

  lemma LockLetGo(s: State, tx: TxId, id: RowId)
    requires Exclusive(s.relays) && tx in s.relays && id in Locks(s.relays[tx])
    ensures forall t :: t in s.relays - {tx} ==> id !in Locks((s.relays - {tx})[t])
  {
  }

  // A session lost in the middle of a produce call lets go of its row, which the next pass may claim -
  // and the call may still land, as one more copy of what the row says.
  lemma LostProduceMayLand(r: Run, k: nat)
    requires Execution(r) && k < |r.steps| && r.steps[k].RelayLost?
    ensures Moves(r, k)
    ensures var s, after, tx := r.states[k], r.states[k + 1], r.steps[k].tx;
      var id := Current(s.relays[tx]).id;
      && tx !in after.relays && id in after.rows && after.rows[id].status == Pending
      && (forall t :: t in after.relays ==> id !in Locks(after.relays[t]))
      && (Routable(s.topics, after.rows[id].envelope.aggregateType) ==> Lands(after, tx, id, after.rows[id].envelope))
  {
    Reachable(r, k);
    StepOf(r, k);
    var s, after, tx := r.states[k], r.states[k + 1], r.steps[k].tx;
    var m := Current(s.relays[tx]);
    CurrentRow(s.rows, s.log, s.relays[tx]);
    LockLetGo(s, tx, m.id);
    assert after.relays == s.relays - {tx} && after.rows == s.rows && after.orphans[tx] == m;
    if Routable(s.topics, m.envelope.aggregateType) {
      OrphanLands(after, tx, m);
    }
  }

  // ---------------------------------------------------------------- attempts

  // The one row of a stopped pass that it rescheduled.
  ghost predicate DeferredBy(x: RelayTx, id: RowId) {
    x.phase.Stopped? && 0 < x.handled <= |x.batch| && x.batch[x.handled - 1].id == id
  }

  ghost function CountDeferral(d: nat, s: State, step: Step, id: RowId): nat
    requires Enabled(s, step)
  {
    match step
    case RelayCommit(tx) => d + One(DeferredBy(s.relays[tx], id))
    case Replay(replayed) => if replayed == id then 0 else d
    case _ => d
  }

  // Committed transient failures of the row since it was inserted or last replayed.
  ghost function DeferralsAt(r: Run, id: RowId, n: nat): nat
    requires IsRun(r) && n < |r.states|
  {
    if n == 0 then 0
    else
      StepOf(r, n - 1);
      CountDeferral(DeferralsAt(r, id, n - 1), r.states[n - 1], r.steps[n - 1], id)
  }

  ghost predicate AttemptsIn(rows: map<RowId, Row>, purged: map<RowId, Row>, id: RowId, d: nat) {
    && (id in rows ==> rows[id].attempts == d)
    && (id !in rows && id !in purged ==> d == 0)
  }

  ghost predicate AttemptsAre(s: State, id: RowId, d: nat) {
    AttemptsIn(s.rows, s.purged, id, d)
  }

  lemma CommitDefers(rows: map<RowId, Row>, log: seq<LogEntry>, x: RelayTx, id: RowId)
    requires RelayOk(rows, log, x)
    ensures id in x.writes ==> id in rows && x.writes[id].attempts == rows[id].attempts + One(DeferredBy(x, id))
    ensures id !in x.writes ==> !DeferredBy(x, id)
  {
    assert x.handled > 0 ==> MarkedAt(rows, x, x.handled - 1);
    if id in x.writes {
      var i := WriteOf(rows, log, x, id);
      assert DeferredBy(x, id) <==> x.phase.Stopped? && i == x.handled - 1;
    }
  }

  lemma CommitAttempts(rows: map<RowId, Row>, purged: map<RowId, Row>, log: seq<LogEntry>, x: RelayTx, id: RowId,
                       d: nat)
    requires RelayOk(rows, log, x) && AttemptsIn(rows, purged, id, d)
    ensures AttemptsIn(rows + x.writes, purged, id, d + One(DeferredBy(x, id)))
  {
    CommitDefers(rows, log, x, id);
  }

  lemma RelayCommitDefers(s: State, step: Step, id: RowId, d: nat)
    requires Inv(s) && Enabled(s, step) && step.RelayCommit? && AttemptsAre(s, id, d)
    ensures AttemptsAre(Apply(s, step), id, CountDeferral(d, s, step, id))
  {
    assert RelayOk(s.rows, s.log, s.relays[step.tx]);
    CommitAttempts(s.rows, s.purged, s.log, s.relays[step.tx], id, d);
  }

  lemma RegCommitDefers(s: State, step: Step, id: RowId, d: nat)
    requires Inv(s) && Enabled(s, step) && step.RegCommit? && AttemptsAre(s, id, d)
    ensures AttemptsAre(Apply(s, step), id, CountDeferral(d, s, step, id))
  {
    assert RegRowsOk(s.journal, Ever(s), s.regs[step.tx]);
  }

  lemma TableDefers(s: State, step: Step, id: RowId, d: nat)
    requires Enabled(s, step) && AttemptsAre(s, id, d) && (step.PurgePage? || step.Replay?)
    ensures AttemptsAre(Apply(s, step), id, CountDeferral(d, s, step, id))
  {
    EverAfter(s, step);
  }

  lemma UnmovedDefers(s: State, step: Step, id: RowId, d: nat)
    requires Enabled(s, step) && AttemptsAre(s, id, d) && !ChangesTables(step)
    ensures AttemptsAre(Apply(s, step), id, CountDeferral(d, s, step, id))
  {
    TablesUnmoved(s, step);
  }

  lemma StepDefers(s: State, step: Step, id: RowId, d: nat)
    requires Inv(s) && Enabled(s, step) && AttemptsAre(s, id, d)
    ensures AttemptsAre(Apply(s, step), id, CountDeferral(d, s, step, id))
  {
    if step.RelayCommit? {
      RelayCommitDefers(s, step, id, d);
    } else if step.RegCommit? {
      RegCommitDefers(s, step, id, d);
    } else if ChangesTables(step) {
      TableDefers(s, step, id, d);
    } else {
      UnmovedDefers(s, step, id, d);
    }
  }

  lemma DeferralsNext(r: Run, id: RowId, n: nat)
    requires Execution(r) && n < |r.steps| && AttemptsAre(r.states[n], id, DeferralsAt(r, id, n))
    ensures AttemptsAre(r.states[n + 1], id, DeferralsAt(r, id, n + 1))
  {
    Reachable(r, n);
    StepOf(r, n);
    StepDefers(r.states[n], r.steps[n], id, DeferralsAt(r, id, n));
  }

  // `attempts` counts the row's committed transient failures, and nothing else moves it.
  lemma {:induction false} AttemptsCountDeferrals(r: Run, id: RowId, n: nat)
    requires Execution(r) && n < |r.states|
    ensures AttemptsAre(r.states[n], id, DeferralsAt(r, id, n))
  {
    if n > 0 {
      AttemptsCountDeferrals(r, id, n - 1);
      DeferralsNext(r, id, n - 1);
    }
  }

  // ---------------------------------------------------------------- parked rows

  // A pass that holds this verdict on the row: received, or already written as a mark.
  ghost predicate Blames(x: RelayTx, id: RowId, kind: ErrorClass, reason: string) {
    || (id in x.writes && x.writes[id].lastError == Some(reason)
        && x.writes[id].status == if kind == Permanent then Failed else Pending)
    || (x.handled < |x.batch| && Current(x).id == id
        && x.phase == if kind == Permanent then Refused(reason) else Deferred(reason))
  }

  // Step p is a produce call of the row, in transaction tx, that failed in this way.
  ghost predicate FailedAt(r: Run, p: nat, tx: TxId, id: RowId, kind: ErrorClass, reason: string)
    requires IsRun(r) && p < |r.steps|
  {
    StepOf(r, p);
    match r.steps[p]
    case RelayPublish(t, Error(e, _)) =>
      && t == tx && Current(r.states[p].relays[tx]).id == id && ClassOf(e) == kind && e.reason == reason
    case _ => false
  }

  lemma MarkBlamesNoMore(rows: map<RowId, Row>, log: seq<LogEntry>, x: RelayTx, mark: Mark, id: RowId,
                         kind: ErrorClass, reason: string)
    requires RelayOk(rows, log, x) && x.handled < |x.batch| && MarkFits(x.phase, mark) && kind != Unclassified
    ensures Blames(AfterMark(rows, x, mark), id, kind, reason) ==> Blames(x, id, kind, reason)
  {
    CurrentRow(rows, log, x);
  }

  lemma OwnVerdict(s: State, step: Step, tx: TxId, id: RowId, kind: ErrorClass, reason: string)
    requires Inv(s) && Enabled(s, step) && TxOf(step) == Some(tx) && tx in Apply(s, step).relays
    requires !step.RelayMark? && kind != Unclassified
    requires Blames(Apply(s, step).relays[tx], id, kind, reason)
    requires !(tx in s.relays && Blames(s.relays[tx], id, kind, reason))
    ensures step.RelayPublish? && step.outcome.Error?
    ensures ClassOf(step.outcome.error) == kind && step.outcome.error.reason == reason
    ensures Current(s.relays[tx]).id == id
  {
  }

  lemma NewVerdict(s: State, step: Step, tx: TxId, id: RowId, kind: ErrorClass, reason: string)
    requires Inv(s) && Enabled(s, step) && tx in Apply(s, step).relays && kind != Unclassified
    requires Blames(Apply(s, step).relays[tx], id, kind, reason)
    requires !(tx in s.relays && Blames(s.relays[tx], id, kind, reason))
    ensures step.RelayPublish? && step.tx == tx && step.outcome.Error?
    ensures ClassOf(step.outcome.error) == kind && step.outcome.error.reason == reason
    ensures Current(s.relays[tx]).id == id
  {
    if TxOf(step) != Some(tx) {
      OthersLeaveTxAlone(s, step, tx);
      assert false;
    } else if step.RelayMark? {
      assert RelayOk(s.rows, s.log, s.relays[tx]);
      MarkBlamesNoMore(s.rows, s.log, s.relays[tx], step.mark, id, kind, reason);
      assert false;
    } else {
      OwnVerdict(s, step, tx, id, kind, reason);
    }
  }

  lemma VerdictHere(r: Run, n: nat, tx: TxId, id: RowId, kind: ErrorClass, reason: string)
    requires Execution(r) && n < |r.steps| && tx in r.states[n + 1].relays && kind != Unclassified
    requires Blames(r.states[n + 1].relays[tx], id, kind, reason)
    requires !(tx in r.states[n].relays && Blames(r.states[n].relays[tx], id, kind, reason))
    ensures FailedAt(r, n, tx, id, kind, reason)
  {
    Reachable(r, n);
    StepOf(r, n);
    NewVerdict(r.states[n], r.steps[n], tx, id, kind, reason);
  }

  lemma {:induction false} VerdictHasCause(r: Run, n: nat, tx: TxId, id: RowId, kind: ErrorClass, reason: string)
    returns (p: nat)
    requires Execution(r) && n < |r.states| && tx in r.states[n].relays && kind != Unclassified
    requires Blames(r.states[n].relays[tx], id, kind, reason)
    ensures p < n && FailedAt(r, p, tx, id, kind, reason)
  {
    if tx in r.states[n - 1].relays && Blames(r.states[n - 1].relays[tx], id, kind, reason) {
      p := VerdictHasCause(r, n - 1, tx, id, kind, reason);
    } else {
      VerdictHere(r, n - 1, tx, id, kind, reason);
      p := n - 1;
    }
  }

  // The mark of a failed row, or of a rescheduled one, has its reason.
  lemma MarkBlames(rows: map<RowId, Row>, log: seq<LogEntry>, x: RelayTx, id: RowId)
    requires RelayOk(rows, log, x) && id in x.writes && x.writes[id].status != Published
    ensures x.writes[id].lastError.Some?
    ensures Blames(x, id, if x.writes[id].status == Failed then Permanent else Transient, x.writes[id].lastError.value)
  {
    var i := WriteOf(rows, log, x, id);
  }

  // A mark that commits a failure tells the error of a produce call in the same pass: a permanent one if
  // the row is parked, a transient one if it is rescheduled.
  lemma MarkHasCause(r: Run, c: nat, id: RowId) returns (p: nat)
    requires Execution(r) && c < |r.steps| && r.steps[c].RelayCommit? && r.steps[c].tx in r.states[c].relays
    requires id in r.states[c].relays[r.steps[c].tx].writes
    requires r.states[c].relays[r.steps[c].tx].writes[id].status != Published
    ensures p < c && Moves(r, c)
    ensures var row := r.states[c + 1].rows[id];
      && row.lastError.Some?
      && FailedAt(r, p, r.steps[c].tx, id, if row.status == Failed then Permanent else Transient, row.lastError.value)
  {
    var s, tx := r.states[c], r.steps[c].tx;
    Reachable(r, c);
    StepOf(r, c);
    assert RelayOk(s.rows, s.log, s.relays[tx]);
    var row := s.relays[tx].writes[id];
    MarkBlames(s.rows, s.log, s.relays[tx], id);
    p := VerdictHasCause(r, c, tx, id, if row.status == Failed then Permanent else Transient, row.lastError.value);
  }

  lemma NewlyParked(r: Run, n: nat, id: RowId)
    requires Execution(r) && n < |r.steps|
    requires id in r.states[n + 1].rows && r.states[n + 1].rows[id].status == Failed
    requires !(id in r.states[n].rows && r.states[n].rows[id] == r.states[n + 1].rows[id])
    ensures r.steps[n].RelayCommit? && r.steps[n].tx in r.states[n].relays
    ensures var x := r.states[n].relays[r.steps[n].tx]; id in x.writes && x.writes[id] == r.states[n + 1].rows[id]
  {
    LegalTransitions(r, n, id);
    StepOf(r, n);
  }

  // A row is parked only by a committed pass in which producing it failed permanently, with the error
  // that the row still tells: no number of transient failures does it, and a rolled-back verdict does
  // not count.
  lemma {:induction false} ParkedOnlyByPermanentError(r: Run, n: nat, id: RowId) returns (p: nat, c: nat)
    requires Execution(r) && n < |r.states|
    requires id in r.states[n].rows && r.states[n].rows[id].status == Failed
    ensures p < c < n && r.steps[c].RelayCommit? && r.states[n].rows[id].lastError.Some?
    ensures FailedAt(r, p, r.steps[c].tx, id, Permanent, r.states[n].rows[id].lastError.value)
    ensures forall m :: c < m <= n ==> id in r.states[m].rows && r.states[m].rows[id] == r.states[n].rows[id]
  {
    if id in r.states[n - 1].rows && r.states[n - 1].rows[id] == r.states[n].rows[id] {
      p, c := ParkedOnlyByPermanentError(r, n - 1, id);
    } else {
      NewlyParked(r, n - 1, id);
      c := n - 1;
      p := MarkHasCause(r, c, id);
    }
  }
}
