/**
 What the relay's own columns come to say - status, attempts, available_at, last_error,
 published_at - and when they were written: from the insert over every mark to the replay
 or the purge.
 */
module Stamps {
  import opened Wrappers
  import opened Ordering
  import opened Wire
  import opened Protocol
  import opened Invariant
  import opened Safety
  import opened Accounting
  import opened Draining

  lemma {:induction false} ClockGrows(r: Run, k: nat, n: nat)
    requires IsRun(r) && k <= n < |r.states|
    ensures r.states[k].clock <= r.states[n].clock
    decreases n
  {
    if k < n {
      ClockGrows(r, k, n - 1);
      StepOf(r, n - 1);
    }
  }

  // ---------------------------------------------------------------- a transaction's now()

  lemma RelayKeepsNow(s: State, step: Step, tx: TxId)
    requires Enabled(s, step) && tx in Apply(s, step).relays
    ensures if tx in s.relays && step != RelayBegin(tx) then Apply(s, step).relays[tx].now == s.relays[tx].now
            else step == RelayBegin(tx) && Apply(s, step).relays[tx].now == s.clock
  {
  }

  // A relay transaction's now() is the clock at its BEGIN.
  lemma {:induction false} RelayBeganAt(r: Run, n: nat, tx: TxId) returns (b: nat)
    requires Execution(r) && n < |r.states| && tx in r.states[n].relays
    ensures b < n && r.steps[b] == RelayBegin(tx) && r.states[n].relays[tx].now == r.states[b].clock
  {
    StepOf(r, n - 1);
    RelayKeepsNow(r.states[n - 1], r.steps[n - 1], tx);
    if r.steps[n - 1] == RelayBegin(tx) {
      b := n - 1;
    } else {
      b := RelayBeganAt(r, n - 1, tx);
    }
  }

  lemma RegKeepsNow(s: State, step: Step, tx: TxId)
    requires Enabled(s, step) && tx in Apply(s, step).regs
    ensures if tx in s.regs && step != RegBegin(tx) then Apply(s, step).regs[tx].now == s.regs[tx].now
            else step == RegBegin(tx) && Apply(s, step).regs[tx].now == s.clock
  {
  }

  // So is a registration's.
  lemma {:induction false} RegBeganAt(r: Run, n: nat, tx: TxId) returns (b: nat)
    requires Execution(r) && n < |r.states| && tx in r.states[n].regs
    ensures b < n && r.steps[b] == RegBegin(tx) && r.states[n].regs[tx].now == r.states[b].clock
  {
    StepOf(r, n - 1);
    RegKeepsNow(r.states[n - 1], r.steps[n - 1], tx);
    if r.steps[n - 1] == RegBegin(tx) {
      b := n - 1;
    } else {
      b := RegBeganAt(r, n - 1, tx);
    }
  }

  lemma {:induction false} NextTxGrows(r: Run, k: nat, n: nat)
    requires IsRun(r) && k <= n < |r.states|
    ensures r.states[k].nextTx <= r.states[n].nextTx
    decreases n
  {
    if k < n {
      NextTxGrows(r, k, n - 1);
      StepOf(r, n - 1);
    }
  }

  // A registration that was not begun by state m begins later, and its now() is no earlier.
  lemma RegBeganAfter(r: Run, m: nat, n: nat, tx: TxId)
    requires Execution(r) && m < |r.states| && n < |r.states| && tx in r.states[n].regs
    requires r.states[m].nextTx <= tx
    ensures r.states[m].clock <= r.states[n].regs[tx].now
  {
    var b := RegBeganAt(r, n, tx);
    StepOf(r, b);
    if b < m {
      NextTxGrows(r, b + 1, m);
    } else {
      ClockGrows(r, m, b);
    }
  }

  // ---------------------------------------------------------------- the insert

  lemma NewRegRow(s: State, step: Step, tx: TxId, id: RowId)
    requires Enabled(s, step) && tx in Apply(s, step).regs && id in Apply(s, step).regs[tx].rows
    requires !(tx in s.regs && id in s.regs[tx].rows && s.regs[tx].rows[id] == Apply(s, step).regs[tx].rows[id])
    ensures step == RegAppend(tx, Apply(s, step).regs[tx].rows[id].envelope) && id == s.nextId
  {
  }

  // A row in a transaction was inserted by one statement of it, under the next id of the sequence.
  lemma {:induction false} AppendedAt(r: Run, n: nat, tx: TxId, id: RowId) returns (a: nat)
    requires Execution(r) && n < |r.states| && tx in r.states[n].regs && id in r.states[n].regs[tx].rows
    ensures a < n && r.steps[a] == RegAppend(tx, r.states[n].regs[tx].rows[id].envelope) && id == r.states[a].nextId
  {
    StepOf(r, n - 1);
    var rows := if tx in r.states[n - 1].regs then r.states[n - 1].regs[tx].rows else map[];
    if id in rows && rows[id] == r.states[n].regs[tx].rows[id] {
      a := AppendedAt(r, n - 1, tx, id);
    } else {
      NewRegRow(r.states[n - 1], r.steps[n - 1], tx, id);
      a := n - 1;
    }
  }

  // A row comes into the table pending, never tried, and available since its transaction began.
  lemma InsertedFresh(r: Run, n: nat, id: RowId) returns (b: nat, a: nat, c: nat, env: Envelope)
    requires Execution(r) && n < |r.states| && id in Ever(r.states[n])
    ensures b < c < n && a < c && Born(r, c, id)
    ensures var tx := r.steps[c].tx;
            r.steps[b] == RegBegin(tx) && r.steps[a] == RegAppend(tx, env) && id == r.states[a].nextId
    ensures id in r.states[c + 1].rows && EverRow(r.states[n], id).envelope == env
    ensures r.states[c + 1].rows[id] == Row(env, Pending, 0, r.states[b].clock, None, None)
  {
    c := EveryRowWasBorn(r, n, id);
    StepOf(r, c);
    Reachable(r, c);
    Reachable(r, n);
    RunGrows(r, c, n);
    var s, tx := r.states[c], r.steps[c].tx;
    assert RegRowsOk(s.journal, Ever(s), s.regs[tx]);
    env := s.regs[tx].rows[id].envelope;
    b := RegBeganAt(r, c, tx);
    a := AppendedAt(r, c, tx, id);
  }

  // ---------------------------------------------------------------- the marks

  // What a pass commits, column by column: an acknowledged row is published and stamped with the pass's
  // now(), and its last error is gone; a parked or rescheduled one tells its error; no other is touched.
  ghost predicate MarksCommitted(rows: map<RowId, Row>, rows': map<RowId, Row>, x: RelayTx, id: RowId)
    requires id in rows && id in rows'
  {
    var row, row' := rows[id], rows'[id];
    if id in x.acked then
      row' == Row(row.envelope, Published, row.attempts, row.availableAt, None, Some(x.now))
    else if id !in x.writes then row' == row
    else
      && row'.lastError.Some?
      && (|| row' == Row(row.envelope, Failed, row.attempts, row.availableAt, row'.lastError, row.publishedAt)
          || row' == Row(row.envelope, Pending, row.attempts + 1, row'.availableAt, row'.lastError, row.publishedAt))
  }

  lemma CommitWrites(rows: map<RowId, Row>, log: seq<LogEntry>, x: RelayTx, id: RowId)
    requires RelayOk(rows, log, x) && MayCommit(x) && id in rows
    ensures MarksCommitted(rows, rows + x.writes, x, id)
  {
    if id in x.acked {
      AckedIsMarked(rows, log, x, id);
    }
    if id in x.writes {
      var i := WriteOf(rows, log, x, id);
    }
  }

  lemma CommitStamps(r: Run, c: nat, id: RowId)
    requires Execution(r) && c < |r.steps| && r.steps[c].RelayCommit?
    ensures Moves(r, c)
    ensures var before, after := r.states[c], r.states[c + 1];
            var x := before.relays[r.steps[c].tx];
            && (id in x.acked || id in x.writes ==> id in before.rows) && (id in before.rows <==> id in after.rows)
            && (id in before.rows ==> MarksCommitted(before.rows, after.rows, x, id))
  {
    Reachable(r, c);
    StepOf(r, c);
    var s, tx := r.states[c], r.steps[c].tx;
    var x := s.relays[tx];
    assert RelayOk(s.rows, s.log, x);
    CommittedRelays(s.rows, s.log, s.relays, tx);
    if id in x.acked {
      AckedIsMarked(s.rows, s.log, x, id);
    }
    if id in x.writes {
      WritesAreLocked(s.rows, x, id);
    }
    if id in s.rows {
      CommitWrites(s.rows, s.log, x, id);
    }
  }

  lemma NewlyPublished(r: Run, n: nat, id: RowId)
    requires Execution(r) && n < |r.steps|
    requires id in r.states[n + 1].rows && r.states[n + 1].rows[id].status == Published
    requires !(id in r.states[n].rows && r.states[n].rows[id] == r.states[n + 1].rows[id])
    ensures r.steps[n].RelayCommit? && r.steps[n].tx in r.states[n].relays
    ensures var x := r.states[n].relays[r.steps[n].tx];
            id in x.acked && r.states[n + 1].rows[id].publishedAt == Some(x.now)
    ensures r.states[n + 1].rows[id].lastError == None
  {
    LegalTransitions(r, n, id);
    StepOf(r, n);
    CommitStamps(r, n, id);
  }

  // A published row was published by the commit of a pass that had its ack, and says when that pass
  // began; it has not changed since, and its last error is gone.
  lemma {:induction false} PublishedWhen(r: Run, n: nat, id: RowId) returns (b: nat, c: nat)
    requires Execution(r) && n < |r.states| && id in r.states[n].rows && r.states[n].rows[id].status == Published
    ensures b < c < n && r.steps[c].RelayCommit? && r.steps[b] == RelayBegin(r.steps[c].tx)
    ensures r.steps[c].tx in r.states[c].relays && id in r.states[c].relays[r.steps[c].tx].acked
    ensures r.states[n].rows[id].publishedAt == Some(r.states[b].clock) && r.states[n].rows[id].lastError == None
    ensures forall m :: c < m <= n ==> id in r.states[m].rows && r.states[m].rows[id] == r.states[n].rows[id]
  {
    if id in r.states[n - 1].rows && r.states[n - 1].rows[id] == r.states[n].rows[id] {
      b, c := PublishedWhen(r, n - 1, id);
    } else {
      NewlyPublished(r, n - 1, id);
      c := n - 1;
      b := RelayBeganAt(r, c, r.steps[c].tx);
    }
  }

  // ---------------------------------------------------------------- retention

  // A purge may delete a published row exactly when its retention is over.
  lemma DeletableExactly(r: Run, n: nat, id: RowId, retention: nat)
    requires Execution(r) && n < |r.states| && id in r.states[n].rows
    ensures var s := r.states[n];
      Enabled(s, PurgePage({id}, s.clock - retention))
      <==> && s.rows[id].status == Published && s.rows[id].publishedAt.Some?
           && s.rows[id].publishedAt.value + retention < s.clock
  {
  }

  // Step j puts this row back.
  ghost predicate ReplaysAt(r: Run, j: nat, id: RowId)
    requires j < |r.steps|
  {
    r.steps[j] == Replay(id)
  }

  // Between the two moments a human puts the row back.
  ghost predicate ReplayedBetween(r: Run, k: nat, n: nat, id: RowId)
    requires n <= |r.steps|
  {
    exists j :: k <= j < n && ReplaysAt(r, j, id)
  }

  lemma PublishedStays(r: Run, n: nat, id: RowId)
    requires Execution(r) && n < |r.steps| && id in r.states[n].rows && r.states[n].rows[id].status == Published
    requires r.steps[n] != Replay(id)
    ensures if id in r.states[n + 1].rows then r.states[n + 1].rows[id] == r.states[n].rows[id]
            else r.steps[n].PurgePage? && id in r.states[n + 1].purged
  {
    LegalTransitions(r, n, id);
    StepOf(r, n);
  }

  lemma PurgedGrows(s: State, step: Step)
    requires Enabled(s, step)
    ensures s.purged.Keys <= Apply(s, step).purged.Keys
  {
    if !ChangesTables(step) {
      TablesUnmoved(s, step);
    }
  }

  lemma PurgedStays(r: Run, n: nat, id: RowId)
    requires Execution(r) && n < |r.steps| && id in r.states[n].purged
    ensures id in r.states[n + 1].purged && id !in r.states[n + 1].rows
  {
    Reachable(r, n + 1);
    StepOf(r, n);
    PurgedGrows(r.states[n], r.steps[n]);
  }

  // From then on it stands as it was published until it is purged, unless a human puts it back.
  lemma {:induction false} StandsOrPurged(r: Run, k: nat, n: nat, id: RowId)
    requires Execution(r) && k <= n < |r.states|
    requires id in r.states[k].rows && r.states[k].rows[id].status == Published && !ReplayedBetween(r, k, n, id)
    ensures || (id in r.states[n].rows && r.states[n].rows[id] == r.states[k].rows[id])
            || (id !in r.states[n].rows && id in r.states[n].purged)
    decreases n
  {
    if k < n {
      assert !ReplaysAt(r, n - 1, id);
      StandsOrPurged(r, k, n - 1, id);
      if id in r.states[n - 1].rows {
        PublishedStays(r, n - 1, id);
      } else {
        PurgedStays(r, n - 1, id);
      }
    }
  }

  // So every published row becomes deletable: once the retention has passed since its pass began, it is
  // gone already, or was put back, or the next purge may take it.
  lemma DeletableOnceRetained(r: Run, k: nat, n: nat, id: RowId, retention: nat)
    requires Execution(r) && k <= n < |r.states|
    requires id in r.states[k].rows && r.states[k].rows[id].status == Published
    ensures r.states[k].rows[id].publishedAt.Some? && r.states[k].rows[id].publishedAt.value <= r.states[k].clock
    ensures r.states[k].rows[id].publishedAt.value + retention < r.states[n].clock ==>
      || ReplayedBetween(r, k, n, id) || (id !in r.states[n].rows && id in r.states[n].purged)
      || Enabled(r.states[n], PurgePage({id}, r.states[n].clock - retention))
  {
    var b, c := PublishedWhen(r, k, id);
    ClockGrows(r, b, k);
    if !ReplayedBetween(r, k, n, id) {
      StandsOrPurged(r, k, n, id);
    }
  }

  // ---------------------------------------------------------------- the replay

  // A row put back is as untried as a new one, keeps its content and its id, and may be claimed by the
  // next pass that begins; nothing else changes.
  lemma ReplayedIsClaimable(r: Run, k: nat, id: RowId)
    requires Execution(r) && k < |r.steps| && r.steps[k] == Replay(id)
    ensures Moves(r, k)
    ensures var before, after := r.states[k], r.states[k + 1];
      && id in before.rows
      && after == before.(rows := before.rows[id := Row(before.rows[id].envelope, Pending, 0, before.clock, None,
                                                        before.rows[id].publishedAt)])
      && (var begun := Apply(after, RelayBegin(after.nextTx)); id in Claimable(begun, after.nextTx))
  {
    StepOf(r, k);
  }
}
