/** What every step of the protocol keeps, and hence what holds in every reachable state. */
module Invariant {
  import opened Wrappers
  import opened Ordering
  import opened Wire
  import opened Protocol

  // ---------------------------------------------------------------- the tables

  // Ids come from a sequence that no rollback returns to; an event id is minted once.
  ghost predicate JournalOk(nextId: RowId, journal: map<RowId, Envelope>) {
    && (forall id :: id in journal ==> id < nextId)
    && (forall a, b :: a in journal && b in journal && journal[a].eventId == journal[b].eventId ==> a == b)
  }

  // A row's content is the one it was inserted with, wherever the row is now.
  ghost predicate Recorded(journal: map<RowId, Envelope>, rows: map<RowId, Row>) {
    forall id :: id in rows ==> id in journal && rows[id].envelope == journal[id]
  }

  ghost predicate Injective(users: map<Uuid, Email>) {
    forall u, v :: u in users && v in users && users[u] == users[v] ==> u == v
  }

  ghost predicate UsersApart(a: map<Uuid, Email>, b: map<Uuid, Email>) {
    forall u, v :: u in a && v in b ==> u != v && a[u] != b[v]
  }

  // ---------------------------------------------------------------- one registration transaction

  ghost predicate RegRowsOk(journal: map<RowId, Envelope>, ever: set<RowId>, reg: RegTx) {
    && Recorded(journal, reg.rows)
    && reg.rows.Keys !! ever
    && (forall id :: id in reg.rows ==> reg.rows[id] == FreshRow(reg.rows[id].envelope, reg.now))
  }

  ghost predicate RegUsersOk(users: map<Uuid, Email>, reg: RegTx) {
    Injective(reg.users) && UsersApart(reg.users, users)
  }

  ghost predicate Apart(a: RegTx, b: RegTx) {
    a.rows.Keys !! b.rows.Keys && UsersApart(a.users, b.users)
  }

  ghost predicate RegsOk(journal: map<RowId, Envelope>, users: map<Uuid, Email>, ever: set<RowId>,
                         regs: map<TxId, RegTx>)
  {
    && (forall t :: t in regs ==> RegRowsOk(journal, ever, regs[t]) && RegUsersOk(users, regs[t]))
    && (forall t, u :: t in regs && u in regs && t != u ==> Apart(regs[t], regs[u]))
  }

  // ---------------------------------------------------------------- the log

  ghost predicate Logged(log: seq<LogEntry>, id: RowId) {
    exists j :: 0 <= j < |log| && log[j].row == id
  }

  ghost predicate EntryOk(topics: Topics, journal: map<RowId, Envelope>, ever: set<RowId>, e: LogEntry) {
    && e.row in ever && e.row in journal
    && Routable(topics, journal[e.row].aggregateType)
    && e.record == Encode(topics, journal[e.row])
  }

  ghost predicate LogOk(topics: Topics, journal: map<RowId, Envelope>, ever: set<RowId>, log: seq<LogEntry>) {
    forall j :: 0 <= j < |log| ==> EntryOk(topics, journal, ever, log[j])
  }

  ghost predicate PublishedLogged(rows: map<RowId, Row>, log: seq<LogEntry>) {
    forall id :: id in rows && rows[id].status == Published ==> Logged(log, id)
  }

  ghost predicate PurgedLogged(purged: map<RowId, Row>, log: seq<LogEntry>) {
    forall id :: id in purged ==> purged[id].status == Published && Logged(log, id)
  }

  // ---------------------------------------------------------------- one relay transaction

  // A claimed row is still the pending row that was claimed: its lock keeps everyone off it.
  ghost predicate BatchOk(rows: map<RowId, Row>, x: RelayTx) {
    && |x.batch| <= x.limit
    && (forall i, j :: 0 <= i < j < |x.batch| ==> x.batch[i].id < x.batch[j].id)
    && (forall i :: 0 <= i < |x.batch| ==>
          var m := x.batch[i];
          m.id in rows && Due(rows[m.id], x.now)
          && rows[m.id].envelope == m.envelope && rows[m.id].attempts == m.attempts)
  }

  // How a mark differs from the committed row under it, column by column.
  ghost predicate WriteOk(row: Row, write: Row, acked: bool, now: Instant) {
    && (write.status == Published <==> acked)
    && match write.status
       case Published => write == Row(row.envelope, Published, row.attempts, row.availableAt, None, Some(now))
       case Failed =>
         && write == Row(row.envelope, Failed, row.attempts, row.availableAt, write.lastError, row.publishedAt)
         && write.lastError.Some?
       case Pending =>
         && write == Row(row.envelope, Pending, row.attempts + 1, write.availableAt, write.lastError, row.publishedAt)
         && write.lastError.Some?
  }

  ghost predicate Done(x: RelayTx, id: RowId) {
    exists i :: 0 <= i < x.handled && i < |x.batch| && x.batch[i].id == id
  }

  ghost predicate MarkedAt(rows: map<RowId, Row>, x: RelayTx, i: nat)
    requires i < |x.batch|
  {
    var id := x.batch[i].id;
    && id in x.writes && id in rows
    && WriteOk(rows[id], x.writes[id], id in x.acked, x.now)
    && (x.writes[id].status == Pending <==> x.phase.Stopped? && i == x.handled - 1)
  }

  // The marks made so far are exactly those of the first `handled` rows of the batch.
  ghost predicate MarksOk(rows: map<RowId, Row>, x: RelayTx) {
    && x.handled <= |x.batch|
    && (forall id {:trigger Done(x, id)} :: id in x.writes ==> Done(x, id))
    && (forall i :: 0 <= i < x.handled ==> MarkedAt(rows, x, i))
  }

  ghost predicate PhaseOk(x: RelayTx) {
    && (x.phase.Begun? ==> x.batch == [])
    && (x.phase.Acked? || x.phase.Refused? || x.phase.Deferred? ==> x.handled < |x.batch|)
    && (x.phase.Stopped? ==> x.handled > 0)
    && (x.handled < |x.batch| ==> (x.batch[x.handled].id in x.acked <==> x.phase.Acked?))
    && (forall i :: x.handled < i < |x.batch| ==> x.batch[i].id !in x.acked)
  }

  ghost predicate AckedOk(log: seq<LogEntry>, x: RelayTx) {
    forall id :: id in x.acked ==>
      Logged(log, id) && exists i :: 0 <= i < |x.batch| && x.batch[i].id == id
  }

  ghost predicate RelayOk(rows: map<RowId, Row>, log: seq<LogEntry>, x: RelayTx) {
    BatchOk(rows, x) && MarksOk(rows, x) && PhaseOk(x) && AckedOk(log, x)
  }

  ghost predicate RelaysOk(rows: map<RowId, Row>, log: seq<LogEntry>, relays: map<TxId, RelayTx>) {
    forall t :: t in relays ==> RelayOk(rows, log, relays[t])
  }

  // Mutual exclusion: no row is locked by two open relay transactions.
  ghost predicate Exclusive(relays: map<TxId, RelayTx>) {
    forall t, u :: t in relays && u in relays && t != u ==> Locks(relays[t]) !! Locks(relays[u])
  }

  // What an orphan still produces is a committed row's content.
  ghost predicate OrphansOk(journal: map<RowId, Envelope>, ever: set<RowId>, orphans: map<TxId, PendingMessage>) {
    forall t :: t in orphans ==>
      orphans[t].id in ever && orphans[t].id in journal && orphans[t].envelope == journal[orphans[t].id]
  }

  ghost predicate TxIdsOk(nextTx: TxId, clock: Instant, regs: map<TxId, RegTx>, relays: map<TxId, RelayTx>) {
    && (forall t :: t in regs ==> t < nextTx && t !in relays)
    && (forall t :: t in relays ==> t < nextTx && relays[t].now <= clock)
  }

  ghost predicate Inv(s: State) {
    && TxIdsOk(s.nextTx, s.clock, s.regs, s.relays)
    && JournalOk(s.nextId, s.journal)
    && Recorded(s.journal, s.rows)
    && Recorded(s.journal, s.purged)
    && s.rows.Keys !! s.purged.Keys
    && Injective(s.users)
    && RegsOk(s.journal, s.users, Ever(s), s.regs)
    && LogOk(s.topics, s.journal, Ever(s), s.log)
    && PublishedLogged(s.rows, s.log)
    && PurgedLogged(s.purged, s.log)
    && RelaysOk(s.rows, s.log, s.relays)
    && Exclusive(s.relays)
    && OrphansOk(s.journal, Ever(s), s.orphans)
  }

  lemma InitialInv(s: State)
    requires Initial(s)
    ensures Inv(s)
  {
  }

  // ---------------------------------------------------------------- registration steps

  lemma PutReg(journal: map<RowId, Envelope>, journal': map<RowId, Envelope>, users: map<Uuid, Email>,
               ever: set<RowId>, regs: map<TxId, RegTx>, tx: TxId, reg: RegTx)
    requires RegsOk(journal, users, ever, regs)
    requires forall id :: id in journal ==> id in journal' && journal'[id] == journal[id]
    requires RegRowsOk(journal', ever, reg) && RegUsersOk(users, reg)
    requires forall t :: t in regs && t != tx ==> Apart(reg, regs[t])
    ensures RegsOk(journal', users, ever, regs[tx := reg])
  {
  }

  lemma PutRegId(nextTx: TxId, next: TxId, clock: Instant, regs: map<TxId, RegTx>, relays: map<TxId, RelayTx>,
                 tx: TxId, reg: RegTx)
    requires TxIdsOk(nextTx, clock, regs, relays) && tx < next && nextTx <= next && tx !in relays
    ensures TxIdsOk(next, clock, regs[tx := reg], relays)
  {
  }

  // Replacing a transaction's record is safe when the new record is.
  lemma ReplaceReg(s: State, tx: TxId, reg: RegTx)
    requires Inv(s) && tx in s.regs
    requires RegRowsOk(s.journal, Ever(s), reg) && RegUsersOk(s.users, reg)
    requires forall t :: t in s.regs && t != tx ==> Apart(reg, s.regs[t])
    ensures Inv(s.(regs := s.regs[tx := reg]))
  {
    SameEver(s, s.(regs := s.regs[tx := reg]));
    PutReg(s.journal, s.journal, s.users, Ever(s), s.regs, tx, reg);
    PutRegId(s.nextTx, s.nextTx, s.clock, s.regs, s.relays, tx, reg);
  }

  lemma EmptyReg(journal: map<RowId, Envelope>, users: map<Uuid, Email>, ever: set<RowId>,
                 regs: map<TxId, RegTx>, now: Instant)
    ensures RegRowsOk(journal, ever, RegTx(now, map[], map[])) && RegUsersOk(users, RegTx(now, map[], map[]))
    ensures forall t :: t in regs ==> Apart(RegTx(now, map[], map[]), regs[t])
  {
  }

  lemma RegBeginKeepsInv(s: State, step: Step)
    requires Inv(s) && Enabled(s, step) && step.RegBegin?
    ensures Inv(Apply(s, step))
  {
    var tx := step.tx;
    var reg, s' := RegTx(s.clock, map[], map[]), Apply(s, step);
    SameEver(s, s');
    EmptyReg(s.journal, s.users, Ever(s), s.regs, s.clock);
    PutReg(s.journal, s.journal, s.users, Ever(s), s.regs, tx, reg);
    PutRegId(s.nextTx, s'.nextTx, s.clock, s.regs, s.relays, tx, reg);
  }

  lemma DropReg(s: State, tx: TxId)
    requires Inv(s) && tx in s.regs
    ensures Inv(s.(regs := s.regs - {tx}))
  {
    var s' := s.(regs := s.regs - {tx});
    SameEver(s, s');
  }

  lemma UserApart(a: RegTx, b: RegTx, user: Uuid, email: Email)
    requires Apart(a, b) && Accepts(b.users, user, email)
    ensures Apart(a.(users := a.users[user := email]), b)
  {
  }

  lemma InsertUserKeepsInv(s: State, step: Step)
    requires Inv(s) && Enabled(s, step) && step.RegInsertUser?
    ensures Inv(Apply(s, step))
  {
    var tx, user, email := step.tx, step.user, step.email;
    var reg := s.regs[tx];
    var reg' := reg.(users := reg.users[user := email]);
    assert RegRowsOk(s.journal, Ever(s), reg) && RegUsersOk(s.users, reg);
    forall t | t in s.regs && t != tx
      ensures Apart(reg', s.regs[t])
    {
      assert Apart(reg, s.regs[t]);
      UserApart(reg, s.regs[t], user, email);
    }
    ReplaceReg(s, tx, reg');
  }

  lemma GrowReg(journal: map<RowId, Envelope>, ever: set<RowId>, reg: RegTx, id: RowId, env: Envelope)
    requires RegRowsOk(journal, ever, reg)
    requires id !in journal && id !in ever
    ensures RegRowsOk(journal[id := env], ever, reg.(rows := reg.rows[id := FreshRow(env, reg.now)]))
  {
  }

  // A row under an id nobody has used keeps the transaction apart from the others.
  lemma RowApart(journal: map<RowId, Envelope>, a: RegTx, b: RegTx, id: RowId, row: Row)
    requires Apart(a, b) && Recorded(journal, b.rows) && id !in journal
    ensures Apart(a.(rows := a.rows[id := row]), b)
  {
  }

  lemma JournalGrows(journal: map<RowId, Envelope>, id: RowId, env: Envelope)
    requires JournalOk(id, journal) && forall r :: r in journal ==> journal[r].eventId != env.eventId
    ensures JournalOk(id + 1, journal[id := env])
  {
  }

  lemma LogKept(topics: Topics, journal: map<RowId, Envelope>, id: RowId, env: Envelope,
                ever: set<RowId>, log: seq<LogEntry>)
    requires LogOk(topics, journal, ever, log) && id !in journal
    ensures LogOk(topics, journal[id := env], ever, log)
  {
    forall j | 0 <= j < |log|
      ensures EntryOk(topics, journal[id := env], ever, log[j])
    {
      assert EntryOk(topics, journal, ever, log[j]);
    }
  }

  lemma RecordedKept(journal: map<RowId, Envelope>, id: RowId, env: Envelope, rows: map<RowId, Row>)
    requires Recorded(journal, rows) && id !in journal
    ensures Recorded(journal[id := env], rows)
  {
  }

  lemma AppendRegs(s: State, tx: TxId, env: Envelope)
    requires Inv(s) && Enabled(s, RegAppend(tx, env))
    ensures var s' := Apply(s, RegAppend(tx, env)); RegsOk(s'.journal, s.users, Ever(s), s'.regs)
  {
    var reg, id := s.regs[tx], s.nextId;
    var row := FreshRow(env, reg.now);
    assert RegRowsOk(s.journal, Ever(s), reg) && RegUsersOk(s.users, reg);
    GrowReg(s.journal, Ever(s), reg, id, env);
    forall t | t in s.regs && t != tx
      ensures Apart(reg.(rows := reg.rows[id := row]), s.regs[t])
    {
      assert Apart(reg, s.regs[t]) && RegRowsOk(s.journal, Ever(s), s.regs[t]);
      RowApart(s.journal, reg, s.regs[t], id, row);
    }
    PutReg(s.journal, s.journal[id := env], s.users, Ever(s), s.regs, tx, reg.(rows := reg.rows[id := row]));
  }

  lemma AppendKeepsInv(s: State, step: Step)
    requires Inv(s) && Enabled(s, step) && step.RegAppend?
    ensures Inv(Apply(s, step))
  {
    var tx, env := step.tx, step.envelope;
    var s' := Apply(s, step);
    SameEver(s, s');
    AppendRegs(s, tx, env);
    PutRegId(s.nextTx, s.nextTx, s.clock, s.regs, s.relays, tx, s'.regs[tx]);
    JournalGrows(s.journal, s.nextId, env);
    RecordedKept(s.journal, s.nextId, env, s.rows);
    RecordedKept(s.journal, s.nextId, env, s.purged);
    LogKept(s.topics, s.journal, s.nextId, env, Ever(s), s.log);
  }

  lemma MergeUsers(users: map<Uuid, Email>, more: map<Uuid, Email>)
    requires Injective(users) && Injective(more) && UsersApart(more, users)
    ensures Injective(users + more)
  {
  }

  lemma MergeRegs(journal: map<RowId, Envelope>, users: map<Uuid, Email>, ever: set<RowId>,
                  regs: map<TxId, RegTx>, tx: TxId)
    requires RegsOk(journal, users, ever, regs) && tx in regs
    ensures RegsOk(journal, users + regs[tx].users, ever + regs[tx].rows.Keys, regs - {tx})
  {
    forall t | t in regs - {tx}
      ensures RegRowsOk(journal, ever + regs[tx].rows.Keys, regs[t])
      ensures RegUsersOk(users + regs[tx].users, regs[t])
    {
      assert Apart(regs[t], regs[tx]);
    }
  }

  lemma LoggedGrows(log: seq<LogEntry>, log': seq<LogEntry>, id: RowId)
    requires Logged(log, id) && log <= log'
    ensures Logged(log', id)
  {
    var j :| 0 <= j < |log| && log[j].row == id;
    assert log'[j].row == id;
  }

  // A relay transaction does not notice a change to rows it has not locked, nor a longer log.
  lemma RelayFrame(rows: map<RowId, Row>, rows': map<RowId, Row>, log: seq<LogEntry>, log': seq<LogEntry>, x: RelayTx)
    requires RelayOk(rows, log, x)
    requires forall i :: 0 <= i < |x.batch| ==> x.batch[i].id in rows' && rows'[x.batch[i].id] == rows[x.batch[i].id]
    requires log <= log'
    ensures RelayOk(rows', log', x)
  {
    forall i | 0 <= i < x.handled
      ensures MarkedAt(rows', x, i)
    {
      assert MarkedAt(rows, x, i);
    }
    forall id | id in x.acked
      ensures Logged(log', id)
    {
      LoggedGrows(log, log', id);
    }
  }

  // In particular a change to rows that are not pending is invisible to every claim.
  lemma RelaysFrame(rows: map<RowId, Row>, rows': map<RowId, Row>, log: seq<LogEntry>, log': seq<LogEntry>,
                    relays: map<TxId, RelayTx>)
    requires RelaysOk(rows, log, relays) && log <= log'
    requires forall id :: id in rows && rows[id].status == Pending ==> id in rows' && rows'[id] == rows[id]
    ensures RelaysOk(rows', log', relays)
  {
    forall t | t in relays
      ensures RelayOk(rows', log', relays[t])
    {
      RelayFrame(rows, rows', log, log', relays[t]);
    }
  }

  // Rows that become visible are pending, and new to the table and to every claim.
  lemma MergeRows(topics: Topics, journal: map<RowId, Envelope>, rows: map<RowId, Row>, purged: map<RowId, Row>,
                  log: seq<LogEntry>, relays: map<TxId, RelayTx>, reg: RegTx)
    requires Recorded(journal, rows) && rows.Keys !! purged.Keys
    requires RegRowsOk(journal, rows.Keys + purged.Keys, reg)
    requires LogOk(topics, journal, rows.Keys + purged.Keys, log) && PublishedLogged(rows, log)
    requires RelaysOk(rows, log, relays)
    ensures var rows' := rows + reg.rows;
            && Recorded(journal, rows') && rows'.Keys !! purged.Keys
            && LogOk(topics, journal, rows'.Keys + purged.Keys, log) && PublishedLogged(rows', log)
            && RelaysOk(rows', log, relays)
  {
    RelaysFrame(rows, rows + reg.rows, log, log, relays);
  }

  lemma RegCommitKeepsInv(s: State, step: Step)
    requires Inv(s) && Enabled(s, step) && step.RegCommit?
    ensures Inv(Apply(s, step))
  {
    var tx := step.tx;
    var reg := s.regs[tx];
    assert RegRowsOk(s.journal, Ever(s), reg) && RegUsersOk(s.users, reg);
    EverAfter(s, step);
    MergeUsers(s.users, reg.users);
    MergeRegs(s.journal, s.users, Ever(s), s.regs, tx);
    MergeRows(s.topics, s.journal, s.rows, s.purged, s.log, s.relays, reg);
  }

  // ---------------------------------------------------------------- relay steps

  lemma PutRelay(rows: map<RowId, Row>, log: seq<LogEntry>, log': seq<LogEntry>, relays: map<TxId, RelayTx>,
                 tx: TxId, x: RelayTx)
    requires RelaysOk(rows, log, relays) && Exclusive(relays) && log <= log'
    requires RelayOk(rows, log', x)
    requires forall t :: t in relays && t != tx ==> Locks(x) !! Locks(relays[t])
    ensures RelaysOk(rows, log', relays[tx := x])
    ensures Exclusive(relays[tx := x])
  {
    RelaysFrame(rows, rows, log, log', relays);
  }

  lemma PutRelayId(nextTx: TxId, next: TxId, clock: Instant, regs: map<TxId, RegTx>, relays: map<TxId, RelayTx>,
                   tx: TxId, x: RelayTx)
    requires TxIdsOk(nextTx, clock, regs, relays) && tx < next && nextTx <= next && tx !in regs && x.now <= clock
    ensures TxIdsOk(next, clock, regs, relays[tx := x])
  {
  }

  lemma ReplaceRelay(s: State, tx: TxId, x: RelayTx)
    requires Inv(s) && tx in s.relays && x.now <= s.clock
    requires RelayOk(s.rows, s.log, x)
    requires forall t :: t in s.relays && t != tx ==> Locks(x) !! Locks(s.relays[t])
    ensures Inv(s.(relays := s.relays[tx := x]))
  {
    SameEver(s, s.(relays := s.relays[tx := x]));
    PutRelay(s.rows, s.log, s.log, s.relays, tx, x);
    PutRelayId(s.nextTx, s.nextTx, s.clock, s.regs, s.relays, tx, x);
  }

  lemma EmptyRelay(rows: map<RowId, Row>, log: seq<LogEntry>, x: RelayTx)
    requires x == RelayTx(x.now, 0, [], 0, Begun, map[], {})
    ensures RelayOk(rows, log, x) && Locks(x) == {}
  {
  }

  lemma RelayBeginKeepsInv(s: State, step: Step)
    requires Inv(s) && Enabled(s, step) && step.RelayBegin?
    ensures Inv(Apply(s, step))
  {
    var tx := step.tx;
    var x, s' := RelayTx(s.clock, 0, [], 0, Begun, map[], {}), Apply(s, step);
    SameEver(s, s');
    EmptyRelay(s.rows, s.log, x);
    PutRelay(s.rows, s.log, s.log, s.relays, tx, x);
    PutRelayId(s.nextTx, s'.nextTx, s.clock, s.regs, s.relays, tx, x);
  }

  lemma DropRelay(s: State, tx: TxId)
    requires Inv(s) && tx in s.relays
    ensures Inv(s.(relays := s.relays - {tx}))
  {
    var s' := s.(relays := s.relays - {tx});
    SameEver(s, s');
  }

  // A pass that has not claimed yet has acknowledged and marked nothing.
  lemma BegunIsEmpty(rows: map<RowId, Row>, log: seq<LogEntry>, x: RelayTx)
    requires RelayOk(rows, log, x) && x.phase.Begun?
    ensures x.handled == 0 && x.writes == map[] && x.acked == {}
  {
    forall id: RowId
      ensures id !in x.writes && id !in x.acked
    {
      assert id in x.writes ==> Done(x, id);
    }
  }

  lemma ClaimedOk(s: State, tx: TxId, limit: nat, ids: seq<RowId>)
    requires tx in s.relays && RelayOk(s.rows, s.log, s.relays[tx])
    requires Enabled(s, RelayClaim(tx, limit, ids))
    ensures RelayOk(s.rows, s.log, AfterClaim(s, tx, limit, ids))
    ensures forall t :: t in s.relays && t != tx ==> Locks(AfterClaim(s, tx, limit, ids)) !! Locks(s.relays[t])
  {
    var x, x' := s.relays[tx], AfterClaim(s, tx, limit, ids);
    BegunIsEmpty(s.rows, s.log, x);
    forall t, id | t in s.relays && t != tx && id in Locks(x')
      ensures id !in Locks(s.relays[t])
    {
      assert id in ids;
    }
  }

  lemma ClaimKeepsInv(s: State, step: Step)
    requires Inv(s) && Enabled(s, step) && step.RelayClaim?
    ensures Inv(Apply(s, step))
  {
    var tx, limit, ids := step.tx, step.limit, step.ids;
    ClaimedOk(s, tx, limit, ids);
    ReplaceRelay(s, tx, AfterClaim(s, tx, limit, ids));
  }

  // The row a pass is about to produce or mark is committed, pending, locked by the pass and
  // not yet marked: so the UPDATEs need no status guard, and touch exactly one row.
  lemma CurrentRow(rows: map<RowId, Row>, log: seq<LogEntry>, x: RelayTx)
    requires RelayOk(rows, log, x) && x.handled < |x.batch|
    ensures var m := Current(x);
            m.id in rows && rows[m.id].status == Pending && m.envelope == rows[m.id].envelope
            && m.id !in x.writes && m.id in Locks(x)
            && Visible(rows, x, m.id) && View(rows, x, m.id) == rows[m.id]
  {
    assert x.batch[x.handled] in x.batch;
    assert Current(x).id in x.writes ==> Done(x, Current(x).id);
  }

  lemma PublishedOk(rows: map<RowId, Row>, log: seq<LogEntry>, log': seq<LogEntry>, x: RelayTx, outcome: Outcome)
    requires RelayOk(rows, log, x) && x.phase.Ready? && x.handled < |x.batch|
    requires log <= log' && (outcome.Ack? ==> Logged(log', Current(x).id))
    ensures RelayOk(rows, log', AfterPublish(x, outcome))
  {
    RelayFrame(rows, rows, log, log', x);
    var x' := AfterPublish(x, outcome);
    assert BatchOk(rows, x') && PhaseOk(x');
    forall i | 0 <= i < x.handled
      ensures MarkedAt(rows, x', i)
    {
      assert MarkedAt(rows, x, i);
    }
    forall id | id in x'.writes
      ensures Done(x', id)
    {
      assert Done(x, id);
    }
    assert AckedOk(log', x') by {
      assert x.batch[x.handled].id == Current(x).id;
    }
  }

  lemma AppendEntry(topics: Topics, journal: map<RowId, Envelope>, ever: set<RowId>,
                    rows: map<RowId, Row>, purged: map<RowId, Row>, log: seq<LogEntry>, e: LogEntry)
    requires LogOk(topics, journal, ever, log) && PublishedLogged(rows, log) && PurgedLogged(purged, log)
    requires EntryOk(topics, journal, ever, e)
    ensures LogOk(topics, journal, ever, log + [e])
    ensures PublishedLogged(rows, log + [e]) && PurgedLogged(purged, log + [e])
    ensures Logged(log + [e], e.row)
  {
    assert (log + [e])[|log|] == e;
    forall id | Logged(log, id)
      ensures Logged(log + [e], id)
    {
      LoggedGrows(log, log + [e], id);
    }
  }

  lemma LogAppended(s: State, e: LogEntry)
    requires Inv(s) && EntryOk(s.topics, s.journal, Ever(s), e)
    ensures Inv(s.(log := s.log + [e])) && Logged(s.log + [e], e.row)
  {
    SameEver(s, s.(log := s.log + [e]));
    AppendEntry(s.topics, s.journal, Ever(s), s.rows, s.purged, s.log, e);
    RelaysFrame(s.rows, s.rows, s.log, s.log + [e], s.relays);
  }

  lemma ProducedPut(s: State, tx: TxId, x: RelayTx, log: seq<LogEntry>, outcome: Outcome)
    requires Inv(s) && tx in s.relays && RelayOk(s.rows, log, x) && log <= s.log
    requires s.relays[tx] == x && x.phase.Ready? && x.handled < |x.batch|
    requires outcome.Ack? ==> Logged(s.log, Current(x).id)
    ensures Inv(s.(relays := s.relays[tx := AfterPublish(x, outcome)]))
  {
    PublishedOk(s.rows, log, s.log, x, outcome);
    assert Locks(AfterPublish(x, outcome)) == Locks(x);
    ReplaceRelay(s, tx, AfterPublish(x, outcome));
  }

  lemma PublishKeepsInv(s: State, step: Step)
    requires Inv(s) && Enabled(s, step) && step.RelayPublish?
    ensures Inv(Apply(s, step))
  {
    var tx, outcome := step.tx, step.outcome;
    var x := s.relays[tx];
    CurrentRow(s.rows, s.log, x);
    if Appends(outcome) {
      var e := LogEntry(Current(x).id, Encode(s.topics, Current(x).envelope));
      LogAppended(s, e);
      ProducedPut(s.(log := s.log + [e]), tx, x, s.log, outcome);
    } else {
      ProducedPut(s, tx, x, s.log, outcome);
    }
  }

  lemma MarkedMarks(rows: map<RowId, Row>, x: RelayTx, mark: Mark)
    requires BatchOk(rows, x) && MarksOk(rows, x) && PhaseOk(x)
    requires x.handled < |x.batch| && MarkFits(x.phase, mark)
    ensures MarksOk(rows, AfterMark(rows, x, mark))
  {
    var x' := AfterMark(rows, x, mark);
    var id := Current(x).id;
    forall i | 0 <= i < x.handled
      ensures MarkedAt(rows, x', i)
    {
      assert MarkedAt(rows, x, i) && x.batch[i].id != id;
    }
    assert id in x.writes ==> Done(x, id);
    assert MarkedAt(rows, x', x.handled);
    forall r | r in x'.writes
      ensures Done(x', r)
    {
      if r == id {
        assert x'.batch[x.handled].id == r;
      } else {
        assert Done(x, r);
      }
    }
  }

  lemma MarkedOk(rows: map<RowId, Row>, log: seq<LogEntry>, x: RelayTx, mark: Mark)
    requires RelayOk(rows, log, x) && x.handled < |x.batch| && MarkFits(x.phase, mark)
    ensures RelayOk(rows, log, AfterMark(rows, x, mark))
  {
    var x' := AfterMark(rows, x, mark);
    CurrentRow(rows, log, x);
    MarkedMarks(rows, x, mark);
    assert BatchOk(rows, x') && AckedOk(log, x') && PhaseOk(x');
  }

  lemma MarkKeepsInv(s: State, step: Step)
    requires Inv(s) && Enabled(s, step) && step.RelayMark?
    ensures Inv(Apply(s, step))
  {
    var tx, mark := step.tx, step.mark;
    var x := s.relays[tx];
    MarkedOk(s.rows, s.log, x, mark);
    assert Locks(AfterMark(s.rows, x, mark)) == Locks(x);
    ReplaceRelay(s, tx, AfterMark(s.rows, x, mark));
  }

  lemma WritesAreLocked(rows: map<RowId, Row>, x: RelayTx, id: RowId)
    requires MarksOk(rows, x) && id in x.writes
    ensures id in Locks(x) && id in rows
  {
    assert Done(x, id);
    var i :| 0 <= i < x.handled && x.batch[i].id == id;
    assert MarkedAt(rows, x, i) && x.batch[i] in x.batch;
  }

  lemma CommittedRelays(rows: map<RowId, Row>, log: seq<LogEntry>, relays: map<TxId, RelayTx>, tx: TxId)
    requires RelaysOk(rows, log, relays) && Exclusive(relays) && tx in relays
    ensures RelaysOk(rows + relays[tx].writes, log, relays - {tx})
    ensures (rows + relays[tx].writes).Keys == rows.Keys
  {
    var x := relays[tx];
    assert RelayOk(rows, log, x);
    forall id | id in x.writes
      ensures id in rows && id in Locks(x)
    {
      WritesAreLocked(rows, x, id);
    }
    forall t | t in relays - {tx}
      ensures RelayOk(rows + x.writes, log, relays[t])
    {
      var y := relays[t];
      assert Locks(x) !! Locks(y);
      forall i | 0 <= i < |y.batch|
        ensures y.batch[i].id !in x.writes
      {
        assert y.batch[i] in y.batch && y.batch[i].id in Locks(y);
      }
      RelayFrame(rows, rows + x.writes, log, log, y);
    }
  }

  lemma CommittedRows(journal: map<RowId, Envelope>, rows: map<RowId, Row>, log: seq<LogEntry>, x: RelayTx)
    requires Recorded(journal, rows) && PublishedLogged(rows, log) && RelayOk(rows, log, x)
    ensures Recorded(journal, rows + x.writes) && PublishedLogged(rows + x.writes, log)
  {
    forall id | id in x.writes
      ensures id in rows && x.writes[id].envelope == rows[id].envelope
      ensures x.writes[id].status == Published ==> Logged(log, id)
    {
      assert Done(x, id);
      var i :| 0 <= i < x.handled && x.batch[i].id == id;
      assert MarkedAt(rows, x, i);
    }
  }

  lemma RelayCommitKeepsInv(s: State, step: Step)
    requires Inv(s) && Enabled(s, step) && step.RelayCommit?
    ensures Inv(Apply(s, step))
  {
    var tx := step.tx;
    CommittedRelays(s.rows, s.log, s.relays, tx);
    CommittedRows(s.journal, s.rows, s.log, s.relays[tx]);
    SameEver(s, Apply(s, step));
  }

  // ---------------------------------------------------------------- purge and replay

  lemma PurgedRows(journal: map<RowId, Envelope>, rows: map<RowId, Row>, purged: map<RowId, Row>,
                   log: seq<LogEntry>, page: set<RowId>)
    requires Recorded(journal, rows) && Recorded(journal, purged) && rows.Keys !! purged.Keys
    requires PublishedLogged(rows, log) && PurgedLogged(purged, log)
    requires forall id :: id in page ==> id in rows && rows[id].status == Published
    ensures var rows', purged' := rows - page, purged + (map id | id in page :: rows[id]);
            && Recorded(journal, rows') && Recorded(journal, purged') && rows'.Keys !! purged'.Keys
            && PublishedLogged(rows', log) && PurgedLogged(purged', log)
  {
  }

  lemma PurgeKeepsInv(s: State, step: Step)
    requires Inv(s) && Enabled(s, step) && step.PurgePage?
    ensures Inv(Apply(s, step))
  {
    var page := step.page;
    EverAfter(s, step);
    PurgedRows(s.journal, s.rows, s.purged, s.log, page);
    RelaysFrame(s.rows, s.rows - page, s.log, s.log, s.relays);
  }

  lemma ReplayedRows(journal: map<RowId, Envelope>, rows: map<RowId, Row>, log: seq<LogEntry>, id: RowId, row: Row)
    requires Recorded(journal, rows) && PublishedLogged(rows, log) && id in rows
    requires row.envelope == rows[id].envelope && row.status == Pending
    ensures Recorded(journal, rows[id := row]) && PublishedLogged(rows[id := row], log)
  {
  }

  // No claim notices a change to a row that nobody has locked.
  lemma UnlockedRow(rows: map<RowId, Row>, log: seq<LogEntry>, relays: map<TxId, RelayTx>, id: RowId, row: Row)
    requires RelaysOk(rows, log, relays) && id in rows
    requires forall t :: t in relays ==> id !in Locks(relays[t])
    ensures RelaysOk(rows[id := row], log, relays)
  {
    forall t | t in relays
      ensures RelayOk(rows[id := row], log, relays[t])
    {
      var x := relays[t];
      forall i | 0 <= i < |x.batch|
        ensures x.batch[i].id != id
      {
        assert x.batch[i] in x.batch && x.batch[i].id in Locks(x);
      }
      RelayFrame(rows, rows[id := row], log, log, x);
    }
  }

  lemma ReplayKeepsInv(s: State, step: Step)
    requires Inv(s) && Enabled(s, step) && step.Replay?
    ensures Inv(Apply(s, step))
  {
    var id := step.id;
    var row := Apply(s, step).rows[id];
    EverAfter(s, step);
    ReplayedRows(s.journal, s.rows, s.log, id, row);
    UnlockedRow(s.rows, s.log, s.relays, id, row);
  }

  lemma PutOrphan(journal: map<RowId, Envelope>, ever: set<RowId>, orphans: map<TxId, PendingMessage>,
                  tx: TxId, m: PendingMessage)
    requires OrphansOk(journal, ever, orphans) && m.id in ever && m.id in journal && m.envelope == journal[m.id]
    ensures OrphansOk(journal, ever, orphans[tx := m])
  {
  }

  lemma OrphanBegins(s: State, tx: TxId, m: PendingMessage)
    requires Inv(s) && m.id in Ever(s) && m.id in s.journal && m.envelope == s.journal[m.id]
    ensures Inv(s.(orphans := s.orphans[tx := m]))
  {
    PutOrphan(s.journal, Ever(s), s.orphans, tx, m);
    SameEver(s, s.(orphans := s.orphans[tx := m]));
  }

  // A lost session leaves its produce call behind, and that call its record, if any.
  lemma LostKeepsInv(s: State, step: Step)
    requires Inv(s) && Enabled(s, step) && step.RelayLost?
    ensures Inv(Apply(s, step))
  {
    var tx := step.tx;
    var m := Current(s.relays[tx]);
    CurrentRow(s.rows, s.log, s.relays[tx]);
    OrphanBegins(s, tx, m);
    DropRelay(s.(orphans := s.orphans[tx := m]), tx);
  }

  lemma OrphanEnds(s: State, tx: TxId)
    requires Inv(s) && tx in s.orphans
    ensures Inv(s.(orphans := s.orphans - {tx}))
  {
    SameEver(s, s.(orphans := s.orphans - {tx}));
  }

  lemma OrphanKeepsInv(s: State, step: Step)
    requires Inv(s) && Enabled(s, step) && step.OrphanPublish?
    ensures Inv(Apply(s, step))
  {
    var tx, appended := step.tx, step.appended;
    var m := s.orphans[tx];
    OrphanEnds(s, tx);
    if appended {
      SameEver(s, s.(orphans := s.orphans - {tx}));
      LogAppended(s.(orphans := s.orphans - {tx}), LogEntry(m.id, Encode(s.topics, m.envelope)));
    }
  }

  lemma TickKeepsInv(s: State, step: Step)
    requires Inv(s) && Enabled(s, step) && step.Tick?
    ensures Inv(Apply(s, step))
  {
    SameEver(s, Apply(s, step));
  }

  lemma RegRollbackKeepsInv(s: State, step: Step)
    requires Inv(s) && Enabled(s, step) && step.RegRollback?
    ensures Inv(Apply(s, step))
  {
    DropReg(s, step.tx);
  }

  lemma RelayRollbackKeepsInv(s: State, step: Step)
    requires Inv(s) && Enabled(s, step) && step.RelayRollback?
    ensures Inv(Apply(s, step))
  {
    DropRelay(s, step.tx);
  }

  predicate OfRegistration(step: Step) {
    step.RegBegin? || step.RegInsertUser? || step.RegAppend? || step.RegCommit? || step.RegRollback?
  }

  predicate OfRelay(step: Step) {
    step.RelayBegin? || step.RelayClaim? || step.RelayPublish? || step.RelayMark? || step.RelayCommit?
  }

  lemma RegStepKeepsInv(s: State, step: Step)
    requires Inv(s) && Enabled(s, step) && OfRegistration(step)
    ensures Inv(Apply(s, step))
  {
    if step.RegBegin? {
      RegBeginKeepsInv(s, step);
    } else if step.RegInsertUser? {
      InsertUserKeepsInv(s, step);
    } else if step.RegAppend? {
      AppendKeepsInv(s, step);
    } else if step.RegCommit? {
      RegCommitKeepsInv(s, step);
    } else {
      RegRollbackKeepsInv(s, step);
    }
  }

  lemma RelayStepKeepsInv(s: State, step: Step)
    requires Inv(s) && Enabled(s, step) && OfRelay(step)
    ensures Inv(Apply(s, step))
  {
    if step.RelayBegin? {
      RelayBeginKeepsInv(s, step);
    } else if step.RelayClaim? {
      ClaimKeepsInv(s, step);
    } else if step.RelayPublish? {
      PublishKeepsInv(s, step);
    } else if step.RelayMark? {
      MarkKeepsInv(s, step);
    } else {
      RelayCommitKeepsInv(s, step);
    }
  }

  lemma OtherStepKeepsInv(s: State, step: Step)
    requires Inv(s) && Enabled(s, step) && !OfRegistration(step) && !OfRelay(step)
    ensures Inv(Apply(s, step))
  {
    if step.RelayRollback? {
      RelayRollbackKeepsInv(s, step);
    } else if step.RelayLost? {
      LostKeepsInv(s, step);
    } else if step.OrphanPublish? {
      OrphanKeepsInv(s, step);
    } else if step.Tick? {
      TickKeepsInv(s, step);
    } else if step.PurgePage? {
      PurgeKeepsInv(s, step);
    } else {
      ReplayKeepsInv(s, step);
    }
  }

  lemma StepKeepsInv(s: State, step: Step)
    requires Inv(s) && Enabled(s, step)
    ensures Inv(Apply(s, step))
  {
    if OfRegistration(step) {
      RegStepKeepsInv(s, step);
    } else if OfRelay(step) {
      RelayStepKeepsInv(s, step);
    } else {
      OtherStepKeepsInv(s, step);
    }
  }

  lemma NextInv(r: Run, k: nat)
    requires IsRun(r) && k < |r.steps| && Inv(r.states[k])
    ensures Inv(r.states[k + 1])
  {
    StepOf(r, k);
    StepKeepsInv(r.states[k], r.steps[k]);
  }

  // In every state of every run.
  lemma {:induction false} RunInv(r: Run, k: nat)
    requires IsRun(r) && Inv(r.states[0]) && k < |r.states|
    ensures Inv(r.states[k])
  {
    if k > 0 {
      RunInv(r, k - 1);
      NextInv(r, k - 1);
    }
  }
}
