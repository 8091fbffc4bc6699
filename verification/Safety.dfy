/** The guarantees of the design, over every run that starts from empty tables. */
module Safety {
  import opened Wrappers
  import opened Ordering
  import opened Wire
  import opened Protocol
  import opened Invariant

  lemma Reachable(r: Run, n: nat)
    requires Execution(r) && n < |r.states|
    ensures Inv(r.states[n])
  {
    InitialInv(r.states[0]);
    RunInv(r, n);
  }

  // ---------------------------------------------------------------- what only grows

  ghost predicate Grown(s: State, t: State) {
    && t.topics == s.topics
    && Ever(s) <= Ever(t)
    && (forall id :: id in s.journal ==> id in t.journal && t.journal[id] == s.journal[id])
    && (forall u :: u in s.users ==> u in t.users && t.users[u] == s.users[u])
    && s.log <= t.log
  }

  lemma HistoryGrows(s: State, step: Step)
    requires JournalOk(s.nextId, s.journal) && Enabled(s, step)
    ensures var t := Apply(s, step);
            && t.topics == s.topics && s.log <= t.log
            && forall id :: id in s.journal ==> id in t.journal && t.journal[id] == s.journal[id]
  {
  }

  lemma OthersInsertNoUser(s: State, step: Step)
    requires Enabled(s, step) && !step.RegCommit?
    ensures Apply(s, step).users == s.users
  {
  }

  lemma SameUsers(s: State, step: Step)
    requires Inv(s) && Enabled(s, step) && !step.RegCommit?
    ensures Apply(s, step).users == s.users && Ever(Apply(s, step)) == Ever(s)
  {
    if step.RelayCommit? {
      CommittedRelays(s.rows, s.log, s.relays, step.tx);
      SameEver(s, Apply(s, step));
    } else {
      EverAfter(s, step);
      OthersInsertNoUser(s, step);
    }
  }

  lemma UsersStand(users: map<Uuid, Email>, more: map<Uuid, Email>)
    requires UsersApart(more, users)
    ensures forall u :: u in users ==> u in users + more && (users + more)[u] == users[u]
  {
  }

  lemma TablesGrow(s: State, step: Step)
    requires Inv(s) && Enabled(s, step)
    ensures var t := Apply(s, step);
            Ever(s) <= Ever(t) && forall u :: u in s.users ==> u in t.users && t.users[u] == s.users[u]
  {
    if step.RegCommit? {
      assert RegUsersOk(s.users, s.regs[step.tx]);
      EverAfter(s, step);
      UsersStand(s.users, s.regs[step.tx].users);
    } else {
      SameUsers(s, step);
    }
  }

  lemma StepGrows(s: State, step: Step)
    requires Inv(s) && Enabled(s, step)
    ensures Grown(s, Apply(s, step))
  {
    HistoryGrows(s, step);
    TablesGrow(s, step);
  }

  lemma NextGrows(r: Run, k: nat)
    requires Execution(r) && k < |r.steps|
    ensures Grown(r.states[k], r.states[k + 1])
  {
    Reachable(r, k);
    StepOf(r, k);
    StepGrows(r.states[k], r.steps[k]);
  }

  lemma GrownTransitive(a: State, b: State, c: State)
    requires Grown(a, b) && Grown(b, c)
    ensures Grown(a, c)
  {
  }

  lemma {:induction false} RunGrows(r: Run, k: nat, n: nat)
    requires Execution(r) && k <= n < |r.states|
    ensures Grown(r.states[k], r.states[n])
    decreases n
  {
    if k < n {
      RunGrows(r, k, n - 1);
      NextGrows(r, n - 1);
      GrownTransitive(r.states[k], r.states[n - 1], r.states[n]);
    }
  }

  // ---------------------------------------------------------------- nothing lost

  // The broker durably has the record of this content.
  ghost predicate Delivered(s: State, env: Envelope) {
    Routable(s.topics, env.aggregateType)
    && exists j :: 0 <= j < |s.log| && s.log[j].record == Encode(s.topics, env)
  }

  lemma LoggedIsDelivered(s: State, id: RowId)
    requires Inv(s) && Logged(s.log, id)
    ensures id in s.journal && Delivered(s, s.journal[id])
  {
    var j :| 0 <= j < |s.log| && s.log[j].row == id;
    assert EntryOk(s.topics, s.journal, Ever(s), s.log[j]);
  }

  // A row committed at any moment of a run is, ever after, still pending, or parked for a
  // human, or its very content is in the broker's log - whether or not it was purged since.
  lemma NothingLost(r: Run, k: nat, n: nat, id: RowId)
    requires Execution(r) && k <= n < |r.states|
    requires id in r.states[k].rows
    ensures var past, now := r.states[k], r.states[n];
            || (id in now.rows && now.rows[id].status != Published
                && now.rows[id].envelope == past.rows[id].envelope)
            || Delivered(now, past.rows[id].envelope)
  {
    var past, now := r.states[k], r.states[n];
    Reachable(r, k);
    Reachable(r, n);
    RunGrows(r, k, n);
    assert id in Ever(past) && id in Ever(now);
    assert past.rows[id].envelope == now.journal[id];
    if id !in now.rows || now.rows[id].status == Published {
      assert Logged(now.log, id);
      LoggedIsDelivered(now, id);
    }
  }

  // ---------------------------------------------------------------- nothing phantom

  predicate HasRowFor(reg: RegTx, user: Uuid) {
    exists id :: id in reg.rows && reg.rows[id].envelope.aggregateId == user
  }

  // Every user the transaction inserts has an event row in the same transaction.
  predicate Complete(reg: RegTx) {
    forall u {:trigger HasRowFor(reg, u)} :: u in reg.users ==> HasRowFor(reg, u)
  }

  // Its users and its rows correspond one to one, by aggregate id.
  predicate Paired(reg: RegTx) {
    && Complete(reg)
    && (forall id :: id in reg.rows ==> reg.rows[id].envelope.aggregateId in reg.users)
    && (forall a, b :: a in reg.rows && b in reg.rows ==>
          reg.rows[a].envelope.aggregateId == reg.rows[b].envelope.aggregateId ==> a == b)
  }

  // The registration transaction that step c commits.
  ghost function CommittedReg(r: Run, c: nat): RegTx
    requires IsRun(r) && c < |r.steps| && r.steps[c].RegCommit?
  {
    StepOf(r, c);
    r.states[c].regs[r.steps[c].tx]
  }

  // Step c committed row id, which was in the table never before. If the transaction paired its
  // users and rows, the row's user came with it and is new as well.
  ghost predicate Born(r: Run, c: nat, id: RowId)
    requires IsRun(r) && c < |r.steps|
  {
    var before, after := r.states[c], r.states[c + 1];
    && r.steps[c].RegCommit?
    && var reg := CommittedReg(r, c);
       && id in reg.rows && id !in Ever(before) && id in after.rows
       && (Paired(reg) ==>
             var user := reg.rows[id].envelope.aggregateId;
             user in reg.users && user !in before.users && user in after.users)
  }

  lemma BornByCommit(s: State, step: Step, id: RowId)
    requires Inv(s) && Enabled(s, step) && id !in Ever(s) && id in Ever(Apply(s, step))
    ensures step.RegCommit? && id in s.regs[step.tx].rows && id in Apply(s, step).rows
    ensures UsersApart(s.regs[step.tx].users, s.users)
  {
    if step.RegCommit? {
      assert RegRowsOk(s.journal, Ever(s), s.regs[step.tx]) && RegUsersOk(s.users, s.regs[step.tx]);
      EverAfter(s, step);
    } else if step.RelayCommit? {
      CommittedRelays(s.rows, s.log, s.relays, step.tx);
      assert false;
    } else {
      EverAfter(s, step);
      assert false;
    }
  }

  lemma BornHere(r: Run, k: nat, id: RowId)
    requires Execution(r) && k < |r.steps|
    requires id !in Ever(r.states[k]) && id in Ever(r.states[k + 1])
    ensures Born(r, k, id)
  {
    Reachable(r, k);
    StepOf(r, k);
    BornByCommit(r.states[k], r.steps[k], id);
  }

  lemma {:induction false} EveryRowWasBorn(r: Run, n: nat, id: RowId) returns (c: nat)
    requires Execution(r) && n < |r.states| && id in Ever(r.states[n])
    ensures c < n && Born(r, c, id)
  {
    if id in Ever(r.states[n - 1]) {
      c := EveryRowWasBorn(r, n - 1, id);
    } else {
      BornHere(r, n - 1, id);
      c := n - 1;
    }
  }

  // The entry is the record of the row that this transaction inserted.
  ghost predicate Encodes(topics: Topics, reg: RegTx, e: LogEntry) {
    && e.row in reg.rows && Routable(topics, reg.rows[e.row].envelope.aggregateType)
    && e.record == Encode(topics, reg.rows[e.row].envelope) && Carries(topics, reg.rows[e.row].envelope, e.record)
  }

  // Every broker record is the encoding of a row that one transaction committed, and if that
  // transaction paired its users and rows, committed together with its user.
  lemma NoPhantom(r: Run, n: nat, j: nat)
    requires Execution(r) && n < |r.states| && j < |r.states[n].log|
    ensures exists c :: 0 <= c < n && Born(r, c, r.states[n].log[j].row)
                        && Encodes(r.states[0].topics, CommittedReg(r, c), r.states[n].log[j])
  {
    var now := r.states[n];
    Reachable(r, n);
    var e := now.log[j];
    assert EntryOk(now.topics, now.journal, Ever(now), e);
    var c := EveryRowWasBorn(r, n, e.row);
    Reachable(r, c);
    RunGrows(r, c, n);
    RunGrows(r, 0, n);
    var before := r.states[c];
    var reg := CommittedReg(r, c);
    StepOf(r, c);
    assert RegRowsOk(before.journal, Ever(before), reg);
    assert reg.rows[e.row].envelope == now.journal[e.row];
    EncodeCarries(now.topics, now.journal[e.row]);
  }

  // ---------------------------------------------------------------- what a consumer reads

  // The row that was ever committed under this id, be it purged since.
  ghost function EverRow(s: State, id: RowId): Row
    requires id in Ever(s)
  {
    if id in s.rows then s.rows[id] else s.purged[id]
  }

  // Every broker record is, field by field, what the contract promises of the row it is tagged with.
  lemma ConsumerReads(r: Run, n: nat, j: nat)
    requires Execution(r) && n < |r.states| && j < |r.states[n].log|
    ensures var now := r.states[n];
            && now.log[j].row in Ever(now)
            && Carries(r.states[0].topics, EverRow(now, now.log[j].row).envelope, now.log[j].record)
  {
    var now := r.states[n];
    Reachable(r, n);
    RunGrows(r, 0, n);
    var e := now.log[j];
    assert EntryOk(now.topics, now.journal, Ever(now), e);
    assert EverRow(now, e.row).envelope == now.journal[e.row];
    EncodeCarries(now.topics, now.journal[e.row]);
  }

  // Records share a key, and with it a partition of their topic, exactly when their rows are about the
  // same aggregate.
  lemma SameKeyExactly(r: Run, n: nat, i: nat, j: nat)
    requires Execution(r) && n < |r.states|
    requires i < |r.states[n].log| && j < |r.states[n].log|
    ensures var now := r.states[n];
            var a, b := now.log[i], now.log[j];
            && a.row in Ever(now) && b.row in Ever(now)
            && (a.record.key == b.record.key
                <==> EverRow(now, a.row).envelope.aggregateId == EverRow(now, b.row).envelope.aggregateId)
  {
    ConsumerReads(r, n, i);
    ConsumerReads(r, n, j);
  }

  // ---------------------------------------------------------------- duplicates are copies

  lemma EntryEventId(s: State, j: nat)
    requires Inv(s) && j < |s.log|
    ensures EntryOk(s.topics, s.journal, Ever(s), s.log[j])
    ensures EventIdOf(s.log[j].record) == Some(s.journal[s.log[j].row].eventId)
  {
    assert EntryOk(s.topics, s.journal, Ever(s), s.log[j]);
    EncodedEventId(s.topics, s.journal[s.log[j].row]);
  }

  // Deduplicating on the event id is sound: two records that carry the same id are the same
  // record, from the same row - topic, key, payload and header list included.
  lemma DuplicatesAreExactCopies(r: Run, n: nat, i: nat, j: nat)
    requires Execution(r) && n < |r.states|
    requires i < |r.states[n].log| && j < |r.states[n].log|
    ensures var log := r.states[n].log;
            EventIdOf(log[i].record) == EventIdOf(log[j].record) <==> log[i] == log[j]
  {
    var now := r.states[n];
    Reachable(r, n);
    EntryEventId(now, i);
    EntryEventId(now, j);
  }

  // ---------------------------------------------------------------- legal transitions

  lemma LockedIsPending(rows: map<RowId, Row>, x: RelayTx, id: RowId)
    requires BatchOk(rows, x) && id in Locks(x)
    ensures id in rows && rows[id].status == Pending
  {
    var m :| m in x.batch && m.id == id;
    var i :| 0 <= i < |x.batch| && x.batch[i] == m;
  }

  lemma CommitTouches(s: State, tx: TxId, id: RowId)
    requires Inv(s) && tx in s.relays && id in s.relays[tx].writes
    ensures id in s.rows && s.rows[id].status == Pending && id in Locks(s.relays[tx])
  {
    assert RelayOk(s.rows, s.log, s.relays[tx]);
    WritesAreLocked(s.rows, s.relays[tx], id);
    LockedIsPending(s.rows, s.relays[tx], id);
  }

  // The UPDATEs guard no status, and yet a committed row only ever moves along these edges.
  lemma LegalTransitions(r: Run, k: nat, id: RowId)
    requires Execution(r) && k < |r.steps|
    ensures Moves(r, k)
    ensures var before, step, after := r.states[k], r.steps[k], r.states[k + 1];
      && (id in before.rows && id in after.rows && after.rows[id] != before.rows[id] ==>
            || (before.rows[id].status == Pending && step.RelayCommit? && id in Locks(before.relays[step.tx]))
            || (after.rows[id].status == Pending && step == Replay(id)))
      && (id in before.rows && id !in after.rows ==> step.PurgePage? && before.rows[id].status == Published)
      && (id !in before.rows && id in after.rows ==> step.RegCommit? && after.rows[id].status == Pending)
  {
    var before, step := r.states[k], r.steps[k];
    Reachable(r, k);
    StepOf(r, k);
    if !ChangesTables(step) {
      TablesUnmoved(before, step);
    } else if step.RegCommit? {
      assert RegRowsOk(before.journal, Ever(before), before.regs[step.tx]);
    } else if step.RelayCommit? {
      if id in before.relays[step.tx].writes {
        CommitTouches(before, step.tx, id);
      } else {
        CommittedRelays(before.rows, before.log, before.relays, step.tx);
      }
    }
  }

  // Whenever a mark is about to run, its row is committed and pending, locked by this
  // transaction and by no other, and unmarked: the one-row check never fails.
  lemma MarkTouchesOneRow(r: Run, k: nat)
    requires Execution(r) && k < |r.steps| && r.steps[k].RelayMark?
    ensures Moves(r, k)
    ensures var before, tx := r.states[k], r.steps[k].tx;
            var x, x' := before.relays[tx], r.states[k + 1].relays[tx];
            var id := Current(x).id;
            && id in before.rows && before.rows[id].status == Pending
            && id in Locks(x) && !LockedByOther(before, tx, id)
            && id !in x.writes && id in x'.writes && !x'.phase.Broken?
  {
    var before, tx := r.states[k], r.steps[k].tx;
    Reachable(r, k);
    StepOf(r, k);
    CurrentRow(before.rows, before.log, before.relays[tx]);
  }

  // No two open relay transactions hold the same row, in any interleaving.
  lemma MutualExclusion(r: Run, n: nat, t: TxId, u: TxId, id: RowId)
    requires Execution(r) && n < |r.states|
    requires t in r.states[n].relays && u in r.states[n].relays
    requires id in Locks(r.states[n].relays[t]) && id in Locks(r.states[n].relays[u])
    ensures t == u
  {
    Reachable(r, n);
  }

  // ---------------------------------------------------------------- one event per registration

  lemma {:induction false} BijectionCardinality<A, B>(a: set<A>, b: set<B>, f: map<A, B>)
    requires a <= f.Keys
    requires forall x :: x in a ==> f[x] in b
    requires forall x, y :: x in a && y in a && f[x] == f[y] ==> x == y
    requires forall y :: y in b ==> exists x :: x in a && f[x] == y
    ensures |a| == |b|
  {
    if a == {} {
      assert b == {};
    } else {
      var x :| x in a;
      var a', b' := a - {x}, b - {f[x]};
      forall y | y in b'
        ensures exists z :: z in a' && f[z] == y
      {
        var z :| z in a && f[z] == y;
        assert z in a';
      }
      BijectionCardinality(a', b', f);
    }
  }

  ghost predicate HasEvent(journal: map<RowId, Envelope>, ever: set<RowId>, user: Uuid) {
    exists id :: id in ever && id in journal && journal[id].aggregateId == user
  }

  // Ever-committed rows and committed users correspond one to one, by aggregate id.
  ghost predicate OneEventEach(journal: map<RowId, Envelope>, users: map<Uuid, Email>, ever: set<RowId>) {
    && (forall id :: id in ever ==> id in journal && journal[id].aggregateId in users)
    && (forall a, b :: a in ever && b in ever && journal[a].aggregateId == journal[b].aggregateId ==> a == b)
    && (forall u {:trigger HasEvent(journal, ever, u)} :: u in users ==> HasEvent(journal, ever, u))
  }

  ghost predicate OneToOne(s: State) {
    OneEventEach(s.journal, s.users, Ever(s))
  }

  lemma NewUserHasRow(journal: map<RowId, Envelope>, users: map<Uuid, Email>, ever: set<RowId>, reg: RegTx, u: Uuid)
    requires OneEventEach(journal, users, ever) && Recorded(journal, reg.rows) && UsersApart(reg.users, users)
    requires u in reg.users && HasEvent(journal, ever + reg.rows.Keys, u)
    ensures HasRowFor(reg, u)
  {
    var id :| id in ever + reg.rows.Keys && id in journal && journal[id].aggregateId == u;
    assert id in ever ==> u in users;
    assert reg.rows[id].envelope.aggregateId == u;
  }

  lemma MergedUserHasEvent(journal: map<RowId, Envelope>, users: map<Uuid, Email>, ever: set<RowId>, reg: RegTx,
                           u: Uuid)
    requires OneEventEach(journal, users, ever) && Recorded(journal, reg.rows) && Complete(reg)
    requires u in users + reg.users
    ensures HasEvent(journal, ever + reg.rows.Keys, u)
  {
    var ever' := ever + reg.rows.Keys;
    if u in reg.users {
      assert HasRowFor(reg, u);
      var id :| id in reg.rows && reg.rows[id].envelope.aggregateId == u;
      assert id in ever' && journal[id].aggregateId == u;
    } else {
      assert HasEvent(journal, ever, u);
      var id :| id in ever && journal[id].aggregateId == u;
      assert id in ever' && journal[id].aggregateId == u;
    }
  }

  // Committing a transaction keeps the correspondence exactly when the transaction has it itself.
  lemma MergeEvents(journal: map<RowId, Envelope>, users: map<Uuid, Email>, ever: set<RowId>, reg: RegTx)
    requires OneEventEach(journal, users, ever)
    requires RegRowsOk(journal, ever, reg) && UsersApart(reg.users, users)
    ensures OneEventEach(journal, users + reg.users, ever + reg.rows.Keys) <==> Paired(reg)
  {
    var users', ever' := users + reg.users, ever + reg.rows.Keys;
    if Paired(reg) {
      forall u | u in users'
        ensures HasEvent(journal, ever', u)
      {
        MergedUserHasEvent(journal, users, ever, reg, u);
      }
    }
    if OneEventEach(journal, users', ever') {
      forall u | u in reg.users
        ensures HasRowFor(reg, u)
      {
        NewUserHasRow(journal, users, ever, reg, u);
      }
      forall id | id in reg.rows
        ensures reg.rows[id].envelope.aggregateId in reg.users
      {
        var u := journal[id].aggregateId;
        assert u in users ==> HasEvent(journal, ever, u);
        assert id in ever';
      }
    }
  }

  lemma EventsKept(journal: map<RowId, Envelope>, journal': map<RowId, Envelope>, users: map<Uuid, Email>,
                   ever: set<RowId>)
    requires OneEventEach(journal, users, ever)
    requires forall id :: id in journal ==> id in journal' && journal'[id] == journal[id]
    ensures OneEventEach(journal', users, ever)
  {
    forall u | u in users
      ensures HasEvent(journal', ever, u)
    {
      assert HasEvent(journal, ever, u);
      var r :| r in ever && r in journal && journal[r].aggregateId == u;
      assert journal'[r].aggregateId == u;
    }
  }

  lemma StepKeepsOneToOne(s: State, step: Step)
    requires Inv(s) && Enabled(s, step) && OneToOne(s)
    ensures OneToOne(Apply(s, step)) <==> (step.RegCommit? ==> Paired(s.regs[step.tx]))
  {
    var s' := Apply(s, step);
    if step.RegCommit? {
      assert RegRowsOk(s.journal, Ever(s), s.regs[step.tx]) && RegUsersOk(s.users, s.regs[step.tx]);
      EverAfter(s, step);
      MergeEvents(s.journal, s.users, Ever(s), s.regs[step.tx]);
    } else {
      SameUsers(s, step);
      HistoryGrows(s, step);
      EventsKept(s.journal, s'.journal, s.users, Ever(s));
    }
  }

  ghost predicate PairsAt(r: Run, k: nat)
    requires IsRun(r) && k < |r.steps|
  {
    r.steps[k].RegCommit? ==> Paired(CommittedReg(r, k))
  }

  // Every registration that the first n steps committed paired its users and rows.
  ghost predicate PairedUpTo(r: Run, n: nat)
    requires IsRun(r) && n < |r.states|
  {
    forall c :: 0 <= c < n ==> PairsAt(r, c)
  }

  lemma NextOneToOne(r: Run, k: nat)
    requires Execution(r) && k < |r.steps| && OneToOne(r.states[k])
    ensures OneToOne(r.states[k + 1]) <==> PairsAt(r, k)
  {
    Reachable(r, k);
    StepOf(r, k);
    StepKeepsOneToOne(r.states[k], r.steps[k]);
  }

  ghost predicate OneToOneUpTo(r: Run, n: nat)
    requires n < |r.states|
  {
    forall m :: 0 <= m <= n ==> OneToOne(r.states[m])
  }

  lemma OneToOneStart(r: Run)
    requires Execution(r)
    ensures OneToOneUpTo(r, 0) && PairedUpTo(r, 0)
  {
  }

  lemma PairedNext(r: Run, n: nat)
    requires IsRun(r) && n < |r.steps|
    ensures PairedUpTo(r, n + 1) <==> PairedUpTo(r, n) && PairsAt(r, n)
  {
  }

  lemma OneToOneUpToNext(states: seq<State>, r: Run, n: nat)
    requires states == r.states && n + 1 < |states|
    ensures OneToOneUpTo(r, n + 1) <==> OneToOneUpTo(r, n) && OneToOne(states[n + 1])
    ensures OneToOneUpTo(r, n) ==> OneToOne(states[n])
  {
  }

  lemma OneToOneNext(r: Run, n: nat)
    requires Execution(r) && n < |r.steps| && (OneToOneUpTo(r, n) <==> PairedUpTo(r, n))
    ensures OneToOneUpTo(r, n + 1) <==> PairedUpTo(r, n + 1)
  {
    PairedNext(r, n);
    OneToOneUpToNext(r.states, r, n);
    if OneToOneUpTo(r, n) {
      NextOneToOne(r, n);
    }
  }

  // Users and ever-committed rows are in bijection by aggregate id, in every state so far, exactly
  // when every registration committed so far paired its own: the tables alone do not enforce it.
  lemma {:induction false} OneEventExactly(r: Run, n: nat)
    requires Execution(r) && n < |r.states|
    ensures OneToOneUpTo(r, n) <==> PairedUpTo(r, n)
  {
    if n == 0 {
      OneToOneStart(r);
    } else {
      OneEventExactly(r, n - 1);
      OneToOneNext(r, n - 1);
    }
  }

  // So when every registration is one that pairs, as RegisterUser's are, there are as many rows as users.
  lemma OneEventPerRegistration(r: Run, n: nat)
    requires Execution(r) && n < |r.states| && PairedUpTo(r, n)
    ensures OneToOne(r.states[n]) && |Ever(r.states[n])| == |r.states[n].users|
  {
    OneEventExactly(r, n);
    var now := r.states[n];
    assert OneToOne(now);
    var f := map id | id in Ever(now) :: now.journal[id].aggregateId;
    forall u | u in now.users
      ensures exists id :: id in Ever(now) && f[id] == u
    {
      assert HasEvent(now.journal, Ever(now), u);
      var id :| id in Ever(now) && now.journal[id].aggregateId == u;
      assert f[id] == u;
    }
    BijectionCardinality(Ever(now), now.users.Keys, f);
  }

  ghost predicate NoRowOrUser(s: State) {
    s.users == map[] && s.regs == map[] && s.rows == map[] && s.purged == map[]
  }

  // A registration that appends nothing: a user and no row.
  lemma CommitsUserAlone(before: Run, user: Uuid, email: Email) returns (r: Run)
    requires IsRun(before) && NoRowOrUser(Last(before))
    ensures IsRun(r) && before.states <= r.states && before.steps <= r.steps && |r.steps| == |before.steps| + 3
    ensures r.steps[|r.steps| - 1] == RegCommit(Last(before).nextTx)
    ensures user in Last(r).users && Ever(Last(r)) == {} && !OneToOne(Last(r))
  {
    var tx := Last(before).nextTx;
    r := Extend(Extend(Extend(before, RegBegin(tx)), RegInsertUser(tx, user, email)), RegCommit(tx));
    var t := Last(r);
    assert Ever(t) == {} && user in t.users;
    assert OneToOne(t) ==> HasEvent(t.journal, Ever(t), user);
  }

  lemma UserWithoutRow(s: State, user: Uuid, email: Email) returns (r: Run)
    requires Initial(s)
    ensures Execution(r) && r.states[0] == s && user in Last(r).users && Ever(Last(r)) == {}
    ensures !OneToOne(Last(r))
  {
    r := CommitsUserAlone(Start(s), user, email);
  }

  lemma OneOfEach(user: Uuid, email: Email, id: RowId, env: Envelope, now: Instant)
    requires env.aggregateId == user
    ensures Paired(RegTx(now, map[user := email], map[id := FreshRow(env, now)]))
  {
    var reg := RegTx(now, map[user := email], map[id := FreshRow(env, now)]);
    assert id in reg.rows && reg.rows[id].envelope.aggregateId == user;
  }

  lemma UserInserted(s: State, user: Uuid, email: Email) returns (r: Run)
    requires Initial(s)
    ensures IsRun(r) && r.states[0] == s && |r.steps| == 2
    ensures Last(r) == s.(nextTx := s.nextTx + 1, regs := map[s.nextTx := RegTx(s.clock, map[user := email], map[])])
  {
    r := Extend(Extend(Start(s), RegBegin(s.nextTx)), RegInsertUser(s.nextTx, user, email));
    assert Last(r).regs == map[s.nextTx := RegTx(s.clock, map[user := email], map[])];
  }

  lemma PairOpen(s: State, user: Uuid, email: Email, env: Envelope) returns (r: Run)
    requires Initial(s)
    ensures IsRun(r) && r.states[0] == s && |r.steps| == 3
    ensures var reg := RegTx(s.clock, map[user := email], map[s.nextId := FreshRow(env, s.clock)]);
      && NoRowOrUser(Last(r).(regs := map[])) && Last(r).nextTx == s.nextTx + 1
      && Last(r).regs == map[s.nextTx := reg]
  {
    r := UserInserted(s, user, email);
    r := Extend(r, RegAppend(s.nextTx, env));
  }

  // A registration that pairs its user and its row, and is rolled back.
  lemma PairedButRolledBack(s: State, user: Uuid, email: Email, env: Envelope) returns (r: Run)
    requires Initial(s) && env.aggregateId == user
    ensures Execution(r) && r.states[0] == s && |r.steps| == 4 && r.steps[3] == RegRollback(s.nextTx)
    ensures s.nextTx in r.states[3].regs && Paired(r.states[3].regs[s.nextTx])
    ensures NoRowOrUser(Last(r)) && Last(r).nextTx == s.nextTx + 1
  {
    var open := PairOpen(s, user, email, env);
    OneOfEach(user, email, s.nextId, env, s.clock);
    r := Extend(open, RegRollback(s.nextTx));
    assert Last(r).regs == map[];
    assert r.states[3] == Last(open);
  }

  // Tried again with the drained aggregate it commits, and no event ever says so.
  lemma DrainedRetryRun(s: State, user: Uuid, email: Email, env: Envelope) returns (r: Run)
    requires Initial(s) && env.aggregateId == user
    ensures Execution(r) && r.states[0] == s && |r.steps| == 7
    ensures r.steps[3] == RegRollback(s.nextTx) && r.steps[6] == RegCommit(s.nextTx + 1)
    ensures s.nextTx in r.states[3].regs && Paired(r.states[3].regs[s.nextTx])
    ensures user in Last(r).users && Ever(Last(r)) == {} && !OneToOne(Last(r))
  {
    r := PairedButRolledBack(s, user, email, env);
    r := CommitsUserAlone(r, user, email);
  }

  // An id handed to a row that is in no table and no open transaction.
  ghost predicate Dead(s: State, id: RowId) {
    id in s.journal && id !in Ever(s) && forall t :: t in s.regs ==> id !in s.regs[t].rows
  }

  lemma DeadStaysDead(s: State, step: Step, id: RowId)
    requires Inv(s) && Enabled(s, step) && Dead(s, id)
    ensures Dead(Apply(s, step), id)
  {
    if id in Ever(Apply(s, step)) {
      BornByCommit(s, step, id);
      assert false;
    }
  }

  lemma DeadNext(r: Run, k: nat, id: RowId)
    requires Execution(r) && k < |r.steps| && Dead(r.states[k], id)
    ensures Dead(r.states[k + 1], id)
  {
    Reachable(r, k);
    StepOf(r, k);
    DeadStaysDead(r.states[k], r.steps[k], id);
  }

  lemma {:induction false} DeadForever(r: Run, k: nat, n: nat, id: RowId)
    requires Execution(r) && k <= n < |r.states| && Dead(r.states[k], id)
    ensures Dead(r.states[n], id)
    decreases n
  {
    if k < n {
      DeadForever(r, k, n - 1, id);
      DeadNext(r, n - 1, id);
    }
  }

  lemma RollbackKills(s: State, tx: TxId, id: RowId)
    requires Inv(s) && tx in s.regs && id in s.regs[tx].rows
    ensures Dead(Apply(s, RegRollback(tx)), id)
  {
    assert RegRowsOk(s.journal, Ever(s), s.regs[tx]);
    forall t | t in s.regs && t != tx
      ensures id !in s.regs[t].rows
    {
      assert Apart(s.regs[t], s.regs[tx]);
    }
  }

  lemma DeadNotLogged(r: Run, n: nat, id: RowId)
    requires Execution(r) && n < |r.states| && Dead(r.states[n], id)
    ensures !Logged(r.states[n].log, id)
  {
    Reachable(r, n);
    var now := r.states[n];
    forall j | 0 <= j < |now.log|
      ensures now.log[j].row != id
    {
      assert EntryOk(now.topics, now.journal, Ever(now), now.log[j]);
    }
  }

  // A rolled-back registration leaves nothing behind: its rows are in no later table, and no
  // record of them is ever produced.
  lemma AbortLeavesNothing(r: Run, k: nat, n: nat, id: RowId)
    requires Execution(r) && k + 1 <= n < |r.states| && r.steps[k].RegRollback?
    requires r.steps[k].tx in r.states[k].regs && id in r.states[k].regs[r.steps[k].tx].rows
    ensures id !in Ever(r.states[n]) && !Logged(r.states[n].log, id)
  {
    Reachable(r, k);
    StepOf(r, k);
    RollbackKills(r.states[k], r.steps[k].tx, id);
    DeadForever(r, k + 1, n, id);
    DeadNotLogged(r, n, id);
  }

  lemma {:induction false} EveryUserWasBorn(r: Run, k: nat, n: nat, u: Uuid) returns (c: nat)
    requires Execution(r) && k <= n < |r.states| && u !in r.states[k].users && u in r.states[n].users
    ensures k <= c < n && r.steps[c].RegCommit? && u in CommittedReg(r, c).users
    decreases n
  {
    if u in r.states[n - 1].users {
      c := EveryUserWasBorn(r, k, n - 1, u);
    } else {
      Reachable(r, n - 1);
      StepOf(r, n - 1);
      if !r.steps[n - 1].RegCommit? {
        SameUsers(r.states[n - 1], r.steps[n - 1]);
        assert false;
      }
      c := n - 1;
    }
  }

  lemma OpensOnlyNew(s: State, step: Step, tx: TxId)
    requires Enabled(s, step) && tx < s.nextTx && tx !in s.regs
    ensures tx < Apply(s, step).nextTx && tx !in Apply(s, step).regs
  {
  }

  // Transaction ids are used once.
  lemma {:induction false} ClosedForGood(r: Run, k: nat, n: nat, tx: TxId)
    requires IsRun(r) && k <= n < |r.states| && tx < r.states[k].nextTx && tx !in r.states[k].regs
    ensures tx < r.states[n].nextTx && tx !in r.states[n].regs
    decreases n
  {
    if k < n {
      ClosedForGood(r, k, n - 1, tx);
      StepOf(r, n - 1);
      OpensOnlyNew(r.states[n - 1], r.steps[n - 1], tx);
    }
  }

  // Nor is its user committed later, unless another registration inserted that user and committed it.
  lemma AbortLeavesNoUser(r: Run, k: nat, n: nat, u: Uuid) returns (c: nat)
    requires Execution(r) && k + 1 <= n < |r.states| && r.steps[k].RegRollback?
    requires r.steps[k].tx in r.states[k].regs && u in r.states[k].regs[r.steps[k].tx].users
    requires u in r.states[n].users
    ensures k < c < n && r.steps[c].RegCommit? && r.steps[c].tx != r.steps[k].tx && u in CommittedReg(r, c).users
  {
    var tx := r.steps[k].tx;
    Reachable(r, k);
    StepOf(r, k);
    assert RegUsersOk(r.states[k].users, r.states[k].regs[tx]);
    c := EveryUserWasBorn(r, k + 1, n, u);
    ClosedForGood(r, k + 1, c, tx);
    StepOf(r, c);
  }
}
