/**
 The write path: aggregates that record events, a tracker that drains them, and a unit of
 work that appends the drained events to the outbox inside the business transaction.
 Aggregates are objects and may be aliased; the cluster is shared with everyone else.
 */
module Registration {
  import opened Wrappers
  import opened Ordering
  import opened Wire
  import opened Protocol
  import opened Invariant
  import opened Safety
  import opened Stamps
  import opened Clusters

  // ---------------------------------------------------------------- the domain

  const NIL_UUID := Uuid("00000000-0000-0000-0000-000000000000")
  const AGGREGATE_TYPE_USER := "User"
  const EVENT_TYPE_USER_REGISTERED := "com.outboxexpress.accounts.user.registered"

  datatype Event =
    | UserRegistered(userId: Uuid, email: Email, displayName: string, version: int, registeredAt: Instant)
    | OtherEvent(eventType: string, aggregateType: string, aggregateId: Uuid, occurredAt: Instant)

  datatype DomainError = InvalidId | InvalidEmail | InvalidDisplayName

  // An aggregate with its event recorder embedded.
  class User {
    const id: Uuid
    const email: Email
    const displayName: string
    const version: int
    const createdAt: Instant
    var events: seq<Event>

    constructor (id: Uuid, email: Email, displayName: string, now: Instant)
      ensures this.id == id && this.email == email && this.displayName == displayName
      ensures version == 1 && createdAt == now && events == []
    {
      this.id, this.email, this.displayName := id, email, displayName;
      version, createdAt, events := 1, now, [];
    }

    // The one event of a newly registered user.
    function Registration(): Event {
      UserRegistered(id, email, displayName, version, createdAt)
    }

    method Record(e: Event)
      modifies this`events
      ensures events == old(events) + [e]
    {
      events := events + [e];
    }

    method PullEvents() returns (pulled: seq<Event>)
      modifies this`events
      ensures pulled == old(events) && events == []
    {
      pulled := events;
      events := [];
    }
  }

  // The first check that fails.
  function RegistrationError(id: Uuid, email: Result<Email, DomainError>, displayName: Result<string, DomainError>)
    : DomainError
    requires id == NIL_UUID || email.Err? || displayName.Err?
  {
    if id == NIL_UUID then InvalidId else if email.Err? then email.error else displayName.error
  }

  // Register: no I/O; a user that exists has recorded exactly the fact that it registered.
  method Register(id: Uuid, email: Result<Email, DomainError>, displayName: Result<string, DomainError>, now: Instant)
    returns (r: Result<User, DomainError>)
    ensures r.Ok? <==> id != NIL_UUID && email.Ok? && displayName.Ok?
    ensures r.Ok? ==> fresh(r.value) && r.value.id == id && r.value.email == email.value
                      && r.value.displayName == displayName.value && r.value.createdAt == now
                      && r.value.version == 1
                      && r.value.events == [UserRegistered(id, email.value, displayName.value, 1, now)]
    ensures r.Err? ==> r.error == RegistrationError(id, email, displayName)
    ensures id == NIL_UUID ==> r == Err(InvalidId)
    ensures id != NIL_UUID && email.Err? ==> r == Err(email.error)
    ensures id != NIL_UUID && email.Ok? && displayName.Err? ==> r == Err(displayName.error)
  {
    if id == NIL_UUID {
      return Err(InvalidId);
    }
    if email.Err? {
      return Err(email.error);
    }
    if displayName.Err? {
      return Err(displayName.error);
    }
    var u := new User(id, email.value, displayName.value, now);
    u.Record(u.Registration());
    r := Ok(u);
  }

  // ---------------------------------------------------------------- the tracker

  // Each aggregate's events once, at its first mention, in the order of first mention.
  ghost function Pulled(users: seq<User>): seq<Event>
    reads users
  {
    if users == [] then []
    else
      var n := |users| - 1;
      Pulled(users[..n]) + if users[n] in users[..n] then [] else users[n].events
  }

  class Tracker {
    var aggregates: seq<User>

    constructor ()
      ensures aggregates == []
    {
      aggregates := [];
    }

    method Track(u: User)
      modifies this
      ensures aggregates == old(aggregates) + [u]
    {
      aggregates := aggregates + [u];
    }

    // A second mention of the same object finds it drained already, so nothing is emitted twice.
    method Drain() returns (events: seq<Event>)
      modifies this, aggregates
      ensures events == old(Pulled(aggregates))
      ensures aggregates == []
      ensures forall u :: u in old(aggregates) ==> u.events == []
    {
      events := [];
      ghost var all := aggregates;
      for i := 0 to |aggregates|
        invariant aggregates == all
        invariant events == old(Pulled(all[..i]))
        invariant forall u :: u in all[..i] ==> u.events == []
        invariant forall u :: u in all && u !in all[..i] ==> u.events == old(u.events)
      {
        assert all[..i + 1][..i] == all[..i];
        var pulled := aggregates[i].PullEvents();
        events := events + pulled;
      }
      assert all[..|all|] == all;
      aggregates := [];
    }
  }

  lemma {:induction false} PulledMembers(users: seq<User>, e: Event)
    ensures e in Pulled(users) <==> exists u :: u in users && e in u.events
  {
    if users != [] {
      var n := |users| - 1;
      PulledMembers(users[..n], e);
      assert forall u :: u in users <==> u in users[..n] || u == users[n];
    }
  }

  // Pulling the registrations of distinct users gives one event each, in order.
  ghost function Registrations(users: seq<User>): seq<Event> {
    seq(|users|, i requires 0 <= i < |users| => users[i].Registration())
  }

  lemma {:induction false} PulledRegistrations(users: seq<User>)
    requires forall u :: u in users ==> u.events == [u.Registration()]
    requires forall i, j :: 0 <= i < j < |users| ==> users[i] != users[j]
    ensures Pulled(users) == Registrations(users)
  {
    if users != [] {
      var n := |users| - 1;
      PulledRegistrations(users[..n]);
      assert users[n] !in users[..n];
      assert Registrations(users) == Registrations(users[..n]) + [users[n].Registration()];
    }
  }

  // ---------------------------------------------------------------- envelopes

  datatype Metadata = Metadata(correlationId: string, traceparent: string)

  datatype RegisterError =
    | Domain(cause: DomainError)
    | IdUnavailable
    | EmailTaken
    | UnmappedEvent(event: Event)
    | StatementFailed
    | BeginFailed
    | CommitFailed

  const HEADER_CORRELATION_ID := "correlation_id"
  const HEADER_TRACEPARENT := "traceparent"

  // Each of the two is stored exactly when it is not empty, and nothing else is.
  predicate Stores(h: map<string, string>, meta: Metadata) {
    && ("correlation_id" in h <==> meta.correlationId != "")
    && ("correlation_id" in h ==> h["correlation_id"] == meta.correlationId)
    && ("traceparent" in h <==> meta.traceparent != "")
    && ("traceparent" in h ==> h["traceparent"] == meta.traceparent)
    && h.Keys <= {"correlation_id", "traceparent"}
  }

  // What has no column of its own.
  method StoredHeaders(meta: Metadata) returns (h: map<string, string>)
    ensures Stores(h, meta)
  {
    h := map[];
    if meta.correlationId != "" {
      h := h[HEADER_CORRELATION_ID := meta.correlationId];
    }
    if meta.traceparent != "" {
      h := h[HEADER_TRACEPARENT := meta.traceparent];
    }
  }

  // Correlation and trace can be read back from the stored headers, and determine them.
  lemma StoredHeadersAreLossless(h: map<string, string>, meta: Metadata, h': map<string, string>, meta': Metadata)
    requires Stores(h, meta) && Stores(h', meta')
    ensures h == h' <==> meta == meta'
  {
    if meta == meta' {
      assert h.Keys == h'.Keys;
    }
  }

  const SOURCE := "/services/accounts"
  const DATA_SCHEMA := "https://schemas.outboxexpress.dev/accounts/user.registered/1.json"

  // The envelope announces this event: routing columns from the event, one id on row and payload, all
  // that happened in the payload's data, the command's correlation and trace in the stored headers.
  predicate Announces(env: Envelope, e: Event, meta: Metadata) {
    && e.UserRegistered? && Stores(env.headers, meta)
    && env.aggregateType == "User" && env.aggregateId == e.userId
    && env.eventType == "com.outboxexpress.accounts.user.registered" && env.schemaVersion == 1
    && env.occurredAt == e.registeredAt
    && env.payload == Payload(env.eventId, env.eventType, "/services/accounts", e.userId.text, e.registeredAt,
                              "https://schemas.outboxexpress.dev/accounts/user.registered/1.json", meta.traceparent,
                              UserData(e.userId.text, e.email.address, e.displayName, e.version, e.registeredAt))
  }

  function EncodeCloudEvent(e: Event, id: Uuid, traceparent: string): Payload
    requires e.UserRegistered?
  {
    Payload(id, EVENT_TYPE_USER_REGISTERED, SOURCE, e.userId.text, e.registeredAt, DATA_SCHEMA, traceparent,
            UserData(e.userId.text, e.email.address, e.displayName, e.version, e.registeredAt))
  }

  // One id on the row and on the payload.
  function Announcement(e: Event, id: Uuid, headers: map<string, string>, traceparent: string): (env: Envelope)
    requires e.UserRegistered?
    ensures env.eventId == id
    ensures forall meta :: Stores(headers, meta) && meta.traceparent == traceparent ==> Announces(env, e, meta)
  {
    Envelope(id, AGGREGATE_TYPE_USER, e.userId, EVENT_TYPE_USER_REGISTERED, 1, EncodeCloudEvent(e, id, traceparent),
             headers, e.registeredAt)
  }

  // ---------------------------------------------------------------- repositories in a transaction

  // The registration transaction tx, with this record, in this state.
  ghost predicate RegOpen(s: State, tx: TxId, reg: RegTx) {
    tx in s.regs && s.regs[tx] == reg
  }

  // A committed user, or one that this transaction has inserted, has the address.
  predicate Taken(s: State, tx: TxId, email: Email)
    requires tx in s.regs
  {
    (exists v :: v in s.users && s.users[v] == email)
    || (exists v :: v in s.regs[tx].users && s.regs[tx].users[v] == email)
  }

  // The two unique keys: neither the id nor the address is in use, by a committed user or one that an open
  // transaction has inserted.
  lemma KeysNotInUse(s: State, tx: TxId, user: Uuid, email: Email)
    requires tx in s.regs
    ensures UserIsNew(s, user, email)
            <==> && user !in s.users.Keys && email !in s.users.Values
                 && forall t :: t in s.regs ==> user !in s.regs[t].users.Keys && email !in s.regs[t].users.Values
    ensures Taken(s, tx, email) <==> email in s.users.Values + s.regs[tx].users.Values
  {
  }

  // What becomes of an INSERT that has nobody left to wait for, or has stopped waiting.
  function InsertError(s: State, tx: TxId, user: Uuid, email: Email): (err: Option<RegisterError>)
    requires tx in s.regs
    ensures err.None? <==> UserIsNew(s, user, email)
    ensures err == Some(EmailTaken) <==> user !in s.users && user !in s.regs[tx].users && Taken(s, tx, email)
    ensures err.Some? ==> err.value == EmailTaken || err.value == StatementFailed
  {
    if user in s.users || user in s.regs[tx].users then Some(StatementFailed)
    else if !Accepts(s.users, user, email) || !Accepts(s.regs[tx].users, user, email) then Some(EmailTaken)
    else if !UserIsNew(s, user, email) then Some(StatementFailed)
    else None
  }

  // Between the two states nobody but tx has moved, and it has not committed.
  ghost predicate Alone(s: State, t: State, tx: TxId) {
    && t.users == s.users
    && (forall v :: v in t.regs && v != tx ==> v in s.regs && t.regs[v] == s.regs[v])
    && (tx in s.regs ==> tx in t.regs && s.regs[tx].rows.Keys <= t.regs[tx].rows.Keys)
    && (forall id :: id in t.journal ==>
          || (id in s.journal && t.journal[id] == s.journal[id])
          || (tx in t.regs && id in t.regs[tx].rows))
  }

  // What an undisturbed stretch of calls, from beat `from` up to beat `to`, leaves of everyone else.
  ghost predicate LeftAlone(script: nat -> Beat, from: nat, to: nat, s: State, t: State, tx: TxId) {
    from <= to && (Undisturbed(script, from, to) ==> Alone(s, t, tx))
  }

  lemma LeftAloneLonger(script: nat -> Beat, from: nat, since: nat, to: nat, s: State, t: State, u: State, tx: TxId)
    requires LeftAlone(script, from, since, s, t, tx) && LeftAlone(script, since, to, t, u, tx)
    ensures LeftAlone(script, from, to, s, u, tx)
  {
  }

  lemma AloneAtOnce(script: nat -> Beat, from: nat, s: State, tx: TxId)
    ensures LeftAlone(script, from, from, s, s, tx)
  {
  }

  lemma OwnStepAlone(s: State, step: Step, tx: TxId)
    requires Enabled(s, step) && (step.RegInsertUser? || step.RegAppend?) && step.tx == tx
    ensures Alone(s, Apply(s, step), tx)
  {
  }

  // A call that did nothing itself.
  lemma IdleCall(script: nat -> Beat, k: nat, s: State, t: State, tx: TxId)
    requires BeatAt(script, k).others == [] ==> t == s
    ensures LeftAlone(script, k, k + 1, s, t, tx)
  {
    assert Undisturbed(script, k, k + 1) ==> Calm(BeatAt(script, k));
  }

  // A call that took this step after the others had moved.
  lemma OwnCall(script: nat -> Beat, k: nat, s: State, mid: State, step: Step, tx: TxId)
    requires BeatAt(script, k).others == [] ==> mid == s
    requires Enabled(mid, step) && (step.RegInsertUser? || step.RegAppend?) && step.tx == tx
    ensures LeftAlone(script, k, k + 1, s, Apply(mid, step), tx)
  {
    assert Undisturbed(script, k, k + 1) ==> Calm(BeatAt(script, k));
    OwnStepAlone(mid, step, tx);
  }

  class UserRepository {
    const cluster: Cluster
    const tx: TxId
    const tracker: Tracker

    constructor (cluster: Cluster, tx: TxId, tracker: Tracker)
      ensures this.cluster == cluster && this.tx == tx && this.tracker == tracker
    {
      this.cluster, this.tx, this.tracker := cluster, tx, tracker;
    }

    // INSERT, then track - and track only what was inserted. The others move while the INSERT waits for
    // a key that another open transaction holds; if one still holds it when the statement returns, then
    // it returns an error. A violation of the email's unique constraint is the domain's ErrEmailTaken;
    // the primary key is checked first.
    method Save(u: User) returns (err: Option<RegisterError>)
      requires cluster.Valid() && tx in cluster.state.regs
      modifies cluster`state, cluster`run, cluster`cursor, cluster`calm, tracker
      ensures cluster.Valid() && Continues(old(cluster.run), cluster.run)
      ensures tx in cluster.state.regs
      ensures var reg := old(cluster.state.regs[tx]);
        if err.None? then
          && Accepts(reg.users, u.id, u.email)
          && RegOpen(cluster.state, tx, reg.(users := reg.users[u.id := u.email]))
          && tracker.aggregates == old(tracker.aggregates) + [u]
        else
          RegOpen(cluster.state, tx, reg) && tracker.aggregates == old(tracker.aggregates)
      ensures err.Some? ==> err.value == StatementFailed || err.value == EmailTaken
      ensures err == Some(EmailTaken) <==>
        && !BeatAt(cluster.script, old(cluster.cursor)).fails
        && u.id !in cluster.state.users && u.id !in cluster.state.regs[tx].users
        && Taken(cluster.state, tx, u.email)
      ensures err == Some(StatementFailed) ==>
        BeatAt(cluster.script, old(cluster.cursor)).fails || !UserIsNew(cluster.state, u.id, u.email)
      ensures err.None? ==> !BeatAt(cluster.script, old(cluster.cursor)).fails
      ensures cluster.cursor == old(cluster.cursor) + 1
      ensures LeftAlone(cluster.script, old(cluster.cursor), cluster.cursor, old(cluster.state), cluster.state, tx)
    {
      ghost var before, k := cluster.state, cluster.cursor;
      var beat := cluster.Draw(Some(tx));
      var s := cluster.state;
      err := if beat.fails then Some(StatementFailed) else InsertError(s, tx, u.id, u.email);
      if err.None? {
        OwnCall(cluster.script, k, before, s, RegInsertUser(tx, u.id, u.email), tx);
        cluster.Perform(RegInsertUser(tx, u.id, u.email));
        tracker.Track(u);
      } else {
        IdleCall(cluster.script, k, before, s, tx);
      }
    }
  }

  // The rows are the envelopes, under ascending ids, with the relay's columns at their defaults.
  ghost predicate InEnvelopeOrder(rows: map<RowId, Row>, ids: seq<RowId>, envelopes: seq<Envelope>, now: Instant) {
    && |ids| == |envelopes| && Ascending(ids) && rows.Keys == Elements(ids)
    && forall i :: 0 <= i < |ids| ==> ids[i] in rows && rows[ids[i]] == FreshRow(envelopes[i], now)
  }

  lemma OneMoreEnvelope(reg: RegTx, ids: seq<RowId>, envelopes: seq<Envelope>, i: nat, id: RowId)
    requires i < |envelopes| && InEnvelopeOrder(reg.rows, ids, envelopes[..i], reg.now)
    requires forall other :: other in reg.rows ==> other < id
    ensures InEnvelopeOrder(reg.rows[id := FreshRow(envelopes[i], reg.now)], ids + [id], envelopes[..i + 1], reg.now)
  {
    assert Elements(ids + [id]) == Elements(ids) + {id};
  }

  // The sequence never returns to a value: the next id lies above every row of the transaction.
  lemma NextIdIsAbove(c: Cluster, tx: TxId)
    requires c.Valid() && tx in c.state.regs
    ensures forall id :: id in c.state.regs[tx].rows ==> id < c.state.nextId
  {
    c.Holds();
    assert RegRowsOk(c.state.journal, Ever(c.state), c.state.regs[tx]);
  }

  class OutboxRepository {
    const cluster: Cluster
    const tx: TxId

    constructor (cluster: Cluster, tx: TxId)
      ensures this.cluster == cluster && this.tx == tx
    {
      this.cluster, this.tx := cluster, tx;
    }

    // One INSERT: the next id, and the relay's columns left at their defaults. A UUID that was minted
    // before is refused.
    method Insert(env: Envelope) returns (err: Option<RegisterError>, ghost id: RowId)
      requires cluster.Valid() && tx in cluster.state.regs
      modifies cluster`state, cluster`run, cluster`cursor, cluster`calm
      ensures cluster.Valid() && Continues(old(cluster.run), cluster.run)
      ensures var reg := old(cluster.state.regs[tx]);
        if err.None?
        then RegOpen(cluster.state, tx, reg.(rows := reg.rows[id := FreshRow(env, reg.now)]))
        else RegOpen(cluster.state, tx, reg)
      ensures forall other :: other in old(cluster.state.regs[tx].rows) ==> other < id
      ensures err.Some? ==>
        && err.value == StatementFailed
        && (BeatAt(cluster.script, old(cluster.cursor)).fails || !EventIsNew(cluster.state, env.eventId))
      ensures err.None? ==> !BeatAt(cluster.script, old(cluster.cursor)).fails
      ensures cluster.cursor == old(cluster.cursor) + 1
      ensures LeftAlone(cluster.script, old(cluster.cursor), cluster.cursor, old(cluster.state), cluster.state, tx)
    {
      ghost var before, k := cluster.state, cluster.cursor;
      var beat := cluster.Draw(Some(tx));
      var s := cluster.state;
      id := s.nextId;
      NextIdIsAbove(cluster, tx);
      if beat.fails || !EventIsNew(s, env.eventId) {
        IdleCall(cluster.script, k, before, s, tx);
        err := Some(StatementFailed);
      } else {
        OwnCall(cluster.script, k, before, s, RegAppend(tx, env), tx);
        cluster.Perform(RegAppend(tx, env));
        err := None;
      }
    }

    // One INSERT per envelope, so that ids ascend in envelope order; the first that fails is the last.
    method Append(envelopes: seq<Envelope>) returns (err: Option<RegisterError>, ghost ids: seq<RowId>)
      requires cluster.Valid() && tx in cluster.state.regs && cluster.state.regs[tx].rows == map[]
      modifies cluster`state, cluster`run, cluster`cursor, cluster`calm
      ensures cluster.Valid() && Continues(old(cluster.run), cluster.run)
      ensures tx in cluster.state.regs
      ensures cluster.state.regs[tx].users == old(cluster.state.regs[tx].users)
      ensures cluster.state.regs[tx].now == old(cluster.state.regs[tx].now)
      ensures |ids| <= |envelopes|
      ensures InEnvelopeOrder(cluster.state.regs[tx].rows, ids, envelopes[..|ids|], old(cluster.state.regs[tx].now))
      ensures err.None? ==> |ids| == |envelopes| && cluster.cursor == old(cluster.cursor) + |envelopes|
      ensures err.Some? ==>
        && err.value == StatementFailed && |ids| < |envelopes|
        && (Struck(cluster.script, old(cluster.cursor), cluster.cursor)
            || !EventIsNew(cluster.state, envelopes[|ids|].eventId))
      ensures LeftAlone(cluster.script, old(cluster.cursor), cluster.cursor, old(cluster.state), cluster.state, tx)
    {
      ids := [];
      ghost var from, first := cluster.cursor, cluster.state;
      AloneAtOnce(cluster.script, from, first, tx);
      for i := 0 to |envelopes|
        invariant cluster.Valid() && Continues(old(cluster.run), cluster.run)
        invariant tx in cluster.state.regs
        invariant cluster.state.regs[tx].users == old(cluster.state.regs[tx].users)
        invariant cluster.state.regs[tx].now == old(cluster.state.regs[tx].now)
        invariant InEnvelopeOrder(cluster.state.regs[tx].rows, ids, envelopes[..i], old(cluster.state.regs[tx].now))
        invariant cluster.cursor == from + i && |ids| == i
        invariant LeftAlone(cluster.script, from, cluster.cursor, first, cluster.state, tx)
      {
        ghost var before, since, reg, id := cluster.state, cluster.cursor, cluster.state.regs[tx], 0;
        err, id := Insert(envelopes[i]);
        LeftAloneLonger(cluster.script, from, since, cluster.cursor, first, before, cluster.state, tx);
        if err.Some? {
          LastBeat(cluster.script, from, since, cluster.cursor);
          return;
        }
        OneMoreEnvelope(reg, ids, envelopes, i, id);
        ids := ids + [id];
      }
      err := None;
    }
  }

  // ---------------------------------------------------------------- the unit of work

  // How a registration transaction ended, for use in specifications: begun before beat `begun`, its
  // work done, or given up, in state number `met`, and ended by step `at` of the run.
  datatype RegEnd = NotBegun | Ended(tx: TxId, reg: RegTx, begun: nat, met: nat, at: nat)

  ghost predicate EndedBy(run: Run, end: RegEnd) {
    && end.Ended? && IsRun(run) && end.met <= end.at < |run.steps|
    && RegOpen(run.states[end.met], end.tx, end.reg) && RegOpen(run.states[end.at], end.tx, end.reg)
    && (run.steps[end.at] == RegCommit(end.tx) || run.steps[end.at] == RegRollback(end.tx))
  }

  // The transaction inserted exactly these users, each once.
  ghost predicate Registers(reg: RegTx, users: seq<User>) {
    && (forall i :: 0 <= i < |users| ==> users[i].id in reg.users && reg.users[users[i].id] == users[i].email)
    && (forall id :: id in reg.users ==> exists i :: 0 <= i < |users| && users[i].id == id)
    && (forall i, j :: 0 <= i < j < |users| ==> users[i].id != users[j].id)
  }

  // Its rows announce exactly these events, in order.
  ghost predicate Announced(reg: RegTx, ids: seq<RowId>, events: seq<Event>, meta: Metadata) {
    && |ids| == |events| && Ascending(ids) && reg.rows.Keys == Elements(ids)
    && forall i :: 0 <= i < |ids| ==>
         ids[i] in reg.rows && Announces(reg.rows[ids[i]].envelope, events[i], meta)
         && reg.rows[ids[i]] == FreshRow(reg.rows[ids[i]].envelope, reg.now)
  }

  // The transaction has inserted the users and announced these events, and the aggregates hold
  // none any more.
  ghost predicate Drained(reg: RegTx, ids: seq<RowId>, users: seq<User>, events: seq<Event>, meta: Metadata)
    reads users
  {
    Registers(reg, users) && Announced(reg, ids, events, meta) && forall u :: u in users ==> u.events == []
  }

  // An aggregate records facts about itself only.
  ghost predicate OwnFacts(users: seq<User>)
    reads users
  {
    forall u, e :: u in users && e in u.events && e.UserRegistered? ==> e.userId == u.id
  }

  // ---------------------------------------------------------------- what makes it fail

  // The first i users are inserted, and the next one's key is in use.
  ghost predicate KeyInUse(met: State, tx: TxId, work: seq<User>, i: nat)
    requires i < |work|
  {
    tx in met.regs && Registers(met.regs[tx], work[..i]) && !UserIsNew(met, work[i].id, work[i].email)
  }

  // Or only its address is.
  ghost predicate AddressTaken(met: State, tx: TxId, work: seq<User>, i: nat)
    requires i < |work|
  {
    && tx in met.regs && Registers(met.regs[tx], work[..i])
    && work[i].id !in met.users && work[i].id !in met.regs[tx].users && Taken(met, tx, work[i].email)
  }

  // The UUID minted for the next event, by a beat counted from `first`, has been minted before.
  ghost predicate IdRepeated(script: nat -> Beat, first: nat, met: State, tx: TxId, events: seq<Event>) {
    && tx in met.regs && |met.regs[tx].rows| < |events|
    && !EventIsNew(met, BeatAt(script, first + |met.regs[tx].rows|).id)
  }

  // Why a user could not be saved, in this state, at beat `to`.
  ghost predicate NotSaved(script: nat -> Beat, from: nat, to: nat, met: State, tx: TxId, work: seq<User>,
                           err: RegisterError)
  {
    || (err == EmailTaken && exists i :: 0 <= i < |work| && AddressTaken(met, tx, work, i))
    || (err == StatementFailed
        && (Struck(script, from, to) || exists i :: 0 <= i < |work| && KeyInUse(met, tx, work, i)))
  }

  // Why an event could not be appended.
  ghost predicate NotAppended(script: nat -> Beat, from: nat, to: nat, met: State, tx: TxId, events: seq<Event>,
                              err: RegisterError)
  {
    match err
    case IdUnavailable => Struck(script, from, to)
    case UnmappedEvent(e) => e in events && e.OtherEvent?
    case StatementFailed => Struck(script, from, to) || IdRepeated(script, from, met, tx, events)
    case _ => false
  }

  // Why the transaction, begun before beat `from`, was given up at beat `to`.
  ghost predicate GivenUp(script: nat -> Beat, from: nat, to: nat, met: State, tx: TxId, work: seq<User>,
                          events: seq<Event>, err: RegisterError)
  {
    || NotSaved(script, from, to, met, tx, work, err)
    || (from + |work| <= to && NotAppended(script, from + |work|, to, met, tx, events, err))
  }

  // How the transaction's last step, the COMMIT's reply and what is reported go together; what is
  // reported is either the COMMIT's failure or the reason for giving up.
  ghost predicate Explained(run: Run, script: nat -> Beat, to: nat, end: RegEnd, err: Option<RegisterError>,
                            work: seq<User>, events: seq<Event>)
    requires EndedBy(run, end)
  {
    && end.begun < to
    && var reply := BeatAt(script, to - 1).commit;
       if err.None? then reply.CommitOk? && run.steps[end.at] == RegCommit(end.tx)
       else if err.value == CommitFailed then
         && reply.CommitError?
         && run.steps[end.at] == (if reply.applied then RegCommit(end.tx) else RegRollback(end.tx))
       else
         && run.steps[end.at] == RegRollback(end.tx)
         && GivenUp(script, end.begun, to - 1, run.states[end.met], end.tx, work, events, err.value)
  }

  lemma ExtendUsers(reg: RegTx, work: seq<User>, i: nat)
    requires i < |work| && Registers(reg, work[..i]) && Accepts(reg.users, work[i].id, work[i].email)
    ensures Registers(reg.(users := reg.users[work[i].id := work[i].email]), work[..i + 1])
    ensures work[..i + 1] == work[..i] + [work[i]]
  {
    var saved, more, u := work[..i], work[..i + 1], work[i];
    assert more == saved + [u];
    var users := reg.users[u.id := u.email];
    forall id | id in users
      ensures exists j :: 0 <= j < |more| && more[j].id == id
    {
      if id == u.id {
        assert more[|saved|].id == id;
      } else {
        var j :| 0 <= j < |saved| && saved[j].id == id;
        assert more[j].id == id;
      }
    }
  }

  // The transaction has a row for this user exactly when its events were among the announced ones.
  lemma RowForUser(reg: RegTx, ids: seq<RowId>, events: seq<Event>, meta: Metadata, user: Uuid, held: seq<Event>)
    requires Announced(reg, ids, events, meta)
    requires forall e :: e in events && e.UserRegistered? && e.userId == user ==> e in held
    requires forall e :: e in held ==> e in events && (e.UserRegistered? ==> e.userId == user)
    ensures HasRowFor(reg, user) <==> held != []
  {
    if held != [] {
      assert held[0] in events;
      var i :| 0 <= i < |events| && events[i] == held[0];
      assert ids[i] in reg.rows && reg.rows[ids[i]].envelope.aggregateId == user;
    }
    if HasRowFor(reg, user) {
      var id :| id in reg.rows && reg.rows[id].envelope.aggregateId == user;
      assert id in Elements(ids);
      var i :| 0 <= i < |ids| && ids[i] == id;
      assert events[i] in events && events[i] in held;
    }
  }

  lemma NothingHeld(u: User)
    requires u.events == []
    ensures Pulled([u]) == []
  {
    assert [u][..0] == [];
  }

  // Every inserted user has a row when each of these has.
  lemma CompleteWhenAll(reg: RegTx, users: seq<User>)
    requires Registers(reg, users)
    ensures Complete(reg) <==> forall u :: u in users ==> HasRowFor(reg, u.id)
  {
    if Complete(reg) {
      forall u | u in users
        ensures HasRowFor(reg, u.id)
      {
        var i :| 0 <= i < |users| && users[i] == u;
        assert u.id in reg.users;
      }
    }
    if forall u :: u in users ==> HasRowFor(reg, u.id) {
      forall id | id in reg.users
        ensures HasRowFor(reg, id)
      {
        var i :| 0 <= i < |users| && users[i].id == id;
        assert users[i] in users;
      }
    }
  }

  // What each aggregate holds, as a value.
  ghost function Held(users: seq<User>): (held: map<User, seq<Event>>)
    reads users
  {
    map u | u in users :: u.events
  }

  // The events are those that these aggregates held, each about its own.
  ghost predicate HeldBy(events: seq<Event>, users: seq<User>, held: map<User, seq<Event>>) {
    && (forall u :: u in users ==> u in held)
    && (forall u, e :: u in users && e in held[u] ==> e in events)
    && (forall e :: e in events ==> exists u :: u in users && e in held[u] && (e.UserRegistered? ==> e.userId == u.id))
    && (forall u, e :: u in users && e in held[u] && e.UserRegistered? ==> e.userId == u.id)
  }

  lemma PulledAreHeld(users: seq<User>)
    requires OwnFacts(users)
    ensures HeldBy(Pulled(users), users, Held(users))
  {
    forall e: Event
      ensures e in Pulled(users) <==> exists u :: u in users && e in u.events
    {
      PulledMembers(users, e);
    }
  }

  lemma EventOfUser(reg: RegTx, events: seq<Event>, users: seq<User>, held: map<User, seq<Event>>, u: User, e: Event)
    requires Registers(reg, users) && HeldBy(events, users, held)
    requires u in users && e in events && e.UserRegistered? && e.userId == u.id
    ensures e in held[u]
  {
    var v :| v in users && e in held[v] && e.userId == v.id;
    var i :| 0 <= i < |users| && users[i] == u;
    var j :| 0 <= j < |users| && users[j] == v;
    assert i == j;
  }

  // Every inserted user has an event row exactly when each aggregate still held an event.
  lemma CompleteExactly(reg: RegTx, ids: seq<RowId>, events: seq<Event>, users: seq<User>,
                        held: map<User, seq<Event>>, meta: Metadata)
    requires Registers(reg, users) && Announced(reg, ids, events, meta) && HeldBy(events, users, held)
    ensures Complete(reg) <==> forall u :: u in users ==> held[u] != []
  {
    forall u | u in users
      ensures HasRowFor(reg, u.id) <==> held[u] != []
    {
      forall e | e in events && e.UserRegistered? && e.userId == u.id
        ensures e in held[u]
      {
        EventOfUser(reg, events, users, held, u, e);
      }
      RowForUser(reg, ids, events, meta, u.id, held[u]);
    }
    CompleteWhenAll(reg, users);
  }

  lemma OnlyUser(reg: RegTx, u: User)
    requires Registers(reg, [u])
    ensures reg.users == map[u.id := u.email]
  {
    assert [u][0] == u;
    forall id | id in reg.users
      ensures id == u.id
    {
      var i :| 0 <= i < |[u]| && [u][i].id == id;
    }
  }

  lemma UserAlone(reg: RegTx, ids: seq<RowId>, u: User, meta: Metadata)
    requires Registers(reg, [u]) && Announced(reg, ids, [], meta)
    ensures reg.users == map[u.id := u.email] && reg.rows == map[] && !Complete(reg)
  {
    OnlyUser(reg, u);
    assert reg.rows.Keys == {};
    assert u.id in reg.users && !HasRowFor(reg, u.id);
  }

  // Nothing is left of the transaction, and the others are where they were.
  ghost predicate Undone(s: State, t: State, tx: TxId) {
    t.users == s.users && tx !in t.regs && forall v :: v in t.regs ==> v in s.regs && t.regs[v] == s.regs[v]
  }

  lemma OneRegistration(user: User)
    requires user.events == [user.Registration()]
    ensures Pulled([user]) == [user.Registration()]
  {
    assert [user][..0] == [];
  }

  lemma NoneInserted(reg: RegTx)
    requires Registers(reg, [])
    ensures reg.users == map[]
  {
  }

  // Left alone, a user that was new stays so, until this transaction inserts it.
  lemma StillNew(s: State, t: State, tx: TxId, u: User)
    requires Alone(s, t, tx) && UserIsNew(s, u.id, u.email) && tx in t.regs && Registers(t.regs[tx], [])
    ensures UserIsNew(t, u.id, u.email)
  {
    NoneInserted(t.regs[tx]);
  }

  lemma CalmIsNotStruck(script: nat -> Beat, from: nat, to: nat)
    requires Undisturbed(script, from, to)
    ensures !Struck(script, from, to)
  {
    if from < to {
      assert Calm(BeatAt(script, to - 1));
    }
  }

  lemma SavedUndisturbed(script: nat -> Beat, from: nat, to: nat, s: State, met: State, tx: TxId, u: User,
                         err: RegisterError)
    requires Undisturbed(script, from, to) && Alone(s, met, tx) && UserIsNew(s, u.id, u.email)
    ensures !NotSaved(script, from, to, met, tx, [u], err)
  {
    CalmIsNotStruck(script, from, to);
    assert [u][..0] == [];
    if tx in met.regs && Registers(met.regs[tx], []) {
      StillNew(s, met, tx, u);
    }
  }

  lemma NoRowYet(s: State, t: State, tx: TxId, id: Uuid)
    requires Alone(s, t, tx) && EventIsNew(s, id) && tx in t.regs && |t.regs[tx].rows| == 0
    ensures EventIsNew(t, id)
  {
    assert t.regs[tx].rows == map[];
  }

  lemma AppendedUndisturbed(script: nat -> Beat, from: nat, to: nat, s: State, met: State, tx: TxId,
                            events: seq<Event>, err: RegisterError)
    requires Undisturbed(script, from, to) && Alone(s, met, tx) && |events| <= 1
    requires forall e :: e in events ==> e.UserRegistered?
    requires events != [] ==> EventIsNew(s, BeatAt(script, from).id)
    ensures !NotAppended(script, from, to, met, tx, events, err)
  {
    CalmIsNotStruck(script, from, to);
    if tx in met.regs && events != [] && |met.regs[tx].rows| == 0 {
      NoRowYet(s, met, tx, BeatAt(script, from).id);
    }
  }

  // Undisturbed, the registration of a new user that holds at most one event is not given up.
  lemma CarriedOn(script: nat -> Beat, begun: nat, to: nat, s: State, met: State, tx: TxId, u: User,
                  events: seq<Event>, id: Uuid, err: RegisterError)
    requires Undisturbed(script, begun, to) && Alone(s, met, tx) && UserIsNew(s, u.id, u.email) && |events| <= 1
    requires forall e :: e in events ==> e.UserRegistered?
    requires events != [] ==> EventIsNew(s, id) && BeatAt(script, begun + 1).id == id
    ensures !GivenUp(script, begun, to, met, tx, [u], events, err)
  {
    SavedUndisturbed(script, begun, to, s, met, tx, u, err);
    AppendedUndisturbed(script, begun + 1, to, s, met, tx, events, err);
    assert |[u]| == 1;
  }

  // Nobody disturbs these calls, the first COMMIT fails without having been applied, and the second
  // succeeds.
  ghost predicate LosesCommit(script: nat -> Beat, from: nat, s: State, u: User) {
    && (forall k :: from <= k ==> Calm(BeatAt(script, k)))
    && BeatAt(script, from + 4).commit == CommitError(false) && BeatAt(script, from + 7).commit == CommitOk
    && UserIsNew(s, u.id, u.email) && EventIsNew(s, BeatAt(script, from + 2).id)
  }

  ghost predicate CommitsNext(script: nat -> Beat, from: nat) {
    (forall k :: from <= k ==> Calm(BeatAt(script, k))) && BeatAt(script, from + 2).commit == CommitOk
  }

  lemma FirstReachesCommit(run: Run, script: nat -> Beat, from: nat, to: nat, end: RegEnd, err: Option<RegisterError>,
                           u: User, s: State)
    requires LosesCommit(script, from, s, u) && end.Ended? && end.begun == from + 1
    requires EndedBy(run, end) && Explained(run, script, to, end, err, [u], [u.Registration()])
    requires Alone(s, run.states[end.met], end.tx)
    ensures err.None? || err == Some(CommitFailed)
  {
    if err.Some? && err.value != CommitFailed {
      assert Undisturbed(script, end.begun, to - 1);
      CarriedOn(script, end.begun, to - 1, s, run.states[end.met], end.tx, u, [u.Registration()],
                BeatAt(script, from + 2).id, err.value);
    }
  }

  // What an undisturbed transaction leaves of everyone else: up to its end, and if it rolls back.
  ghost predicate Isolated(run: Run, script: nat -> Beat, from: nat, to: nat, end: RegEnd, s: State, t: State)
    requires EndedBy(run, end)
  {
    Undisturbed(script, from, to) ==>
      Alone(s, run.states[end.met], end.tx) && (run.steps[end.at] == RegRollback(end.tx) ==> Undone(s, t, end.tx))
  }

  // The first attempt ends in the failed COMMIT, and leaves the user as new as it was.
  lemma FirstAttempt(run: Run, script: nat -> Beat, from: nat, to: nat, end: RegEnd, err: Option<RegisterError>,
                     u: User, s: State, t: State)
    requires LosesCommit(script, from, s, u) && end.Ended? && end.begun == from + 1
    requires EndedBy(run, end) && Explained(run, script, to, end, err, [u], [u.Registration()])
    requires Isolated(run, script, from, to, end, s, t)
    requires err.None? || err == Some(CommitFailed) ==> to == from + 5
    ensures err == Some(CommitFailed) && UserIsNew(t, u.id, u.email) && CommitsNext(script, to)
  {
    assert Undisturbed(script, from, to);
    FirstReachesCommit(run, script, from, to, end, err, u, s);
  }

  // And the second commits.
  lemma SecondAttempt(run: Run, script: nat -> Beat, from: nat, to: nat, end: RegEnd, err: Option<RegisterError>,
                      u: User, t: State, t': State)
    requires CommitsNext(script, from)
    requires end.Ended? && end.begun == from + 1
    requires EndedBy(run, end) && Explained(run, script, to, end, err, [u], [])
    requires Isolated(run, script, from, to, end, t, t') && UserIsNew(t, u.id, u.email)
    requires err.None? || err == Some(CommitFailed) ==> to == from + 3
    ensures err.None?
  {
    assert Undisturbed(script, from, to);
    if err.Some? && err.value != CommitFailed {
      CarriedOn(script, end.begun, to - 1, t, run.states[end.met], end.tx, u, [], BeatAt(script, from).id, err.value);
    }
  }

  lemma EndIsolated(run: Run, script: nat -> Beat, from: nat, since: nat, to: nat, end: RegEnd, s: State,
                    given: State, t: State)
    requires EndedBy(run, end) && since < to
    requires LeftAlone(script, from, since, s, given, end.tx) && run.states[end.met] == given
    requires BeatAt(script, since).others == [] && run.steps[end.at] == RegRollback(end.tx) ==>
      t == given.(regs := given.regs - {end.tx})
    ensures Isolated(run, script, from, to, end, s, t)
  {
    assert Undisturbed(script, from, to) ==> Calm(BeatAt(script, since));
  }

  lemma IsolatedSince(run: Run, script: nat -> Beat, from: nat, since: nat, to: nat, end: RegEnd, s: State,
                      begun: State, t: State)
    requires EndedBy(run, end) && LeftAlone(script, from, since, s, begun, end.tx) && since <= to
    requires Isolated(run, script, since, to, end, begun, t)
    ensures Isolated(run, script, from, to, end, s, t)
  {
  }

  // A BEGIN: the new transaction is nobody's yet.
  lemma BeginCall(script: nat -> Beat, k: nat, s: State, mid: State)
    requires Inv(mid) && (BeatAt(script, k).others == [] ==> mid == s)
    ensures LeftAlone(script, k, k + 1, s, Apply(mid, RegBegin(mid.nextTx)), mid.nextTx)
  {
    assert Undisturbed(script, k, k + 1) ==> Calm(BeatAt(script, k));
  }

  // One envelope for each of the first events, under the ids that the beats from `from` on minted.
  ghost predicate Mapped(script: nat -> Beat, from: nat, envelopes: seq<Envelope>, events: seq<Event>, meta: Metadata) {
    && |envelopes| <= |events|
    && forall i :: 0 <= i < |envelopes| ==>
         Announces(envelopes[i], events[i], meta) && envelopes[i].eventId == BeatAt(script, from + i).id
  }

  lemma AppendFailed(script: nat -> Beat, from: nat, since: nat, to: nat, met: State, tx: TxId, events: seq<Event>,
                     meta: Metadata, envelopes: seq<Envelope>, ids: seq<RowId>)
    requires from <= since <= to && |envelopes| == |events| && |ids| < |envelopes| && tx in met.regs
    requires Ascending(ids) && met.regs[tx].rows.Keys == Elements(ids)
    requires Mapped(script, from, envelopes, events, meta)
    requires Struck(script, since, to) || !EventIsNew(met, envelopes[|ids|].eventId)
    ensures NotAppended(script, from, to, met, tx, events, StatementFailed)
  {
    AscendingCardinality(ids);
    assert |met.regs[tx].rows| == |met.regs[tx].rows.Keys|;
  }

  lemma AppendedAnnounces(reg: RegTx, reg': RegTx, ids: seq<RowId>, script: nat -> Beat, from: nat,
                          envelopes: seq<Envelope>, work: seq<User>, events: seq<Event>, meta: Metadata)
    requires Registers(reg, work) && reg'.users == reg.users && reg'.now == reg.now
    requires InEnvelopeOrder(reg'.rows, ids, envelopes, reg.now) && |envelopes| == |events|
    requires Mapped(script, from, envelopes, events, meta)
    ensures Registers(reg', work) && Announced(reg', ids, events, meta)
  {
  }

  lemma OneMoreMapped(script: nat -> Beat, from: nat, envelopes: seq<Envelope>, events: seq<Event>, meta: Metadata,
                      env: Envelope)
    requires Mapped(script, from, envelopes, events, meta) && |envelopes| < |events|
    requires Announces(env, events[|envelopes|], meta) && env.eventId == BeatAt(script, from + |envelopes|).id
    ensures Mapped(script, from, envelopes + [env], events, meta)
  {
  }

  lemma StateStands(before: Run, after: Run)
    requires IsRun(before) && IsRun(after) && Continues(before, after)
    ensures after.states[|before.steps|] == Last(before)
  {
  }

  lemma EndExplained(run: Run, script: nat -> Beat, since: nat, to: nat, end: RegEnd, failure: Option<RegisterError>,
                     err: Option<RegisterError>, work: seq<User>, events: seq<Event>)
    requires EndedBy(run, end) && end.begun <= since && to == since + 1
    requires failure.Some? ==>
      GivenUp(script, end.begun, since, run.states[end.met], end.tx, work, events, failure.value)
    requires var reply := BeatAt(script, since).commit;
      && run.steps[end.at] == (if failure.None? && (reply.CommitOk? || reply.applied)
                               then RegCommit(end.tx) else RegRollback(end.tx))
      && err == if failure.Some? then failure else if reply.CommitOk? then None else Some(CommitFailed)
    ensures Explained(run, script, to, end, err, work, events)
    ensures err.None? || err == Some(CommitFailed) ==> failure.None?
  {
  }

  lemma GivenUpAppending(script: nat -> Beat, from: nat, since: nat, to: nat, met: State, tx: TxId, work: seq<User>,
                         events: seq<Event>, err: RegisterError)
    requires since == from + |work| && since <= to && NotAppended(script, since, to, met, tx, events, err)
    ensures GivenUp(script, from, to, met, tx, work, events, err)
  {
  }

  // The first i users are inserted and tracked, and nothing is appended yet.
  ghost predicate SavedSoFar(s: State, tx: TxId, aggregates: seq<User>, work: seq<User>, i: nat)
    requires i <= |work|
  {
    && tx in s.regs && s.regs[tx].rows == map[] && Registers(s.regs[tx], work[..i]) && aggregates == work[..i]
  }

  lemma SaveFailed(script: nat -> Beat, from: nat, to: nat, met: State, tx: TxId, work: seq<User>, i: nat,
                   err: RegisterError)
    requires i < |work| && tx in met.regs && Registers(met.regs[tx], work[..i])
    requires err == EmailTaken ==>
      work[i].id !in met.users && work[i].id !in met.regs[tx].users && Taken(met, tx, work[i].email)
    requires err == StatementFailed ==> Struck(script, from, to) || !UserIsNew(met, work[i].id, work[i].email)
    requires err == EmailTaken || err == StatementFailed
    ensures NotSaved(script, from, to, met, tx, work, err)
  {
    assert err == EmailTaken ==> AddressTaken(met, tx, work, i);
    assert err == StatementFailed ==> Struck(script, from, to) || KeyInUse(met, tx, work, i);
  }

  class UnitOfWork {
    const cluster: Cluster

    constructor (cluster: Cluster)
      ensures this.cluster == cluster
    {
      this.cluster := cluster;
    }

    // The loop of From, with the headers that all the envelopes share.
    method MapAll(tx: TxId, events: seq<Event>, h: map<string, string>, meta: Metadata)
      returns (envelopes: seq<Envelope>, err: Option<RegisterError>)
      requires cluster.Valid() && Stores(h, meta)
      modifies cluster`state, cluster`run, cluster`cursor, cluster`calm
      ensures cluster.Valid() && Continues(old(cluster.run), cluster.run)
      ensures Untouched(old(cluster.state), cluster.state, tx)
      ensures |envelopes| <= |events| && (err.None? <==> |envelopes| == |events|)
      ensures Mapped(cluster.script, old(cluster.cursor), envelopes, events, meta)
      ensures err.None? ==> cluster.cursor == old(cluster.cursor) + |events|
      ensures err.Some? ==>
        || (err.value == UnmappedEvent(events[|envelopes|]) && events[|envelopes|].OtherEvent?)
        || (err.value == IdUnavailable && Struck(cluster.script, old(cluster.cursor), cluster.cursor))
      ensures LeftAlone(cluster.script, old(cluster.cursor), cluster.cursor, old(cluster.state), cluster.state, tx)
    {
      envelopes := [];
      ghost var from, first := cluster.cursor, cluster.state;
      AloneAtOnce(cluster.script, from, first, tx);
      for i := 0 to |events|
        invariant cluster.Valid() && Continues(old(cluster.run), cluster.run)
        invariant Untouched(old(cluster.state), cluster.state, tx)
        invariant |envelopes| == i && cluster.cursor == from + i
        invariant Mapped(cluster.script, from, envelopes, events, meta)
        invariant LeftAlone(cluster.script, from, cluster.cursor, first, cluster.state, tx)
      {
        var event := events[i];
        if event.OtherEvent? {
          return envelopes, Some(UnmappedEvent(event));
        }
        ghost var before, since := cluster.state, cluster.cursor;
        var beat := cluster.Draw(Some(tx));
        IdleCall(cluster.script, since, before, cluster.state, tx);
        LeftAloneLonger(cluster.script, from, since, cluster.cursor, first, before, cluster.state, tx);
        if beat.fails {
          return envelopes, Some(IdUnavailable);
        }
        var envelope := Announcement(event, beat.id, h, meta.traceparent);
        OneMoreMapped(cluster.script, from, envelopes, events, meta, envelope);
        envelopes := envelopes + [envelope];
      }
      err := None;
    }

    // CloudEventFactory.From: one envelope per event, in order, each with an id of its own. The first
    // event it cannot map is named in the error.
    method From(tx: TxId, events: seq<Event>, meta: Metadata)
      returns (envelopes: seq<Envelope>, err: Option<RegisterError>)
      requires cluster.Valid()
      modifies cluster`state, cluster`run, cluster`cursor, cluster`calm
      ensures cluster.Valid() && Continues(old(cluster.run), cluster.run)
      ensures Untouched(old(cluster.state), cluster.state, tx)
      ensures |envelopes| <= |events| && (err.None? <==> |envelopes| == |events|)
      ensures Mapped(cluster.script, old(cluster.cursor), envelopes, events, meta)
      ensures err.None? ==> cluster.cursor == old(cluster.cursor) + |events|
      ensures err.Some? ==>
        || (err.value == UnmappedEvent(events[|envelopes|]) && events[|envelopes|].OtherEvent?)
        || (err.value == IdUnavailable && Struck(cluster.script, old(cluster.cursor), cluster.cursor))
      ensures LeftAlone(cluster.script, old(cluster.cursor), cluster.cursor, old(cluster.state), cluster.state, tx)
    {
      var h := StoredHeaders(meta);
      envelopes, err := MapAll(tx, events, h, meta);
    }

    // One turn of it.
    method SaveNext(users: UserRepository, work: seq<User>, i: nat, ghost from: nat)
      returns (err: Option<RegisterError>)
      requires cluster.Valid() && users.cluster == cluster && i < |work| && from <= cluster.cursor
      requires SavedSoFar(cluster.state, users.tx, users.tracker.aggregates, work, i)
      modifies cluster`state, cluster`run, cluster`cursor, cluster`calm, users.tracker
      ensures cluster.Valid() && Continues(old(cluster.run), cluster.run)
      ensures cluster.cursor == old(cluster.cursor) + 1
      ensures err.None? ==> SavedSoFar(cluster.state, users.tx, users.tracker.aggregates, work, i + 1)
      ensures err.Some? ==>
        && users.tx in cluster.state.regs && cluster.state.regs[users.tx].rows == map[]
        && NotSaved(cluster.script, from, cluster.cursor, cluster.state, users.tx, work, err.value)
      ensures LeftAlone(cluster.script, old(cluster.cursor), cluster.cursor, old(cluster.state), cluster.state,
                        users.tx)
    {
      ghost var reg := cluster.state.regs[users.tx];
      err := users.Save(work[i]);
      if err.Some? {
        SaveFailed(cluster.script, from, cluster.cursor, cluster.state, users.tx, work, i, err.value);
      } else {
        ExtendUsers(reg, work, i);
      }
    }

    // The use case's part of the transaction: save these users, stopping at the first error.
    method SaveAll(users: UserRepository, work: seq<User>) returns (err: Option<RegisterError>)
      requires cluster.Valid() && users.cluster == cluster && users.tx in cluster.state.regs
      requires cluster.state.regs[users.tx].users == map[] && cluster.state.regs[users.tx].rows == map[]
      requires users.tracker.aggregates == []
      modifies cluster`state, cluster`run, cluster`cursor, cluster`calm, users.tracker
      ensures cluster.Valid() && Continues(old(cluster.run), cluster.run)
      ensures users.tx in cluster.state.regs && cluster.state.regs[users.tx].rows == map[]
      ensures err.None? ==>
        && Registers(cluster.state.regs[users.tx], work) && users.tracker.aggregates == work
        && cluster.cursor == old(cluster.cursor) + |work|
      ensures err.Some? ==>
        NotSaved(cluster.script, old(cluster.cursor), cluster.cursor, cluster.state, users.tx, work, err.value)
      ensures LeftAlone(cluster.script, old(cluster.cursor), cluster.cursor, old(cluster.state), cluster.state,
                        users.tx)
    {
      ghost var from, first := cluster.cursor, cluster.state;
      AloneAtOnce(cluster.script, from, first, users.tx);
      for i := 0 to |work|
        invariant cluster.Valid() && Continues(old(cluster.run), cluster.run) && cluster.cursor == from + i
        invariant SavedSoFar(cluster.state, users.tx, users.tracker.aggregates, work, i)
        invariant LeftAlone(cluster.script, from, cluster.cursor, first, cluster.state, users.tx)
      {
        ghost var before, since := cluster.state, cluster.cursor;
        err := SaveNext(users, work, i, from);
        LeftAloneLonger(cluster.script, from, since, cluster.cursor, first, before, cluster.state, users.tx);
        if err.Some? {
          return;
        }
      }
      assert work[..|work|] == work;
      err := None;
    }

    // WithTx's ending, as for the relay: a failed COMMIT may have taken effect.
    method Finish(tx: TxId, failure: Option<RegisterError>) returns (err: Option<RegisterError>, ghost at: nat)
      requires cluster.Valid() && tx in cluster.state.regs
      modifies cluster`state, cluster`run, cluster`cursor, cluster`calm
      ensures cluster.Valid() && Continues(old(cluster.run), cluster.run) && |old(cluster.run.steps)| <= at
      ensures |cluster.run.steps| == at + 1 && RegOpen(cluster.run.states[at], tx, old(cluster.state.regs[tx]))
      ensures var reply := BeatAt(cluster.script, old(cluster.cursor)).commit;
        && cluster.run.steps[at] == (if failure.None? && (reply.CommitOk? || reply.applied)
                                     then RegCommit(tx) else RegRollback(tx))
        && err == if failure.Some? then failure else if reply.CommitOk? then None else Some(CommitFailed)
      ensures cluster.cursor == old(cluster.cursor) + 1
      ensures BeatAt(cluster.script, old(cluster.cursor)).others == [] && cluster.run.steps[at] == RegRollback(tx) ==>
        cluster.state == old(cluster.state).(regs := old(cluster.state.regs) - {tx})
    {
      var beat := cluster.Draw(Some(tx));
      at := |cluster.run.steps|;
      var commits := failure.None? && (beat.commit.CommitOk? || beat.commit.applied);
      cluster.Perform(if commits then RegCommit(tx) else RegRollback(tx));
      err := if failure.None? && !beat.commit.CommitOk? then Some(CommitFailed) else failure;
    }

    // The rows for these envelopes, which the beats from `from` on have minted.
    method AppendAll(tx: TxId, envelopes: seq<Envelope>, ghost from: nat, ghost events: seq<Event>,
                     ghost meta: Metadata, ghost work: seq<User>)
      returns (err: Option<RegisterError>, ghost ids: seq<RowId>)
      requires cluster.Valid() && tx in cluster.state.regs && cluster.state.regs[tx].rows == map[]
      requires Registers(cluster.state.regs[tx], work)
      requires Mapped(cluster.script, from, envelopes, events, meta) && |envelopes| == |events|
      requires from <= cluster.cursor
      modifies cluster`state, cluster`run, cluster`cursor, cluster`calm
      ensures cluster.Valid() && Continues(old(cluster.run), cluster.run) && tx in cluster.state.regs
      ensures err.None? ==>
        && Registers(cluster.state.regs[tx], work) && Announced(cluster.state.regs[tx], ids, events, meta)
        && cluster.cursor == old(cluster.cursor) + |events|
      ensures err.Some? ==> NotAppended(cluster.script, from, cluster.cursor, cluster.state, tx, events, err.value)
      ensures LeftAlone(cluster.script, old(cluster.cursor), cluster.cursor, old(cluster.state), cluster.state, tx)
    {
      var outbox := new OutboxRepository(cluster, tx);
      ghost var reg, since := cluster.state.regs[tx], cluster.cursor;
      err, ids := outbox.Append(envelopes);
      if err.None? {
        AppendedAnnounces(reg, cluster.state.regs[tx], ids, cluster.script, from, envelopes, work, events, meta);
      } else {
        AppendFailed(cluster.script, from, since, cluster.cursor, cluster.state, tx, events, meta, envelopes, ids);
      }
    }

    // One envelope per event, appended in the same transaction.
    method MapAndAppend(tx: TxId, events: seq<Event>, meta: Metadata, ghost work: seq<User>)
      returns (err: Option<RegisterError>, ghost ids: seq<RowId>)
      requires cluster.Valid() && tx in cluster.state.regs && cluster.state.regs[tx].rows == map[]
      requires Registers(cluster.state.regs[tx], work)
      modifies cluster`state, cluster`run, cluster`cursor, cluster`calm
      ensures cluster.Valid() && Continues(old(cluster.run), cluster.run) && tx in cluster.state.regs
      ensures err.None? ==>
        && Registers(cluster.state.regs[tx], work) && Announced(cluster.state.regs[tx], ids, events, meta)
        && cluster.cursor == old(cluster.cursor) + 2 * |events|
      ensures err.Some? ==>
        NotAppended(cluster.script, old(cluster.cursor), cluster.cursor, cluster.state, tx, events, err.value)
      ensures LeftAlone(cluster.script, old(cluster.cursor), cluster.cursor, old(cluster.state), cluster.state, tx)
    {
      ids := [];
      ghost var from, first := cluster.cursor, cluster.state;
      var envelopes;
      envelopes, err := From(tx, events, meta);
      if err.None? {
        ghost var since, mapped := cluster.cursor, cluster.state;
        err, ids := AppendAll(tx, envelopes, from, events, meta, work);
        LeftAloneLonger(cluster.script, from, since, cluster.cursor, first, mapped, cluster.state, tx);
      }
    }

    // Drain what the repositories touched, and append it, if there is anything.
    method DrainAndAppend(tx: TxId, tracker: Tracker, meta: Metadata, ghost work: seq<User>)
      returns (err: Option<RegisterError>, ghost ids: seq<RowId>)
      requires cluster.Valid() && tx in cluster.state.regs && cluster.state.regs[tx].rows == map[]
      requires tracker.aggregates == work && Registers(cluster.state.regs[tx], work)
      modifies cluster`state, cluster`run, cluster`cursor, cluster`calm, tracker, work
      ensures cluster.Valid() && Continues(old(cluster.run), cluster.run) && tx in cluster.state.regs
      ensures err.None? ==>
        && Drained(cluster.state.regs[tx], ids, work, old(Pulled(work)), meta)
        && cluster.cursor == old(cluster.cursor) + 2 * |old(Pulled(work))|
      ensures err.Some? ==>
        NotAppended(cluster.script, old(cluster.cursor), cluster.cursor, cluster.state, tx, old(Pulled(work)),
                    err.value)
      ensures LeftAlone(cluster.script, old(cluster.cursor), cluster.cursor, old(cluster.state), cluster.state, tx)
    {
      err, ids := None, [];
      var events := tracker.Drain();
      if |events| > 0 {
        err, ids := MapAndAppend(tx, events, meta, work);
      }
    }

    // The use case's work, and then the draining.
    method SaveThenAppend(users: UserRepository, meta: Metadata, work: seq<User>)
      returns (err: Option<RegisterError>, ghost ids: seq<RowId>)
      requires cluster.Valid() && users.cluster == cluster && users.tx in cluster.state.regs
      requires cluster.state.regs[users.tx].users == map[] && cluster.state.regs[users.tx].rows == map[]
      requires users.tracker.aggregates == []
      modifies cluster`state, cluster`run, cluster`cursor, cluster`calm, users.tracker, work
      ensures cluster.Valid() && Continues(old(cluster.run), cluster.run) && users.tx in cluster.state.regs
      ensures err.None? ==>
        && Drained(cluster.state.regs[users.tx], ids, work, old(Pulled(work)), meta)
        && cluster.cursor == old(cluster.cursor) + |work| + 2 * |old(Pulled(work))|
      ensures err.Some? ==>
        GivenUp(cluster.script, old(cluster.cursor), cluster.cursor, cluster.state, users.tx, work, old(Pulled(work)),
                err.value)
      ensures LeftAlone(cluster.script, old(cluster.cursor), cluster.cursor, old(cluster.state), cluster.state,
                        users.tx)
    {
      ids := [];
      ghost var from, first, pulled := cluster.cursor, cluster.state, Pulled(work);
      err := SaveAll(users, work);
      if err.None? {
        ghost var since, saved := cluster.cursor, cluster.state;
        assert Pulled(work) == pulled;
        err, ids := DrainAndAppend(users.tx, users.tracker, meta, work);
        LeftAloneLonger(cluster.script, from, since, cluster.cursor, first, saved, cluster.state, users.tx);
        if err.Some? {
          GivenUpAppending(cluster.script, from, since, cluster.cursor, cluster.state, users.tx, work, pulled,
                           err.value);
        }
      }
    }

    // What Do runs inside the transaction.
    method SaveAndAppend(tx: TxId, meta: Metadata, work: seq<User>)
      returns (err: Option<RegisterError>, ghost ids: seq<RowId>)
      requires cluster.Valid() && tx in cluster.state.regs
      requires cluster.state.regs[tx].users == map[] && cluster.state.regs[tx].rows == map[]
      modifies cluster`state, cluster`run, cluster`cursor, cluster`calm, work
      ensures cluster.Valid() && Continues(old(cluster.run), cluster.run) && tx in cluster.state.regs
      ensures err.None? ==>
        && Drained(cluster.state.regs[tx], ids, work, old(Pulled(work)), meta)
        && cluster.cursor == old(cluster.cursor) + |work| + 2 * |old(Pulled(work))|
      ensures err.Some? ==>
        GivenUp(cluster.script, old(cluster.cursor), cluster.cursor, cluster.state, tx, work, old(Pulled(work)),
                err.value)
      ensures LeftAlone(cluster.script, old(cluster.cursor), cluster.cursor, old(cluster.state), cluster.state, tx)
    {
      var tracker := new Tracker();
      var users := new UserRepository(cluster, tx, tracker);
      err, ids := SaveThenAppend(users, meta, work);
    }

    // A transaction with nothing in it, or none.
    method Begin() returns (tx: TxId, err: Option<RegisterError>)
      requires cluster.Valid()
      modifies cluster`state, cluster`run, cluster`cursor, cluster`calm
      ensures cluster.Valid() && Continues(old(cluster.run), cluster.run)
      ensures err.Some? <==> BeatAt(cluster.script, old(cluster.cursor)).fails
      ensures err.Some? ==> err.value == BeginFailed
      ensures err.None? ==> RegOpen(cluster.state, tx, RegTx(cluster.state.clock, map[], map[]))
      ensures err.None? ==> old(cluster.state.nextTx) <= tx
      ensures cluster.cursor == old(cluster.cursor) + 1
      ensures err.None? ==>
        LeftAlone(cluster.script, old(cluster.cursor), cluster.cursor, old(cluster.state), cluster.state, tx)
    {
      ghost var before, k, n := cluster.state, cluster.cursor, |cluster.run.steps|;
      var beat := cluster.Draw(None);
      if beat.fails {
        return 0, Some(BeginFailed);
      }
      tx := cluster.state.nextTx;
      NextTxGrows(cluster.run, n, |cluster.run.steps|);
      cluster.Holds();
      BeginCall(cluster.script, k, before, cluster.state);
      cluster.Perform(RegBegin(tx));
      err := None;
    }

    // The end of it, after work that began at beat `from`, in state `first`.
    method EndTransaction(tx: TxId, failure: Option<RegisterError>, ghost work: seq<User>, ghost events: seq<Event>,
                          ghost from: nat, ghost first: State)
      returns (err: Option<RegisterError>, ghost end: RegEnd)
      requires cluster.Valid() && tx in cluster.state.regs
      requires failure.Some? ==>
        && failure.value != CommitFailed
        && GivenUp(cluster.script, from, cluster.cursor, cluster.state, tx, work, events, failure.value)
      requires LeftAlone(cluster.script, from, cluster.cursor, first, cluster.state, tx)
      modifies cluster`state, cluster`run, cluster`cursor, cluster`calm
      ensures cluster.Valid() && Continues(old(cluster.run), cluster.run)
      ensures EndedBy(cluster.run, end) && |old(cluster.run.steps)| <= end.at
      ensures end.tx == tx && end.begun == from && end.reg == old(cluster.state.regs[tx])
      ensures Explained(cluster.run, cluster.script, cluster.cursor, end, err, work, events)
      ensures Isolated(cluster.run, cluster.script, from, cluster.cursor, end, first, cluster.state)
      ensures cluster.cursor == old(cluster.cursor) + 1
      ensures err.None? || err == Some(CommitFailed) ==> failure.None?
    {
      ghost var reg, worked, given, since, at := cluster.state.regs[tx], cluster.run, cluster.state, cluster.cursor, 0;
      err, at := Finish(tx, failure);
      end := Ended(tx, reg, from, |worked.steps|, at);
      StateStands(worked, cluster.run);
      EndExplained(cluster.run, cluster.script, since, cluster.cursor, end, failure, err, work, events);
      EndIsolated(cluster.run, cluster.script, from, since, cluster.cursor, end, first, given, cluster.state);
    }

    // The transaction once it has begun, to its COMMIT or ROLLBACK.
    method InTransaction(tx: TxId, meta: Metadata, work: seq<User>)
      returns (err: Option<RegisterError>, ghost end: RegEnd, ghost ids: seq<RowId>)
      requires cluster.Valid() && tx in cluster.state.regs
      requires cluster.state.regs[tx].users == map[] && cluster.state.regs[tx].rows == map[]
      modifies cluster`state, cluster`run, cluster`cursor, cluster`calm, work
      ensures cluster.Valid() && Continues(old(cluster.run), cluster.run)
      ensures EndedBy(cluster.run, end) && |old(cluster.run.steps)| <= end.at
      ensures end.tx == tx && end.begun == old(cluster.cursor)
      ensures Explained(cluster.run, cluster.script, cluster.cursor, end, err, work, old(Pulled(work)))
      ensures err.None? || err == Some(CommitFailed) ==>
        && Drained(end.reg, ids, work, old(Pulled(work)), meta)
        && cluster.cursor == old(cluster.cursor) + |work| + 2 * |old(Pulled(work))| + 1
      ensures Isolated(cluster.run, cluster.script, old(cluster.cursor), cluster.cursor, end, old(cluster.state),
                       cluster.state)
    {
      ghost var from, first := cluster.cursor, cluster.state;
      ghost var pulled := Pulled(work);
      var failure;
      failure, ids := SaveAndAppend(tx, meta, work);
      err, end := EndTransaction(tx, failure, work, pulled, from, first);
    }

    // And from its BEGIN on.
    method RunTransaction(meta: Metadata, work: seq<User>)
      returns (err: Option<RegisterError>, ghost end: RegEnd, ghost ids: seq<RowId>)
      requires cluster.Valid()
      modifies cluster`state, cluster`run, cluster`cursor, cluster`calm, work
      ensures cluster.Valid() && Continues(old(cluster.run), cluster.run)
      ensures end.NotBegun? ==>
        && err == Some(BeginFailed) && BeatAt(cluster.script, old(cluster.cursor)).fails
        && cluster.cursor == old(cluster.cursor) + 1
      ensures end.Ended? ==>
        && EndedBy(cluster.run, end) && |old(cluster.run.steps)| <= end.at
        && end.begun == old(cluster.cursor) + 1 && old(cluster.state.nextTx) <= end.tx
        && Explained(cluster.run, cluster.script, cluster.cursor, end, err, work, old(Pulled(work)))
        && Isolated(cluster.run, cluster.script, old(cluster.cursor), cluster.cursor, end, old(cluster.state),
                    cluster.state)
      ensures err.None? || err == Some(CommitFailed) ==>
        && end.Ended? && Drained(end.reg, ids, work, old(Pulled(work)), meta)
        && cluster.cursor == old(cluster.cursor) + |work| + 2 * |old(Pulled(work))| + 2
    {
      end, ids := NotBegun, [];
      ghost var from, first := cluster.cursor, cluster.state;
      var tx;
      tx, err := Begin();
      if err.None? {
        ghost var since, begun := cluster.cursor, cluster.state;
        err, end, ids := InTransaction(tx, meta, work);
        IsolatedSince(cluster.run, cluster.script, from, since, cluster.cursor, end, first, begun, cluster.state);
      }
    }

    // The business rows and their event rows commit together or not at all, whatever the aggregates
    // held. Once the COMMIT is reached, the rows announce exactly the events that were drained, and
    // nothing is left of them in the aggregates. So every inserted user has an event row if and only
    // if each aggregate still held one when this was called. An error says what went wrong: a call
    // failed, or a key, an address or a minted id was in use, or an event has no mapping.
    method Do(meta: Metadata, work: seq<User>)
      returns (err: Option<RegisterError>, ghost end: RegEnd, ghost ids: seq<RowId>)
      requires cluster.Valid()
      modifies cluster`state, cluster`run, cluster`cursor, cluster`calm, work
      ensures cluster.Valid() && Continues(old(cluster.run), cluster.run)
      ensures end.NotBegun? ==>
        && err == Some(BeginFailed) && BeatAt(cluster.script, old(cluster.cursor)).fails
        && cluster.cursor == old(cluster.cursor) + 1
      ensures end.Ended? ==>
        && EndedBy(cluster.run, end) && |old(cluster.run.steps)| <= end.at
        && end.begun == old(cluster.cursor) + 1 && old(cluster.state.nextTx) <= end.tx
        && Explained(cluster.run, cluster.script, cluster.cursor, end, err, work, old(Pulled(work)))
        && Isolated(cluster.run, cluster.script, old(cluster.cursor), cluster.cursor, end, old(cluster.state),
                    cluster.state)
      ensures err.None? || err == Some(CommitFailed) ==>
        && end.Ended? && Drained(end.reg, ids, work, old(Pulled(work)), meta)
        && cluster.cursor == old(cluster.cursor) + |work| + 2 * |old(Pulled(work))| + 2
        && (old(OwnFacts(work)) ==>
              (Complete(end.reg) <==> forall u :: u in work ==> old(u.events) != []))
    {
      ghost var pulled, held, own := Pulled(work), Held(work), OwnFacts(work);
      if own {
        PulledAreHeld(work);
      }
      err, end, ids := RunTransaction(meta, work);
      if own && (err.None? || err == Some(CommitFailed)) {
        CompleteExactly(end.reg, ids, pulled, work, held, meta);
      }
    }

    // Trying again with the same aggregate after a failed COMMIT: if that had not been applied, the
    // user is now committed, and no event says so. Nothing more than a lost COMMIT is needed for it.
    method RetryWithSameAggregate(meta: Metadata, u: User)
      returns (first: Option<RegisterError>, second: Option<RegisterError>, ghost end: RegEnd)
      requires cluster.Valid() && u.events == [u.Registration()]
      modifies cluster`state, cluster`run, cluster`cursor, cluster`calm, u
      ensures cluster.Valid() && Continues(old(cluster.run), cluster.run)
      ensures first == Some(CommitFailed) && second.None? ==>
        && EndedBy(cluster.run, end) && cluster.run.steps[end.at] == RegCommit(end.tx)
        && end.reg.users == map[u.id := u.email] && end.reg.rows == map[] && !Complete(end.reg)
      ensures LosesCommit(cluster.script, old(cluster.cursor), old(cluster.state), u) ==>
        first == Some(CommitFailed) && second.None?
    {
      ghost var ids, from, s := [], cluster.cursor, cluster.state;
      ghost var loses := LosesCommit(cluster.script, from, s, u);
      assert u in [u];
      OneRegistration(u);
      first, end, ids := Do(meta, [u]);
      if loses {
        assert !BeatAt(cluster.script, from).fails by {
          assert Calm(BeatAt(cluster.script, from));
        }
        FirstAttempt(cluster.run, cluster.script, from, cluster.cursor, end, first, u, s, cluster.state);
      }
      second := first;
      if first == Some(CommitFailed) {
        NothingHeld(u);
        ghost var since, t := cluster.cursor, cluster.state;
        second, end, ids := Do(meta, [u]);
        if loses {
          assert !BeatAt(cluster.script, since).fails by {
            assert Calm(BeatAt(cluster.script, since));
          }
          SecondAttempt(cluster.run, cluster.script, since, cluster.cursor, end, second, u, t, cluster.state);
        }
        if second.None? {
          UserAlone(end.reg, ids, u, meta);
        }
      }
    }
  }

  // It happens: from any empty tables, to any user.
  method DrainedRetry(s: State, id: Uuid, email: Email, displayName: string, eventId: Uuid, meta: Metadata)
    returns (cluster: Cluster, ghost end: RegEnd)
    requires Initial(s)
    ensures fresh(cluster) && cluster.Valid() && cluster.run.states[0] == s
    ensures EndedBy(cluster.run, end) && cluster.run.steps[end.at] == RegCommit(end.tx)
    ensures end.reg.users == map[id := email] && end.reg.rows == map[]
  {
    var script := k => Beat([], false, Acknowledged, if k == 4 then CommitError(false) else CommitOk, 1.0, 0, eventId);
    cluster := new Cluster(s, script);
    var u := new User(id, email, displayName, s.clock);
    u.Record(u.Registration());
    var uow := new UnitOfWork(cluster);
    var first, second;
    first, second, end := uow.RetryWithSameAggregate(meta, u);
  }

  // ---------------------------------------------------------------- the use case

  // The row is fresh, and announces the registration of this user.
  ghost predicate RowTells(reg: RegTx, row: RowId, user: User, meta: Metadata) {
    && row in reg.rows && reg.rows[row] == FreshRow(reg.rows[row].envelope, reg.now)
    && Announces(reg.rows[row].envelope, user.Registration(), meta)
  }

  // One step committed this user, and one row that announces it.
  ghost predicate RegisteredBy(run: Run, end: RegEnd, row: RowId, user: Uuid, email: Email, displayName: string,
                               meta: Metadata)
  {
    && end.Ended? && EndedBy(run, end) && run.steps[end.at] == RegCommit(end.tx)
    && end.reg.users == map[user := email] && end.reg.rows.Keys == {row}
    && var env := end.reg.rows[row].envelope;
       && end.reg.rows[row] == FreshRow(env, end.reg.now)
       && Announces(env, UserRegistered(user, email, displayName, 1, env.occurredAt), meta)
  }

  lemma RowIsRegistration(run: Run, end: RegEnd, row: RowId, user: User, meta: Metadata)
    requires EndedBy(run, end) && run.steps[end.at] == RegCommit(end.tx) && user.version == 1
    requires end.reg.users == map[user.id := user.email] && end.reg.rows.Keys == {row}
    requires RowTells(end.reg, row, user, meta)
    ensures RegisteredBy(run, end, row, user.id, user.email, user.displayName, meta)
    ensures end.reg.rows[row].envelope.occurredAt == user.createdAt
  {
  }

  lemma OneUserOneRow(reg: RegTx, ids: seq<RowId>, user: User, meta: Metadata)
    requires Registers(reg, [user]) && Announced(reg, ids, [user.Registration()], meta)
    ensures reg.users == map[user.id := user.email] && reg.rows.Keys == {ids[0]} && Paired(reg)
    ensures RowTells(reg, ids[0], user, meta)
  {
    OnlyUser(reg, user);
    assert [user.Registration()][0] == user.Registration();
    assert Elements(ids) == {ids[0]};
    assert ids[0] in reg.rows && reg.rows[ids[0]].envelope.aggregateId == user.id;
    assert HasRowFor(reg, user.id);
  }

  // Why a registration that has begun is reported as failed: a call failed, or in the state in which it
  // was given up the key, the address or the minted event id was in use.
  ghost predicate NotRegistered(run: Run, script: nat -> Beat, to: nat, end: RegEnd, user: Uuid, email: Email,
                                err: RegisterError)
    requires EndedBy(run, end)
  {
    && end.begun < to
    && var met := run.states[end.met];
       match err
       case CommitFailed => BeatAt(script, to - 1).commit.CommitError?
       case IdUnavailable => Struck(script, end.begun, to - 1)
       case EmailTaken => user !in met.users && end.reg.users == map[] && Taken(met, end.tx, email)
       case StatementFailed =>
         || Struck(script, end.begun, to - 1)
         || (end.reg.users == map[] && !UserIsNew(met, user, email))
         || (end.reg.rows == map[] && !EventIsNew(met, BeatAt(script, end.begun + 1).id))
       case _ => false
  }

  lemma OneNotSaved(script: nat -> Beat, from: nat, to: nat, met: State, tx: TxId, u: User, err: RegisterError)
    requires tx in met.regs && NotSaved(script, from, to, met, tx, [u], err)
    ensures err == EmailTaken || err == StatementFailed
    ensures err == EmailTaken ==> met.regs[tx].users == map[] && u.id !in met.users && Taken(met, tx, u.email)
    ensures err == StatementFailed ==>
      Struck(script, from, to) || (met.regs[tx].users == map[] && !UserIsNew(met, u.id, u.email))
  {
    assert [u][..0] == [];
    if Registers(met.regs[tx], []) {
      NoneInserted(met.regs[tx]);
    }
  }

  lemma OneNotAppended(script: nat -> Beat, from: nat, to: nat, met: State, tx: TxId, e: Event, err: RegisterError)
    requires tx in met.regs && NotAppended(script, from, to, met, tx, [e], err) && e.UserRegistered?
    ensures err == IdUnavailable || err == StatementFailed
    ensures err == IdUnavailable ==> Struck(script, from, to)
    ensures err == StatementFailed ==>
      Struck(script, from, to) || (met.regs[tx].rows == map[] && !EventIsNew(met, BeatAt(script, from).id))
  {
    assert |met.regs[tx].rows| == 0 ==> met.regs[tx].rows == map[];
  }

  lemma OneNotRegistered(run: Run, script: nat -> Beat, to: nat, end: RegEnd, u: User, err: RegisterError)
    requires EndedBy(run, end) && Explained(run, script, to, end, Some(err), [u], [u.Registration()])
    ensures NotRegistered(run, script, to, end, u.id, u.email, err)
  {
    var met, begun := run.states[end.met], end.begun;
    if err != CommitFailed {
      if NotSaved(script, begun, to - 1, met, end.tx, [u], err) {
        OneNotSaved(script, begun, to - 1, met, end.tx, u, err);
      } else {
        OneNotAppended(script, begun + 1, to - 1, met, end.tx, u.Registration(), err);
        StruckSince(script, begun, begun + 1, to - 1);
      }
    }
  }

  // The clock said so in one of the states from `from` up to `to`.
  ghost predicate ClockAt(run: Run, from: nat, to: nat, at: Instant) {
    exists m :: from <= m <= to && m < |run.states| && run.states[m].clock == at
  }

  // What happened in the last state of the earlier run happened before the transaction began.
  ghost predicate HappensIn(run: Run, from: nat, end: RegEnd, early: Instant, at: Instant) {
    end.Ended? && early <= at <= end.reg.now && ClockAt(run, from, end.at, at)
  }

  lemma HappensBefore(run: Run, before: Run, from: nat, end: RegEnd, early: Instant)
    requires Execution(run) && EndedBy(run, end) && IsRun(before) && Continues(before, run)
    requires from <= |before.steps| <= end.at && early <= Last(before).clock && Last(before).nextTx <= end.tx
    ensures HappensIn(run, from, end, early, Last(before).clock)
  {
    RegBeganAfter(run, |before.steps|, end.at, end.tx);
    assert run.states[|before.steps|].clock == Last(before).clock;
  }

  lemma ContinuesOn(a: Run, b: Run, c: Run)
    requires Continues(a, b) && Continues(b, c)
    ensures Continues(a, c)
  {
  }

  class RegisterUser {
    const uow: UnitOfWork

    constructor (uow: UnitOfWork)
      ensures this.uow == uow
    {
      this.uow := uow;
    }

    // A fresh aggregate under a minted id, registered now.
    method NewUser(email: Result<Email, DomainError>, displayName: Result<string, DomainError>)
      returns (r: Result<User, RegisterError>)
      requires uow.cluster.Valid()
      modifies uow.cluster`state, uow.cluster`run, uow.cluster`cursor, uow.cluster`calm
      ensures uow.cluster.Valid() && Continues(old(uow.cluster.run), uow.cluster.run)
      ensures uow.cluster.cursor == old(uow.cluster.cursor) + 1
      ensures old(uow.cluster.state.clock) <= uow.cluster.state.clock
      ensures var beat := BeatAt(uow.cluster.script, old(uow.cluster.cursor));
        if beat.fails then r == Err(IdUnavailable)
        else if beat.id == NIL_UUID || email.Err? || displayName.Err?
        then r == Err(Domain(RegistrationError(beat.id, email, displayName)))
        else r.Ok? && r.value.id == beat.id
      ensures r.Ok? ==>
        && email.Ok? && displayName.Ok? && fresh(r.value) && r.value.email == email.value
        && r.value.displayName == displayName.value && r.value.version == 1
        && r.value.createdAt == uow.cluster.state.clock && r.value.events == [r.value.Registration()]
    {
      var beat := uow.cluster.Draw(None);
      if beat.fails {
        return Err(IdUnavailable);
      }
      var registered := Register(beat.id, email, displayName, uow.cluster.state.clock);
      r := if registered.Ok? then Ok(registered.value) else Err(Domain(registered.error));
    }

    // The user's transaction, and the wakeup.
    method Commit(user: User, meta: Metadata)
      returns (r: Result<Uuid, RegisterError>, notified: bool, ghost end: RegEnd, ghost row: RowId)
      requires uow.cluster.Valid() && user.events == [user.Registration()] && user.version == 1
      modifies uow.cluster`state, uow.cluster`run, uow.cluster`cursor, uow.cluster`calm, user
      ensures uow.cluster.Valid() && Continues(old(uow.cluster.run), uow.cluster.run)
      ensures notified <==> r.Ok?
      ensures end.Ended? ==>
        && EndedBy(uow.cluster.run, end) && |old(uow.cluster.run.steps)| <= end.at
        && (uow.cluster.run.steps[end.at] == RegCommit(end.tx) ==> Paired(end.reg))
        && old(uow.cluster.state.nextTx) <= end.tx
      ensures r.Ok? ==>
        && r.value == user.id
        && RegisteredBy(uow.cluster.run, end, row, user.id, user.email, user.displayName, meta)
        && end.reg.rows[row].envelope.occurredAt == user.createdAt
      ensures end.Ended? && r.Err? && r.error != CommitFailed ==>
        uow.cluster.run.steps[end.at] == RegRollback(end.tx)
      ensures end.NotBegun? ==>
        r == Err(BeginFailed) && BeatAt(uow.cluster.script, old(uow.cluster.cursor)).fails
      ensures end.Ended? && r.Err? ==>
        && end.begun == old(uow.cluster.cursor) + 1
        && NotRegistered(uow.cluster.run, uow.cluster.script, uow.cluster.cursor, end, user.id, user.email, r.error)
    {
      OneRegistration(user);
      var err;
      ghost var ids;
      err, end, ids := uow.Do(meta, [user]);
      row := 0;
      if err.None? || err == Some(CommitFailed) {
        OneUserOneRow(end.reg, ids, user, meta);
        row := ids[0];
      }
      if err.Some? {
        if end.Ended? {
          OneNotRegistered(uow.cluster.run, uow.cluster.script, uow.cluster.cursor, end, user, err.value);
        }
        return Err(err.value), false, end, row;
      }
      RowIsRegistration(uow.cluster.run, end, row, user, meta);
      notified := true;
      r := Ok(user.id);
    }

    // A fresh aggregate, one transaction, and a wakeup only after the commit. Success means that one
    // step of the run committed this user together with exactly one row, which announces it; and
    // whatever it reports, what it may have committed pairs its user with its row. An error before the
    // transaction is a failed call or invalid input; one after it has a cause, too.
    method Execute(email: Result<Email, DomainError>, displayName: Result<string, DomainError>, meta: Metadata)
      returns (r: Result<Uuid, RegisterError>, notified: bool, ghost end: RegEnd, ghost row: RowId)
      requires uow.cluster.Valid()
      modifies uow.cluster`state, uow.cluster`run, uow.cluster`cursor, uow.cluster`calm
      ensures uow.cluster.Valid() && Continues(old(uow.cluster.run), uow.cluster.run)
      ensures notified <==> r.Ok?
      ensures end.Ended? ==>
        && EndedBy(uow.cluster.run, end) && |old(uow.cluster.run.steps)| <= end.at
        && (uow.cluster.run.steps[end.at] == RegCommit(end.tx) ==> Paired(end.reg))
      ensures r.Ok? ==>
        && email.Ok? && displayName.Ok?
        && RegisteredBy(uow.cluster.run, end, row, r.value, email.value, displayName.value, meta)
        && HappensIn(uow.cluster.run, |old(uow.cluster.run.steps)|, end, old(uow.cluster.state.clock),
                     end.reg.rows[row].envelope.occurredAt)
      ensures end.Ended? && r.Err? && r.error != CommitFailed ==>
        uow.cluster.run.steps[end.at] == RegRollback(end.tx)
      ensures var beat := BeatAt(uow.cluster.script, old(uow.cluster.cursor));
        && (r == Err(IdUnavailable) && end.NotBegun? <==> beat.fails)
        && (r.Err? && r.error.Domain? <==>
              !beat.fails && (beat.id == NIL_UUID || email.Err? || displayName.Err?))
        && (r.Err? && r.error.Domain? ==>
              end.NotBegun? && r.error.cause == RegistrationError(beat.id, email, displayName))
        && (end.NotBegun? && r.Err? && r.error != IdUnavailable && !r.error.Domain? ==>
              r.error == BeginFailed && BeatAt(uow.cluster.script, old(uow.cluster.cursor) + 1).fails)
        && (end.Ended? && r.Err? ==>
              && email.Ok? && end.begun == old(uow.cluster.cursor) + 2
              && NotRegistered(uow.cluster.run, uow.cluster.script, uow.cluster.cursor, end, beat.id, email.value,
                               r.error))
    {
      end, row, notified := NotBegun, 0, false;
      ghost var start, early := uow.cluster.run, uow.cluster.state.clock;
      var registered := NewUser(email, displayName);
      if registered.Err? {
        return Err(registered.error), false, end, row;
      }
      ghost var minted := uow.cluster.run;
      r, notified, end, row := Commit(registered.value, meta);
      ContinuesOn(start, minted, uow.cluster.run);
      if r.Ok? {
        HappensBefore(uow.cluster.run, minted, |start.steps|, end, early);
      }
    }
  }
}
