/**
 The outbox as a step system: PostgreSQL's two tables with open transactions, and
 the broker's append-only log. A step is one statement of one transaction (or one
 produce call, one purge page, one manual replay); everything the environment may
 choose is a parameter of the step, so `Apply` is a function and a run is a
 sequence of steps.
 */
module Protocol {
  import opened Wrappers
  import opened Ordering
  import opened Wire

  type RowId = nat
  type TxId = nat
  type Instant = int

  datatype Email = Email(address: string)

  datatype Status = Pending | Published | Failed

  datatype Row = Row(
    envelope: Envelope, status: Status, attempts: nat, availableAt: Instant,
    lastError: Option<string>, publishedAt: Option<Instant>)

  // What a claim reads of a row; the pass publishes from this copy.
  datatype PendingMessage = PendingMessage(id: RowId, envelope: Envelope, attempts: nat)

  // An open registration transaction: its own uncommitted rows, invisible to everyone else.
  datatype RegTx = RegTx(now: Instant, users: map<Uuid, Email>, rows: map<RowId, Row>)

  // Where a relay transaction is between two statements.
  datatype Phase =
    | Begun                     // nothing claimed yet
    | Ready                     // the next row, if any, may be produced
    | Acked                     // the broker acknowledged the current row
    | Refused(reason: string)   // permanent error on the current row
    | Deferred(reason: string)  // transient error on the current row
    | Stopped                   // the current row was rescheduled: no more rows in this pass
    | Broken                    // the pass must be abandoned

  // `batch` is what it claimed and therefore locks; `writes` its uncommitted marks.
  datatype RelayTx = RelayTx(
    now: Instant, limit: nat, batch: seq<PendingMessage>, handled: nat, phase: Phase,
    writes: map<RowId, Row>, acked: set<RowId>)

  // A broker record, tagged with the row it was produced for.
  datatype LogEntry = LogEntry(row: RowId, record: Record)

  // `orphans` are relay processes whose session, and with it every lock, died while their produce
  // call was in flight; the message they are producing is all that is left of them.
  // `journal` (every row ever inserted, rolled back or not) and `purged` are history:
  // no step is decided by `purged`, and `journal` only stands for the UUIDs already minted.
  datatype State = State(
    topics: Topics,
    clock: Instant,
    nextId: RowId,
    nextTx: TxId,
    users: map<Uuid, Email>,
    rows: map<RowId, Row>,
    regs: map<TxId, RegTx>,
    relays: map<TxId, RelayTx>,
    orphans: map<TxId, PendingMessage>,
    log: seq<LogEntry>,
    journal: map<RowId, Envelope>,
    purged: map<RowId, Row>)

  ghost predicate Initial(s: State) {
    && s.users == map[] && s.rows == map[] && s.regs == map[] && s.relays == map[]
    && s.orphans == map[] && s.log == [] && s.journal == map[] && s.purged == map[]
  }

  // Every row ever committed.
  function Ever(s: State): set<RowId> {
    s.rows.Keys + s.purged.Keys
  }

  // ---------------------------------------------------------------- the claim's SELECT

  function Locks(x: RelayTx): set<RowId> {
    set m | m in x.batch :: m.id
  }

  predicate LockedByOther(s: State, tx: TxId, id: RowId) {
    exists t :: t in s.relays && t != tx && id in Locks(s.relays[t])
  }

  predicate Due(row: Row, now: Instant) {
    row.status == Pending && row.availableAt <= now
  }

  // WHERE status = 'pending' AND available_at <= now(), less the locked rows.
  function Claimable(s: State, tx: TxId): set<RowId>
    requires tx in s.relays
  {
    set id | id in s.rows && Due(s.rows[id], s.relays[tx].now) && !LockedByOther(s, tx, id)
  }

  function Message(s: State, id: RowId): PendingMessage
    requires id in s.rows
  {
    PendingMessage(id, s.rows[id].envelope, s.rows[id].attempts)
  }

  function Messages(s: State, ids: seq<RowId>): (batch: seq<PendingMessage>)
    requires forall i :: 0 <= i < |ids| ==> ids[i] in s.rows
    ensures |batch| == |ids|
    ensures forall i :: 0 <= i < |ids| ==> batch[i] == Message(s, ids[i])
  {
    seq(|ids|, i requires 0 <= i < |ids| => Message(s, ids[i]))
  }

  // ---------------------------------------------------------------- produce and mark

  // A produce call either is acknowledged, or fails; a failed call may still have appended.
  datatype Outcome = Ack | Error(error: PublishError, appended: bool)

  predicate Appends(outcome: Outcome) {
    outcome.Ack? || outcome.appended
  }

  function PhaseAfter(outcome: Outcome): Phase {
    match outcome
    case Ack => Acked
    case Error(e, _) =>
      match ClassOf(e)
      case Permanent => Refused(e.reason)
      case Transient => Deferred(e.reason)
      case Unclassified => Broken
  }

  // The broker's fixed answer to each row, where a property assumes there is one.
  type Verdict = RowId -> bool

  datatype Mark = AsPublished | AsFailed(reason: string) | AsRescheduled(availableAt: Instant, reason: string)

  // The three UPDATEs. None of them looks at the status it overwrites.
  function MarkRow(row: Row, mark: Mark, now: Instant): Row {
    match mark
    case AsPublished => row.(status := Published, publishedAt := Some(now), lastError := None)
    case AsFailed(reason) => row.(status := Failed, lastError := Some(reason))
    case AsRescheduled(at, reason) =>
      row.(attempts := row.attempts + 1, availableAt := at, lastError := Some(reason))
  }

  predicate MarkFits(phase: Phase, mark: Mark) {
    match mark
    case AsPublished => phase.Acked?
    case AsFailed(reason) => phase == Refused(reason)
    case AsRescheduled(_, reason) => phase == Deferred(reason)
  }

  // The table as a relay transaction sees it: its own writes over the committed rows.
  predicate Visible(rows: map<RowId, Row>, x: RelayTx, id: RowId) {
    id in x.writes || id in rows
  }

  function View(rows: map<RowId, Row>, x: RelayTx, id: RowId): Row
    requires Visible(rows, x, id)
  {
    if id in x.writes then x.writes[id] else rows[id]
  }

  function Current(x: RelayTx): PendingMessage
    requires x.handled < |x.batch|
  {
    x.batch[x.handled]
  }

  // ---------------------------------------------------------------- steps

  datatype Step =
    | Tick(span: nat)
    | RegBegin(tx: TxId)
    | RegInsertUser(tx: TxId, user: Uuid, email: Email)
    | RegAppend(tx: TxId, envelope: Envelope)
    | RegCommit(tx: TxId)
    | RegRollback(tx: TxId)
    | RelayBegin(tx: TxId)
    | RelayClaim(tx: TxId, limit: nat, ids: seq<RowId>)
    | RelayPublish(tx: TxId, outcome: Outcome)
    | RelayMark(tx: TxId, mark: Mark)
    | RelayCommit(tx: TxId)
    | RelayRollback(tx: TxId)   // an error, a cancelled context or a crash
    | RelayLost(tx: TxId)       // the session dies during a produce call, which goes on
    | OrphanPublish(tx: TxId, appended: bool)   // and ends, with nobody left to mark the row
    | PurgePage(page: set<RowId>, cutoff: Instant)
    | Replay(id: RowId)         // a human makes a row pending again

  // No primary-key or UNIQUE (email) violation against this set of users.
  predicate Accepts(users: map<Uuid, Email>, user: Uuid, email: Email) {
    user !in users && forall u :: u in users ==> users[u] != email
  }

  // An open transaction's uncommitted key blocks or fails a second insert of it.
  predicate UserIsNew(s: State, user: Uuid, email: Email) {
    Accepts(s.users, user, email) && forall t :: t in s.regs ==> Accepts(s.regs[t].users, user, email)
  }

  // The source relies on UUIDs never repeating; here a repeat is refused, so that none occurs.
  predicate EventIsNew(s: State, eventId: Uuid) {
    forall id :: id in s.journal ==> s.journal[id].eventId != eventId
  }

  predicate Purgeable(row: Row, cutoff: Instant) {
    row.status == Published && row.publishedAt.Some? && row.publishedAt.value < cutoff
  }

  // Every row of the batch is marked, or the last one handled was rescheduled.
  predicate MayCommit(x: RelayTx) {
    x.phase.Stopped? || (x.phase.Ready? && x.handled == |x.batch|)
  }

  // What PostgreSQL lets happen. It knows nothing of users having rows: that is the unit of work's
  // business. A manual UPDATE of a row that a relay has locked waits for the lock.
  predicate Enabled(s: State, step: Step) {
    match step
    case Tick(_) => true
    case RegBegin(tx) => tx == s.nextTx
    case RegInsertUser(tx, user, email) => tx in s.regs && UserIsNew(s, user, email)
    case RegAppend(tx, env) => tx in s.regs && EventIsNew(s, env.eventId)
    case RegCommit(tx) => tx in s.regs
    case RegRollback(tx) => tx in s.regs
    case RelayBegin(tx) => tx == s.nextTx
    case RelayClaim(tx, limit, ids) =>
      tx in s.relays && s.relays[tx].phase.Begun? && Ascending(ids) && |ids| <= limit
      && (forall i :: 0 <= i < |ids| ==> ids[i] in Claimable(s, tx))
    case RelayPublish(tx, outcome) =>
      && tx in s.relays && s.relays[tx].phase.Ready?
      && s.relays[tx].handled < |s.relays[tx].batch|
      && (Appends(outcome) ==> Routable(s.topics, Current(s.relays[tx]).envelope.aggregateType))
    case RelayMark(tx, mark) =>
      tx in s.relays && s.relays[tx].handled < |s.relays[tx].batch| && MarkFits(s.relays[tx].phase, mark)
    case RelayCommit(tx) => tx in s.relays && MayCommit(s.relays[tx])
    case RelayRollback(tx) => tx in s.relays
    case RelayLost(tx) =>
      tx in s.relays && s.relays[tx].phase.Ready? && s.relays[tx].handled < |s.relays[tx].batch|
    case OrphanPublish(tx, appended) =>
      tx in s.orphans && (appended ==> Routable(s.topics, s.orphans[tx].envelope.aggregateType))
    case PurgePage(page, cutoff) => forall id :: id in page ==> id in s.rows && Purgeable(s.rows[id], cutoff)
    case Replay(id) => id in s.rows && forall t :: t in s.relays ==> id !in Locks(s.relays[t])
  }

  function FreshRow(env: Envelope, now: Instant): Row {
    Row(env, Pending, 0, now, None, None)
  }

  // A claim fixes the batch; from here on the transaction holds its locks until it ends.
  function AfterClaim(s: State, tx: TxId, limit: nat, ids: seq<RowId>): RelayTx
    requires tx in s.relays && forall i :: 0 <= i < |ids| ==> ids[i] in s.rows
  {
    s.relays[tx].(limit := limit, batch := Messages(s, ids), phase := Ready)
  }

  function AfterPublish(x: RelayTx, outcome: Outcome): RelayTx
    requires x.handled < |x.batch|
  {
    x.(phase := PhaseAfter(outcome),
       acked := if outcome.Ack? then x.acked + {Current(x).id} else x.acked)
  }

  // An UPDATE that touches no row breaks the pass; otherwise the row's mark is in `writes`.
  function AfterMark(rows: map<RowId, Row>, x: RelayTx, mark: Mark): RelayTx
    requires x.handled < |x.batch|
  {
    var id := Current(x).id;
    if Visible(rows, x, id) then
      x.(writes := x.writes[id := MarkRow(View(rows, x, id), mark, x.now)],
         handled := x.handled + 1,
         phase := if mark.AsRescheduled? then Stopped else Ready)
    else x.(phase := Broken)
  }

  function Apply(s: State, step: Step): State
    requires Enabled(s, step)
  {
    match step
    case Tick(span) => s.(clock := s.clock + span)
    case RegBegin(tx) =>
      s.(nextTx := tx + 1, regs := s.regs[tx := RegTx(s.clock, map[], map[])])
    case RegInsertUser(tx, user, email) =>
      var reg := s.regs[tx];
      s.(regs := s.regs[tx := reg.(users := reg.users[user := email])])
    case RegAppend(tx, env) =>
      var reg := s.regs[tx];
      s.(nextId := s.nextId + 1,
         journal := s.journal[s.nextId := env],
         regs := s.regs[tx := reg.(rows := reg.rows[s.nextId := FreshRow(env, reg.now)])])
    case RegCommit(tx) =>
      s.(users := s.users + s.regs[tx].users, rows := s.rows + s.regs[tx].rows, regs := s.regs - {tx})
    case RegRollback(tx) => s.(regs := s.regs - {tx})
    case RelayBegin(tx) =>
      s.(nextTx := tx + 1, relays := s.relays[tx := RelayTx(s.clock, 0, [], 0, Begun, map[], {})])
    case RelayClaim(tx, limit, ids) =>
      s.(relays := s.relays[tx := AfterClaim(s, tx, limit, ids)])
    case RelayPublish(tx, outcome) =>
      var x := s.relays[tx];
      s.(relays := s.relays[tx := AfterPublish(x, outcome)],
         log := if Appends(outcome)
                then s.log + [LogEntry(Current(x).id, Encode(s.topics, Current(x).envelope))]
                else s.log)
    case RelayMark(tx, mark) => s.(relays := s.relays[tx := AfterMark(s.rows, s.relays[tx], mark)])
    case RelayCommit(tx) => s.(rows := s.rows + s.relays[tx].writes, relays := s.relays - {tx})
    case RelayRollback(tx) => s.(relays := s.relays - {tx})
    case RelayLost(tx) =>
      s.(relays := s.relays - {tx}, orphans := s.orphans[tx := Current(s.relays[tx])])
    case OrphanPublish(tx, appended) =>
      var m := s.orphans[tx];
      s.(orphans := s.orphans - {tx},
         log := if appended then s.log + [LogEntry(m.id, Encode(s.topics, m.envelope))] else s.log)
    case PurgePage(page, _) =>
      s.(rows := s.rows - page, purged := s.purged + (map id | id in page :: s.rows[id]))
    case Replay(id) =>
      s.(rows := s.rows[id := s.rows[id].(status := Pending, attempts := 0, lastError := None,
                                         availableAt := s.clock)])
  }

  // Only these steps change what is committed.
  predicate ChangesTables(step: Step) {
    step.RegCommit? || step.RelayCommit? || step.PurgePage? || step.Replay?
  }

  lemma TablesUnmoved(s: State, step: Step)
    requires Enabled(s, step) && !ChangesTables(step)
    ensures var s' := Apply(s, step); s'.users == s.users && s'.rows == s.rows && s'.purged == s.purged
  {
  }

  lemma SameEver(s: State, t: State)
    requires t.rows.Keys == s.rows.Keys && t.purged.Keys == s.purged.Keys
    ensures Ever(t) == Ever(s)
  {
  }

  lemma EverAfter(s: State, step: Step)
    requires Enabled(s, step)
    ensures step.RegCommit? ==> Ever(Apply(s, step)) == Ever(s) + s.regs[step.tx].rows.Keys
    ensures !step.RegCommit? && !step.RelayCommit? ==> Ever(Apply(s, step)) == Ever(s)
  {
    if !ChangesTables(step) {
      TablesUnmoved(s, step);
    }
  }

  // ---------------------------------------------------------------- whose step it is

  function TxOf(step: Step): Option<TxId> {
    match step
    case RegBegin(tx) => Some(tx)
    case RegInsertUser(tx, _, _) => Some(tx)
    case RegAppend(tx, _) => Some(tx)
    case RegCommit(tx) => Some(tx)
    case RegRollback(tx) => Some(tx)
    case RelayBegin(tx) => Some(tx)
    case RelayClaim(tx, _, _) => Some(tx)
    case RelayPublish(tx, _) => Some(tx)
    case RelayMark(tx, _) => Some(tx)
    case RelayCommit(tx) => Some(tx)
    case RelayRollback(tx) => Some(tx)
    case RelayLost(tx) => Some(tx)
    case OrphanPublish(tx, _) => Some(tx)
    case _ => None
  }

  // Transaction tx is as it was: open with the same record, or not open.
  ghost predicate Untouched(s: State, t: State, tx: TxId) {
    && (tx in s.relays <==> tx in t.relays) && (tx in s.relays ==> t.relays[tx] == s.relays[tx])
    && (tx in s.regs <==> tx in t.regs) && (tx in s.regs ==> t.regs[tx] == s.regs[tx])
    && s.nextTx <= t.nextTx && s.clock <= t.clock && s.topics == t.topics
  }

  lemma OthersLeaveTxAlone(s: State, step: Step, tx: TxId)
    requires Enabled(s, step) && TxOf(step) != Some(tx)
    ensures Untouched(s, Apply(s, step), tx)
  {
  }

  // ---------------------------------------------------------------- runs

  // A finite run: the states it passes through and the steps between them.
  datatype Run = Run(states: seq<State>, steps: seq<Step>)

  ghost predicate Moves(r: Run, k: nat)
    requires k < |r.steps| < |r.states|
  {
    Enabled(r.states[k], r.steps[k]) && r.states[k + 1] == Apply(r.states[k], r.steps[k])
  }

  ghost predicate IsRun(r: Run) {
    && |r.states| == |r.steps| + 1
    && forall k :: 0 <= k < |r.steps| ==> Moves(r, k)
  }

  // A run of the whole system, from empty tables and an empty log.
  ghost predicate Execution(r: Run) {
    IsRun(r) && Initial(r.states[0])
  }

  lemma StepOf(r: Run, k: nat)
    requires IsRun(r) && k < |r.steps|
    ensures Enabled(r.states[k], r.steps[k]) && r.states[k + 1] == Apply(r.states[k], r.steps[k])
  {
    assert Moves(r, k);
  }

  ghost function Last(r: Run): State
    requires |r.states| > 0
  {
    r.states[|r.states| - 1]
  }

  ghost function Extend(r: Run, step: Step): (r': Run)
    requires IsRun(r) && Enabled(Last(r), step)
    ensures IsRun(r') && r'.steps == r.steps + [step] && Last(r') == Apply(Last(r), step)
    ensures r.states <= r'.states
  {
    var r' := Run(r.states + [Apply(Last(r), step)], r.steps + [step]);
    assert forall k :: 0 <= k < |r'.steps| ==> Moves(r', k) by {
      forall k | 0 <= k < |r'.steps|
        ensures Moves(r', k)
      {
        if k < |r.steps| {
          assert Moves(r, k);
        }
      }
    }
    r'
  }

  ghost function Start(s: State): (r: Run)
    ensures IsRun(r) && r.states == [s] && r.steps == []
  {
    Run([s], [])
  }

  // One run after another.
  ghost function Join(a: Run, b: Run): (r: Run)
    requires IsRun(a) && IsRun(b) && Last(a) == b.states[0]
    ensures IsRun(r) && r.steps == a.steps + b.steps && Last(r) == Last(b) && a.states <= r.states
  {
    var r := Run(a.states + b.states[1..], a.steps + b.steps);
    assert forall k :: 0 <= k < |r.steps| ==> Moves(r, k) by {
      forall k | 0 <= k < |r.steps|
        ensures Moves(r, k)
      {
        if k < |a.steps| {
          assert Moves(a, k);
        } else {
          var i := k - |a.steps|;
          assert Moves(b, i);
        }
      }
    }
    r
  }
}
