/**
 Publish order lost without any failure. A registration that began early and commits late,
 behind one that began later: the rows become visible in id order, but a relay that began
 between the two finds only the higher one due. The run is given step by step, for any two
 registrations, any times and any batch size.
 */
module LateRegistration {
  import opened Wrappers
  import opened Ordering
  import opened Wire
  import opened Protocol
  import opened FirstPublication

  // A registration: the user it inserts is the aggregate of its event.
  datatype Newcomer = Newcomer(email: Email, envelope: Envelope) {
    function User(): Uuid {
      envelope.aggregateId
    }
  }

  const ALL: Verdict := _ => true

  ghost predicate ButTimesAt(r: Run, k: nat)
    requires k < |r.steps| < |r.states|
  {
    Enabled(r.states[k], r.steps[k]) && OrderlyButTimes(r.states[k], r.steps[k], ALL)
  }

  // Every premise of the order theorem but the one about available_at.
  ghost predicate OrderlyButTimesRun(r: Run) {
    Execution(r) && forall k :: 0 <= k < |r.steps| ==> ButTimesAt(r, k)
  }

  lemma Then(r: Run, step: Step) returns (r': Run)
    requires OrderlyButTimesRun(r) && Enabled(Last(r), step) && OrderlyButTimes(Last(r), step, ALL)
    ensures OrderlyButTimesRun(r') && Last(r') == Apply(Last(r), step)
    ensures r'.states[0] == r.states[0] && r.states <= r'.states
  {
    r' := Extend(r, step);
    forall k | 0 <= k < |r'.steps|
      ensures ButTimesAt(r', k)
    {
      if k < |r.steps| {
        assert ButTimesAt(r, k);
        assert r'.states[k] == r.states[k] && r'.steps[k] == r.steps[k];
      } else {
        assert r'.states[k] == Last(r);
      }
    }
  }

  // ---------------------------------------------------------------- three transactions begin

  // The early registration and the relay are open.
  ghost function TwoOpen(s: State, wait: nat): State {
    s.(clock := s.clock + wait, nextTx := s.nextTx + 2,
       regs := map[s.nextTx := RegTx(s.clock, map[], map[])],
       relays := map[s.nextTx + 1 := RelayTx(s.clock + wait, 0, [], 0, Begun, map[], {})])
  }

  // And the late registration.
  ghost function AllOpen(s: State, wait: nat, more: nat): State {
    s.(clock := s.clock + wait + more, nextTx := s.nextTx + 3,
       regs := map[s.nextTx := RegTx(s.clock, map[], map[]),
                   s.nextTx + 2 := RegTx(s.clock + wait + more, map[], map[])],
       relays := map[s.nextTx + 1 := RelayTx(s.clock + wait, 0, [], 0, Begun, map[], {})])
  }

  lemma OpenTwo(s: State, wait: nat) returns (r: Run)
    requires Initial(s)
    ensures OrderlyButTimesRun(r) && r.states[0] == s && Last(r) == TwoOpen(s, wait)
  {
    r := Start(s);
    r := Then(r, RegBegin(s.nextTx));
    r := Then(r, Tick(wait));
    r := Then(r, RelayBegin(s.nextTx + 1));
    assert Last(r).regs == TwoOpen(s, wait).regs;
    assert Last(r).relays == TwoOpen(s, wait).relays;
  }

  lemma OpenAll(s: State, wait: nat, more: nat) returns (r: Run)
    requires Initial(s)
    ensures OrderlyButTimesRun(r) && r.states[0] == s && Last(r) == AllOpen(s, wait, more)
  {
    r := OpenTwo(s, wait);
    r := Then(r, Tick(more));
    r := Then(r, RegBegin(s.nextTx + 2));
    assert Last(r).regs == AllOpen(s, wait, more).regs;
  }

  // ---------------------------------------------------------------- one registration

  // The row and the user of x, committed by a transaction that began at `now`.
  ghost function Joined(s: State, tx: TxId, x: Newcomer): State
    requires tx in s.regs
  {
    s.(nextId := s.nextId + 1, journal := s.journal[s.nextId := x.envelope],
       users := s.users[x.User() := x.email],
       rows := s.rows[s.nextId := FreshRow(x.envelope, s.regs[tx].now)],
       regs := s.regs - {tx})
  }

  // Before its commit.
  ghost function Inserted(s: State, tx: TxId, x: Newcomer): State
    requires tx in s.regs
  {
    s.(nextId := s.nextId + 1, journal := s.journal[s.nextId := x.envelope],
       regs := s.regs[tx := RegTx(s.regs[tx].now, map[x.User() := x.email],
                                  map[s.nextId := FreshRow(x.envelope, s.regs[tx].now)])])
  }

  lemma InsertSteps(s: State, tx: TxId, x: Newcomer)
    requires tx in s.regs && s.regs[tx] == RegTx(s.regs[tx].now, map[], map[])
    requires UserIsNew(s, x.User(), x.email) && EventIsNew(s, x.envelope.eventId)
    ensures var insert, append := RegInsertUser(tx, x.User(), x.email), RegAppend(tx, x.envelope);
            && Enabled(s, insert) && Enabled(Apply(s, insert), append)
            && Apply(Apply(s, insert), append) == Inserted(s, tx, x)
  {
    var s' := Apply(s, RegInsertUser(tx, x.User(), x.email));
    assert Apply(s', RegAppend(tx, x.envelope)).regs == Inserted(s, tx, x).regs;
  }

  lemma Insert(r: Run, tx: TxId, x: Newcomer) returns (r': Run)
    requires OrderlyButTimesRun(r) && tx in Last(r).regs
    requires Last(r).regs[tx] == RegTx(Last(r).regs[tx].now, map[], map[])
    requires UserIsNew(Last(r), x.User(), x.email) && EventIsNew(Last(r), x.envelope.eventId)
    ensures OrderlyButTimesRun(r') && r'.states[0] == r.states[0] && r.states <= r'.states
    ensures Last(r') == Inserted(Last(r), tx, x)
  {
    InsertSteps(Last(r), tx, x);
    r' := Then(r, RegInsertUser(tx, x.User(), x.email));
    r' := Then(r', RegAppend(tx, x.envelope));
  }

  lemma AddOne<K, V>(m: map<K, V>, k: K, v: V)
    ensures m + map[k := v] == m[k := v]
  {
  }

  lemma ReplaceAndDrop<K, V>(m: map<K, V>, k: K, v: V)
    ensures m[k := v] - {k} == m - {k}
  {
  }

  lemma InsertedCommits(s: State, tx: TxId, x: Newcomer)
    requires tx in s.regs
    ensures Enabled(Inserted(s, tx, x), RegCommit(tx))
    ensures Apply(Inserted(s, tx, x), RegCommit(tx)) == Joined(s, tx, x)
  {
    var reg := Inserted(s, tx, x).regs[tx];
    AddOne(s.users, x.User(), x.email);
    AddOne(s.rows, s.nextId, FreshRow(x.envelope, s.regs[tx].now));
    ReplaceAndDrop(s.regs, tx, reg);
  }

  lemma Register(r: Run, tx: TxId, x: Newcomer) returns (r': Run)
    requires OrderlyButTimesRun(r) && tx in Last(r).regs
    requires Last(r).regs[tx] == RegTx(Last(r).regs[tx].now, map[], map[])
    requires UserIsNew(Last(r), x.User(), x.email) && EventIsNew(Last(r), x.envelope.eventId)
    requires forall id :: id in Ever(Last(r)) ==> id < Last(r).nextId
    ensures OrderlyButTimesRun(r') && r'.states[0] == r.states[0] && r.states <= r'.states
    ensures Last(r') == Joined(Last(r), tx, x)
  {
    r' := Insert(r, tx, x);
    SameEver(Last(r), Last(r'));
    InsertedCommits(Last(r), tx, x);
    r' := Then(r', RegCommit(tx));
  }

  // ---------------------------------------------------------------- one produce call

  lemma OnlyOne(id: nat, limit: nat)
    requires limit > 0
    ensures Lowest({id}, limit) == [id]
  {
    assert {id} - {id} == {};
    assert Lowest({id} - {id}, limit - 1) == [];
  }

  ghost function Produced(s: State, tx: TxId, limit: nat, id: RowId): State
    requires tx in s.relays && id in s.rows && Routable(s.topics, s.rows[id].envelope.aggregateType)
  {
    s.(relays := s.relays[tx := RelayTx(s.relays[tx].now, limit, [Message(s, id)], 0, Acked, map[], {id})],
       log := s.log + [LogEntry(id, Encode(s.topics, s.rows[id].envelope))])
  }

  lemma ClaimOnly(s: State, tx: TxId, limit: nat, id: RowId)
    requires limit > 0 && tx in s.relays && Claimable(s, tx) == {id}
    requires s.relays[tx] == RelayTx(s.relays[tx].now, 0, [], 0, Begun, map[], {})
    ensures id in s.rows && Lowest(Claimable(s, tx), limit) == [id] && Enabled(s, RelayClaim(tx, limit, [id]))
    ensures var x := RelayTx(s.relays[tx].now, limit, [Message(s, id)], 0, Ready, map[], {});
            Apply(s, RelayClaim(tx, limit, [id])) == s.(relays := s.relays[tx := x])
  {
    OnlyOne(id, limit);
    assert id in Claimable(s, tx);
    assert Messages(s, [id]) == [Message(s, id)];
  }

  lemma ProduceClaimed(s: State, tx: TxId, limit: nat, id: RowId, claimed: State)
    requires tx in s.relays && id in s.rows && Routable(s.topics, s.rows[id].envelope.aggregateType)
    requires var x := RelayTx(s.relays[tx].now, limit, [Message(s, id)], 0, Ready, map[], {});
             claimed == s.(relays := s.relays[tx := x])
    ensures Enabled(claimed, RelayPublish(tx, Ack))
    ensures Apply(claimed, RelayPublish(tx, Ack)) == Produced(s, tx, limit, id)
  {
    assert {} + {id} == {id};
    assert Apply(claimed, RelayPublish(tx, Ack)).relays == Produced(s, tx, limit, id).relays;
  }

  // A pass that finds this row alone to claim claims and produces it.
  lemma ProduceOnly(r: Run, tx: TxId, limit: nat, id: RowId) returns (r': Run)
    requires OrderlyButTimesRun(r) && limit > 0 && tx in Last(r).relays && Claimable(Last(r), tx) == {id}
    requires Last(r).relays[tx] == RelayTx(Last(r).relays[tx].now, 0, [], 0, Begun, map[], {})
    requires id in Last(r).rows && Routable(Last(r).topics, Last(r).rows[id].envelope.aggregateType)
    ensures OrderlyButTimesRun(r') && r'.states[0] == r.states[0] && r.states <= r'.states
    ensures Last(r') == Produced(Last(r), tx, limit, id)
  {
    ClaimOnly(Last(r), tx, limit, id);
    r' := Then(r, RelayClaim(tx, limit, [id]));
    ProduceClaimed(Last(r), tx, limit, id, Last(r'));
    r' := Then(r', RelayPublish(tx, Ack));
  }

  ghost function Finished(s: State, tx: TxId, id: RowId): State
    requires tx in s.relays && id in s.rows
  {
    s.(relays := s.relays - {tx}, rows := s.rows[id := MarkRow(s.rows[id], AsPublished, s.relays[tx].now)])
  }

  lemma Finish(r: Run, tx: TxId, id: RowId, limit: nat, m: PendingMessage) returns (r': Run)
    requires OrderlyButTimesRun(r) && tx in Last(r).relays && id in Last(r).rows && m.id == id
    requires Last(r).relays[tx] == RelayTx(Last(r).relays[tx].now, limit, [m], 0, Acked, map[], {id})
    ensures OrderlyButTimesRun(r') && r'.states[0] == r.states[0] && r.states <= r'.states
    ensures Last(r') == Finished(Last(r), tx, id)
  {
    var s := Last(r);
    r' := Then(r, RelayMark(tx, AsPublished));
    r' := Then(r', RelayCommit(tx));
    assert Last(r').rows == Finished(s, tx, id).rows;
    assert Last(r').relays == s.relays - {tx};
  }

  // ---------------------------------------------------------------- the two together

  ghost predicate Distinct(lower: Newcomer, higher: Newcomer) {
    lower.User() != higher.User() && lower.email != higher.email && lower.envelope.eventId != higher.envelope.eventId
  }

  // The lower row alone is visible; the early registration and the relay are still open.
  ghost function LowerVisible(s: State, wait: nat, more: nat, lower: Newcomer): State {
    Joined(AllOpen(s, wait, more), s.nextTx + 2, lower)
  }

  ghost function BothVisible(s: State, wait: nat, more: nat, lower: Newcomer, higher: Newcomer): State {
    Joined(LowerVisible(s, wait, more, lower), s.nextTx, higher)
  }

  // Nothing stands in the way of either registration.
  lemma BothAreNew(s: State, wait: nat, more: nat, lower: Newcomer, higher: Newcomer)
    requires Initial(s) && Distinct(lower, higher)
    ensures var t := AllOpen(s, wait, more);
      && UserIsNew(t, lower.User(), lower.email) && EventIsNew(t, lower.envelope.eventId) && Ever(t) == {}
    ensures var t := LowerVisible(s, wait, more, lower);
      && UserIsNew(t, higher.User(), higher.email) && EventIsNew(t, higher.envelope.eventId)
      && Ever(t) == {s.nextId} && t.nextId == s.nextId + 1
      && s.nextTx in t.regs && t.regs[s.nextTx] == RegTx(s.clock, map[], map[])
  {
  }

  lemma VisibleInIdOrder(s: State, wait: nat, more: nat, lower: Newcomer, higher: Newcomer) returns (r: Run)
    requires Initial(s) && Distinct(lower, higher)
    ensures OrderlyButTimesRun(r) && r.states[0] == s && LowerVisible(s, wait, more, lower) in r.states
    ensures Last(r) == BothVisible(s, wait, more, lower, higher)
  {
    BothAreNew(s, wait, more, lower, higher);
    r := OpenAll(s, wait, more);
    r := Register(r, s.nextTx + 2, lower);
    var lowerAt := |r.states| - 1;
    r := Register(r, s.nextTx, higher);
    assert r.states[lowerAt] == LowerVisible(s, wait, more, lower);
  }

  // What the relay finds: the lower row's transaction began after its own.
  lemma OnlyHigherIsDue(s: State, wait: nat, more: nat, lower: Newcomer, higher: Newcomer)
    requires Initial(s) && more > 0
    ensures var t := BothVisible(s, wait, more, lower, higher);
            && t.relays == map[s.nextTx + 1 := RelayTx(s.clock + wait, 0, [], 0, Begun, map[], {})]
            && t.rows == map[s.nextId := FreshRow(lower.envelope, s.clock + wait + more),
                             s.nextId + 1 := FreshRow(higher.envelope, s.clock)]
            && Claimable(t, s.nextTx + 1) == {s.nextId + 1}
  {
  }

  // The relay's pass, up to its commit.
  lemma HigherFirst(s: State, wait: nat, more: nat, lower: Newcomer, higher: Newcomer, limit: nat) returns (r: Run)
    requires Initial(s) && Distinct(lower, higher) && more > 0 && limit > 0
    requires Routable(s.topics, higher.envelope.aggregateType)
    ensures OrderlyButTimesRun(r) && r.states[0] == s && LowerVisible(s, wait, more, lower) in r.states
    ensures var t := Last(r);
            && t.relays == map[] && t.topics == s.topics && t.clock == s.clock + wait + more
            && t.nextTx == s.nextTx + 3
            && s.nextId in t.rows && t.rows[s.nextId] == FreshRow(lower.envelope, s.clock + wait + more)
            && t.rows.Keys == {s.nextId, s.nextId + 1} && t.rows[s.nextId + 1].status == Published
            && t.log == [LogEntry(s.nextId + 1, Encode(s.topics, higher.envelope))]
  {
    r := VisibleInIdOrder(s, wait, more, lower, higher);
    OnlyHigherIsDue(s, wait, more, lower, higher);
    var both := Last(r);
    r := ProduceOnly(r, s.nextTx + 1, limit, s.nextId + 1);
    r := Finish(r, s.nextTx + 1, s.nextId + 1, limit, Message(both, s.nextId + 1));
  }

  // The next pass, begun after it, takes the lower row.
  lemma ThenLower(r: Run, id: RowId, limit: nat) returns (r': Run)
    requires OrderlyButTimesRun(r) && Last(r).relays == map[] && limit > 0
    requires id in Last(r).rows && Due(Last(r).rows[id], Last(r).clock)
    requires forall other :: other in Last(r).rows && other != id ==> Last(r).rows[other].status != Pending
    requires Routable(Last(r).topics, Last(r).rows[id].envelope.aggregateType)
    ensures OrderlyButTimesRun(r') && r'.states[0] == r.states[0] && r.states <= r'.states
    ensures Last(r').rows == Last(r).rows
    ensures Last(r').log == Last(r).log + [LogEntry(id, Encode(Last(r).topics, Last(r).rows[id].envelope))]
  {
    var tx := Last(r).nextTx;
    r' := Then(r, RelayBegin(tx));
    assert Claimable(Last(r'), tx) == {id};
    r' := ProduceOnly(r', tx, limit, id);
  }

  // Nothing fails, one relay runs at a time, every row is accepted, the ids become visible in their
  // order - and the higher row is published first.
  lemma VisibleOrderIsNotEnough(s: State, wait: nat, more: nat, lower: Newcomer, higher: Newcomer, limit: nat)
    returns (r: Run)
    requires Initial(s) && Distinct(lower, higher) && more > 0 && limit > 0
    requires Routable(s.topics, lower.envelope.aggregateType) && Routable(s.topics, higher.envelope.aggregateType)
    ensures OrderlyButTimesRun(r) && r.states[0] == s
    ensures exists t :: t in r.states && t.rows.Keys == {s.nextId}
    ensures Last(r).rows.Keys == {s.nextId, s.nextId + 1}
    ensures Last(r).log == [LogEntry(s.nextId + 1, Encode(s.topics, higher.envelope)),
                            LogEntry(s.nextId, Encode(s.topics, lower.envelope))]
  {
    r := HigherFirst(s, wait, more, lower, higher, limit);
    assert LowerVisible(s, wait, more, lower).rows.Keys == {s.nextId};
    r := ThenLower(r, s.nextId, limit);
  }
}
