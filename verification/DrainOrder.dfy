/**
 The order in which a backlog is published when nothing goes wrong any more: an undisturbed
 relay with any batch size, draining at any sequence of times. The pending rows come out in
 id order at all such times exactly when no row becomes due later than a higher one.
 */
module DrainOrder {
  import opened Wrappers
  import opened Ordering
  import opened Wire
  import opened Protocol
  import opened Draining

  // No relay transaction is open, and the broker can take every pending row it accepts.
  ghost predicate Serene(s: State, accepts: Verdict) {
    && s.relays == map[] && (forall t :: t in s.regs ==> t < s.nextTx)
    && forall id :: id in s.rows && s.rows[id].status == Pending && accepts(id) ==>
         Routable(s.topics, s.rows[id].envelope.aggregateType)
  }

  function Later(s: State, wait: nat): State {
    s.(clock := s.clock + wait)
  }

  // The relay waits, and then drains whatever is due.
  ghost function DrainAt(s: State, wait: nat, limit: nat, accepts: Verdict): State
    requires Serene(s, accepts) && limit > 0
  {
    Drained(Later(s, wait), limit, accepts)
  }

  // Passes change rows, log and the next transaction id only.
  lemma {:induction false} DrainedFrame(s: State, limit: nat, accepts: Verdict)
    requires Quiet(s, accepts) && limit > 0
    ensures var t := Drained(s, limit, accepts);
            && s.nextTx <= t.nextTx && t.relays == map[] && t.regs == s.regs
            && t.clock == s.clock && t.topics == s.topics
    decreases |DueNow(s)|
  {
    if DueNow(s) != {} {
      PassTakesLowest(s, limit, accepts);
      DrainedFrame(AfterPass(s, limit, accepts), limit, accepts);
    }
  }

  function RowsOf(log: seq<LogEntry>): (ids: seq<RowId>)
    ensures |ids| == |log| && forall i :: 0 <= i < |log| ==> ids[i] == log[i].row
  {
    seq(|log|, i requires 0 <= i < |log| => log[i].row)
  }

  // The rows logged between the two, in order.
  function NewRows(before: seq<LogEntry>, after: seq<LogEntry>): seq<RowId>
    requires before <= after
  {
    RowsOf(after[|before|..])
  }

  function AcceptedOf(due: set<RowId>, accepts: Verdict): set<RowId> {
    set id | id in due && accepts(id)
  }

  lemma EmittedLast(rows: seq<RowId>, due: set<RowId>, id: RowId, accepts: Verdict)
    requires Ascending(rows) && Elements(rows) == AcceptedOf(due, accepts)
    requires forall x :: x in due ==> x < id
    ensures var rows' := rows + if accepts(id) then [id] else [];
            Ascending(rows') && Elements(rows') == AcceptedOf(due + {id}, accepts)
  {
    forall i | 0 <= i < |rows|
      ensures rows[i] < id
    {
      assert rows[i] in Elements(rows);
    }
    if accepts(id) {
      assert Elements(rows + [id]) == Elements(rows) + {id};
      assert AcceptedOf(due + {id}, accepts) == AcceptedOf(due, accepts) + {id};
    } else {
      assert rows + [] == rows;
      assert AcceptedOf(due + {id}, accepts) == AcceptedOf(due, accepts);
    }
  }

  lemma {:induction false} EmittedRows(s: State, ids: seq<RowId>, accepts: Verdict)
    requires CanAccept(s, ids, accepts) && Ascending(ids)
    ensures Ascending(RowsOf(Emitted(s, ids, accepts)))
    ensures Elements(RowsOf(Emitted(s, ids, accepts))) == AcceptedOf(Elements(ids), accepts)
  {
    if ids != [] {
      var n := |ids| - 1;
      EmittedRows(s, ids[..n], accepts);
      OneMoreDone(ids, n);
      assert ids[..n + 1] == ids;
      EmittedLast(RowsOf(Emitted(s, ids[..n], accepts)), Elements(ids[..n]), ids[n], accepts);
      assert RowsOf(Emitted(s, ids, accepts))
          == RowsOf(Emitted(s, ids[..n], accepts)) + if accepts(ids[n]) then [ids[n]] else [];
      forall id | id in Elements(ids[..n])
        ensures id < ids[n]
      {
      }
    }
  }

  // What draining does: exactly the rows that are due leave the pending set, and their accepted ones
  // are logged in id order.
  ghost predicate Drains(s: State, t: State, now: Instant, accepts: Verdict) {
    && t.relays == map[] && t.regs == s.regs && s.nextTx <= t.nextTx && t.topics == s.topics && t.clock == now
    && t.rows == Settle(s.rows, DueSet(s.rows, now), now, accepts) && s.log <= t.log
    && Ascending(NewRows(s.log, t.log)) && Elements(NewRows(s.log, t.log)) == AcceptedOf(DueSet(s.rows, now), accepts)
  }

  // One pass over everything that is due.
  lemma WholePass(u: State, accepts: Verdict)
    requires Quiet(u, accepts)
    ensures var ids := Lowest(DueNow(u), |DueNow(u)|);
            && CanAccept(u, ids, accepts) && Unbounded(u, accepts).log == u.log + Emitted(u, ids, accepts)
            && Unbounded(u, accepts).rows == Settle(u.rows, DueNow(u), u.clock, accepts)
            && Ascending(RowsOf(Emitted(u, ids, accepts)))
            && Elements(RowsOf(Emitted(u, ids, accepts))) == AcceptedOf(DueNow(u), accepts)
  {
    LowestCanBeAccepted(u, |DueNow(u)|, accepts);
    WholeSet(DueNow(u), |DueNow(u)|);
    EmittedRows(u, Lowest(DueNow(u), |DueNow(u)|), accepts);
  }

  lemma NewRowsOf(log: seq<LogEntry>, log': seq<LogEntry>, more: seq<LogEntry>)
    requires log' == log + more
    ensures log <= log' && log'[|log|..] == more
  {
  }

  lemma OutcomeOf(u: State, t: State, accepts: Verdict)
    requires Quiet(u, accepts) && SameOutcome(t, Unbounded(u, accepts))
    ensures t.rows == Settle(u.rows, DueNow(u), u.clock, accepts) && u.log <= t.log
    ensures Ascending(NewRows(u.log, t.log)) && Elements(NewRows(u.log, t.log)) == AcceptedOf(DueNow(u), accepts)
  {
    WholePass(u, accepts);
    NewRowsOf(u.log, t.log, Emitted(u, Lowest(DueNow(u), |DueNow(u)|), accepts));
  }

  lemma DrainedOutcome(u: State, limit: nat, accepts: Verdict)
    requires Quiet(u, accepts) && limit > 0
    ensures Drains(u, Drained(u, limit, accepts), u.clock, accepts)
  {
    DrainedFrame(u, limit, accepts);
    BatchingRefinesOnePass(u, limit, accepts);
    OutcomeOf(u, Drained(u, limit, accepts), accepts);
  }

  // That is what it does at any one time, whatever the batch size.
  lemma DrainEffect(s: State, wait: nat, limit: nat, accepts: Verdict)
    requires Serene(s, accepts) && limit > 0
    ensures Drains(s, DrainAt(s, wait, limit, accepts), s.clock + wait, accepts)
  {
    DrainedOutcome(Later(s, wait), limit, accepts);
  }

  // ---------------------------------------------------------------- draining at several times

  lemma StaysSerene(s: State, wait: nat, limit: nat, accepts: Verdict)
    requires Serene(s, accepts) && limit > 0
    ensures Serene(DrainAt(s, wait, limit, accepts), accepts)
  {
    DrainEffect(s, wait, limit, accepts);
  }

  ghost function DrainAll(s: State, waits: seq<nat>, limit: nat, accepts: Verdict): (t: State)
    requires Serene(s, accepts) && limit > 0
    ensures Serene(t, accepts)
  {
    if waits == [] then s
    else
      var t := DrainAll(s, waits[..|waits| - 1], limit, accepts);
      StaysSerene(t, waits[|waits| - 1], limit, accepts);
      DrainAt(t, waits[|waits| - 1], limit, accepts)
  }

  // The rows of s that some drain up to now has found due: those due by now, unless there was none.
  function Handled(s: State, now: Instant, any: bool): set<RowId> {
    if any then DueSet(s.rows, now) else {}
  }

  // t is s with these rows settled, and the accepted ones among them logged.
  ghost predicate Settled(s: State, t: State, done: set<RowId>, accepts: Verdict) {
    && t.rows.Keys == s.rows.Keys && s.log <= t.log
    && (forall id :: id in s.rows && id !in done ==> t.rows[id] == s.rows[id])
    && (forall id :: id in s.rows && id in done ==> t.rows[id].status != Pending)
    && Elements(NewRows(s.log, t.log)) == AcceptedOf(done, accepts)
  }

  lemma SettleMore(s: State, t: State, u: State, done: set<RowId>, due: set<RowId>, now: Instant, accepts: Verdict)
    requires Settled(s, t, done, accepts) && due == DueSet(t.rows, now)
    requires u.rows == Settle(t.rows, due, now, accepts) && t.log <= u.log
    requires Elements(NewRows(t.log, u.log)) == AcceptedOf(due, accepts)
    ensures Settled(s, u, done + due, accepts)
    ensures NewRows(s.log, u.log) == NewRows(s.log, t.log) + NewRows(t.log, u.log)
  {
    assert u.log[|s.log|..] == t.log[|s.log|..] + u.log[|t.log|..];
    assert NewRows(s.log, u.log) == NewRows(s.log, t.log) + NewRows(t.log, u.log);
    assert Elements(NewRows(s.log, t.log) + NewRows(t.log, u.log))
        == Elements(NewRows(s.log, t.log)) + Elements(NewRows(t.log, u.log));
    assert AcceptedOf(done + due, accepts) == AcceptedOf(done, accepts) + AcceptedOf(due, accepts);
  }

  lemma DueOnceMore(s: State, t: State, before: Instant, now: Instant, any: bool, accepts: Verdict)
    requires Settled(s, t, Handled(s, before, any), accepts) && before <= now
    ensures Handled(s, before, any) + DueSet(t.rows, now) == Handled(s, now, true)
    ensures Handled(s, before, any) !! DueSet(t.rows, now)
  {
  }

  lemma DrainAllNext(s: State, front: seq<nat>, wait: nat, limit: nat, accepts: Verdict)
    requires Serene(s, accepts) && limit > 0
    ensures DrainAll(s, front + [wait], limit, accepts)
         == DrainAt(DrainAll(s, front, limit, accepts), wait, limit, accepts)
  {
    assert (front + [wait])[..|front|] == front;
  }

  // u follows t by one drain, and both have settled what was due in s.
  ghost predicate Follows(s: State, t: State, u: State, any: bool, accepts: Verdict) {
    && t.clock <= u.clock && t.log <= u.log && s.log <= t.log
    && Settled(s, u, Handled(s, u.clock, true), accepts)
    && NewRows(s.log, u.log) == NewRows(s.log, t.log) + NewRows(t.log, u.log) && Ascending(NewRows(t.log, u.log))
    && Elements(NewRows(t.log, u.log)) == AcceptedOf(DueSet(t.rows, u.clock), accepts)
    && Handled(s, t.clock, any) !! DueSet(t.rows, u.clock)
  }

  lemma OneDrainMore(s: State, t: State, u: State, any: bool, accepts: Verdict)
    requires Settled(s, t, Handled(s, t.clock, any), accepts) && Drains(t, u, u.clock, accepts) && t.clock <= u.clock
    ensures Follows(s, t, u, any, accepts)
  {
    DueOnceMore(s, t, t.clock, u.clock, any, accepts);
    SettleMore(s, t, u, Handled(s, t.clock, any), DueSet(t.rows, u.clock), u.clock, accepts);
  }

  lemma NextDrain(s: State, front: seq<nat>, wait: nat, limit: nat, accepts: Verdict)
    requires Serene(s, accepts) && limit > 0
    requires var t := DrainAll(s, front, limit, accepts); Settled(s, t, Handled(s, t.clock, front != []), accepts)
    ensures var t, u := DrainAll(s, front, limit, accepts), DrainAll(s, front + [wait], limit, accepts);
            Follows(s, t, u, front != [], accepts) && u.clock == t.clock + wait
  {
    DrainAllNext(s, front, wait, limit, accepts);
    var t := DrainAll(s, front, limit, accepts);
    DrainEffect(t, wait, limit, accepts);
    OneDrainMore(s, t, DrainAt(t, wait, limit, accepts), front != [], accepts);
  }

  // Drained at several times, s has settled everything that was due at the last one.
  lemma {:induction false} DrainAllSettles(s: State, waits: seq<nat>, limit: nat, accepts: Verdict)
    requires Serene(s, accepts) && limit > 0
    ensures var t := DrainAll(s, waits, limit, accepts);
            s.clock <= t.clock && Settled(s, t, Handled(s, t.clock, waits != []), accepts)
  {
    if waits == [] {
      assert NewRows(s.log, s.log) == [];
      assert AcceptedOf({}, accepts) == {};
    } else {
      var front, wait := waits[..|waits| - 1], waits[|waits| - 1];
      DrainAllSettles(s, front, limit, accepts);
      NextDrain(s, front, wait, limit, accepts);
      assert waits == front + [wait];
    }
  }

  // ---------------------------------------------------------------- when the order is kept

  // The first moment, from now on, at which a row is due.
  function DueFrom(row: Row, now: Instant): Instant {
    if row.availableAt <= now then now else row.availableAt
  }

  ghost predicate Awaited(s: State, id: RowId, accepts: Verdict) {
    id in s.rows && s.rows[id].status == Pending && accepts(id)
  }

  // No accepted pending row becomes due later than a higher one.
  ghost predicate InTimeOrder(s: State, accepts: Verdict) {
    forall a, b :: a in s.rows && b in s.rows && a < b && Awaited(s, a, accepts) && Awaited(s, b, accepts) ==>
                     DueFrom(s.rows[a], s.clock) <= DueFrom(s.rows[b], s.clock)
  }

  lemma LaterDrainIsHigher(s: State, t: State, now: Instant, x: RowId, y: RowId, accepts: Verdict)
    requires InTimeOrder(s, accepts) && s.clock <= t.clock
    requires Settled(s, t, Handled(s, t.clock, true), accepts)
    requires x in AcceptedOf(Handled(s, t.clock, true), accepts) && y in AcceptedOf(DueSet(t.rows, now), accepts)
    ensures x < y
  {
    assert y !in Handled(s, t.clock, true) && t.rows[y] == s.rows[y];
    assert Awaited(s, x, accepts) && Awaited(s, y, accepts);
  }

  lemma {:induction false} InTimeAscends(s: State, waits: seq<nat>, limit: nat, accepts: Verdict)
    requires Serene(s, accepts) && limit > 0 && InTimeOrder(s, accepts)
    ensures s.log <= DrainAll(s, waits, limit, accepts).log
    ensures Ascending(NewRows(s.log, DrainAll(s, waits, limit, accepts).log))
  {
    DrainAllSettles(s, waits, limit, accepts);
    if waits != [] {
      var front, wait := waits[..|waits| - 1], waits[|waits| - 1];
      assert waits == front + [wait];
      InTimeAscends(s, front, limit, accepts);
      DrainAllSettles(s, front, limit, accepts);
      NextDrain(s, front, wait, limit, accepts);
      var t, u := DrainAll(s, front, limit, accepts), DrainAll(s, waits, limit, accepts);
      forall x, y | x in NewRows(s.log, t.log) && y in NewRows(t.log, u.log)
        ensures x < y
      {
        assert x in Elements(NewRows(s.log, t.log)) && y in Elements(NewRows(t.log, u.log));
        if front != [] {
          LaterDrainIsHigher(s, t, u.clock, x, y, accepts);
        }
      }
      AscendingConcat(NewRows(s.log, t.log), NewRows(t.log, u.log));
    }
  }

  // The times that expose a row that becomes due later than a higher one.
  function TellingWaits(s: State, a: RowId, b: RowId): (waits: seq<nat>)
    requires a in s.rows && b in s.rows && DueFrom(s.rows[a], s.clock) > DueFrom(s.rows[b], s.clock)
  {
    [DueFrom(s.rows[b], s.clock) - s.clock, DueFrom(s.rows[a], s.clock) - DueFrom(s.rows[b], s.clock)]
  }

  // b is logged after s and a only after that.
  ghost predicate LoggedBefore(s: State, t: State, b: RowId, a: RowId) {
    && s.log <= t.log
    && var rows := NewRows(s.log, t.log);
       exists k :: 0 <= k <= |rows| && b in rows[..k] && a !in rows[..k] && a in rows[k..]
  }

  lemma SplitAt(first: seq<RowId>, second: seq<RowId>, all: seq<RowId>, b: RowId, a: RowId)
    requires all == first + second && b in first && a !in first && a in second
    ensures exists k :: 0 <= k <= |all| && b in all[..k] && a !in all[..k] && a in all[k..]
  {
    assert all[..|first|] == first && all[|first|..] == second;
  }

  lemma LaterIsLoggedLater(s: State, a: RowId, b: RowId, limit: nat, accepts: Verdict)
    requires Serene(s, accepts) && limit > 0 && Awaited(s, a, accepts) && Awaited(s, b, accepts)
    requires DueFrom(s.rows[a], s.clock) > DueFrom(s.rows[b], s.clock)
    ensures LoggedBefore(s, DrainAll(s, TellingWaits(s, a, b), limit, accepts), b, a)
  {
    var waits := TellingWaits(s, a, b);
    var t, u := DrainAll(s, [waits[0]], limit, accepts), DrainAll(s, waits, limit, accepts);
    DrainAllSettles(s, [], limit, accepts);
    NextDrain(s, [], waits[0], limit, accepts);
    assert [] + [waits[0]] == [waits[0]];
    NextDrain(s, [waits[0]], waits[1], limit, accepts);
    assert [waits[0]] + [waits[1]] == waits;
    assert b in Elements(NewRows(s.log, t.log)) && a !in Elements(NewRows(s.log, t.log));
    assert a in DueSet(t.rows, u.clock);
    assert a in Elements(NewRows(t.log, u.log));
    SplitAt(NewRows(s.log, t.log), NewRows(t.log, u.log), NewRows(s.log, u.log), b, a);
  }

  lemma SplitDescends(rows: seq<RowId>, b: RowId, a: RowId)
    requires a < b && exists k :: 0 <= k <= |rows| && b in rows[..k] && a !in rows[..k] && a in rows[k..]
    ensures !Ascending(rows)
  {
    var k :| 0 <= k <= |rows| && b in rows[..k] && a !in rows[..k] && a in rows[k..];
    var i :| 0 <= i < k && rows[i] == b;
    var j :| k <= j < |rows| && rows[j] == a;
  }

  lemma LoggedBeforeDescends(s: State, t: State, b: RowId, a: RowId)
    requires a < b && LoggedBefore(s, t, b, a)
    ensures !Ascending(NewRows(s.log, t.log))
  {
    SplitDescends(NewRows(s.log, t.log), b, a);
  }

  ghost predicate DrainsInIdOrder(s: State, waits: seq<nat>, limit: nat, accepts: Verdict)
    requires Serene(s, accepts) && limit > 0
  {
    var t := DrainAll(s, waits, limit, accepts);
    s.log <= t.log && Ascending(NewRows(s.log, t.log))
  }

  // However an undisturbed relay waits and drains, and whatever its batch size, it publishes the
  // pending rows in id order - exactly when none of them becomes due later than a higher one.
  lemma BacklogInIdOrderExactly(s: State, limit: nat, accepts: Verdict)
    requires Serene(s, accepts) && limit > 0
    ensures (forall waits :: DrainsInIdOrder(s, waits, limit, accepts)) <==> InTimeOrder(s, accepts)
  {
    if InTimeOrder(s, accepts) {
      forall waits
        ensures DrainsInIdOrder(s, waits, limit, accepts)
      {
        InTimeAscends(s, waits, limit, accepts);
      }
    } else {
      var a, b :| a in s.rows && b in s.rows && a < b && Awaited(s, a, accepts) && Awaited(s, b, accepts)
                  && DueFrom(s.rows[a], s.clock) > DueFrom(s.rows[b], s.clock);
      var waits := TellingWaits(s, a, b);
      LaterIsLoggedLater(s, a, b, limit, accepts);
      LoggedBeforeDescends(s, DrainAll(s, waits, limit, accepts), b, a);
      assert !DrainsInIdOrder(s, waits, limit, accepts);
    }
  }

  lemma WaitAndDrain(s: State, wait: nat, limit: nat, accepts: Verdict) returns (r: Run)
    requires Serene(s, accepts) && limit > 0
    ensures IsRun(r) && r.states[0] == s && Last(r) == DrainAt(s, wait, limit, accepts)
  {
    var drain := DrainIsARun(Later(s, wait), limit, accepts);
    r := Extend(Start(s), Tick(wait));
    r := Join(r, drain);
  }

  // Waiting and draining is a run of the protocol.
  lemma {:induction false} DrainAllIsARun(s: State, waits: seq<nat>, limit: nat, accepts: Verdict) returns (r: Run)
    requires Serene(s, accepts) && limit > 0
    ensures IsRun(r) && r.states[0] == s && Last(r) == DrainAll(s, waits, limit, accepts)
  {
    if waits == [] {
      r := Start(s);
    } else {
      var front, wait := waits[..|waits| - 1], waits[|waits| - 1];
      r := DrainAllIsARun(s, front, limit, accepts);
      var last := WaitAndDrain(DrainAll(s, front, limit, accepts), wait, limit, accepts);
      r := Join(r, last);
    }
  }
}
