/**
 How long a due row waits while others arrive: fault-free passes of one relay, and between two of
 them any registrations, and any time. Which pass settles the row follows from its rank and from
 the lower rows that have become due meanwhile.
 */
module Arrivals {
  import opened Wrappers
  import opened Ordering
  import opened Protocol
  import opened Invariant
  import opened Draining

  // Between two passes registrations go on and time goes by.
  predicate OfArrivals(step: Step) {
    step.Tick? || OfRegistration(step)
  }

  ghost predicate ArrivalsOnly(gap: Run) {
    IsRun(gap) && forall k :: 0 <= k < |gap.steps| ==> OfArrivals(gap.steps[k])
  }

  ghost predicate Between(t: State, u: State, gap: Run) {
    ArrivalsOnly(gap) && gap.states[0] == t && Last(gap) == u
  }

  // From state to state one pass, and then whatever arrives.
  ghost predicate Round(s: State, u: State, limit: nat, accepts: Verdict)
    requires Quiet(s, accepts)
  {
    exists gap :: Between(AfterPass(s, limit, accepts), u, gap)
  }

  ghost predicate Rounds(states: seq<State>, limit: nat, accepts: Verdict) {
    && |states| > 0 && Inv(states[0])
    && (forall i :: 0 <= i < |states| ==> Quiet(states[i], accepts))
    && (forall i :: 0 <= i < |states| - 1 ==> Round(states[i], states[i + 1], limit, accepts))
  }

  // Nothing that was in the table is touched.
  ghost predicate Kept(t: State, u: State) {
    && t.clock <= u.clock
    && forall id :: id in t.rows ==> id in u.rows && u.rows[id] == t.rows[id]
  }

  lemma ArrivalKeeps(s: State, step: Step)
    requires Inv(s) && Enabled(s, step) && OfArrivals(step)
    ensures Kept(s, Apply(s, step))
  {
    if step.RegCommit? {
      assert RegRowsOk(s.journal, Ever(s), s.regs[step.tx]);
    } else {
      TablesUnmoved(s, step);
    }
  }

  lemma {:induction false} ArrivalsKeep(gap: Run, k: nat)
    requires ArrivalsOnly(gap) && Inv(gap.states[0]) && k < |gap.states|
    ensures Kept(gap.states[0], gap.states[k])
  {
    if k > 0 {
      ArrivalsKeep(gap, k - 1);
      RunInv(gap, k - 1);
      StepOf(gap, k - 1);
      ArrivalKeeps(gap.states[k - 1], gap.steps[k - 1]);
    }
  }

  lemma RoundKeeps(s: State, u: State, limit: nat, accepts: Verdict)
    requires Inv(s) && Quiet(s, accepts) && Round(s, u, limit, accepts)
    ensures Kept(AfterPass(s, limit, accepts), u) && Inv(u)
  {
    var pass := FaultFreePass(s, limit, accepts);
    RunInv(pass, |pass.states| - 1);
    var gap :| Between(AfterPass(s, limit, accepts), u, gap);
    ArrivalsKeep(gap, |gap.states| - 1);
    RunInv(gap, |gap.states| - 1);
  }

  // The lower rows that are due now and were not left over from the pass before.
  ghost function Newcomers(s: State, u: State, limit: nat, accepts: Verdict, id: RowId): set<RowId>
    requires Quiet(s, accepts)
  {
    Below(DueNow(u), id) - DueNow(AfterPass(s, limit, accepts))
  }

  // How many of them there have been in the first n rounds.
  ghost function Arrived(states: seq<State>, limit: nat, accepts: Verdict, id: RowId, n: nat): nat
    requires Rounds(states, limit, accepts) && n < |states|
  {
    if n == 0 then 0
    else Arrived(states, limit, accepts, id, n - 1) + |Newcomers(states[n - 1], states[n], limit, accepts, id)|
  }

  lemma {:induction false} RoundsInv(states: seq<State>, limit: nat, accepts: Verdict, n: nat)
    requires Rounds(states, limit, accepts) && n < |states|
    ensures Inv(states[n])
  {
    if n > 0 {
      RoundsInv(states, limit, accepts, n - 1);
      RoundKeeps(states[n - 1], states[n], limit, accepts);
    }
  }

  // A due row keeps waiting or is settled for good.
  ghost predicate DueOrSettled(s: State, id: RowId) {
    id in s.rows && (id in DueNow(s) <==> s.rows[id].status == Pending)
  }

  lemma ArrivalsBelow(t: State, u: State, id: RowId)
    requires Kept(t, u) && DueOrSettled(t, id)
    ensures DueOrSettled(u, id) && (id in DueNow(u) <==> id in DueNow(t))
    ensures |Below(DueNow(u), id)| == |Below(DueNow(t), id)| + |Below(DueNow(u), id) - DueNow(t)|
  {
    var left, all := Below(DueNow(t), id), Below(DueNow(u), id);
    assert left <= all;
    assert all - DueNow(t) == all - left;
    assert all == left + (all - left);
  }

  lemma PassSettlesOrNot(s: State, limit: nat, accepts: Verdict, id: RowId)
    requires Quiet(s, accepts) && DueOrSettled(s, id)
    ensures var t := AfterPass(s, limit, accepts);
      && DueOrSettled(t, id)
      && (id in DueNow(t) <==> id in DueNow(s) && limit <= |Below(DueNow(s), id)|)
      && (id in DueNow(t) ==> |Below(DueNow(s), id)| == |Below(DueNow(t), id)| + limit)
  {
    PassTakesLowest(s, limit, accepts);
    if id in DueNow(s) {
      TakenOrCloser(DueNow(s), limit, id);
    }
  }

  // Whether the row is still due after n rounds, and if so how many lie below it.
  lemma OneRound(s: State, u: State, limit: nat, accepts: Verdict, id: RowId)
    requires Inv(s) && Quiet(s, accepts) && Round(s, u, limit, accepts) && DueOrSettled(s, id)
    ensures DueOrSettled(u, id)
    ensures id in DueNow(u) <==> id in DueNow(s) && limit <= |Below(DueNow(s), id)|
    ensures id in DueNow(u) ==>
      |Below(DueNow(u), id)| + limit == |Below(DueNow(s), id)| + |Newcomers(s, u, limit, accepts, id)|
  {
    RoundKeeps(s, u, limit, accepts);
    PassSettlesOrNot(s, limit, accepts, id);
    ArrivalsBelow(AfterPass(s, limit, accepts), u, id);
  }

  // Even counting it in, the first m passes do not reach beyond the rows that were to go before it: its
  // rank, and the lower rows that had become due by then.
  ghost predicate PassedOver(states: seq<State>, limit: nat, accepts: Verdict, id: RowId, m: nat)
    requires Rounds(states, limit, accepts) && 0 < m <= |states|
  {
    Batches(m, limit) <= |Below(DueNow(states[0]), id)| + Arrived(states, limit, accepts, id, m - 1)
  }

  ghost predicate AlwaysPassedOver(states: seq<State>, limit: nat, accepts: Verdict, id: RowId, n: nat)
    requires Rounds(states, limit, accepts) && n <= |states|
  {
    forall m :: 0 < m <= n ==> PassedOver(states, limit, accepts, id, m)
  }

  lemma PassedOverOnceMore(states: seq<State>, limit: nat, accepts: Verdict, id: RowId, n: nat)
    requires Rounds(states, limit, accepts) && 0 < n <= |states|
    ensures AlwaysPassedOver(states, limit, accepts, id, n)
            <==> AlwaysPassedOver(states, limit, accepts, id, n - 1) && PassedOver(states, limit, accepts, id, n)
  {
  }

  // How many rows lie below it before round n, if it is still due.
  ghost predicate RankIs(states: seq<State>, limit: nat, accepts: Verdict, id: RowId, n: nat)
    requires Rounds(states, limit, accepts) && n < |states|
  {
    |Below(DueNow(states[n]), id)| + Batches(n, limit)
    == |Below(DueNow(states[0]), id)| + Arrived(states, limit, accepts, id, n)
  }

  lemma NextRank(states: seq<State>, limit: nat, accepts: Verdict, id: RowId, n: nat)
    requires Rounds(states, limit, accepts) && 0 < n < |states| && DueOrSettled(states[n - 1], id)
    requires id in DueNow(states[n - 1]) ==> RankIs(states, limit, accepts, id, n - 1)
    ensures DueOrSettled(states[n], id)
    ensures id in DueNow(states[n]) <==> id in DueNow(states[n - 1]) && PassedOver(states, limit, accepts, id, n)
    ensures id in DueNow(states[n]) ==> RankIs(states, limit, accepts, id, n)
  {
    var s, u := states[n - 1], states[n];
    RoundsInv(states, limit, accepts, n - 1);
    OneRound(s, u, limit, accepts, id);
    assert Arrived(states, limit, accepts, id, n)
        == Arrived(states, limit, accepts, id, n - 1) + |Newcomers(s, u, limit, accepts, id)|;
    assert Batches(n, limit) == Batches(n - 1, limit) + limit;
  }

  // A due row is still due after n rounds exactly if none of the n passes reached it: the first m with
  // m batches more than its rank and the lower arrivals since is the pass that settles it, for good.
  lemma {:induction false} SettledByRankWithArrivals(states: seq<State>, limit: nat, accepts: Verdict, id: RowId,
                                                        n: nat)
    requires Rounds(states, limit, accepts) && n < |states| && id in DueNow(states[0])
    ensures DueOrSettled(states[n], id)
    ensures id in DueNow(states[n]) <==> AlwaysPassedOver(states, limit, accepts, id, n)
    ensures id in DueNow(states[n]) ==> RankIs(states, limit, accepts, id, n)
  {
    if n > 0 {
      SettledByRankWithArrivals(states, limit, accepts, id, n - 1);
      NextRank(states, limit, accepts, id, n);
      PassedOverOnceMore(states, limit, accepts, id, n);
    }
  }
}
