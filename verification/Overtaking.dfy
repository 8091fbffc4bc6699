/**
 One transient failure publishes two rows the other way round: the row that failed waits for
 its backoff, and the relay goes on with those above it. Every claim takes the lowest due rows.
 */
module Overtaking {
  import opened Wrappers
  import opened Ordering
  import opened Wire
  import opened Protocol
  import opened Safety
  import opened FirstPublication
  import opened Draining
  import opened DrainOrder

  // ---------------------------------------------------------------- a transient failure

  ghost function Deferred(s: State, id: RowId, at: Instant, cause: PublishError): State
    requires id in s.rows
  {
    s.(nextTx := s.nextTx + 1, rows := s.rows[id := MarkRow(s.rows[id], AsRescheduled(at, cause.reason), s.clock)])
  }

  lemma CommitAlone(s: State, tx: TxId, x: RelayTx)
    requires s.relays == map[tx := x] && MayCommit(x)
    ensures Enabled(s, RelayCommit(tx))
    ensures Apply(s, RelayCommit(tx)) == s.(rows := s.rows + x.writes, relays := map[])
  {
    assert map[tx := x] - {tx} == map[];
  }

  // The pass that rescheduled the first row of its batch, about to commit.
  function DeferringTx(s: State, limit: nat, ids: seq<RowId>, at: Instant, cause: PublishError): RelayTx
    requires ids != [] && forall i :: 0 <= i < |ids| ==> ids[i] in s.rows
  {
    RelayTx(s.clock, limit, Messages(s, ids), 1, Stopped,
            map[ids[0] := MarkRow(s.rows[ids[0]], AsRescheduled(at, cause.reason), s.clock)], {})
  }

  // From the moment the claim has been made: the failed produce call and its mark.
  lemma DeferringMark(s: State, mid: State, limit: nat, ids: seq<RowId>, at: Instant, cause: PublishError,
                      accepts: Verdict)
    requires CanAccept(s, ids, accepts) && ids != [] && ClassOf(cause) == Transient
    requires mid == MidState(s, limit, ids, 0, accepts)
    ensures var publish := RelayPublish(s.nextTx, Error(cause, false));
            var mark := RelayMark(s.nextTx, AsRescheduled(at, cause.reason));
            && Enabled(mid, publish) && Enabled(Apply(mid, publish), mark)
            && Apply(Apply(mid, publish), mark)
               == s.(nextTx := s.nextTx + 1, relays := map[s.nextTx := DeferringTx(s, limit, ids, at, cause)])
  {
    var tx, x, mark := s.nextTx, MidPass(s, limit, ids, 0, accepts), AsRescheduled(at, cause.reason);
    var failed := AfterPublish(x, Error(cause, false));
    PublishAlone(mid, tx, x, Error(cause, false));
    MarkAlone(Apply(mid, RelayPublish(tx, Error(cause, false))), tx, failed, mark);
    assert AfterMark(s.rows, failed, mark) == DeferringTx(s, limit, ids, at, cause);
    assert s.log + Emitted(s, ids[..0], accepts) == s.log;
  }

  lemma DeferringCommit(s: State, limit: nat, ids: seq<RowId>, at: Instant, cause: PublishError)
    requires s.relays == map[] && ids != [] && forall i :: 0 <= i < |ids| ==> ids[i] in s.rows
    ensures var marked := s.(nextTx := s.nextTx + 1,
                             relays := map[s.nextTx := DeferringTx(s, limit, ids, at, cause)]);
            && Enabled(marked, RelayCommit(s.nextTx))
            && Apply(marked, RelayCommit(s.nextTx)) == Deferred(s, ids[0], at, cause)
  {
    var x := DeferringTx(s, limit, ids, at, cause);
    CommitAlone(s.(nextTx := s.nextTx + 1, relays := map[s.nextTx := x]), s.nextTx, x);
    assert s.rows + x.writes == s.rows[ids[0] := x.writes[ids[0]]];
  }

  predicate Untroubling(step: Step) {
    !step.Tick? && !ChangesTables(step)
  }

  // None of its steps from number m on touches the clock or the table.
  ghost predicate UntroubledFrom(r: Run, m: nat) {
    forall k :: m <= k < |r.steps| ==> Untroubling(r.steps[k])
  }

  lemma UntroubledExtend(r: Run, m: nat, step: Step) returns (r': Run)
    requires IsRun(r) && UntroubledFrom(r, m) && Enabled(Last(r), step) && Untroubling(step)
    ensures r' == Extend(r, step) && IsRun(r') && UntroubledFrom(r', m)
    ensures r.states <= r'.states && r.steps <= r'.steps && Last(r') == Apply(Last(r), step)
  {
    r' := Extend(r, step);
  }

  lemma UntroubledClaim(before: Run, limit: nat, accepts: Verdict) returns (r: Run)
    requires IsRun(before) && Quiet(Last(before), accepts)
    ensures IsRun(r) && before.states <= r.states && before.steps <= r.steps && UntroubledFrom(r, |before.steps|)
    ensures var s := Last(before);
            && CanAccept(s, Lowest(DueNow(s), limit), accepts)
            && Last(r) == MidState(s, limit, Lowest(DueNow(s), limit), 0, accepts)
  {
    var s := Last(before);
    BeginAndClaim(s, limit, accepts);
    r := UntroubledExtend(before, |before.steps|, RelayBegin(s.nextTx));
    r := UntroubledExtend(r, |before.steps|, RelayClaim(s.nextTx, limit, Lowest(DueNow(s), limit)));
  }

  // The run up to the mark.
  lemma DeferringRun(before: Run, limit: nat, at: Instant, cause: PublishError, accepts: Verdict) returns (r: Run)
    requires IsRun(before) && Quiet(Last(before), accepts) && Lowest(DueNow(Last(before)), limit) != []
    requires ClassOf(cause) == Transient
    ensures CanAccept(Last(before), Lowest(DueNow(Last(before)), limit), accepts)
    ensures IsRun(r) && before.states <= r.states && before.steps <= r.steps && UntroubledFrom(r, |before.steps|)
    ensures var s := Last(before);
            var x := DeferringTx(s, limit, Lowest(DueNow(s), limit), at, cause);
            Last(r) == s.(nextTx := s.nextTx + 1, relays := map[s.nextTx := x])
  {
    var s, m := Last(before), |before.steps|;
    r := UntroubledClaim(before, limit, accepts);
    DeferringMark(s, Last(r), limit, Lowest(DueNow(s), limit), at, cause, accepts);
    r := UntroubledExtend(r, m, RelayPublish(s.nextTx, Error(cause, false)));
    r := UntroubledExtend(r, m, RelayMark(s.nextTx, AsRescheduled(at, cause.reason)));
  }

  // A pass whose first produce call fails transiently: it reschedules that row, stops and commits.
  lemma DeferringPass(s: State, limit: nat, at: Instant, cause: PublishError, accepts: Verdict) returns (r: Run)
    requires Quiet(s, accepts) && Lowest(DueNow(s), limit) != [] && ClassOf(cause) == Transient
    ensures IsRun(r) && r.states[0] == s && Lowest(DueNow(s), limit)[0] in s.rows
    ensures Last(r) == Deferred(s, Lowest(DueNow(s), limit)[0], at, cause)
  {
    r := DeferringRun(Start(s), limit, at, cause, accepts);
    assert r.states[0] == s;
    DeferringCommit(s, limit, Lowest(DueNow(s), limit), at, cause);
    r := Extend(r, RelayCommit(s.nextTx));
  }

  lemma LowestStartsWithMin(s: set<RowId>, k: nat)
    requires s != {} && k > 0
    ensures Lowest(s, k) != [] && Lowest(s, k)[0] == Ordering.Min(s)
  {
  }

  lemma DeferredIsLater(s: State, a: RowId, b: RowId, at: Instant, cause: PublishError, accepts: Verdict)
    requires Serene(s, accepts) && a in DueNow(s) && b in DueNow(s) && a != b && accepts(a) && accepts(b)
    requires at > s.clock
    ensures var s1 := Deferred(s, a, at, cause);
            && Serene(s1, accepts) && Awaited(s1, a, accepts) && Awaited(s1, b, accepts)
            && DueFrom(s1.rows[a], s1.clock) > DueFrom(s1.rows[b], s1.clock)
  {
  }

  // What the failure makes of s, and how the drains after it go on.
  ghost predicate Reorders(s: State, s1: State, t: State, a: RowId, b: RowId, limit: nat, accepts: Verdict) {
    && limit > 0 && s1.log == s.log && Serene(s1, accepts)
    && Awaited(s1, a, accepts) && Awaited(s1, b, accepts)
    && DueFrom(s1.rows[a], s1.clock) > DueFrom(s1.rows[b], s1.clock)
    && t == DrainAll(s1, TellingWaits(s1, a, b), limit, accepts)
    && LoggedBefore(s1, t, b, a)
  }

  lemma DrainsOutOfOrder(s: State, s1: State, a: RowId, b: RowId, limit: nat, accepts: Verdict) returns (r: Run)
    requires limit > 0 && s1.log == s.log && Serene(s1, accepts)
    requires Awaited(s1, a, accepts) && Awaited(s1, b, accepts)
    requires DueFrom(s1.rows[a], s1.clock) > DueFrom(s1.rows[b], s1.clock)
    ensures IsRun(r) && r.states[0] == s1 && Reorders(s, s1, Last(r), a, b, limit, accepts)
  {
    LaterIsLoggedLater(s1, a, b, limit, accepts);
    r := DrainAllIsARun(s1, TellingWaits(s1, a, b), limit, accepts);
  }

  lemma JoinThrough(first: Run, rest: Run) returns (r: Run)
    requires IsRun(first) && IsRun(rest) && Last(first) == rest.states[0]
    ensures IsRun(r) && r.states[0] == first.states[0] && Last(first) in r.states && Last(r) == Last(rest)
  {
    r := Join(first, rest);
    assert r.states[|first.states| - 1] == Last(first);
  }

  // The lowest due row meets one transient failure. However soon it may be tried again, any other
  // due row is then published before it.
  lemma OneTransientFailureReorders(s: State, b: RowId, limit: nat, at: Instant, cause: PublishError, accepts: Verdict)
    returns (r: Run)
    requires Serene(s, accepts) && limit > 0 && at > s.clock && ClassOf(cause) == Transient
    requires b in DueNow(s) && b != Ordering.Min(DueNow(s)) && accepts(b) && accepts(Ordering.Min(DueNow(s)))
    ensures var a := Ordering.Min(DueNow(s));
            var s1 := Deferred(s, a, at, cause);
            && a < b && IsRun(r) && r.states[0] == s && s1 in r.states
            && Reorders(s, s1, Last(r), a, b, limit, accepts)
  {
    var a := Ordering.Min(DueNow(s));
    LowestStartsWithMin(DueNow(s), limit);
    DeferredIsLater(s, a, b, at, cause, accepts);
    var first := DeferringPass(s, limit, at, cause, accepts);
    var rest := DrainsOutOfOrder(s, Last(first), a, b, limit, accepts);
    r := JoinThrough(first, rest);
  }
}
