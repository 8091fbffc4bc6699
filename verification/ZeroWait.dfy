/**
 Passes without a wait between them, under the retry schedule: they end, because a
 rescheduled row comes back later - which is so exactly when both the base and the cap of
 the schedule are at least two nanoseconds.
 */
module ZeroWait {
  import opened Wrappers
  import opened Ordering
  import opened Wire
  import opened Protocol
  import opened Invariant
  import opened Safety
  import opened Draining
  import opened Overtaking
  import Backoff

  // The delay after this many earlier attempts, before it is made to fit an int64.
  function Delay(base: int, cap: int, attempts: nat, jitter: real): int {
    Backoff.Jittered(Backoff.Saturating(Backoff.Min(base, cap), cap, attempts), jitter)
  }

  // One jittered step of the schedule after `failedAt`; where that leaves int64 nothing is said.
  predicate OneDelayAfter(at: Instant, failedAt: Instant, base: int, cap: int, attempts: nat, jitter: real) {
    && 0.5 <= jitter < 1.5
    && (Backoff.InInt64(Delay(base, cap, attempts, jitter)) ==> at == failedAt + Delay(base, cap, attempts, jitter))
  }

  // The row this pass stopped on comes back one jittered step of the schedule after `failedAt`.
  ghost predicate BacksOff(x: RelayTx, base: int, cap: int, failedAt: Instant, jitter: real) {
    x.phase.Stopped? && 0 < x.handled <= |x.batch| ==>
      var m := x.batch[x.handled - 1];
      m.id in x.writes && OneDelayAfter(x.writes[m.id].availableAt, failedAt, base, cap, m.attempts, jitter)
  }

  // No product of this schedule leaves int64.
  predicate Fits(cap: int) {
    cap as real * 1.5 <= Backoff.MAX_INT64 as real
  }

  lemma BoundedProduct(delay: int, cap: int, product: int)
    requires delay <= cap && 2 * product <= 3 * delay && 3 * cap <= 2 * Backoff.MAX_INT64
    ensures product <= Backoff.MAX_INT64
  {
  }

  lemma FitsIsInt64(cap: int)
    requires Fits(cap) && cap >= 0
    ensures cap <= Backoff.MAX_INT64 && 3 * cap <= 2 * Backoff.MAX_INT64
  {
    assert (3 * cap) as real == 2.0 * (cap as real * 1.5);
    assert (2 * Backoff.MAX_INT64) as real == 2.0 * Backoff.MAX_INT64 as real;
  }

  lemma DelayIsPositive(base: int, cap: int, attempts: nat, jitter: real)
    requires base >= 2 && cap >= 2 && Fits(cap) && 0.5 <= jitter < 1.5
    ensures 1 <= Delay(base, cap, attempts, jitter) <= Backoff.MAX_INT64
  {
    FitsIsInt64(cap);
    Backoff.SaturatingIsLadder(base, cap, attempts);
    Backoff.LadderInRange(base, cap, attempts);
    Backoff.LadderAtLeastTwo(base, cap, attempts);
    Backoff.JitterBounds(Backoff.Ladder(base, cap, attempts), jitter);
    BoundedProduct(Backoff.Ladder(base, cap, attempts), cap, Delay(base, cap, attempts, jitter));
  }

  // A rescheduled row lies in the future: it comes back later than the failure was seen.
  lemma BackoffLandsLater(rows: map<RowId, Row>, log: seq<LogEntry>, x: RelayTx, base: int, cap: int,
                          failedAt: Instant, jitter: real)
    requires RelayOk(rows, log, x) && MayCommit(x) && BacksOff(x, base, cap, failedAt, jitter)
    requires base >= 2 && cap >= 2 && Fits(cap)
    ensures LandsLater(x, failedAt)
  {
    MarksByVerdict(rows, log, x);
    if x.phase.Stopped? {
      var m := x.batch[x.handled - 1];
      DelayIsPositive(base, cap, m.attempts, jitter);
      forall id | id in x.writes && x.writes[id].status == Pending
        ensures x.writes[id].availableAt > failedAt
      {
        assert id in WithStatus(x.writes, Pending);
      }
    } else {
      forall id | id in x.writes
        ensures x.writes[id].status != Pending
      {
        assert id !in WithStatus(x.writes, Pending);
      }
    }
  }

  // The wait is within a factor of the documented formula at this many attempts, give or take a nanosecond.
  predicate WaitsByFormula(wait: int, base: int, cap: int, attempts: nat) {
    var delay := Backoff.Min(cap, base * Backoff.Pow2(attempts));
    delay / 2 <= wait && 2 * wait <= 3 * (delay + 1)
  }

  lemma DelayByFormula(base: int, cap: int, attempts: nat, jitter: real)
    requires 0 < base <= cap && Fits(cap) && 0.5 <= jitter < 1.5
    ensures WaitsByFormula(Delay(base, cap, attempts, jitter), base, cap, attempts)
    ensures Backoff.InInt64(Delay(base, cap, attempts, jitter))
  {
    FitsIsInt64(cap);
    Backoff.SaturatingIsLadder(base, cap, attempts);
    Backoff.LadderInRange(base, cap, attempts);
    Backoff.LadderIsTheFormula(base, cap, attempts);
    Backoff.JitterBounds(Backoff.Ladder(base, cap, attempts), jitter);
    BoundedProduct(Backoff.Ladder(base, cap, attempts), cap, Delay(base, cap, attempts, jitter));
  }

  // A rescheduled row comes back after min(cap, base * 2^attempts), jittered, at the attempts that the
  // committed row had before the failure.
  lemma RescheduledByFormula(rows: map<RowId, Row>, log: seq<LogEntry>, x: RelayTx, base: int, cap: int,
                             failedAt: Instant, jitter: real, id: RowId)
    requires RelayOk(rows, log, x) && MayCommit(x) && BacksOff(x, base, cap, failedAt, jitter)
    requires 0 < base <= cap && Fits(cap) && id in x.writes && x.writes[id].status == Pending
    ensures id in rows && WaitsByFormula(x.writes[id].availableAt - failedAt, base, cap, rows[id].attempts)
  {
    MarksByVerdict(rows, log, x);
    assert id in WithStatus(x.writes, Pending);
    DelayByFormula(base, cap, x.batch[x.handled - 1].attempts, jitter);
  }

  // ---------------------------------------------------------------- runs on the schedule

  // The clock stands still, nothing new becomes pending, and whatever a pass reschedules, it
  // reschedules by the schedule.
  ghost predicate Scheduled(s: State, step: Step, base: int, cap: int) {
    && !step.Tick? && !step.RegCommit? && !step.Replay?
    && (step.RelayCommit? ==>
          step.tx in s.relays && exists j :: BacksOff(s.relays[step.tx], base, cap, s.clock, j))
  }

  ghost predicate OnSchedule(r: Run, m: nat, n: nat, base: int, cap: int)
    requires m <= n <= |r.steps| < |r.states|
  {
    forall k :: m <= k < n ==> Scheduled(r.states[k], r.steps[k], base, cap)
  }

  // Passes that follow each other without a wait are at most as many as the rows that were due.
  ghost predicate ZeroWaitBound(r: Run, m: nat, n: nat)
    requires IsRun(r) && m <= n < |r.states|
  {
    WorkingPasses(r, m, n) + |DueNow(r.states[n])| <= |DueNow(r.states[m])|
  }

  lemma ScheduledIsStill(s: State, step: Step, base: int, cap: int)
    requires Inv(s) && Enabled(s, step) && Scheduled(s, step, base, cap)
    requires base >= 2 && cap >= 2 && Fits(cap)
    ensures Still(s, step)
  {
    if step.RelayCommit? {
      var x := s.relays[step.tx];
      var j :| BacksOff(x, base, cap, s.clock, j);
      assert RelayOk(s.rows, s.log, x);
      BackoffLandsLater(s.rows, s.log, x, base, cap, s.clock, j);
    }
  }

  lemma ZeroWaitOnSchedule(r: Run, m: nat, n: nat, base: int, cap: int)
    requires Execution(r) && m <= n < |r.states| && OnSchedule(r, m, n, base, cap)
    requires base >= 2 && cap >= 2 && Fits(cap)
    ensures ZeroWaitBound(r, m, n)
  {
    forall k | m <= k < n
      ensures Still(r.states[k], r.steps[k])
    {
      Reachable(r, k);
      StepOf(r, k);
      assert Scheduled(r.states[k], r.steps[k], base, cap);
      ScheduledIsStill(r.states[k], r.steps[k], base, cap);
    }
    ZeroWaitPassesTerminate(r, m, n);
  }

  // ---------------------------------------------------------------- one nanosecond is not enough

  // The first delay of a schedule whose base or cap is below two nanoseconds may be nothing, or less.
  lemma NoDelay(base: int, cap: int)
    requires Backoff.Min(base, cap) <= 1
    ensures Delay(base, cap, 0, 0.5) <= 0
  {
    Backoff.OneNanosecondIsLost(Backoff.Min(base, cap));
  }

  // A run from empty tables to one pending row, due now.
  lemma OneRowDue(env: Envelope) returns (r: Run)
    ensures Execution(r) && Last(r).relays == map[] && Last(r).regs == map[]
    ensures Last(r).rows == map[0 := FreshRow(env, 0)] && Last(r).clock == 0
  {
    var s := State(map[], 0, 0, 0, map[], map[], map[], map[], map[], [], map[], map[]);
    r := Extend(Start(s), RegBegin(0));
    r := Extend(r, RegInsertUser(0, env.aggregateId, Email("")));
    r := Extend(r, RegAppend(0, env));
    r := Extend(r, RegCommit(0));
    assert Last(r).regs == map[];
    assert Last(r).rows == map[0 := FreshRow(env, 0)];
  }

  lemma OnlyRowDue(s: State, env: Envelope)
    requires s.rows == map[0 := FreshRow(env, 0)] && s.clock == 0
    ensures DueNow(s) == {0} && Lowest(DueNow(s), 1) == [0]
  {
    assert DueNow(s) == {0};
    assert {0} - {0} == {};
    assert Lowest({0} - {0}, 0) == [];
  }

  // The pass that reschedules it without a delay keeps to the schedule, and it stays as due as before.
  lemma NoDelayOnSchedule(s: State, env: Envelope, cause: PublishError, base: int, cap: int)
    requires s.relays == map[] && s.rows == map[0 := FreshRow(env, 0)] && s.clock == 0
    requires ClassOf(cause) == Transient && Backoff.Min(base, cap) <= 1
    ensures var x := DeferringTx(s, 1, [0], Delay(base, cap, 0, 0.5), cause);
            var marked := s.(nextTx := s.nextTx + 1, relays := map[s.nextTx := x]);
      && Enabled(marked, RelayCommit(s.nextTx)) && Scheduled(marked, RelayCommit(s.nextTx), base, cap)
      && DueNow(Apply(marked, RelayCommit(s.nextTx))) == {0} && x.batch != []
  {
    var at := Delay(base, cap, 0, 0.5);
    var x := DeferringTx(s, 1, [0], at, cause);
    DeferringCommit(s, 1, [0], at, cause);
    NoDelay(base, cap);
    assert BacksOff(x, base, cap, 0, 0.5);
  }

  lemma OnScheduleExtend(r: Run, m: nat, step: Step, base: int, cap: int)
    requires IsRun(r) && m <= |r.steps| && UntroubledFrom(r, m)
    requires Enabled(Last(r), step) && Scheduled(Last(r), step, base, cap)
    ensures OnSchedule(Extend(r, step), m, |r.steps| + 1, base, cap)
  {
    var r' := Extend(r, step);
    forall k | m <= k < |r'.steps|
      ensures Scheduled(r'.states[k], r'.steps[k], base, cap)
    {
      if k < |r.steps| {
        assert Untroubling(r.steps[k]) && r'.steps[k] == r.steps[k];
      }
    }
  }

  // A working pass that leaves as much due as there was.
  lemma BoundBroken(r: Run, m: nat, step: Step)
    requires IsRun(r) && m <= |r.steps| && Enabled(Last(r), step) && Worked(Last(r), step) == 1
    requires |DueNow(Apply(Last(r), step))| == |DueNow(r.states[m])|
    ensures !ZeroWaitBound(Extend(r, step), m, |r.steps| + 1)
  {
    var r' := Extend(r, step);
    assert r'.states[m] == r.states[m] && r'.states[|r.steps|] == Last(r);
  }

  // A step that keeps to the schedule, ends a working pass and leaves as much due as in state m.
  ghost predicate Idles(r: Run, m: nat, step: Step, base: int, cap: int)
    requires m < |r.states|
  {
    && Enabled(Last(r), step) && Scheduled(Last(r), step, base, cap) && Worked(Last(r), step) == 1
    && |DueNow(Apply(Last(r), step))| == |DueNow(r.states[m])|
  }

  lemma AboutToReschedule(before: Run, env: Envelope, cause: PublishError, base: int, cap: int)
    returns (r: Run, step: Step)
    requires IsRun(before) && Last(before).relays == map[] && Last(before).regs == map[]
    requires Last(before).rows == map[0 := FreshRow(env, 0)] && Last(before).clock == 0
    requires ClassOf(cause) == Transient && Backoff.Min(base, cap) <= 1
    ensures IsRun(r) && before.states <= r.states && |before.steps| <= |r.steps| && UntroubledFrom(r, |before.steps|)
    ensures Idles(r, |before.steps|, step, base, cap)
  {
    var s, none: Verdict := Last(before), _ => false;
    OnlyRowDue(s, env);
    NoDelayOnSchedule(s, env, cause, base, cap);
    r := DeferringRun(before, 1, Delay(base, cap, 0, 0.5), cause, none);
    step := RelayCommit(s.nextTx);
    assert r.states[|before.steps|] == s;
  }

  lemma RescheduledAtOnce(before: Run, env: Envelope, cause: PublishError, base: int, cap: int) returns (r: Run)
    requires Execution(before) && Last(before).relays == map[] && Last(before).regs == map[]
    requires Last(before).rows == map[0 := FreshRow(env, 0)] && Last(before).clock == 0
    requires ClassOf(cause) == Transient && Backoff.Min(base, cap) <= 1
    ensures Execution(r) && |before.steps| <= |r.steps|
    ensures OnSchedule(r, |before.steps|, |r.steps|, base, cap) && !ZeroWaitBound(r, |before.steps|, |r.steps|)
  {
    var marked, step := AboutToReschedule(before, env, cause, base, cap);
    r := Extend(marked, step);
    OnScheduleExtend(marked, |before.steps|, step, base, cap);
    BoundBroken(marked, |before.steps|, step);
  }

  // The bound holds of every run on the schedule exactly when base and cap are two nanoseconds or more.
  lemma ZeroWaitBoundExactly(base: int, cap: int)
    requires Fits(cap)
    ensures (forall r, m, n :: Execution(r) && 0 <= m <= n < |r.states| && OnSchedule(r, m, n, base, cap) ==>
                                 ZeroWaitBound(r, m, n))
            <==> base >= 2 && cap >= 2
  {
    if base >= 2 && cap >= 2 {
      forall r, m, n | Execution(r) && 0 <= m <= n < |r.states| && OnSchedule(r, m, n, base, cap)
        ensures ZeroWaitBound(r, m, n)
      {
        ZeroWaitOnSchedule(r, m, n, base, cap);
      }
    } else {
      var payload := Payload(Uuid("1"), "registered", "", "2", 0, "", "", UserData("2", "", "", 1, 0));
      var env := Envelope(Uuid("1"), "User", Uuid("2"), "registered", 1, payload, map[], 0);
      var before := OneRowDue(env);
      var r := RescheduledAtOnce(before, env, PublishError(false, true, "timeout"), base, cap);
      assert Execution(r) && OnSchedule(r, |before.steps|, |r.steps|, base, cap);
      assert !ZeroWaitBound(r, |before.steps|, |r.steps|);
    }
  }
}
