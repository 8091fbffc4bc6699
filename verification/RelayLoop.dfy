/**
 The relay's driver loop: how long it waits between passes, and how it goes down. Time is
 one integer clock; a script says how long each pass runs, what it returns, how the wakeup
 and the timers behave, and when the stop signal arrives - every script is allowed.
 */
module RelayLoop {
  import opened Wrappers
  import opened PublishPendingBatches
  import Backoff

  type Time = int

  datatype RelayPolicy = RelayPolicy(idleMin: Backoff.int64, idleMax: Backoff.int64, drainGrace: nat)

  ghost predicate PeriodsOk(p: RelayPolicy) {
    0 < p.idleMin <= p.idleMax && p.idleMax as int <= Backoff.MAX_INT64 / 2
  }

  // The Waiter contract: it returns before the timeout only if it was woken - or it fails.
  datatype WaiterReply = Woken(after: nat) | TimedOut(late: nat) | Failed(after: nat)

  // One turn of the loop. A pass that is not cancelled runs for `duration` and returns `result`
  // (None for an error); a cancelled one returns `cancelled`, which may even be a success.
  datatype Turn = Turn(
    lag: nat, duration: nat, result: Option<PublishResult>,
    windDown: nat, cancelled: Option<PublishResult>,
    jitter: real, waiter: WaiterReply, timerLate: nat)

  // When the process is asked to stop, and how late the grace timer's callback runs.
  datatype Signal = Never | StopAt(at: Time, callbackLate: nat)

  // ctx is done: stop taking new work.
  predicate Stopping(signal: Signal, t: Time) {
    signal.StopAt? && t >= signal.at
  }

  // pass is done: abandon the work in hand. It outlives ctx by at least the grace.
  predicate Abandoned(signal: Signal, policy: RelayPolicy, t: Time) {
    signal.StopAt? && t >= signal.at + policy.drainGrace + signal.callbackLate
  }

  // `due` is when the pass would have ended undisturbed, `next` when the wait after it ended.
  datatype PassRecord = PassRecord(
    start: Time, due: Time, end: Time, cancelled: bool, result: Option<PublishResult>,
    asked: int, cut: bool, woken: bool, next: Time)

  datatype LoopEnd = Running | Clean | GraceExpired

  // The default branch of nextWait: nothing was claimed.
  predicate Empty(res: PublishResult) {
    !res.Full() && res.transient == [] && res.claimed == 0
  }

  function Latest(a: Time, b: Time): Time {
    if a < b then b else a
  }

  // When a pass ends that is cancelled at the end of the grace, or never.
  function PassEndsAt(signal: Signal, policy: RelayPolicy, turn: Turn, start: Time): Time {
    if Abandoned(signal, policy, start + turn.duration)
    then Latest(start, signal.at + policy.drainGrace + signal.callbackLate) + turn.windDown
    else start + turn.duration
  }

  // When a sleep ends: with ctx, or late.
  function SleepEndsAt(signal: Signal, from: Time, d: int, late: nat): Time {
    if signal.StopAt? && signal.at < from + d then Latest(from, signal.at) else from + d + late
  }

  // When a wait ends. A waiter that fails does not shorten it.
  function WaitEndsAt(signal: Signal, hasWaiter: bool, from: Time, d: int, turn: Turn): Time {
    var jittered := Backoff.Jittered(d, Backoff.Factor(turn.jitter));
    if d <= 0 then from
    else if !hasWaiter then SleepEndsAt(signal, from, jittered, turn.timerLate)
    else
      match turn.waiter
      case Woken(after) => from + after
      case TimedOut(late) => SleepEndsAt(signal, from, jittered, late)
      case Failed(after) => SleepEndsAt(signal, from + after, jittered, turn.timerLate)
  }

  // What nextWait asks for on this rung of the ladder.
  function WaitFor(policy: RelayPolicy, idle: int, res: PublishResult): int {
    if res.Full() then 0
    else if res.transient != [] then policy.idleMax as int
    else if res.claimed > 0 then policy.idleMin as int
    else idle
  }

  // And after any pass; a failed one waits IdleMax, unless the loop ends with it.
  function AskedFor(signal: Signal, policy: RelayPolicy, idle: int, end: Time, result: Option<PublishResult>): int {
    if result.Some? then WaitFor(policy, idle, result.value)
    else if Stopping(signal, end) then 0 else policy.idleMax as int
  }

  // The record of a turn is what the script makes of it.
  predicate Recorded(signal: Signal, policy: RelayPolicy, hasWaiter: bool, from: Time, idle: int, turn: Turn,
                     r: PassRecord)
  {
    && r.start == from + turn.lag && r.due == r.start + turn.duration
    && r.end == PassEndsAt(signal, policy, turn, r.start)
    && r.cancelled == Abandoned(signal, policy, r.due)
    && r.result == (if r.cancelled then turn.cancelled else turn.result)
    && r.asked == AskedFor(signal, policy, idle, r.end, r.result)
    && r.next == WaitEndsAt(signal, hasWaiter, r.end, r.asked, turn)
    && r.woken == (r.asked > 0 && hasWaiter && turn.waiter.Woken?)
    && r.cut == if r.asked > 0 then r.woken || Stopping(signal, r.next) else r.result.None?
  }

  predicate FullBatch(r: PassRecord) {
    r.result.Some? && r.result.value.batchSize > 0 && r.result.value.claimed >= r.result.value.batchSize
  }

  // It failed, or met a broker that is unwell, without having filled its batch.
  predicate Unwell(r: PassRecord) {
    r.result.None? || (!FullBatch(r) && r.result.value.transient != [])
  }

  // What a pass asks for, case by case; an empty one asks for its rung of the ladder.
  predicate AsksByRule(signal: Signal, policy: RelayPolicy, r: PassRecord) {
    && (FullBatch(r) ==> r.asked == 0)
    && (Unwell(r) ==> r.asked == if r.result.None? && Stopping(signal, r.end) then 0 else policy.idleMax as int)
    && (!FullBatch(r) && !Unwell(r) && r.result.value.claimed > 0 ==> r.asked == policy.idleMin as int)
  }

  // A wait that ran its course took at least half of what was asked, and without a waiter at most one
  // and a half times as much, give or take the timer. Without one, a stop signal in its first half ends it.
  predicate WaitsByRule(signal: Signal, hasWaiter: bool, turn: Turn, r: PassRecord) {
    && (r.asked == 0 ==> r.next == r.end)
    && (!r.cut ==> r.next - r.end >= r.asked / 2)
    && (!hasWaiter && !r.cut ==> 2 * (r.next - r.end - turn.timerLate) <= 3 * r.asked)
    && (!hasWaiter && r.asked > 0 && signal.StopAt? && signal.at < r.end + r.asked / 2 ==>
          r.next == Latest(r.end, signal.at))
  }

  // The pass begins before the stop signal. It is cancelled exactly if it would still run when the grace is
  // over, and not before that; otherwise it takes the time it takes.
  predicate PassesByRule(signal: Signal, policy: RelayPolicy, from: Time, turn: Turn, r: PassRecord) {
    && (signal.StopAt? ==> from < signal.at)
    && r.start == from + turn.lag && r.due == r.start + turn.duration
    && (r.cancelled <==> signal.StopAt? && r.due >= signal.at + policy.drainGrace + signal.callbackLate)
    && (if r.cancelled then r.end >= signal.at + policy.drainGrace && r.result == turn.cancelled
        else r.end == r.due && r.result == turn.result)
  }

  lemma RecordedByRule(signal: Signal, policy: RelayPolicy, hasWaiter: bool, from: Time, idle: int, turn: Turn,
                       r: PassRecord)
    requires Recorded(signal, policy, hasWaiter, from, idle, turn, r) && PeriodsOk(policy)
    requires policy.idleMin as int <= idle <= policy.idleMax as int
    ensures AsksByRule(signal, policy, r) && WaitsByRule(signal, hasWaiter, turn, r)
    ensures !Stopping(signal, from) ==> PassesByRule(signal, policy, from, turn, r)
    ensures !r.cut && !FullBatch(r) ==> r.asked >= if Unwell(r) then policy.idleMax as int else policy.idleMin as int
  {
    if r.asked > 0 {
      Backoff.JitterBounds(r.asked, Backoff.Factor(turn.jitter));
    }
  }

  // Consecutive empty passes before position i since the last pass that found work, or wakeup.
  // A failed pass neither counts nor resets.
  function Streak(passes: seq<PassRecord>, i: nat): nat
    requires i <= |passes|
  {
    if i == 0 then 0
    else
      var r := passes[i - 1];
      if r.woken then 0
      else if r.result.None? then Streak(passes, i - 1)
      else if Empty(r.result.value) then Streak(passes, i - 1) + 1
      else 0
  }

  predicate EmptyPass(r: PassRecord) {
    r.result.Some? && !FullBatch(r) && r.result.value.transient == [] && r.result.value.claimed == 0
  }

  // It found work, or was followed by a wakeup.
  predicate Resets(r: PassRecord) {
    r.woken || (r.result.Some? && !EmptyPass(r))
  }

  // The empty passes from position i up to position j.
  function EmptyPasses(passes: seq<PassRecord>, i: nat, j: nat): set<nat>
    requires j <= |passes|
  {
    set m | i <= m < j && EmptyPass(passes[m])
  }

  lemma OneMoreEmpty(passes: seq<PassRecord>, i: nat, j: nat)
    requires i < j <= |passes|
    ensures |EmptyPasses(passes, i, j)| == |EmptyPasses(passes, i, j - 1)| + if EmptyPass(passes[j - 1]) then 1 else 0
  {
    assert EmptyPasses(passes, i, j)
        == EmptyPasses(passes, i, j - 1) + if EmptyPass(passes[j - 1]) then {j - 1} else {};
  }

  lemma {:induction false} StreakCounts(passes: seq<PassRecord>, i: nat, j: nat)
    requires i <= j <= |passes| && (i == 0 || Resets(passes[i - 1]))
    requires forall m :: i <= m < j ==> !Resets(passes[m])
    ensures Streak(passes, j) == |EmptyPasses(passes, i, j)|
    decreases j
  {
    if i == j {
      assert EmptyPasses(passes, i, j) == {};
    } else {
      StreakCounts(passes, i, j - 1);
      OneMoreEmpty(passes, i, j);
      assert !Resets(passes[j - 1]);
    }
  }

  lemma {:induction false} StreakPrefix(passes: seq<PassRecord>, r: PassRecord, i: nat)
    requires i <= |passes|
    ensures Streak(passes + [r], i) == Streak(passes, i)
  {
    if i > 0 {
      StreakPrefix(passes, r, i - 1);
    }
  }

  function Rung(policy: RelayPolicy, k: nat): int {
    Backoff.Min(policy.idleMax as int, policy.idleMin as int * Backoff.Pow2(k))
  }

  lemma {:induction false} RungDoubles(policy: RelayPolicy, k: nat)
    requires PeriodsOk(policy)
    ensures policy.idleMin as int <= Rung(policy, k) <= policy.idleMax as int
    ensures Rung(policy, k + 1) == Backoff.Min(2 * Rung(policy, k), policy.idleMax as int)
    ensures Rung(policy, 0) == policy.idleMin as int
  {
    var m := policy.idleMin as int;
    assert m * Backoff.Pow2(k + 1) == 2 * (m * Backoff.Pow2(k));
    if k > 0 {
      RungDoubles(policy, k - 1);
    }
  }

  // Passes that were not full and whose wait ran its course: those that failed or met an unwell broker,
  // or the others.
  function Uncut(passes: seq<PassRecord>, unwell: bool): set<nat> {
    set i | 0 <= i < |passes| && !passes[i].cut && !FullBatch(passes[i]) && Unwell(passes[i]) == unwell
  }

  lemma OneMoreUncut(passes: seq<PassRecord>, r: PassRecord, unwell: bool)
    ensures |Uncut(passes + [r], unwell)|
            == |Uncut(passes, unwell)| + if !r.cut && !FullBatch(r) && Unwell(r) == unwell then 1 else 0
  {
    var more, n := passes + [r], |passes|;
    assert more[n] == r;
    assert forall i :: 0 <= i < n ==> more[i] == passes[i];
    assert Uncut(more, unwell)
        == Uncut(passes, unwell) + if !r.cut && !FullBatch(r) && Unwell(r) == unwell then {n} else {};
  }

  // idle is the rung of the current streak, and every empty pass asked for the rung it was on.
  ghost predicate OnLadder(policy: RelayPolicy, idle: int, passes: seq<PassRecord>) {
    && idle == Rung(policy, Streak(passes, |passes|))
    && forall i :: 0 <= i < |passes| && passes[i].result.Some? && Empty(passes[i].result.value) ==>
         passes[i].asked == Rung(policy, Streak(passes, i))
  }

  // The k-th empty pass after one that found work, or was woken, asks for min(IdleMax, IdleMin * 2^k).
  lemma LadderLaw(policy: RelayPolicy, idle: int, passes: seq<PassRecord>, i: nat, j: nat)
    requires OnLadder(policy, idle, passes) && i <= j < |passes| && (i == 0 || Resets(passes[i - 1]))
    requires EmptyPass(passes[j]) && forall m :: i <= m < j ==> !Resets(passes[m])
    ensures passes[j].asked == Backoff.Min(policy.idleMax as int,
                                           policy.idleMin as int * Backoff.Pow2(|EmptyPasses(passes, i, j)|))
  {
    StreakCounts(passes, i, j);
  }

  // Every wait that ran its course took at least half of IdleMin, and half of IdleMax where something
  // was wrong.
  ghost predicate PollsSlowly(policy: RelayPolicy, elapsed: int, passes: seq<PassRecord>) {
    elapsed >= policy.idleMin as int / 2 * |Uncut(passes, false)| + policy.idleMax as int / 2 * |Uncut(passes, true)|
  }

  // A pass that outlives the signal is the last, and the passes that are cancelled, once the grace
  // is over, are exactly those that would have outlived it.
  ghost predicate StopsInTime(signal: Signal, policy: RelayPolicy, now: Time, passes: seq<PassRecord>) {
    && (forall i :: 0 <= i < |passes| ==>
          && passes[i].end <= now && (passes[i].cancelled ==> Abandoned(signal, policy, passes[i].end))
          && (passes[i].cancelled <==> Abandoned(signal, policy, passes[i].due)))
    && (forall i :: 0 <= i < |passes| - 1 ==> !Stopping(signal, passes[i].end))
  }

  ghost predicate SomeCancelled(passes: seq<PassRecord>) {
    exists i :: 0 <= i < |passes| && passes[i].cancelled
  }

  ghost predicate OnlyLastCancelled(passes: seq<PassRecord>) {
    forall i :: 0 <= i < |passes| && passes[i].cancelled ==> i == |passes| - 1
  }

  // A pass was cancelled if and only if the last one would have outlived the grace.
  ghost predicate CancelledExactly(signal: Signal, policy: RelayPolicy, passes: seq<PassRecord>) {
    SomeCancelled(passes) <==> |passes| > 0 && Abandoned(signal, policy, passes[|passes| - 1].due)
  }

  // Only the last pass can have been cancelled, and then the grace is over.
  lemma LastIsCancelled(signal: Signal, policy: RelayPolicy, now: Time, passes: seq<PassRecord>)
    requires StopsInTime(signal, policy, now, passes)
    ensures OnlyLastCancelled(passes) && (SomeCancelled(passes) ==> Abandoned(signal, policy, now))
    ensures CancelledExactly(signal, policy, passes)
  {
  }

  // When turn i begins.
  function TurnBegins(from: Time, passes: seq<PassRecord>, i: nat): Time
    requires i <= |passes|
  {
    if i == 0 then from else passes[i - 1].next
  }

  function TurnAt(script: nat -> Turn, i: nat): Turn {
    script(i)
  }

  // Turn i began before the stop signal, where the one before it had ended, and went as scripted.
  ghost predicate TracedAt(signal: Signal, policy: RelayPolicy, hasWaiter: bool, from: Time, script: nat -> Turn,
                           passes: seq<PassRecord>, i: nat)
    requires i < |passes|
  {
    && !Stopping(signal, TurnBegins(from, passes, i))
    && Recorded(signal, policy, hasWaiter, TurnBegins(from, passes, i), Rung(policy, Streak(passes, i)),
                TurnAt(script, i), passes[i])
  }

  ghost predicate Traced(signal: Signal, policy: RelayPolicy, hasWaiter: bool, from: Time, script: nat -> Turn,
                         passes: seq<PassRecord>)
  {
    forall i :: 0 <= i < |passes| ==> TracedAt(signal, policy, hasWaiter, from, script, passes, i)
  }

  lemma SameTurn(from: Time, passes: seq<PassRecord>, more: seq<PassRecord>, i: nat)
    requires i <= |passes| && passes <= more
    ensures TurnBegins(from, more, i) == TurnBegins(from, passes, i) && Streak(more, i) == Streak(passes, i)
  {
    if i > 0 {
      SameTurn(from, passes, more, i - 1);
    }
  }

  lemma OneMoreTurn(signal: Signal, policy: RelayPolicy, hasWaiter: bool, from: Time, script: nat -> Turn,
                    passes: seq<PassRecord>, r: PassRecord)
    requires Traced(signal, policy, hasWaiter, from, script, passes)
    requires !Stopping(signal, TurnBegins(from, passes, |passes|))
    requires Recorded(signal, policy, hasWaiter, TurnBegins(from, passes, |passes|),
                      Rung(policy, Streak(passes, |passes|)), TurnAt(script, |passes|), r)
    ensures Traced(signal, policy, hasWaiter, from, script, passes + [r])
    ensures TurnBegins(from, passes + [r], |passes| + 1) == r.next
  {
    forall i | 0 <= i < |passes + [r]|
      ensures TracedAt(signal, policy, hasWaiter, from, script, passes + [r], i)
    {
      SameTurn(from, passes, passes + [r], i);
      if i < |passes| {
        assert TracedAt(signal, policy, hasWaiter, from, script, passes, i);
      }
    }
  }

  // Every turn began before the stop signal, where the one before it had ended, and went by the rules.
  ghost predicate RulesKept(signal: Signal, policy: RelayPolicy, hasWaiter: bool, from: Time, script: nat -> Turn,
                            passes: seq<PassRecord>)
  {
    forall i :: 0 <= i < |passes| ==>
      && PassesByRule(signal, policy, if i == 0 then from else passes[i - 1].next, TurnAt(script, i), passes[i])
      && AsksByRule(signal, policy, passes[i]) && WaitsByRule(signal, hasWaiter, TurnAt(script, i), passes[i])
  }

  lemma TracedByRule(signal: Signal, policy: RelayPolicy, hasWaiter: bool, from: Time, script: nat -> Turn,
                     passes: seq<PassRecord>)
    requires Traced(signal, policy, hasWaiter, from, script, passes) && PeriodsOk(policy)
    ensures RulesKept(signal, policy, hasWaiter, from, script, passes)
  {
    forall i | 0 <= i < |passes|
      ensures PassesByRule(signal, policy, TurnBegins(from, passes, i), TurnAt(script, i), passes[i])
      ensures AsksByRule(signal, policy, passes[i]) && WaitsByRule(signal, hasWaiter, TurnAt(script, i), passes[i])
    {
      assert TracedAt(signal, policy, hasWaiter, from, script, passes, i);
      RungDoubles(policy, Streak(passes, i));
      RecordedByRule(signal, policy, hasWaiter, TurnBegins(from, passes, i), Rung(policy, Streak(passes, i)),
                     TurnAt(script, i), passes[i]);
    }
  }

  // The rung after this pass.
  function IdleAfter(policy: RelayPolicy, idle: int, r: PassRecord): int {
    if r.woken then policy.idleMin as int
    else if r.result.None? then idle
    else if Empty(r.result.value) then Backoff.Min(2 * idle, policy.idleMax as int)
    else policy.idleMin as int
  }

  lemma ClimbLadder(policy: RelayPolicy, idle: int, idle': int, passes: seq<PassRecord>, r: PassRecord)
    requires PeriodsOk(policy) && OnLadder(policy, idle, passes)
    requires r.result.Some? && Empty(r.result.value) ==> r.asked == idle
    requires idle' == IdleAfter(policy, idle, r)
    ensures OnLadder(policy, idle', passes + [r])
  {
    var n := |passes|;
    forall i | 0 <= i <= n
      ensures Streak(passes + [r], i) == Streak(passes, i)
    {
      StreakPrefix(passes, r, i);
    }
    RungDoubles(policy, Streak(passes, n));
    assert (passes + [r])[n] == r;
  }

  // Half of what a pass that is not full asks for at least.
  function LeastWait(policy: RelayPolicy, r: PassRecord): int {
    if Unwell(r) then policy.idleMax as int / 2 else policy.idleMin as int / 2
  }

  lemma OneMoreWait(policy: RelayPolicy, before: int, after: int, passes: seq<PassRecord>, r: PassRecord)
    requires PeriodsOk(policy) && PollsSlowly(policy, before, passes)
    requires after >= before
    requires !r.cut && !FullBatch(r) ==> after - before >= LeastWait(policy, r)
    ensures PollsSlowly(policy, after, passes + [r])
  {
    OneMoreUncut(passes, r, false);
    OneMoreUncut(passes, r, true);
    var half, m := policy.idleMin as int / 2, |Uncut(passes, false)|;
    assert half * (m + 1) == half * m + half;
    var most, n := policy.idleMax as int / 2, |Uncut(passes, true)|;
    assert most * (n + 1) == most * n + most;
  }

  class Relay {
    const policy: RelayPolicy
    const hasWaiter: bool
    const signal: Signal
    const began: Time
    var idle: Backoff.int64
    var now: Time
    ghost var passes: seq<PassRecord>

    ghost predicate Valid()
      reads this
    {
      && PeriodsOk(policy)
      && OnLadder(policy, idle as int, passes)
      && PollsSlowly(policy, now - began, passes)
      && StopsInTime(signal, policy, now, passes)
    }

    constructor (policy: RelayPolicy, hasWaiter: bool, signal: Signal, now: Time)
      requires PeriodsOk(policy)
      ensures Valid() && passes == [] && this.policy == policy && this.signal == signal && idle == policy.idleMin
      ensures this.hasWaiter == hasWaiter && this.now == now
    {
      this.policy, this.hasWaiter, this.signal := policy, hasWaiter, signal;
      this.began, this.now, this.idle, this.passes := now, now, policy.idleMin, [];
      RungDoubles(policy, 0);
    }

    // A full batch means no wait, a transient failure IdleMax, some work IdleMin, and nothing the
    // next rung of the ladder. Full is tested first, so a full pass never backs off.
    method NextWait(res: PublishResult) returns (wait: Backoff.int64)
      requires PeriodsOk(policy) && policy.idleMin <= idle <= policy.idleMax
      modifies this`idle
      ensures wait as int == WaitFor(policy, old(idle) as int, res)
      ensures res.batchSize > 0 && res.claimed >= res.batchSize ==> wait == 0
      ensures !(res.batchSize > 0 && res.claimed >= res.batchSize) ==>
        wait == if res.transient != [] then policy.idleMax else if res.claimed > 0 then policy.idleMin else old(idle)
      ensures idle as int == if Empty(res) then Backoff.Min(2 * old(idle) as int, policy.idleMax as int)
                             else policy.idleMin as int
    {
      if res.Full() {
        idle := policy.idleMin;
        return 0;
      }
      if |res.transient| > 0 {
        idle := policy.idleMin;
        return policy.idleMax;
      }
      if res.claimed > 0 {
        idle := policy.idleMin;
        return policy.idleMin;
      }
      wait := idle;
      idle := if idle * 2 <= policy.idleMax then idle * 2 else policy.idleMax;
    }

    // The timer, or ctx ending first.
    method Sleep(d: int, late: nat)
      requires d >= 0
      modifies this`now
      ensures now == SleepEndsAt(signal, old(now), d, late) >= old(now)
      ensures now >= old(now) + d || Stopping(signal, now)
    {
      if signal.StopAt? && signal.at < now + d {
        now := if now < signal.at then signal.at else now;
      } else {
        now := now + d + late;
      }
    }

    // Sleeps, or returns early on a wakeup or on ctx. A waiter that fails does not shorten the wait:
    // the sleep follows it.
    method Wait(d: Backoff.int64, turn: Turn) returns (cut: bool, woken: bool)
      requires PeriodsOk(policy) && 0 <= d <= policy.idleMax
      modifies this`now, this`idle
      ensures now == WaitEndsAt(signal, hasWaiter, old(now), d as int, turn) >= old(now)
      ensures woken == (d > 0 && hasWaiter && turn.waiter.Woken?)
      ensures idle == if woken then policy.idleMin else old(idle)
      ensures !cut ==> now - old(now) >= d as int / 2
      ensures cut == (d > 0 && (woken || Stopping(signal, now)))
    {
      cut, woken := false, false;
      if d <= 0 {
        return;
      }
      Backoff.JitterBounds(d as int, Backoff.Factor(turn.jitter));
      var jittered := Backoff.Jittered(d as int, Backoff.Factor(turn.jitter));
      if hasWaiter {
        match turn.waiter {
          case Woken(after) =>
            now := now + after;
            idle := policy.idleMin;
            return true, true;
          case TimedOut(late) =>
            Sleep(jittered, late);
            return Stopping(signal, now), false;
          case Failed(after) =>
            now := now + after;
        }
      }
      Sleep(jittered, turn.timerLate);
      cut := Stopping(signal, now);
    }

    // One pass under the pass context: cancelled if and only if it would still run when that ends.
    method ExecutePass(turn: Turn) returns (start: Time, cancelled: bool, result: Option<PublishResult>)
      modifies this`now
      ensures old(now) <= start == old(now) + turn.lag <= now
      ensures cancelled <==> Abandoned(signal, policy, start + turn.duration)
      ensures now == PassEndsAt(signal, policy, turn, start)
      ensures cancelled ==> Abandoned(signal, policy, now)
      ensures result == if cancelled then turn.cancelled else turn.result
    {
      start := now + turn.lag;
      var end := start + turn.duration;
      if Abandoned(signal, policy, end) {
        var cancelAt := signal.at + policy.drainGrace + signal.callbackLate;
        now := (if start < cancelAt then cancelAt else start) + turn.windDown;
        return start, true, turn.cancelled;
      }
      now := end;
      return start, false, turn.result;
    }

    // A pass, and unless it failed into a stop, the wait after it.
    method PassAndWait(turn: Turn) returns (stop: bool, ghost r: PassRecord)
      requires PeriodsOk(policy) && policy.idleMin <= idle <= policy.idleMax
      modifies this`now, this`idle
      ensures Recorded(signal, policy, hasWaiter, old(now), old(idle) as int, turn, r)
      ensures now == r.next >= r.end >= old(now) && idle as int == IdleAfter(policy, old(idle) as int, r)
      ensures !r.cut && !FullBatch(r) ==> now - old(now) >= LeastWait(policy, r)
      ensures r.cancelled ==> Abandoned(signal, policy, r.end)
      ensures stop || Stopping(signal, r.end) ==> Stopping(signal, now)
    {
      ghost var before, rung := now, idle as int;
      var start, cancelled, result := ExecutePass(turn);
      var done := now;
      var cut, woken, wait := true, false, 0;
      stop := result.None? && Stopping(signal, now);
      if !stop {
        wait := policy.idleMax;
        if result.Some? {
          wait := NextWait(result.value);
        }
        cut, woken := Wait(wait, turn);
      }
      r := PassRecord(start, start + turn.duration, done, cancelled, result, wait as int, cut, woken, now);
      RecordedByRule(signal, policy, hasWaiter, before, rung, turn, r);
    }

    // One turn past the loop's check.
    method TakeTurn(turn: Turn) returns (stop: bool, ghost r: PassRecord)
      requires Valid() && !Stopping(signal, now)
      requires forall i :: 0 <= i < |passes| ==> !Stopping(signal, passes[i].end)
      modifies this
      ensures Valid() && passes == old(passes) + [r]
      ensures Recorded(signal, policy, hasWaiter, old(now), old(idle) as int, turn, r) && now == r.next
      ensures stop || Stopping(signal, r.end) ==> Stopping(signal, now)
    {
      RungDoubles(policy, Streak(passes, |passes|));
      ghost var idle0, now0 := idle, now;
      stop, r := PassAndWait(turn);
      ClimbLadder(policy, idle0 as int, idle as int, passes, r);
      OneMoreWait(policy, now0 - began, now - began, passes, r);
      passes := passes + [r];
    }

    // The loop itself.
    method Turns(script: nat -> Turn, turns: nat) returns (stop: bool)
      requires Valid() && passes == []
      modifies this
      ensures Valid() && |passes| <= turns && (if stop then Stopping(signal, now) else |passes| == turns)
      ensures Traced(signal, policy, hasWaiter, old(now), script, passes)
      ensures now == TurnBegins(old(now), passes, |passes|)
    {
      var turn := 0;
      stop := false;
      ghost var from := now;
      while turn < turns && !stop
        invariant Valid() && |passes| == turn <= turns
        invariant Traced(signal, policy, hasWaiter, from, script, passes) && now == TurnBegins(from, passes, turn)
        invariant stop ==> Stopping(signal, now)
        invariant turn > 0 && Stopping(signal, passes[turn - 1].end) ==> Stopping(signal, now)
        decreases turns - turn, !stop
      {
        if Stopping(signal, now) {
          stop := true;
        } else {
          ghost var before, rung := passes, idle as int;
          ghost var r;
          assert rung == Rung(policy, Streak(before, |before|));
          stop, r := TakeTurn(TurnAt(script, turn));
          OneMoreTurn(signal, policy, hasWaiter, from, script, before, r);
          turn := turn + 1;
        }
      }
    }

    // The first `turns` turns of the loop, or fewer if it is asked to stop: each pass, wait and turn is
    // the one that the script determines. At most the last pass ran into the stop signal, the passes
    // cancelled are exactly those that would have been running DrainGrace later, a clean stop means that
    // no pass was cancelled, and the warning means that the loop ended after the grace - no more.
    method Run(script: nat -> Turn, turns: nat) returns (end: LoopEnd)
      requires Valid() && passes == []
      modifies this
      ensures Valid()
      ensures OnLadder(policy, idle as int, passes) && policy.idleMin <= idle <= policy.idleMax
      ensures PollsSlowly(policy, now - began, passes) && StopsInTime(signal, policy, now, passes)
      ensures Traced(signal, policy, hasWaiter, old(now), script, passes)
      ensures now == TurnBegins(old(now), passes, |passes|)
      ensures |passes| <= turns && (end == Running ==> |passes| == turns)
      ensures end != Running ==> Stopping(signal, now) && (end == GraceExpired <==> Abandoned(signal, policy, now))
      ensures end == Clean ==> !SomeCancelled(passes)
      ensures CancelledExactly(signal, policy, passes) && OnlyLastCancelled(passes)
      ensures RulesKept(signal, policy, hasWaiter, old(now), script, passes)
    {
      ghost var from := now;
      var stop := Turns(script, turns);
      RungDoubles(policy, Streak(passes, |passes|));
      TracedByRule(signal, policy, hasWaiter, from, script, passes);
      LastIsCancelled(signal, policy, now, passes);
      end := if !stop then Running else if Abandoned(signal, policy, now) then GraceExpired else Clean;
    }
  }

  lemma TracedStart(signal: Signal, policy: RelayPolicy, hasWaiter: bool, from: Time, script: nat -> Turn,
                    passes: seq<PassRecord>)
    requires Traced(signal, policy, hasWaiter, from, script, passes)
    ensures |passes| > 0 ==> Recorded(signal, policy, hasWaiter, from, Rung(policy, 0), TurnAt(script, 0), passes[0])
    ensures |passes| > 1 ==> !Stopping(signal, passes[0].next)
  {
    if |passes| > 0 {
      assert TracedAt(signal, policy, hasWaiter, from, script, passes, 0);
    }
    if |passes| > 1 {
      assert TracedAt(signal, policy, hasWaiter, from, script, passes, 1);
    }
  }

  const NOTHING_CLAIMED := PublishResult(0, 0, [], [], None, None, 1)

  // A pass that ends at once, and a wait of a nanosecond that takes two.
  lemma Overslept(turn: Turn, r: PassRecord)
    requires turn == Turn(0, 0, Some(NOTHING_CLAIMED), 0, None, 1.0, TimedOut(0), 1)
    requires var policy := RelayPolicy(1, 1, 1);
      Recorded(StopAt(1, 0), policy, false, 0, Rung(policy, 0), turn, r)
    ensures !r.cancelled && r.next == 2
  {
    assert Backoff.Jittered(1, 1.0) == 1;
  }

  // The warning without a cancelled pass: the process is told to stop while the loop waits, and the
  // timer is late.
  method WarnsWithoutCancelling() returns (relay: Relay, end: LoopEnd)
    ensures fresh(relay) && relay.Valid() && end == GraceExpired
    ensures forall i :: 0 <= i < |relay.passes| ==> !relay.passes[i].cancelled
  {
    relay := new Relay(RelayPolicy(1, 1, 1), false, StopAt(1, 0), 0);
    var script := (_: nat) => Turn(0, 0, Some(NOTHING_CLAIMED), 0, None, 1.0, TimedOut(0), 1);
    end := relay.Run(script, 2);
    TracedStart(relay.signal, relay.policy, relay.hasWaiter, 0, script, relay.passes);
    if |relay.passes| > 0 {
      Overslept(TurnAt(script, 0), relay.passes[0]);
    }
  }
}
