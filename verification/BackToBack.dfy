/**
 The driver and its passes together: while the clock stands and nothing new becomes pending,
 the loop polls without a wait for no longer than there are due rows to settle.
 */
module BackToBack {
  import opened Wrappers
  import opened Protocol
  import opened Safety
  import opened Accounting
  import opened Draining
  import opened Clusters
  import opened PublishPendingBatches
  import opened RelayLoop
  import Backoff

  lemma {:induction false} WorkStands(before: Run, after: Run, m: nat, n: nat)
    requires IsRun(before) && IsRun(after) && Continues(before, after) && m <= n < |before.states|
    ensures WorkingPasses(after, m, n) == WorkingPasses(before, m, n)
    decreases n
  {
    if m < n {
      WorkStands(before, after, m, n - 1);
      StepOf(before, n - 1);
      assert before.states[n - 1] == after.states[n - 1] && before.steps[n - 1] == after.steps[n - 1];
    }
  }

  lemma {:induction false} WorkGrows(r: Run, m: nat, n: nat, k: nat)
    requires IsRun(r) && m <= n <= k < |r.states|
    ensures WorkingPasses(r, m, n) <= WorkingPasses(r, m, k)
    decreases k
  {
    if n < k {
      WorkGrows(r, m, n, k - 1);
    }
  }

  // A pass that committed something it had claimed is one more.
  lemma PassWorks(before: Run, after: Run, m: nat, end: PassEnd)
    requires IsRun(before) && EndedBy(after, end) && Continues(before, after)
    requires m <= |before.steps| <= end.at && after.steps[end.at] == RelayCommit(end.tx) && end.x.batch != []
    ensures WorkingPasses(after, m, |after.steps|) >= WorkingPasses(before, m, |before.steps|) + 1
  {
    WorkStands(before, after, m, |before.steps|);
    WorkGrows(after, m, |before.steps|, end.at);
    StepOf(after, end.at);
    assert WorkingPasses(after, m, end.at + 1) == WorkingPasses(after, m, end.at) + 1;
    WorkGrows(after, m, end.at + 1, |after.steps|);
  }

  lemma WorkIsBounded(c: Cluster, m: nat)
    requires c.Valid() && c.calm && c.calmFrom <= m <= |c.run.steps|
    ensures WorkingPasses(c.run, m, |c.run.steps|) <= |DueNow(c.run.states[m])|
  {
    ZeroWaitPassesTerminate(c.run, m, |c.run.steps|);
  }

  // A pass that committed a batch of the full size.
  ghost predicate FullPass(run: Run, end: PassEnd, batchSize: nat) {
    EndedBy(run, end) && run.steps[end.at] == RelayCommit(end.tx) && |end.x.batch| == batchSize > 0
  }

  // These passes, one after the other, all of them since step `from`.
  ghost predicate FullPasses(run: Run, from: nat, ends: seq<PassEnd>, batchSize: nat) {
    && (forall i :: 0 <= i < |ends| ==> FullPass(run, ends[i], batchSize) && from <= ends[i].at)
    && (forall i, j :: 0 <= i < j < |ends| ==> ends[i].at < ends[j].at)
  }

  lemma PassesStand(before: Run, after: Run, from: nat, ends: seq<PassEnd>, batchSize: nat)
    requires FullPasses(before, from, ends, batchSize) && IsRun(after) && Continues(before, after)
    ensures FullPasses(after, from, ends, batchSize)
  {
    forall i | 0 <= i < |ends|
      ensures FullPass(after, ends[i], batchSize)
    {
      assert FullPass(before, ends[i], batchSize);
      EndStands(before, after, ends[i]);
    }
  }

  lemma OneFullPassMore(before: Run, after: Run, from: nat, ends: seq<PassEnd>, end: PassEnd, batchSize: nat)
    requires IsRun(before) && FullPasses(before, from, ends, batchSize) && Continues(before, after)
    requires FullPass(after, end, batchSize) && from <= |before.steps| <= end.at
    ensures FullPasses(after, from, ends + [end], batchSize)
  {
    PassesStand(before, after, from, ends, batchSize);
  }

  // How the pass ended that was the last: by what the result says, or by what failed.
  ghost predicate LastPass(run: Run, script: nat -> Beat, since: nat, to: nat, from: nat, end: PassEnd,
                           last: Option<PublishResult>, why: Option<PassError>)
  {
    && (last.None? <==> why.Some?) && CausedBy(script, since, to, why)
    && (end.NotBegun? ==> why == Some(BeginFailed))
    && (end.Ended? ==> EndedBy(run, end) && from <= end.at && Answered(run, script, end, why))
    && (end.Ended? ==> since <= end.beat && to == end.beat + if why.None? then 2 else 1)
    && (last.Some? ==> end.Ended? && Reported(last.value, end.x))
  }

  // What the driver sees of a pass.
  method RunOnce(pass: PublishPendingBatch)
    returns (last: Option<PublishResult>, ghost end: PassEnd, ghost why: Option<PassError>)
    requires pass.cluster.Valid()
    modifies pass.cluster`state, pass.cluster`run, pass.cluster`cursor, pass.cluster`calm
    ensures pass.cluster.Valid() && Continues(old(pass.cluster.run), pass.cluster.run)
    ensures old(pass.cluster.cursor) <= pass.cluster.cursor
    ensures old(pass.cluster.calm) && InTheFuture(pass.policy) ==>
      pass.cluster.calm && pass.cluster.state.clock == old(pass.cluster.state.clock)
    ensures LastPass(pass.cluster.run, pass.cluster.script, old(pass.cluster.cursor), pass.cluster.cursor,
                     |old(pass.cluster.run.steps)|, end, last, why)
    ensures last.Some? ==> last.value.claimed <= last.value.batchSize == pass.policy.batchSize
  {
    ghost var claim;
    var res, err;
    res, err, end, claim := pass.Execute();
    why := err;
    last := if err.None? then Some(res) else None;
  }

  lemma FullIsFull(run: Run, script: nat -> Beat, since: nat, to: nat, from: nat, end: PassEnd,
                   res: PublishResult, why: Option<PassError>)
    requires LastPass(run, script, since, to, from, end, Some(res), why)
    requires res.claimed <= res.batchSize && res.Full()
    ensures FullPass(run, end, res.batchSize) && from <= end.at
  {
  }

  // One pass, and how long to wait after it: a pass that failed asks for IdleMax, any other for what
  // NextWait says.
  method PassAndAsk(pass: PublishPendingBatch, relay: Relay)
    returns (wait: Backoff.int64, last: Option<PublishResult>, ghost end: PassEnd, ghost why: Option<PassError>)
    requires pass.cluster.Valid() && PeriodsOk(relay.policy)
    requires relay.policy.idleMin <= relay.idle <= relay.policy.idleMax
    modifies pass.cluster`state, pass.cluster`run, pass.cluster`cursor, pass.cluster`calm, relay`idle
    ensures pass.cluster.Valid() && Continues(old(pass.cluster.run), pass.cluster.run)
    ensures old(pass.cluster.cursor) <= pass.cluster.cursor
    ensures old(pass.cluster.calm) && InTheFuture(pass.policy) ==>
      pass.cluster.calm && pass.cluster.state.clock == old(pass.cluster.state.clock)
    ensures LastPass(pass.cluster.run, pass.cluster.script, old(pass.cluster.cursor), pass.cluster.cursor,
                     |old(pass.cluster.run.steps)|, end, last, why)
    ensures wait as int == if last.None? then relay.policy.idleMax as int
                           else WaitFor(relay.policy, old(relay.idle) as int, last.value)
    ensures wait >= 0 && relay.policy.idleMin <= relay.idle <= relay.policy.idleMax
    ensures wait == 0 ==>
      && FullPass(pass.cluster.run, end, pass.policy.batchSize) && |old(pass.cluster.run.steps)| <= end.at
      && relay.idle == relay.policy.idleMin
  {
    ghost var from, since := |pass.cluster.run.steps|, pass.cluster.cursor;
    last, end, why := RunOnce(pass);
    wait := relay.policy.idleMax;
    if last.Some? {
      wait := relay.NextWait(last.value);
      if last.value.Full() {
        FullIsFull(pass.cluster.run, pass.cluster.script, since, pass.cluster.cursor, from, end, last.value, why);
      }
    }
  }

  // The loop, on a cluster that holds still from here on, to the first wait that is not zero. However
  // the other relays move meanwhile, and whatever fails, the passes that were followed by no wait each
  // committed a full batch, and are at most as many as the rows that were due.
  method PassesWithoutWait(pass: PublishPendingBatch, relay: Relay)
    returns (wait: Backoff.int64, last: Option<PublishResult>, ghost full: seq<PassEnd>, ghost end: PassEnd,
             ghost since: nat, ghost from: nat, ghost why: Option<PassError>)
    requires pass.cluster.Valid() && InTheFuture(pass.policy) && relay.Valid()
    modifies pass.cluster`state, pass.cluster`run, pass.cluster`cursor, pass.cluster`calm, pass.cluster`calmFrom
    modifies relay`idle
    ensures pass.cluster.Valid() && Continues(old(pass.cluster.run), pass.cluster.run)
    ensures pass.cluster.calm && pass.cluster.state.clock == old(pass.cluster.state.clock)
    ensures FullPasses(pass.cluster.run, |old(pass.cluster.run.steps)|, full, pass.policy.batchSize)
    ensures |full| <= |DueNow(old(pass.cluster.state))|
    ensures LastPass(pass.cluster.run, pass.cluster.script, since, pass.cluster.cursor, from, end, last, why)
    ensures old(pass.cluster.cursor) <= since && |old(pass.cluster.run.steps)| <= from
    ensures forall i :: 0 <= i < |full| ==> full[i].at < from
    ensures wait > 0 && wait as int == if last.None? then relay.policy.idleMax as int
      else WaitFor(relay.policy, if full == [] then old(relay.idle) as int else relay.policy.idleMin as int, last.value)
    ensures last.Some? && last.value.transient != [] ==> wait == relay.policy.idleMax
    ensures last.Some? && last.value.transient == [] && last.value.claimed > 0 ==> wait == relay.policy.idleMin
  {
    pass.cluster.HoldStill();
    full := [];
    ghost var first, m := pass.cluster.run, |pass.cluster.run.steps|;
    RungDoubles(relay.policy, Streak(relay.passes, |relay.passes|));
    while true
      invariant pass.cluster.Valid() && Continues(first, pass.cluster.run)
      invariant pass.cluster.calm && pass.cluster.state.clock == old(pass.cluster.state.clock)
      invariant pass.cluster.calmFrom == m && old(pass.cluster.cursor) <= pass.cluster.cursor
      invariant relay.idle == if full == [] then old(relay.idle) else relay.policy.idleMin
      invariant FullPasses(pass.cluster.run, m, full, pass.policy.batchSize)
      invariant |full| <= WorkingPasses(pass.cluster.run, m, |pass.cluster.run.steps|)
      invariant |full| <= |DueNow(first.states[m])|
      decreases |DueNow(first.states[m])| - |full|
    {
      ghost var before := pass.cluster.run;
      since, from := pass.cluster.cursor, |pass.cluster.run.steps|;
      wait, last, end, why := PassAndAsk(pass, relay);
      PassesStand(before, pass.cluster.run, m, full, pass.policy.batchSize);
      if wait > 0 {
        return;
      }
      PassWorks(before, pass.cluster.run, m, end);
      WorkIsBounded(pass.cluster, m);
      OneFullPassMore(before, pass.cluster.run, m, full, end, pass.policy.batchSize);
      full := full + [end];
    }
  }

  // ---------------------------------------------------------------- the loop over real passes

  // One pass of the loop: drawn from the script between two beats, in the run since one step.
  datatype PassTrace = PassTrace(since: nat, until: nat, from: nat, end: PassEnd, err: Option<PassError>)

  // What the loop records of a pass is what that pass reported, and how it ended.
  ghost predicate Recounted(run: Run, script: nat -> Beat, r: PassRecord, trace: PassTrace) {
    LastPass(run, script, trace.since, trace.until, trace.from, trace.end, r.result, trace.err)
  }

  // The one came before the other, in the script and in the run.
  predicate Precedes(a: PassTrace, b: PassTrace) {
    a.until <= b.since && (a.end.Ended? ==> a.end.at < b.from)
  }

  // One pass after the other, from these beats and steps on.
  ghost predicate AllRecounted(run: Run, script: nat -> Beat, since: nat, until: nat, from: nat,
                               passes: seq<PassRecord>, traces: seq<PassTrace>)
  {
    && |traces| == |passes|
    && (forall i :: 0 <= i < |passes| ==> Recounted(run, script, passes[i], traces[i]))
    && (forall i :: 0 <= i < |traces| ==>
          since <= traces[i].since && traces[i].until <= until && from <= traces[i].from)
    && (forall i, j :: 0 <= i < j < |traces| ==> Precedes(traces[i], traces[j]))
  }

  lemma RecountStands(before: Run, after: Run, script: nat -> Beat, r: PassRecord, trace: PassTrace)
    requires Recounted(before, script, r, trace) && IsRun(after) && Continues(before, after)
    ensures Recounted(after, script, r, trace)
  {
    if trace.end.Ended? {
      EndStands(before, after, trace.end);
    }
  }

  lemma OneMoreRecounted(before: Run, after: Run, script: nat -> Beat, since: nat, until: nat, from: nat,
                         passes: seq<PassRecord>, traces: seq<PassTrace>, r: PassRecord, trace: PassTrace)
    requires AllRecounted(before, script, since, until, from, passes, traces)
    requires IsRun(before) && IsRun(after) && Continues(before, after) && Recounted(after, script, r, trace)
    requires since <= until == trace.since <= trace.until && from <= |before.steps| == trace.from
    ensures AllRecounted(after, script, since, trace.until, from, passes + [r], traces + [trace])
  {
    var passes', traces' := passes + [r], traces + [trace];
    forall i | 0 <= i < |passes'|
      ensures Recounted(after, script, passes'[i], traces'[i])
    {
      if i < |passes| {
        assert passes'[i] == passes[i] && traces'[i] == traces[i];
        RecountStands(before, after, script, passes[i], traces[i]);
      }
    }
    forall i, j | 0 <= i < j < |traces'|
      ensures Precedes(traces'[i], traces'[j])
    {
      if j == |traces| {
        assert Recounted(before, script, passes[i], traces[i]) && traces'[i] == traces[i];
      } else {
        assert Precedes(traces[i], traces[j]) && traces'[i] == traces[i] && traces'[j] == traces[j];
      }
    }
  }

  // The pass's transaction was undone.
  ghost predicate RolledBack(run: Run, end: PassEnd) {
    EndedBy(run, end) && run.steps[end.at] == RelayRollback(end.tx)
  }

  // The pass reported an error, and not the failure of a COMMIT that the script says was applied.
  predicate Undoes(script: nat -> Beat, end: PassEnd, err: Option<PassError>) {
    end.Ended? && err.Some? && !(err == Some(CommitFailed) && BeatAt(script, end.beat).commit == CommitError(true))
  }

  lemma RolledBackExactly(run: Run, script: nat -> Beat, r: PassRecord, trace: PassTrace)
    requires Recounted(run, script, r, trace)
    ensures RolledBack(run, trace.end) <==> Undoes(script, trace.end, trace.err)
  {
  }

  // "It rolled back, and whatever it had already published will be published again" comes true of a pass
  // exactly if it reported an error other than that of an applied COMMIT: then every row it claimed is
  // pending, and each that it had published is to be published once more. Of any other pass the rows
  // are pending only if it had published and parked none.
  lemma WarningComesTrue(run: Run, script: nat -> Beat, r: PassRecord, trace: PassTrace)
    requires Execution(run) && Recounted(run, script, r, trace) && trace.end.Ended?
    ensures var end := trace.end;
      && (AllPending(run.states[end.at + 1].rows, end.x.batch)
          <==> Undoes(script, end, trace.err) || forall id :: id in end.x.writes ==> end.x.writes[id].status == Pending)
      && (Undoes(script, end, trace.err) ==>
            forall id :: TallyAt(run, id, end.at + 1).rolledBack
                         == TallyAt(run, id, end.at).rolledBack + One(id in end.x.acked))
  {
    RolledBackExactly(run, script, r, trace);
    BatchStillPending(run, trace.end.at);
    if Undoes(script, trace.end, trace.err) {
      RollbackBlastRadius(run, trace.end.at);
    }
  }

  ghost predicate SomeCancelledRolledBack(run: Run, passes: seq<PassRecord>, traces: seq<PassTrace>)
    requires |traces| == |passes|
  {
    exists i :: 0 <= i < |passes| && passes[i].cancelled && RolledBack(run, traces[i].end)
  }

  // The last pass would have outlived the grace, and failed without committing.
  predicate LastOutlivedAndFailed(signal: Signal, policy: RelayPolicy, script: nat -> Beat, passes: seq<PassRecord>,
                                  traces: seq<PassTrace>)
    requires |traces| == |passes|
  {
    |passes| > 0
    && var n := |passes| - 1;
       Abandoned(signal, policy, passes[n].due) && Undoes(script, traces[n].end, traces[n].err)
  }

  // Which of the cancelled passes rolled back: at most the last, and exactly if it had begun and reported
  // an error other than that of an applied COMMIT.
  lemma CancelledAndRolledBack(run: Run, script: nat -> Beat, signal: Signal, policy: RelayPolicy,
                               passes: seq<PassRecord>, traces: seq<PassTrace>)
    requires |traces| == |passes|
    requires forall i :: 0 <= i < |passes| ==> Recounted(run, script, passes[i], traces[i])
    requires forall i :: 0 <= i < |passes| ==> (passes[i].cancelled <==> Abandoned(signal, policy, passes[i].due))
    requires forall i :: 0 <= i < |passes| && passes[i].cancelled ==> i == |passes| - 1
    ensures SomeCancelledRolledBack(run, passes, traces)
            <==> LastOutlivedAndFailed(signal, policy, script, passes, traces)
  {
    forall i | 0 <= i < |passes|
      ensures RolledBack(run, traces[i].end) <==> Undoes(script, traces[i].end, traces[i].err)
    {
      RolledBackExactly(run, script, passes[i], traces[i]);
    }
    if |passes| > 0 {
      var n := |passes| - 1;
      assert RolledBack(run, traces[n].end) <==> Undoes(script, traces[n].end, traces[n].err);
    }
  }

  // A turn whose pass is a real one: however it was cut short, its outcome is the cluster's.
  method RealTurn(pass: PublishPendingBatch, relay: Relay, turn: Turn)
    returns (stop: bool, ghost r: PassRecord, ghost trace: PassTrace)
    requires pass.cluster.Valid() && relay.Valid() && !Stopping(relay.signal, relay.now)
    requires forall i :: 0 <= i < |relay.passes| ==> !Stopping(relay.signal, relay.passes[i].end)
    modifies pass.cluster`state, pass.cluster`run, pass.cluster`cursor, pass.cluster`calm, relay
    ensures pass.cluster.Valid() && Continues(old(pass.cluster.run), pass.cluster.run)
    ensures relay.Valid() && relay.passes == old(relay.passes) + [r] && relay.now == r.next
    ensures Recounted(pass.cluster.run, pass.cluster.script, r, trace)
    ensures trace.since == old(pass.cluster.cursor) <= trace.until == pass.cluster.cursor
    ensures trace.from == |old(pass.cluster.run.steps)|
    ensures stop || Stopping(relay.signal, r.end) ==> Stopping(relay.signal, relay.now)
  {
    ghost var since, from := pass.cluster.cursor, |pass.cluster.run.steps|;
    ghost var end, err;
    var outcome;
    outcome, end, err := RunOnce(pass);
    trace := PassTrace(since, pass.cluster.cursor, from, end, err);
    stop, r := relay.TakeTurn(turn.(result := outcome, cancelled := outcome));
  }

  // The loop has not run on past a pass that ended after the stop signal.
  ghost predicate MayGoOn(relay: Relay, stop: bool)
    reads relay
  {
    && (stop ==> Stopping(relay.signal, relay.now))
    && (!Stopping(relay.signal, relay.now) ==>
          forall i :: 0 <= i < |relay.passes| ==> !Stopping(relay.signal, relay.passes[i].end))
  }

  // And what it reports is kept.
  method RecountedTurn(pass: PublishPendingBatch, relay: Relay, turn: Turn, ghost since: nat, ghost from: nat,
                       ghost traces: seq<PassTrace>)
    returns (stop: bool, ghost traces': seq<PassTrace>)
    requires pass.cluster.Valid() && relay.Valid() && !Stopping(relay.signal, relay.now) && MayGoOn(relay, false)
    requires since <= pass.cluster.cursor && from <= |pass.cluster.run.steps|
    requires AllRecounted(pass.cluster.run, pass.cluster.script, since, pass.cluster.cursor, from, relay.passes, traces)
    modifies pass.cluster`state, pass.cluster`run, pass.cluster`cursor, pass.cluster`calm, relay
    ensures pass.cluster.Valid() && Continues(old(pass.cluster.run), pass.cluster.run)
    ensures relay.Valid() && MayGoOn(relay, stop) && |relay.passes| == |old(relay.passes)| + 1
    ensures since <= pass.cluster.cursor
    ensures AllRecounted(pass.cluster.run, pass.cluster.script, since, pass.cluster.cursor, from, relay.passes, traces')
  {
    ghost var before, until, passes := pass.cluster.run, pass.cluster.cursor, relay.passes;
    ghost var r, trace;
    stop, r, trace := RealTurn(pass, relay, turn);
    OneMoreRecounted(before, pass.cluster.run, pass.cluster.script, since, until, from, passes, traces, r, trace);
    traces' := traces + [trace];
  }

  // The driver loop with real passes on a cluster where everyone else moves: every turn runs one pass,
  // after the one before. The warning says that the loop ended after the grace. That a pass was cancelled
  // and rolled back is so exactly when the last one would have outlived the grace, and had an error that
  // is not that of an applied COMMIT.
  method Drive(pass: PublishPendingBatch, relay: Relay, script: nat -> Turn, turns: nat)
    returns (end: LoopEnd, ghost traces: seq<PassTrace>)
    requires pass.cluster.Valid() && relay.Valid() && relay.passes == []
    modifies pass.cluster`state, pass.cluster`run, pass.cluster`cursor, pass.cluster`calm, relay
    ensures pass.cluster.Valid() && Continues(old(pass.cluster.run), pass.cluster.run) && relay.Valid()
    ensures AllRecounted(pass.cluster.run, pass.cluster.script, old(pass.cluster.cursor), pass.cluster.cursor,
                         |old(pass.cluster.run.steps)|, relay.passes, traces)
    ensures |relay.passes| <= turns && (end == Running ==> |relay.passes| == turns)
    ensures end != Running ==>
      && Stopping(relay.signal, relay.now)
      && (end == GraceExpired <==> Abandoned(relay.signal, relay.policy, relay.now))
    ensures SomeCancelledRolledBack(pass.cluster.run, relay.passes, traces)
            <==> LastOutlivedAndFailed(relay.signal, relay.policy, pass.cluster.script, relay.passes, traces)
  {
    var turn := 0;
    var stop := false;
    traces := [];
    ghost var since, from := pass.cluster.cursor, |pass.cluster.run.steps|;
    while turn < turns && !stop
      invariant pass.cluster.Valid() && Continues(old(pass.cluster.run), pass.cluster.run)
      invariant relay.Valid() && |relay.passes| == turn <= turns && MayGoOn(relay, stop)
      invariant since <= pass.cluster.cursor
      invariant AllRecounted(pass.cluster.run, pass.cluster.script, since, pass.cluster.cursor, from, relay.passes,
                             traces)
      decreases turns - turn, !stop
    {
      if Stopping(relay.signal, relay.now) {
        stop := true;
      } else {
        stop, traces := RecountedTurn(pass, relay, TurnAt(script, turn), since, from, traces);
        turn := turn + 1;
      }
    }
    end := if !stop then Running else if Abandoned(relay.signal, relay.policy, relay.now) then GraceExpired else Clean;
    CancelledAndRolledBack(pass.cluster.run, pass.cluster.script, relay.signal, relay.policy, relay.passes, traces);
  }
}
