/**
 PostgreSQL and Kafka as one mutable object, and everyone else who uses them. Before
 every call the script decides which steps other transactions take, whether the call
 fails, and what the broker replies; quantifying over the script quantifies over every
 interleaving and every fault. `run` is the run of the protocol so far.
 */
module Clusters {
  import opened Wrappers
  import opened Ordering
  import opened Wire
  import opened Protocol
  import opened Invariant
  import opened Safety
  import opened Draining
  import Backoff

  // The broker's answer to one produce call.
  datatype ProduceReply = Acknowledged | Errored(error: ProduceError, appended: bool)

  // A failed COMMIT may have been applied: the connection can break after the fact.
  datatype CommitReply = CommitOk | CommitError(applied: bool)

  // What the environment does around one call; `spill` is what a float outside int64 converts to.
  datatype Beat = Beat(
    others: seq<Step>, fails: bool, produce: ProduceReply, commit: CommitReply,
    jitter: real, spill: Backoff.int64, id: Uuid)

  function BeatAt(script: nat -> Beat, k: nat): Beat {
    script(k)
  }

  // The last call made by beat number `to` is one that failed.
  ghost predicate Struck(script: nat -> Beat, from: nat, to: nat) {
    from < to && BeatAt(script, to - 1).fails
  }

  predicate Fine(beat: Beat) {
    !beat.fails && beat.commit.CommitOk? && beat.produce.Acknowledged?
  }

  // From beat `from` up to beat `to` no call fails and the broker acknowledges every produce.
  ghost predicate Healthy(script: nat -> Beat, from: nat, to: nat) {
    forall k :: from <= k < to ==> Fine(BeatAt(script, k))
  }

  predicate Calm(beat: Beat) {
    beat.others == [] && !beat.fails
  }

  // Nobody else moves, and no call fails - but perhaps a COMMIT.
  ghost predicate Undisturbed(script: nat -> Beat, from: nat, to: nat) {
    forall k :: from <= k < to ==> Calm(BeatAt(script, k))
  }

  lemma HealthyIsNotStruck(script: nat -> Beat, from: nat, to: nat)
    ensures Healthy(script, from, to) ==> !Struck(script, from, to)
  {
    if Healthy(script, from, to) && from < to {
      assert Fine(BeatAt(script, to - 1));
    }
  }

  lemma StruckSince(script: nat -> Beat, from: nat, since: nat, to: nat)
    requires from <= since <= to
    ensures Struck(script, since, to) ==> Struck(script, from, to)
    ensures since < to && Struck(script, from, to) ==> Struck(script, since, to)
  {
  }

  lemma LastBeat(script: nat -> Beat, from: nat, since: nat, to: nat)
    requires from <= since && to == since + 1
    ensures Struck(script, from, to) <==> BeatAt(script, since).fails
  {
  }

  lemma HealthyParts(script: nat -> Beat, from: nat, since: nat, to: nat)
    requires from <= since <= to
    ensures Healthy(script, from, to) ==> Healthy(script, from, since) && Healthy(script, since, to)
  {
  }

  // The later run continues the earlier one.
  ghost predicate Continues(before: Run, after: Run) {
    before.states <= after.states && before.steps <= after.steps
  }

  // While everyone else holds still, so does the clock.
  predicate ClockHeld(calm: bool, from: Instant, to: Instant) {
    from <= to && (calm ==> to == from)
  }

  // These steps never end the others' holding still.
  predicate TroublesNobody(step: Step) {
    !step.Tick? && !step.RegCommit? && !step.Replay? && !step.RelayCommit?
  }

  lemma ClockMoves(s: State, step: Step)
    requires Enabled(s, step)
    ensures s.clock <= Apply(s, step).clock && (Still(s, step) ==> Apply(s, step).clock == s.clock)
  {
  }

  // These steps of others, none of them `me`, are a run from this state.
  ghost predicate Plays(r: Run, s: State, steps: seq<Step>, me: Option<TxId>) {
    && IsRun(r) && r.states[0] == s && r.steps == steps
    && forall i :: 0 <= i < |steps| ==> me.None? || TxOf(steps[i]) != me
  }

  // Such a run goes on from state `now` after i of its steps - or there is none.
  ghost predicate PlayedTo(s: State, steps: seq<Step>, me: Option<TxId>, i: nat, now: State) {
    forall r :: Plays(r, s, steps, me) && i < |r.states| ==> now == r.states[i]
  }

  // t is s after the step, if that is somebody else's and can be taken.
  ghost predicate StepTaken(s: State, t: State, step: Step, me: Option<TxId>) {
    (me.None? || TxOf(step) != me) && Enabled(s, step) ==> t == Apply(s, step)
  }

  lemma PlaysOn(s: State, steps: seq<Step>, me: Option<TxId>, i: nat, now: State, next: State)
    requires PlayedTo(s, steps, me, i, now) && i < |steps| && StepTaken(now, next, steps[i], me)
    ensures PlayedTo(s, steps, me, i + 1, next)
  {
    forall r | Plays(r, s, steps, me) && i + 1 < |r.states|
      ensures next == r.states[i + 1]
    {
      StepOf(r, i);
    }
  }

  // Such a run ends in state `now`.
  ghost predicate PlayedOut(s: State, steps: seq<Step>, me: Option<TxId>, now: State) {
    forall r :: Plays(r, s, steps, me) ==> now == Last(r)
  }

  lemma PlaysOut(s: State, steps: seq<Step>, me: Option<TxId>, now: State)
    requires PlayedTo(s, steps, me, |steps|, now)
    ensures PlayedOut(s, steps, me, now)
  {
  }

  lemma PlaysFrom(s: State, steps: seq<Step>, me: Option<TxId>)
    ensures PlayedTo(s, steps, me, 0, s)
  {
  }

  class Cluster {
    var state: State
    var cursor: nat
    const script: nat -> Beat
    const topics: Topics
    ghost var run: Run
    // While calm, everyone else holds still: the clock, new rows, replays, and reschedules that do
    // not lie in the future. It lasts from step `calmFrom` until a caller's own step ends it.
    var calm: bool
    ghost var calmFrom: nat

    ghost predicate Valid()
      reads this
    {
      && Execution(run) && Last(run) == state && state.topics == topics
      && (calm ==> calmFrom <= |run.steps| && StillBetween(run, calmFrom, |run.steps|))
    }

    constructor (s: State, script: nat -> Beat)
      requires Initial(s)
      ensures Valid() && state == s && run == Start(s) && !calm && this.script == script && cursor == 0
    {
      state := s;
      cursor := 0;
      calm := false;
      this.script, this.topics := script, s.topics;
      run := Start(s);
    }

    lemma Holds()
      requires Valid()
      ensures Inv(state)
    {
      Reachable(run, |run.states| - 1);
    }

    method HoldStill()
      requires Valid()
      modifies this`calm, this`calmFrom
      ensures Valid() && calm && calmFrom == |run.steps|
    {
      calm := true;
      calmFrom := |run.steps|;
    }

    // One statement, produce call or transaction boundary takes effect.
    method Perform(step: Step)
      requires Valid() && Enabled(state, step)
      modifies this`state, this`run, this`calm
      ensures Valid() && state == Apply(old(state), step)
      ensures run == Extend(old(run), step)
      ensures calm == (old(calm) && Still(old(state), step))
      ensures cursor == old(cursor) && (step.Tick? || state.clock == old(state.clock))
      ensures TroublesNobody(step) ==> calm == old(calm)
    {
      calm := calm && Still(state, step);
      run := Extend(run, step);
      state := Apply(state, step);
    }

    // A step of somebody else's, if it can be taken.
    method Take(me: Option<TxId>, step: Step)
      requires Valid()
      modifies this`state, this`run, this`calm
      ensures Valid() && Continues(old(run), run)
      ensures me.Some? ==> Untouched(old(state), state, me.value)
      ensures if (me.None? || TxOf(step) != me) && Enabled(old(state), step) && (calm ==> Still(old(state), step))
              then state == Apply(old(state), step) && run == Extend(old(run), step)
              else state == old(state) && run == old(run)
      ensures calm == old(calm) && ClockHeld(calm, old(state.clock), state.clock)
    {
      if (me.None? || TxOf(step) != me) && Enabled(state, step) && (calm ==> Still(state, step)) {
        if me.Some? {
          OthersLeaveTxAlone(state, step, me.value);
        }
        ClockMoves(state, step);
        Perform(step);
      }
    }

    // All of these, one after the other.
    method TakeAll(me: Option<TxId>, steps: seq<Step>)
      requires Valid()
      modifies this`state, this`run, this`calm
      ensures Valid() && Continues(old(run), run)
      ensures me.Some? ==> Untouched(old(state), state, me.value)
      ensures calm == old(calm) && ClockHeld(calm, old(state.clock), state.clock)
      ensures steps == [] ==> state == old(state) && run == old(run)
      ensures !calm ==> PlayedOut(old(state), steps, me, state)
    {
      ghost var from := state;
      PlaysFrom(from, steps, me);
      for i := 0 to |steps|
        invariant Valid() && Continues(old(run), run)
        invariant me.Some? ==> Untouched(from, state, me.value)
        invariant calm == old(calm) && ClockHeld(calm, from.clock, state.clock)
        invariant i == 0 ==> state == from && run == old(run)
        invariant !calm ==> PlayedTo(from, steps, me, i, state)
      {
        ghost var now := state;
        Take(me, steps[i]);
        if !calm {
          PlaysOn(from, steps, me, i, now, state);
        }
      }
      if !calm {
        PlaysOut(from, steps, me, state);
      }
    }

    // Everyone else moves, as they can; then the environment's decision for the caller's own call is
    // drawn. Steps of others that are a run from here are all taken: nothing they may do is left out.
    method Draw(me: Option<TxId>) returns (beat: Beat)
      requires Valid()
      modifies this`state, this`run, this`cursor, this`calm
      ensures Valid() && Continues(old(run), run)
      ensures me.Some? ==> Untouched(old(state), state, me.value)
      ensures beat == BeatAt(script, old(cursor)) && cursor == old(cursor) + 1
      ensures beat.others == [] ==> state == old(state) && run == old(run)
      ensures calm == old(calm) && ClockHeld(calm, old(state.clock), state.clock)
      ensures !calm ==> PlayedOut(old(state), beat.others, me, state)
    {
      beat := BeatAt(script, cursor);
      cursor := cursor + 1;
      TakeAll(me, beat.others);
    }
  }
}
