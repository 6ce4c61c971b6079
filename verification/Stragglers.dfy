/** After a stop: what can still be staged before the next bag opens
  * (packages/rosbag2_dynamic_recorder/src/bag.cpp). Which messages can reach the next bag at all is NextBag's. */
module Stragglers {
  import opened BagStore
  import opened Interleaving

  /** A stop is over, whatever it left on the stage. */
  predicate Stopped(s: Machine) { !s.shared.bag.open && s.shared.owner == NOBODY }

  /** A thread that saw the writer busy, has not staged its message yet, and whose message fits. */
  ghost predicate Straggler(s: Machine) {
    exists t: nat :: t in s.threads && s.threads[t].Parking? && Fits(s.shared.bag, s.threads[t].m)
  }

  /** Some run changes what is staged with no bag opened since. */
  ghost predicate CanStage(s: Machine) {
    exists steps: Schedule ::
      Runs(s, steps) && Run(s, steps).shared.bag.calls == s.shared.bag.calls
      && Run(s, steps).shared.bag.staged != s.shared.bag.staged
  }

  /** The thread neither has a message that fits the stage `b` has, nor is emptying the stage. */
  predicate CalmPc(pc: Pc, b: BagState) {
    && (pc.Parking? ==> !Fits(b, pc.m))
    && (HoldsLock(pc) ==> pc.Holding? || pc.Entered? || pc.Unlocking?)
  }

  predicate SameStage(b: BagState, c: BagState) {
    c.staged == b.staged && c.stagedBytes == b.stagedBytes && c.maxStagedBytes == b.maxStagedBytes
  }

  /** The bag is closed with the stage of `b`, and no thread is about to change that. */
  ghost predicate Calm(s: Machine, b: BagState) {
    && !s.shared.bag.open && !s.shared.busy && SameStage(b, s.shared.bag)
    && forall t: nat | t in s.threads :: CalmPc(s.threads[t], b)
  }

  lemma CalmMove(s: Shared, t: nat, pc: Pc, ok: bool)
    requires !pc.Idle? && !s.bag.open && !s.busy && CalmPc(pc, s.bag) && LockLocal(s, t, pc)
    ensures var move := Go1(s, t, pc, ok);
            move.shared.bag.calls == s.bag.calls ==>
              !move.shared.bag.open && !move.shared.busy && SameStage(s.bag, move.shared.bag) && CalmPc(move.pc, s.bag)
  {
  }

  lemma CalmStep(s: Machine, t: nat, a: Act, b: BagState)
    requires Inv(s) && Calm(s, b) && Enabled(s, t, a)
    requires Step(s, t, a).shared.bag.calls == s.shared.bag.calls
    ensures Calm(Step(s, t, a), b)
  {
    if a.Go? {
      assert LockLocal(s.shared, t, s.threads[t]) by { assert Local(s.shared, t, s.threads[t], s.turns[t]); }
      CalmMove(s.shared, t, s.threads[t], a.ok);
    }
    hide Go1, HoldsLock, Fits;
  }

  lemma StepCallsFixed(s: Machine, steps: Schedule)
    requires Runs(s, steps) && steps != [] && Run(s, steps).shared.bag.calls == s.shared.bag.calls
    ensures Step(s, steps[0].0, steps[0].1).shared.bag.calls == s.shared.bag.calls
  {
    var (t, a) := steps[0];
    if a.Go? { CallsGrow(s.shared, t, s.threads[t], a.ok); }
    RunCallsGrow(Step(s, t, a), steps[1..]);
  }

  lemma {:induction false} CalmRun(s: Machine, steps: Schedule, b: BagState)
    requires Inv(s) && Calm(s, b) && Runs(s, steps)
    requires Run(s, steps).shared.bag.calls == s.shared.bag.calls
    ensures Run(s, steps).shared.bag.staged == b.staged
    decreases |steps|
  {
    if steps == [] {
    } else {
      var (t, a) := steps[0];
      StepCallsFixed(s, steps);
      StepKeepsInv(s, t, a);
      CalmStep(s, t, a, b);
      CalmRun(Step(s, t, a), steps[1..], b);
    }
  }

  lemma StragglerStages(s: Machine)
    requires Inv(s) && Stopped(s) && Straggler(s)
    ensures CanStage(s)
  {
    var t: nat :| t in s.threads && s.threads[t].Parking? && Fits(s.shared.bag, s.threads[t].m);
    var steps: Schedule := [(t, Go(true))];
    var next := Step(s, t, Go(true));
    assert Runs(next, steps[1..]);
    assert Run(s, steps) == next;
    assert next.shared.bag.staged == s.shared.bag.staged + [s.threads[t].m];
  }

  lemma NoStragglerIsCalm(s: Machine)
    requires Inv(s) && Stopped(s) && !Straggler(s)
    ensures Calm(s, s.shared.bag)
  {
    forall t: nat | t in s.threads ensures CalmPc(s.threads[t], s.shared.bag) {
      assert Local(s.shared, t, s.threads[t], s.turns[t]);
    }
  }

  /** After a stop the stage can change with no bag opened since exactly when some thread had already seen the
    * writer busy and had yet to stage a message that fits. */
  lemma StagesOnlyThroughStragglers(s: Machine)
    requires Reachable(s) && Stopped(s)
    ensures CanStage(s) <==> Straggler(s)
  {
    ReachableInv(s);
    if Straggler(s) {
      StragglerStages(s);
    } else {
      NoStragglerIsCalm(s);
      forall steps: Schedule | Runs(s, steps) && Run(s, steps).shared.bag.calls == s.shared.bag.calls
        ensures Run(s, steps).shared.bag.staged == s.shared.bag.staged
      {
        CalmRun(s, steps, s.shared.bag);
      }
    }
  }
}
