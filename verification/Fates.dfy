/** What becomes of a message passed to write(), and what the writer is told, step by step under any interleaving
  * (packages/rosbag2_dynamic_recorder/src/bag.cpp). */
module Fates {
  import opened BagStore
  import opened Interleaving

  /** The messages queued and this one are together within the limit. */
  predicate Room(b: BagState, m: Message) { Bytes(b.staged) + m.bytes <= b.maxStagedBytes }

  /** Where a step of a thread at `pc` takes the messages, and that it takes no others: a parked one is staged if there
    * is room and lost if there is none; a closed bag discards what a write or a flush brings it; an open one has each
    * message handed to the writer. */
  ghost predicate Accounted(s: Shared, pc: Pc, after: Shared) {
    && after.bag.lost == s.bag.lost + (if pc.Parking? && !Room(s.bag, pc.m) then [pc.m] else [])
    && after.bag.staged == (if pc.Parking? && Room(s.bag, pc.m) then s.bag.staged + [pc.m]
                            else if pc.Swapping? then [] else s.bag.staged)
    && after.bag.discarded == s.bag.discarded +
         (if s.bag.open then [] else if pc.Holding? then [pc.m] else if pc.Swapping? then s.bag.staged else [])
    && after.batch == (if pc.Swapping? && s.bag.open then s.bag.staged
                       else if pc.Draining? && s.batch != [] then s.batch[1..] else s.batch)
    && Handed(after.bag.calls) == Handed(s.bag.calls) +
         (if pc.Handing? then [pc.m] else if pc.Draining? && s.batch != [] then [s.batch[0]] else [])
  }

  lemma WriteAccounts(s: Shared, t: nat, pc: Pc, ok: bool)
    requires InWrite(pc) && StageInv(s)
    ensures Accounted(s, pc, WriteGo(s, t, pc, ok).shared)
  {
    if pc.Handing? { CalledFacts(s.bag.calls, Wrote(pc.m, ok)); }
  }

  lemma FlushAccounts(s: Shared, pc: Pc, ok: bool)
    requires InFlush(pc)
    ensures s.batch == [] || pc.Draining? ==> Accounted(s, pc, FlushGo(s, pc, ok).shared)
  {
    if s.batch != [] { CalledFacts(s.bag.calls, Wrote(s.batch[0], ok)); }
  }

  lemma EnterAccounts(s: Shared, op: Op, early: seq<Message>)
    ensures Accounted(s, Entered(op, early), Enter(s, op, early).shared)
  {
    CalledFacts(s.bag.calls, Opened);
    hide Handed;
  }

  lemma SlowAccounts(s: Shared, t: nat, pc: Pc)
    requires InSlow(pc)
    ensures Accounted(s, pc, SlowGo(s, t, pc).shared)
  {
    if pc.Working? { WorkFrame(s.bag, pc.op); }
    else if pc.Finishing? { CalledFacts(s.bag.calls, Closed); }
    else if pc.Entered? { EnterAccounts(s, pc.op, pc.early); }
    hide Work, Enter, Handed;
  }

  lemma GoAccounts(s: Shared, t: nat, pc: Pc, ok: bool)
    requires !pc.Idle? && StageInv(s) && LockLocal(s, t, pc)
    ensures Accounted(s, pc, Go1(s, t, pc, ok).shared)
  {
    if InWrite(pc) { WriteAccounts(s, t, pc, ok); }
    else if InFlush(pc) { FlushAccounts(s, pc, ok); }
    else { SlowAccounts(s, t, pc); }
    hide WriteGo, FlushGo, SlowGo, Accounted;
  }

  lemma ReachableLock(s: Machine, t: nat)
    requires Reachable(s) && t in s.threads && t in s.turns
    ensures StageInv(s.shared) && LockLocal(s.shared, t, s.threads[t])
  {
    ReachableInv(s);
    assert Local(s.shared, t, s.threads[t], s.turns[t]);
    hide Reachable;
  }

  /** In every reachable state each step takes the messages where `Accounted` says. */
  lemma EveryStepAccounts(s: Machine, t: nat, a: Act)
    requires Reachable(s) && Enabled(s, t, a)
    ensures if a.Go? then Accounted(s.shared, s.threads[t], Step(s, t, a).shared) else Step(s, t, a).shared == s.shared
  {
    if a.Go? {
      ReachableLock(s, t);
      GoAccounts(s.shared, t, s.threads[t], a.ok);
    }
    hide Go1, Accounted, Reachable, LockLocal, StageInv;
  }

  /** A thread parks only after reading the busy flag set. */
  lemma ParksOnlyPastBusy(s: Machine, t: nat, a: Act, m: Message)
    requires Enabled(s, t, a) && Step(s, t, a).threads[t] == Parking(m)
    ensures a.Go? && s.threads[t] == Polling(m) && s.shared.busy
  {
  }

  // ---- lost messages -----------------------------------------------------------------------------------------

  /** Step `i` of the run finds its thread about to stage `m`, with no room for it. */
  ghost predicate CrowdedOut(s: Machine, steps: Schedule, i: nat, m: Message)
    requires i < |steps|
  {
    && Runs(s, steps[..i])
    && var before := Run(s, steps[..i]);
       && steps[i].0 in before.threads && before.threads[steps[i].0] == Parking(m) && steps[i].1.Go?
       && !Room(before.shared.bag, m)
  }

  lemma LostAtStep(s: Machine, t: nat, a: Act, m: Message)
    requires Reachable(s) && Enabled(s, t, a) && m in Step(s, t, a).shared.bag.lost && m !in s.shared.bag.lost
    ensures a.Go? && s.threads[t] == Parking(m) && !Room(s.shared.bag, m)
  {
    EveryStepAccounts(s, t, a);
    hide Step;
  }

  lemma {:induction false} RunReaches(s: Machine, t: nat, a: Act)
    requires Reachable(s) && Enabled(s, t, a)
    ensures Reachable(Step(s, t, a))
  {
    var threads: set<nat>, steps: Schedule :| Runs(Init(threads), steps) && Run(Init(threads), steps) == s;
    OneMoreStep(Init(threads), steps, t, a);
  }

  lemma {:induction false} OneMoreStep(s: Machine, steps: Schedule, t: nat, a: Act)
    requires Runs(s, steps) && Enabled(Run(s, steps), t, a)
    ensures Runs(s, steps + [(t, a)]) && Run(s, steps + [(t, a)]) == Step(Run(s, steps), t, a)
    decreases |steps|
  {
    var all := steps + [(t, a)];
    hide Step;
    if steps == [] {
      assert all[1..] == [] && Runs(Step(s, t, a), all[1..]);
    } else {
      OneMoreStep(Step(s, steps[0].0, steps[0].1), steps[1..], t, a);
      assert all[0] == steps[0] && all[1..] == steps[1..] + [(t, a)];
    }
  }

  lemma CrowdedOutLater(s: Machine, steps: Schedule, i: nat, m: Message)
    requires steps != [] && Enabled(s, steps[0].0, steps[0].1) && i < |steps| - 1
    requires CrowdedOut(Step(s, steps[0].0, steps[0].1), steps[1..], i, m)
    ensures CrowdedOut(s, steps, i + 1, m)
  {
    var front := steps[..i + 1];
    assert front[0] == steps[0] && front[1..] == steps[1..][..i] && steps[1..][i] == steps[i + 1];
    hide Step;
  }

  /** Every message a run reports lost found, when its thread came to stage it, the stage too full for it. */
  lemma {:induction false} LostOnlyWhenFull(s: Machine, steps: Schedule, m: Message)
    requires Reachable(s) && Runs(s, steps) && m in Run(s, steps).shared.bag.lost && m !in s.shared.bag.lost
    ensures exists i :: 0 <= i < |steps| && CrowdedOut(s, steps, i, m)
    decreases |steps|
  {
    hide Step, CrowdedOut;
    if steps == [] {
      assert false;
    } else {
      var (t, a) := steps[0];
      if m in Step(s, t, a).shared.bag.lost {
        LostAtStep(s, t, a, m);
        CrowdedAtOnce(s, steps, m);
      } else {
        RunReaches(s, t, a);
        LostOnlyWhenFull(Step(s, t, a), steps[1..], m);
        var i :| 0 <= i < |steps[1..]| && CrowdedOut(Step(s, t, a), steps[1..], i, m);
        CrowdedOutLater(s, steps, i, m);
      }
    }
  }

  lemma CrowdedAtOnce(s: Machine, steps: Schedule, m: Message)
    requires steps != [] && Enabled(s, steps[0].0, steps[0].1) && steps[0].1.Go?
    requires s.threads[steps[0].0] == Parking(m) && !Room(s.shared.bag, m)
    ensures CrowdedOut(s, steps, 0, m)
  {
    assert steps[..0] == [];
  }

  // ---- what a busy writer leaves behind ------------------------------------------------------------------------

  /** The message has left the stage for good: handed to the writer, or discarded by a closed bag. */
  predicate Gone(b: BagState, m: Message) { m in Handed(b.calls) || m in b.discarded }

  /** Each of `early` is gone, or thread `t` is flushing it. */
  ghost predicate Flushing(s: Shared, pc: Pc, early: seq<Message>) {
    forall m | m in early ::
      || Gone(s.bag, m)
      || (pc == Swapping(ThenRelease) && m in s.bag.staged)
      || (pc == Draining(ThenRelease) && m in s.batch)
  }

  lemma GoneStays(s: Shared, pc: Pc, after: Shared, m: Message)
    requires Accounted(s, pc, after) && Gone(s.bag, m)
    ensures Gone(after.bag, m)
  {
    hide Handed;
  }

  /** The flush goes on. */
  lemma FlushMoves(s: Shared, t: nat, pc: Pc, ok: bool, early: seq<Message>)
    requires !pc.Idle? && Flushing(s, pc, early) && Accounted(s, pc, Go1(s, t, pc, ok).shared)
    ensures Flushing(Go1(s, t, pc, ok).shared, Go1(s, t, pc, ok).pc, early)
  {
    hide Handed;
    var move := Go1(s, t, pc, ok);
    forall m | m in early
      ensures Gone(move.shared.bag, m) || (pc == Swapping(ThenRelease) && m in move.shared.batch && move.pc == Draining(ThenRelease))
              || (pc == Draining(ThenRelease) && m in move.shared.batch && move.pc == pc)
    {
      if Gone(s.bag, m) { GoneStays(s, pc, move.shared, m); }
      else if pc == Draining(ThenRelease) { assert s.batch == [s.batch[0]] + s.batch[1..]; }
    }
  }

  /** A step of another thread leaves a flush alone. */
  lemma FlushOther(s: Shared, u: nat, pc: Pc, ok: bool, t: nat, flushing: Pc, early: seq<Message>)
    requires !pc.Idle? && u != t && LockLocal(s, u, pc) && LockLocal(s, t, flushing)
    requires Flushing(s, flushing, early) && Accounted(s, pc, Go1(s, u, pc, ok).shared)
    ensures Flushing(Go1(s, u, pc, ok).shared, flushing, early)
  {
    hide Handed, Go1;
    var after := Go1(s, u, pc, ok).shared;
    forall m | m in early
      ensures Gone(after.bag, m) || (flushing == Swapping(ThenRelease) && m in after.bag.staged)
              || (flushing == Draining(ThenRelease) && m in after.batch)
    {
      if Gone(s.bag, m) { GoneStays(s, pc, after, m); }
    }
  }

  lemma ReachableThread(s: Machine, t: nat)
    requires Reachable(s) && t in s.threads
    ensures t in s.turns
  {
    ReachableInv(s);
  }

  lemma FlushStep(s: Machine, u: nat, a: Act, t: nat, early: seq<Message>)
    requires Reachable(s) && Enabled(s, u, a) && t in s.threads && Flushing(s.shared, s.threads[t], early)
    ensures Flushing(Step(s, u, a).shared, Step(s, u, a).threads[t], early)
  {
    EveryStepAccounts(s, u, a);
    if a.Go? {
      ReachableLock(s, u);
      if u == t {
        FlushMoves(s.shared, t, s.threads[t], a.ok, early);
      } else {
        ReachableThread(s, t);
        ReachableLock(s, t);
        FlushOther(s.shared, u, s.threads[u], a.ok, t, s.threads[t], early);
      }
    }
    hide Accounted, Go1, Gone, LockLocal, StageInv, Reachable;
  }

  lemma {:induction false} FlushRun(s: Machine, steps: Schedule, t: nat, early: seq<Message>)
    requires Reachable(s) && Runs(s, steps) && t in s.threads && Flushing(s.shared, s.threads[t], early)
    ensures t in Run(s, steps).threads && Flushing(Run(s, steps).shared, Run(s, steps).threads[t], early)
    decreases |steps|
  {
    hide Flushing, Gone;
    if steps == [] {
    } else {
      var (u, a) := steps[0];
      FlushStep(s, u, a, t, early);
      RunReaches(s, u, a);
      FlushRun(Step(s, u, a), steps[1..], t, early);
    }
  }

  /** Whatever the other threads do, everything staged when a slow operation comes to clear the busy flag has been handed to
    * the writer, or discarded if the bag was closed, by the time it is giving back the lock, and ever after. */
  lemma BusyEndsFlushed(s: Machine, t: nat, ok: bool, steps: Schedule, m: Message)
    requires Reachable(s) && Enabled(s, t, Go(ok)) && s.threads[t].Releasing? && Runs(Step(s, t, Go(ok)), steps)
    requires var end := Run(Step(s, t, Go(ok)), steps);
             t in end.threads && !InFlush(end.threads[t]) && m in s.shared.bag.staged
    ensures Gone(Run(Step(s, t, Go(ok)), steps).shared.bag, m)
  {
    var begun := Step(s, t, Go(ok));
    assert begun.threads[t] == Swapping(ThenRelease) && begun.shared.bag == s.shared.bag;
    RunReaches(s, t, Go(ok));
    FlushRun(begun, steps, t, s.shared.bag.staged);
  }

  // ---- what the writer is told, and the limit --------------------------------------------------------------------

  /** The calls of rosbag2's writer that a step of a thread at `pc` makes. */
  function Calls(s: Shared, pc: Pc, ok: bool): seq<Call> {
    match pc
    case Entered(op, _) => if op.OpenBag? && op.ok && !s.bag.open then [Opened] else []
    case Working(op) =>
      (match op
       case MakeChannel(topic, typeName, made) => [Created(topic, typeName, made)]
       case SplitBag(done) => [SplitFile(done)]
       case SnapshotBag(done) => [TookSnapshot(done)]
       case LogOne(topic, typeName, e, fate) =>
         (if topic in s.bag.channels then [] else [Created(topic, typeName, fate != ChannelFailed)])
         + (if topic in s.bag.channels || fate != ChannelFailed then [WroteEvent(e, fate == Stored)] else [])
       case _ => [])
    case Finishing(_) => [Closed]
    case Handing(m) => [Wrote(m, ok)]
    case Draining(_) => if s.batch == [] then [] else [Wrote(s.batch[0], ok)]
    case _ => []
  }

  /** What the stage may hold in a bag opened with this cache size. */
  function LimitFor(maxCacheSize: nat): nat { if maxCacheSize == 0 then 67108864 else maxCacheSize }

  lemma WorkTells(s: Shared, op: Op)
    requires !op.OpenBag? && !op.CloseBag?
    ensures var after := Work(s.bag, op);
            after.calls == s.bag.calls + Calls(s, Working(op), true) && after.maxStagedBytes == s.bag.maxStagedBytes
  {
  }

  lemma EnterTells(s: Shared, op: Op, early: seq<Message>)
    ensures var pc, after := Entered(op, early), Enter(s, op, early).shared.bag;
            && after.calls == s.bag.calls + Calls(s, pc, true)
            && (after.maxStagedBytes ==
                if Calls(s, pc, true) == [Opened] then LimitFor(op.maxCacheSize) else s.bag.maxStagedBytes)
  {
  }

  lemma SlowTells(s: Shared, t: nat, pc: Pc)
    requires InSlow(pc)
    ensures var after := SlowGo(s, t, pc).shared.bag;
            && after.calls == s.bag.calls + Calls(s, pc, true)
            && (after.maxStagedBytes ==
                if pc.Entered? && Calls(s, pc, true) == [Opened] then LimitFor(pc.op.maxCacheSize) else s.bag.maxStagedBytes)
  {
    hide Work, Enter;
    if pc.Entered? { EnterTells(s, pc.op, pc.early); }
    else if pc.Working? && !pc.op.OpenBag? && !pc.op.CloseBag? { WorkTells(s, pc.op); }
    else if pc.Working? { NoWork(s.bag, pc.op); }
  }

  lemma NoWork(b: BagState, op: Op)
    requires op.OpenBag? || op.CloseBag?
    ensures Work(b, op) == b
  {
  }

  /** Every step makes exactly the writer calls its thread is due to make, and the limit in force is that of the bag
    * opened last. */
  lemma WriterIsTold(s: Machine, t: nat, ok: bool)
    requires Enabled(s, t, Go(ok))
    ensures var pc, before, after := s.threads[t], s.shared, Step(s, t, Go(ok)).shared.bag;
            && after.calls == before.bag.calls + Calls(before, pc, ok)
            && (after.maxStagedBytes ==
                if pc.Entered? && Calls(before, pc, ok) == [Opened] then LimitFor(pc.op.maxCacheSize)
                else before.bag.maxStagedBytes)
  {
    var pc := s.threads[t];
    if InSlow(pc) { SlowTells(s.shared, t, pc); }
    hide SlowGo;
  }
}
