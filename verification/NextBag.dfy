/** Which messages handed to write() before a stop can still be written into a later bag
  * (packages/rosbag2_dynamic_recorder/src/bag.cpp). */
module NextBag {
  import opened BagStore
  import opened Interleaving
  import opened Solo

  /** A stop is over: the bag is closed and the lock is free, whatever the other threads are up to. */
  predicate Over(s: Machine) { !s.shared.bag.open && s.shared.owner == NOBODY }

  /** The stage a bag opened with this cache size allows. */
  function Cap(size: nat): nat { if size > 0 then size else DEFAULT_MAX_STAGED_BYTES }

  /** Bags are opened with one of the given cache sizes only. */
  function Sized(sizes: nat -> bool): Act -> bool {
    (a: Act) => a.StartOp? && a.op.OpenBag? ==> sizes(a.op.maxCacheSize)
  }

  ghost predicate ReachableWith(s: Machine, sizes: nat -> bool) {
    exists threads: set<nat> :: LeadsBy(Init(threads), s, Sized(sizes))
  }

  /** Among the calls from `start` on a bag is opened and `m` is then handed to the writer. */
  ghost predicate WrittenLater(calls: seq<Call>, start: nat, m: Message) {
    exists j, i :: start <= j < i < |calls| && calls[j].Opened? && calls[i].Wrote? && calls[i].message == m
  }

  /** Some run from `s` writes `m` into a bag opened later. */
  ghost predicate CanReachNextBag(s: Machine, m: Message, sizes: nat -> bool) {
    exists end :: LeadsBy(s, end, Sized(sizes)) && WrittenLater(end.shared.bag.calls, |s.shared.bag.calls|, m)
  }

  /** `m` is still on the stage; or its write() has not finished, some other thread can open a bag meanwhile,
    * and, if the thread has already read the busy flag, a bag may be opened whose stage has room for `m`. */
  ghost predicate StillComing(s: Machine, m: Message, sizes: nat -> bool)
    requires m.producer in s.threads
  {
    || m in s.shared.bag.staged
    || (m in InHand(s.threads[m.producer]) && (exists u: nat :: u in s.threads && u != m.producer)
        && (s.threads[m.producer].Parking? ==> exists n: nat :: sizes(n) && m.bytes <= Cap(n)))
  }

  // ---- what a message that is nowhere cannot do -----------------------------------------------------------

  /** No call from `start` on hands over `m`. */
  ghost predicate NotWritten(calls: seq<Call>, start: nat, m: Message) {
    forall i | start <= i < |calls| :: calls[i].Wrote? ==> calls[i].message != m
  }

  /** `m` is neither staged, nor being flushed, nor in any thread's hand, and it is not a message yet to come. */
  ghost predicate Absent(s: Machine, m: Message) {
    && m !in s.shared.bag.staged && m !in s.shared.batch
    && m.producer in s.turns && m.turn < s.turns[m.producer]
    && forall t: nat | t in s.threads :: m !in InHand(s.threads[t])
  }

  /** What one step may do with `m`: the calls it adds do not hand it over. */
  ghost predicate Keeps(s: Shared, after: Shared, m: Message) {
    s.bag.calls <= after.bag.calls && NotWritten(after.bag.calls, |s.bag.calls|, m)
  }

  /** The bag gains calls, and no write among them. */
  ghost predicate NoWrites(b: BagState, after: BagState) {
    b.calls <= after.calls && forall i | |b.calls| <= i < |after.calls| :: !after.calls[i].Wrote?
  }

  lemma WorkWritesNothing(b: BagState, op: Op)
    ensures NoWrites(b, Work(b, op))
  {
  }

  lemma EnterWritesNothing(s: Shared, op: Op, early: seq<Message>)
    ensures NoWrites(s.bag, Enter(s, op, early).shared.bag)
  {
  }

  lemma SlowWritesNothing(s: Shared, t: nat, pc: Pc)
    requires InSlow(pc)
    ensures NoWrites(s.bag, SlowGo(s, t, pc).shared.bag)
  {
    hide Enter, Work;
    if pc.Working? { WorkWritesNothing(s.bag, pc.op); }
    else if pc.Entered? { EnterWritesNothing(s, pc.op, pc.early); }
  }

  lemma AbsentSlow(s: Shared, t: nat, pc: Pc, m: Message)
    requires InSlow(pc) && m !in s.bag.staged && m !in s.batch
    ensures var move := SlowGo(s, t, pc);
            m !in move.shared.bag.staged && m !in move.shared.batch && m !in InHand(move.pc) && Keeps(s, move.shared, m)
  {
    SlowFrame(s, t, pc);
    SlowWritesNothing(s, t, pc);
    hide SlowGo;
  }

  lemma AbsentMove(s: Shared, t: nat, pc: Pc, ok: bool, m: Message)
    requires !pc.Idle? && m !in s.bag.staged && m !in s.batch && m !in InHand(pc)
    ensures var move := Go1(s, t, pc, ok);
            m !in move.shared.bag.staged && m !in move.shared.batch && m !in InHand(move.pc) && Keeps(s, move.shared, m)
  {
    if InSlow(pc) {
      AbsentSlow(s, t, pc, m);
    } else if InFlush(pc) {
      hide WriteGo, SlowGo;
      assert s.batch != [] ==> s.batch[0] in s.batch;
    } else {
      hide FlushGo, SlowGo;
      assert pc.m in InHand(pc);
    }
  }

  lemma AbsentStep(s: Machine, t: nat, a: Act, m: Message)
    requires Absent(s, m) && Enabled(s, t, a)
    ensures Absent(Step(s, t, a), m) && Keeps(s.shared, Step(s, t, a).shared, m)
  {
    hide Go1;
    if a.Go? { AbsentMove(s.shared, t, s.threads[t], a.ok, m); }
  }

  lemma NotWrittenOn(calls: seq<Call>, mid: seq<Call>, end: seq<Call>, m: Message)
    requires calls <= mid <= end && NotWritten(mid, |calls|, m) && NotWritten(end, |mid|, m)
    ensures NotWritten(end, |calls|, m)
  {
    forall i | |calls| <= i < |end| ensures end[i].Wrote? ==> end[i].message != m {
      if i < |mid| { assert end[i] == mid[i]; }
    }
  }

  lemma {:induction false} AbsentRun(s: Machine, steps: Schedule, m: Message)
    requires Absent(s, m) && Runs(s, steps)
    ensures Keeps(s.shared, Run(s, steps).shared, m)
    decreases |steps|
  {
    if steps == [] {
    } else {
      var (t, a) := steps[0];
      var next := Step(s, t, a);
      AbsentStep(s, t, a, m);
      AbsentRun(next, steps[1..], m);
      NotWrittenOn(s.shared.bag.calls, next.shared.bag.calls, Run(s, steps).shared.bag.calls, m);
    }
  }

  // ---- a message whose thread is alone --------------------------------------------------------------------

  /** The only thread is still waiting for the lock with `m`, or has it and is about to find the bag closed. */
  predicate Lonely(s: Machine, m: Message) {
    && m.producer in s.threads && m.producer in s.turns && s.threads.Keys == {m.producer}
    && !s.shared.bag.open && !s.shared.busy && m !in s.shared.bag.staged && m !in s.shared.batch
    && m.turn < s.turns[m.producer]
    && var pc := s.threads[m.producer];
       (pc.Arriving? || pc.Waiting? || pc.Polling? || pc.Holding?) && pc.m == m
  }

  lemma LonelyStep(s: Machine, t: nat, a: Act, m: Message)
    requires Lonely(s, m) && Enabled(s, t, a)
    ensures Lonely(Step(s, t, a), m) || Absent(Step(s, t, a), m)
    ensures Keeps(s.shared, Step(s, t, a).shared, m)
  {
    hide FlushGo, SlowGo;
    assert t == m.producer && a.Go?;
    var next := Step(s, t, a);
    assert next.threads.Keys == {m.producer};
  }

  lemma {:induction false} LonelyRun(s: Machine, steps: Schedule, m: Message)
    requires Lonely(s, m) && Runs(s, steps)
    ensures Keeps(s.shared, Run(s, steps).shared, m)
    decreases |steps|
  {
    if steps == [] {
    } else {
      var (t, a) := steps[0];
      var next := Step(s, t, a);
      LonelyStep(s, t, a, m);
      if Lonely(next, m) { LonelyRun(next, steps[1..], m); } else { AbsentRun(next, steps[1..], m); }
      NotWrittenOn(s.shared.bag.calls, next.shared.bag.calls, Run(s, steps).shared.bag.calls, m);
    }
  }

  // ---- a message too large for any stage ------------------------------------------------------------------

  /** Every opening under way is with an allowed cache size, and so was the last. */
  ghost predicate WithinSizes(s: Machine, sizes: nat -> bool) {
    && (s.shared.bag.maxStagedBytes == 0 || exists n: nat :: sizes(n) && s.shared.bag.maxStagedBytes == Cap(n))
    && forall t: nat | t in s.threads :: Opens(s.threads[t], sizes)
  }

  predicate Opens(pc: Pc, sizes: nat -> bool) {
    (pc.Asking? || pc.Entered?) && pc.op.OpenBag? ==> sizes(pc.op.maxCacheSize)
  }

  lemma WithinSizesMove(s: Shared, t: nat, pc: Pc, ok: bool, sizes: nat -> bool)
    requires !pc.Idle? && Opens(pc, sizes)
    ensures var move := Go1(s, t, pc, ok);
            && Opens(move.pc, sizes)
            && (move.shared.bag.maxStagedBytes == s.bag.maxStagedBytes
                || exists n: nat :: sizes(n) && move.shared.bag.maxStagedBytes == Cap(n))
  {
    if InWrite(pc) { hide FlushGo, SlowGo; }
    else if InFlush(pc) { hide WriteGo, SlowGo; }
    else if pc.Working? { hide WriteGo, FlushGo, Enter; }
    else {
      hide WriteGo, FlushGo, Work;
      if pc.Entered? && pc.op.OpenBag? { assert AfterOpen(s.bag, pc.op.maxCacheSize).maxStagedBytes == Cap(pc.op.maxCacheSize); }
    }
  }

  lemma WithinSizesStep(s: Machine, t: nat, a: Act, sizes: nat -> bool)
    requires WithinSizes(s, sizes) && Enabled(s, t, a) && Sized(sizes)(a)
    ensures WithinSizes(Step(s, t, a), sizes)
  {
    hide Go1;
    if a.Go? { WithinSizesMove(s.shared, t, s.threads[t], a.ok, sizes); }
  }

  lemma {:induction false} WithinSizesRun(s: Machine, steps: Schedule, sizes: nat -> bool)
    requires WithinSizes(s, sizes) && Runs(s, steps) && AllMay(steps, Sized(sizes))
    ensures WithinSizes(Run(s, steps), sizes)
    decreases |steps|
  {
    if steps == [] {
    } else {
      assert Sized(sizes)(steps[0].1);
      WithinSizesStep(s, steps[0].0, steps[0].1, sizes);
      WithinSizesRun(Step(s, steps[0].0, steps[0].1), steps[1..], sizes);
    }
  }

  /** `m` is about to be staged, and no allowed stage has room for it. */
  ghost predicate TooLarge(s: Machine, m: Message, sizes: nat -> bool) {
    && WithinSizes(s, sizes) && m.bytes > 0 && (forall n: nat :: sizes(n) ==> Cap(n) < m.bytes)
    && m.producer in s.threads && m.producer in s.turns && s.threads[m.producer] == Parking(m)
    && m !in s.shared.bag.staged && m !in s.shared.batch && m.turn < s.turns[m.producer]
    && forall t: nat | t in s.threads && t != m.producer :: m !in InHand(s.threads[t])
  }

  lemma TooLargeIsLost(s: Machine, a: Act, m: Message, sizes: nat -> bool)
    requires TooLarge(s, m, sizes) && Enabled(s, m.producer, a)
    ensures Absent(Step(s, m.producer, a), m) && Keeps(s.shared, Step(s, m.producer, a).shared, m)
  {
    assert s.shared.bag.maxStagedBytes < m.bytes;
    hide FlushGo, SlowGo;
  }

  lemma TooLargeStep(s: Machine, t: nat, a: Act, m: Message, sizes: nat -> bool)
    requires TooLarge(s, m, sizes) && Enabled(s, t, a) && Sized(sizes)(a) && t != m.producer
    ensures TooLarge(Step(s, t, a), m, sizes) && Keeps(s.shared, Step(s, t, a).shared, m)
  {
    hide Go1;
    WithinSizesStep(s, t, a, sizes);
    if a.Go? { AbsentMove(s.shared, t, s.threads[t], a.ok, m); }
  }

  lemma {:induction false} TooLargeRun(s: Machine, steps: Schedule, m: Message, sizes: nat -> bool)
    requires TooLarge(s, m, sizes) && Runs(s, steps) && AllMay(steps, Sized(sizes))
    ensures Keeps(s.shared, Run(s, steps).shared, m)
    decreases |steps|
  {
    if steps == [] {
    } else {
      var (t, a) := steps[0];
      var next := Step(s, t, a);
      assert Sized(sizes)(steps[0].1);
      if t == m.producer {
        TooLargeIsLost(s, a, m, sizes);
        AbsentRun(next, steps[1..], m);
      } else {
        TooLargeStep(s, t, a, m, sizes);
        TooLargeRun(next, steps[1..], m, sizes);
      }
      NotWrittenOn(s.shared.bag.calls, next.shared.bag.calls, Run(s, steps).shared.bag.calls, m);
    }
  }

  // ---- a thread that reads the busy flag has company ------------------------------------------------------

  ghost predicate Accompanied(s: Machine) {
    forall t: nat | t in s.threads && s.threads[t].Parking? :: exists u: nat :: u in s.threads && u != t
  }

  lemma OnlyPollingParks(s: Shared, t: nat, pc: Pc, ok: bool)
    requires !pc.Idle?
    ensures Go1(s, t, pc, ok).pc.Parking? ==> pc.Polling? && s.busy
  {
  }

  /** A thread that sees the busy flag while it waits is not the one that set it. */
  lemma BusyIsElsewhere(s: Machine, t: nat)
    requires Inv(s) && t in s.threads && s.threads[t].Polling? && s.shared.busy
    ensures s.shared.owner in s.threads && s.shared.owner != t
  {
    assert Local(s.shared, t, s.threads[t], s.turns[t]);
  }

  lemma AccompaniedStep(s: Machine, t: nat, a: Act)
    requires Inv(s) && Accompanied(s) && Enabled(s, t, a)
    ensures Accompanied(Step(s, t, a))
  {
    if a.Go? { OnlyPollingParks(s.shared, t, s.threads[t], a.ok); }
    hide Go1, OrderLocal, CloseLocal;
    var next := Step(s, t, a);
    assert next.threads.Keys == s.threads.Keys;
    forall x: nat | x in next.threads && next.threads[x].Parking? ensures exists u: nat :: u in next.threads && u != x {
      if x != t || s.threads[t].Parking? {
        var u: nat :| u in s.threads && u != x;
        assert u in next.threads;
      } else {
        BusyIsElsewhere(s, t);
      }
    }
  }

  lemma {:induction false} AccompaniedRun(s: Machine, steps: Schedule)
    requires Inv(s) && Accompanied(s) && Runs(s, steps)
    ensures Accompanied(Run(s, steps))
    decreases |steps|
  {
    if steps == [] {
    } else {
      AccompaniedStep(s, steps[0].0, steps[0].1);
      StepKeepsInv(s, steps[0].0, steps[0].1);
      AccompaniedRun(Step(s, steps[0].0, steps[0].1), steps[1..]);
    }
  }

  lemma InitFacts(threads: set<nat>, sizes: nat -> bool)
    ensures Inv(Init(threads)) && WithinSizes(Init(threads), sizes) && Accompanied(Init(threads))
  {
    InitInv(threads);
    hide Inv;
  }

  lemma ReachableWithFacts(s: Machine, sizes: nat -> bool)
    requires ReachableWith(s, sizes)
    ensures Inv(s) && WithinSizes(s, sizes) && Accompanied(s)
  {
    var threads: set<nat> :| LeadsBy(Init(threads), s, Sized(sizes));
    var steps: Schedule :| Runs(Init(threads), steps) && Run(Init(threads), steps) == s && AllMay(steps, Sized(sizes));
    InitFacts(threads, sizes);
    RunKeepsInv(Init(threads), steps);
    WithinSizesRun(Init(threads), steps, sizes);
    AccompaniedRun(Init(threads), steps);
    hide *;
  }

  // ---- a message that is not still coming never arrives ---------------------------------------------------

  /** Where a message passed to write() and not staged is when the lock is free. */
  lemma WhereItIs(s: Machine, m: Message)
    requires Inv(s) && Over(s) && m.producer in s.turns && m.turn < s.turns[m.producer] && m !in s.shared.bag.staged
    ensures m !in s.shared.batch && m.producer in s.threads
    ensures forall t: nat | t in s.threads && t != m.producer :: m !in InHand(s.threads[t])
    ensures !s.shared.busy
    ensures m in InHand(s.threads[m.producer]) ==>
              var pc := s.threads[m.producer];
              (pc.Arriving? || pc.Waiting? || pc.Polling? || pc.Parking?) && pc.m == m
  {
    forall t: nat | t in s.threads && t != m.producer ensures m !in InHand(s.threads[t]) {
      assert Local(s.shared, t, s.threads[t], s.turns[t]);
    }
    assert Local(s.shared, m.producer, s.threads[m.producer], s.turns[m.producer]);
  }

  lemma NotComingNeverArrives(s: Machine, m: Message, sizes: nat -> bool, steps: Schedule)
    requires Inv(s) && WithinSizes(s, sizes) && Accompanied(s) && Over(s) && exists n: nat :: sizes(n)
    requires m.producer in s.threads && m.producer in s.turns && m.turn < s.turns[m.producer]
    requires !StillComing(s, m, sizes) && Runs(s, steps) && AllMay(steps, Sized(sizes))
    ensures Keeps(s.shared, Run(s, steps).shared, m)
  {
    WhereItIs(s, m);
    var pc := s.threads[m.producer];
    if m !in InHand(pc) {
      AbsentRun(s, steps, m);
    } else if pc.Parking? {
      assert exists u: nat :: u in s.threads && u != m.producer;
      assert forall n: nat :: sizes(n) ==> Cap(n) < m.bytes;
      TooLargeRun(s, steps, m, sizes);
    } else {
      assert s.threads.Keys == {m.producer};
      LonelyRun(s, steps, m);
    }
  }

  // ---- a message that is still coming can arrive ----------------------------------------------------------

  /** The writer takes everything. */
  function Takes(): Message -> bool { (m: Message) => true }

  /** The lock is free and thread `t` is at rest. */
  ghost predicate AtRest(s: Machine, t: nat) {
    Inv(s) && s.shared.owner == NOBODY && t in s.threads && s.threads[t].Idle?
  }

  lemma RestIsFree(s: Machine, t: nat)
    requires Inv(s) && s.shared.owner == NOBODY && t in s.threads
    ensures Free(s.shared) && t in s.turns && Bytes(s.shared.bag.staged) == s.shared.bag.stagedBytes
  {
    assert Local(s.shared, t, s.threads[t], s.turns[t]);
  }

  lemma LeadsKeepsInv(s: Machine, end: Machine, may: Act -> bool)
    requires Inv(s) && LeadsBy(s, end, may)
    ensures Inv(end)
  {
    var steps: Schedule :| Runs(s, steps) && Run(s, steps) == end && AllMay(steps, may);
    RunKeepsInv(s, steps);
    hide *;
  }

  /** An idle thread runs a slow operation through. */
  lemma RunsOperation(s: Machine, t: nat, op: Op, sizes: nat -> bool) returns (end: Machine)
    requires AtRest(s, t) && (op.OpenBag? ==> sizes(op.maxCacheSize))
    ensures LeadsBy(s, end, Sized(sizes)) && AtRest(end, t)
    ensures end.threads == s.threads && end.turns == s.turns
    ensures end.shared.bag == Effect(s.shared.bag, op, Takes())
  {
    RestIsFree(s, t);
    var asking := Step(s, t, StartOp(op));
    end := SoloOperation(asking, t, op, Takes());
    hide Effect, Free, Leads;
    assert end.threads == s.threads;
    GoesAsSized(asking, end, sizes);
    LeadsByStep(s, t, StartOp(op), end, Sized(sizes));
    LeadsKeepsInv(s, end, Sized(sizes));
    hide Inv, LeadsBy;
  }

  lemma GoesAsSized(s: Machine, end: Machine, sizes: nat -> bool)
    requires Leads(s, end)
    ensures LeadsBy(s, end, Sized(sizes))
  {
    LeadsByNothing(end, Sized(sizes));
    LeadsByThen(s, end, end, Going(), Sized(sizes));
  }

  /** A write() that takes the free lock runs through. */
  lemma TakesLock(s: Machine, t: nat, m: Message, end: Machine)
    requires t in s.threads && t in s.turns && s.shared.owner == NOBODY && !s.shared.busy
    requires s.threads[t] == Arriving(m) || s.threads[t] == Waiting(m) || s.threads[t] == Polling(m)
    requires Leads(At(s, t, s.shared.(owner := t), Holding(m)), end)
    ensures Leads(s, end)
  {
    hide Leads, FlushGo, SlowGo;
    var held := At(s, t, s.shared.(owner := t), Holding(m));
    if s.threads[t].Polling? {
      var waiting := Step(s, t, Go(true));
      assert Step(waiting, t, Go(true)) == held;
      LeadsOn(waiting, t, Go(true), end);
    } else {
      assert Step(s, t, Go(true)) == held;
    }
    LeadsOn(s, t, Go(true), end);
  }

  lemma WriteRuns(s: Machine, t: nat, m: Message) returns (end: Machine)
    requires Free(s.shared) && t in s.threads && t in s.turns
    requires s.threads[t] == Arriving(m) || s.threads[t] == Waiting(m) || s.threads[t] == Polling(m)
    ensures Leads(s, end) && end.threads == s.threads[t := Idle] && end.turns == s.turns && end.shared.owner == NOBODY
    ensures end.shared.bag == AfterWrite(s.shared.bag, m, false, Takes())
  {
    hide AfterWrite, Leads, WriteGo, FlushGo, SlowGo;
    var held := s.shared.(owner := t);
    end := At(s, t, Done(held.(bag := AfterWrite(held.bag, m, false, Takes()), owner := NOBODY), m), Idle);
    SoloWrite(s, t, held, m, Takes());
    TakesLock(s, t, m, end);
  }

  lemma WritesThrough(s: Machine, t: nat, m: Message) returns (end: Machine)
    requires Inv(s) && s.shared.owner == NOBODY && t in s.threads
    requires s.threads[t] == Arriving(m) || s.threads[t] == Waiting(m) || s.threads[t] == Polling(m)
    ensures Leads(s, end) && AtRest(end, t) && end.threads == s.threads[t := Idle] && end.turns == s.turns
    ensures end.shared.bag == AfterWrite(s.shared.bag, m, false, Takes())
  {
    RestIsFree(s, t);
    end := WriteRuns(s, t, m);
    LeadsKeepsInv(s, end, Going());
    hide Inv, AfterWrite;
  }

  /** Thread `t` has gone from `s` to rest, and messages at most joined the stage. */
  ghost predicate Settled(s: Machine, t: nat, end: Machine) {
    && Leads(s, end) && end.threads == s.threads[t := Idle] && end.turns == s.turns && end.shared.owner == NOBODY
    && s.shared.bag.staged <= end.shared.bag.staged
  }

  lemma ParkedSettles(s: Machine, t: nat) returns (end: Machine)
    requires Free(s.shared) && t in s.threads && t in s.turns && s.threads[t].Parking?
    ensures Settled(s, t, end)
  {
    hide FlushGo, SlowGo;
    end := Step(s, t, Go(true));
    LeadsSelf(end);
    LeadsOn(s, t, Go(true), end);
  }

  lemma AskingSettles(s: Machine, t: nat) returns (end: Machine)
    requires Free(s.shared) && t in s.threads && t in s.turns && s.threads[t].Asking? && !s.shared.bag.open
    ensures Settled(s, t, end)
  {
    end := SoloOperation(s, t, s.threads[t].op, Takes());
  }

  lemma WritingSettles(s: Machine, t: nat, m: Message) returns (end: Machine)
    requires Free(s.shared) && t in s.threads && t in s.turns && !s.shared.bag.open
    requires s.threads[t] == Arriving(m) || s.threads[t] == Waiting(m) || s.threads[t] == Polling(m)
    ensures Settled(s, t, end)
  {
    end := WriteRuns(s, t, m);
  }

  /** Whatever a thread is at when the lock is free, it can finish: at most it leaves a message on the stage or,
    * when it was opening a bag, opens it. */
  lemma Settles(s: Machine, t: nat, sizes: nat -> bool) returns (end: Machine)
    requires Inv(s) && Over(s) && t in s.threads
    ensures LeadsBy(s, end, Sized(sizes)) && AtRest(end, t) && end.threads == s.threads[t := Idle] && end.turns == s.turns
    ensures s.shared.bag.staged <= end.shared.bag.staged
  {
    RestIsFree(s, t);
    assert !HoldsLock(s.threads[t]) by { assert Local(s.shared, t, s.threads[t], s.turns[t]); }
    var pc := s.threads[t];
    if pc.Idle? {
      end := s;
      LeadsSelf(s);
      assert s.threads == s.threads[t := Idle];
    } else if pc.Parking? {
      end := ParkedSettles(s, t);
    } else if pc.Asking? {
      end := AskingSettles(s, t);
    } else {
      end := WritingSettles(s, t, pc.m);
    }
    LeadsKeepsInv(s, end, Going());
    GoesAsSized(s, end, sizes);
    hide Inv, LeadsBy;
  }

  // ---- the stage reaches the writer --------------------------------------------------------------------

  lemma {:induction false} AllHanded(b: BagState, batch: seq<Message>)
    ensures Handed(WriteAll(b, batch, Takes()).calls) == Handed(b.calls) + batch
    decreases |batch|
  {
    if batch == [] {
      assert Handed(b.calls) + batch == Handed(b.calls);
    } else {
      CalledFacts(b.calls, Wrote(batch[0], true));
      AllHanded(AfterWriteLocked(b, batch[0], true), batch[1..]);
      assert Handed(b.calls) + [batch[0]] + batch[1..] == Handed(b.calls) + batch;
    }
  }

  /** On an open bag a write() hands over what is staged and its own message. */
  lemma WriteHandsOver(b: BagState, m: Message)
    requires b.open && b.stagedCount == |b.staged|
    ensures Handed(AfterWrite(b, m, false, Takes()).calls) == Handed(b.calls) + b.staged + [m]
  {
    var ready := if b.stagedCount > 0 then AfterFlush(b, Takes()) else b;
    if b.stagedCount > 0 {
      AllHanded(Unstaged(b), b.staged);
    } else {
      assert Handed(b.calls) + b.staged == Handed(b.calls);
    }
    CalledFacts(ready.calls, Wrote(m, true));
  }

  /** An idle thread writes something: all that is staged goes first. */
  lemma FlushesStage(s: Machine, t: nat, m: Message, sizes: nat -> bool) returns (end: Machine)
    requires AtRest(s, t) && s.shared.bag.open && m in s.shared.bag.staged
    ensures LeadsBy(s, end, Sized(sizes)) && m in Handed(end.shared.bag.calls)
  {
    RestIsFree(s, t);
    var start := StartWrite("", 0, 0, 0);
    var own := Message(t, s.turns[t], "", 0, 0, 0);
    var arriving := Step(s, t, start);
    StepKeepsInv(s, t, start);
    end := WritesThrough(arriving, t, own);
    GoesAsSized(arriving, end, sizes);
    LeadsByStep(s, t, start, end, Sized(sizes));
    WriteHandsOver(s.shared.bag, own);
  }

  /** With thread `t` at rest a bag of an allowed size can be opened, unless one is open. */
  lemma OpensBag(s: Machine, t: nat, n: nat, sizes: nat -> bool) returns (end: Machine)
    requires AtRest(s, t) && sizes(n)
    ensures LeadsBy(s, end, Sized(sizes)) && AtRest(end, t) && end.threads == s.threads && end.turns == s.turns
    ensures end.shared.bag.open && end.shared.bag.staged == s.shared.bag.staged
    ensures !s.shared.bag.open ==> end.shared.bag.maxStagedBytes == Cap(n)
  {
    end := RunsOperation(s, t, OpenBag(n, true), sizes);
  }

  /** A bag can be closed and another opened, with nothing on the stage. */
  lemma RenewsBag(s: Machine, t: nat, n: nat, sizes: nat -> bool) returns (end: Machine)
    requires AtRest(s, t) && sizes(n) && s.shared.bag.open
    ensures LeadsBy(s, end, Sized(sizes)) && AtRest(end, t) && end.threads == s.threads && end.turns == s.turns
    ensures end.shared.bag.open && end.shared.bag.staged == [] && end.shared.bag.stagedBytes == 0
    ensures end.shared.bag.maxStagedBytes == Cap(n)
  {
    var closed := RunsOperation(s, t, CloseBag, sizes);
    ClosedIsEmpty(s.shared.bag);
    end := OpensBag(closed, t, n, sizes);
    LeadsByThen(s, closed, end, Sized(sizes), Sized(sizes));
    RestIsFree(end, t);
  }

  lemma ClosedIsEmpty(b: BagState)
    requires b.open
    ensures !AfterClose(b, Takes()).open && AfterClose(b, Takes()).staged == []
  {
    FlushEmpties(Called(AfterFlush(b, Takes()).(open := false), Closed), Takes());
  }

  // ---- which messages those are ------------------------------------------------------------------------

  lemma {:induction false} NotLiveWithoutOpen(calls: seq<Call>, start: nat, k: nat)
    requires start <= k <= |calls| && !PhaseOf(calls[..start]).Live?
    requires forall j | start <= j < k :: !calls[j].Opened?
    ensures !PhaseOf(calls[..k]).Live?
    decreases k
  {
    if k == start {
    } else {
      NotLiveWithoutOpen(calls, start, k - 1);
      assert calls[..k][..k - 1] == calls[..k - 1];
    }
  }

  lemma {:induction false} BrokenStays(calls: seq<Call>, k: nat, n: nat)
    requires k <= n <= |calls| && PhaseOf(calls[..k]).Broken?
    ensures PhaseOf(calls[..n]).Broken?
    decreases n
  {
    if k == n {
    } else {
      BrokenStays(calls, k, n - 1);
      assert calls[..n][..n - 1] == calls[..n - 1];
    }
  }

  /** What is written after the writer was closed is written into a bag opened since. */
  lemma OpenedBefore(calls: seq<Call>, start: nat, i: nat)
    requires start <= i < |calls| && calls[i].Wrote? && !PhaseOf(calls[..start]).Live? && !PhaseOf(calls).Broken?
    ensures exists j :: start <= j < i && calls[j].Opened?
  {
    assert calls[..|calls|] == calls && calls[..i + 1][..i] == calls[..i];
    if forall j | start <= j < i :: !calls[j].Opened? {
      NotLiveWithoutOpen(calls, start, i);
      BrokenStays(calls, i + 1, |calls|);
    }
  }

  lemma {:induction false} HandedIsWritten(calls: seq<Call>, m: Message)
    ensures m in Handed(calls) <==> exists i :: 0 <= i < |calls| && calls[i].Wrote? && calls[i].message == m
  {
    if calls == [] {
    } else {
      var n := |calls| - 1;
      HandedIsWritten(calls[..n], m);
      if exists i :: 0 <= i < n && calls[..n][i].Wrote? && calls[..n][i].message == m {
        var i :| 0 <= i < n && calls[..n][i].Wrote? && calls[..n][i].message == m;
        assert calls[i].Wrote? && calls[i].message == m;
      }
      if exists i :: 0 <= i < |calls| && calls[i].Wrote? && calls[i].message == m {
        var i :| 0 <= i < |calls| && calls[i].Wrote? && calls[i].message == m;
        assert i < n ==> calls[..n][i] == calls[i];
      }
    }
  }

  lemma StagedNotHanded(s: Shared, m: Message)
    requires OrderGlobal(s) && m in s.bag.staged
    ensures m !in Handed(s.bag.calls)
  {
    var handed, staged := Handed(s.bag.calls), s.bag.staged;
    forall i | 0 <= i < |handed| ensures handed[i] != m {
      var j :| 0 <= j < |staged| && staged[j] == m;
      assert Line(s)[i] == handed[i] && Line(s)[|handed| + |s.batch| + j] == m;
    }
  }

  lemma HeldNotHanded(s: Shared, t: nat, pc: Pc, turn: nat, m: Message)
    requires OrderGlobal(s) && OrderLocal(s, t, pc, turn) && m in InHand(pc)
    ensures m !in Handed(s.bag.calls)
  {
    assert forall x | x in Handed(s.bag.calls) :: x in Line(s);
  }

  /** A message on the stage, or still in its thread's hand, has not been handed over yet. */
  lemma NotHandedYet(s: Machine, m: Message)
    requires Inv(s) && m.producer in s.threads
    requires m in s.shared.bag.staged || m in InHand(s.threads[m.producer])
    ensures m !in Handed(s.shared.bag.calls)
  {
    var t := m.producer;
    assert OrderGlobal(s.shared) && OrderLocal(s.shared, t, s.threads[t], s.turns[t]) by {
      assert Local(s.shared, t, s.threads[t], s.turns[t]);
    }
    if m in s.shared.bag.staged { StagedNotHanded(s.shared, m); }
    else { HeldNotHanded(s.shared, t, s.threads[t], s.turns[t], m); }
    hide *;
  }

  lemma WrittenSince(before: seq<Call>, calls: seq<Call>, m: Message)
    requires before <= calls && !PhaseOf(before).Live? && !PhaseOf(calls).Broken?
    requires m !in Handed(before) && m in Handed(calls)
    ensures WrittenLater(calls, |before|, m)
  {
    HandedIsWritten(before, m);
    HandedIsWritten(calls, m);
    forall k | 0 <= k < |before| ensures calls[k] == before[k] {}
    var i :| 0 <= i < |calls| && calls[i].Wrote? && calls[i].message == m;
    assert calls[..|before|] == before;
    OpenedBefore(calls, |before|, i);
  }

  /** From a stop on: handed over at last, so written into a bag opened later. */
  lemma HandedIsLater(s: Machine, end: Machine, m: Message, sizes: nat -> bool)
    requires Inv(s) && Over(s) && LeadsBy(s, end, Sized(sizes))
    requires m !in Handed(s.shared.bag.calls) && m in Handed(end.shared.bag.calls)
    ensures CanReachNextBag(s, m, sizes)
  {
    var before, calls := s.shared.bag.calls, end.shared.bag.calls;
    assert !PhaseOf(before).Live? && !PhaseOf(calls).Broken? by { LeadsKeepsInv(s, end, Sized(sizes)); }
    LeadsGrows(s, end, sizes);
    WrittenSince(before, calls, m);
    hide PhaseOf, Inv, LeadsBy, WrittenLater;
  }

  lemma LeadsGrows(s: Machine, end: Machine, sizes: nat -> bool)
    requires LeadsBy(s, end, Sized(sizes))
    ensures s.shared.bag.calls <= end.shared.bag.calls
  {
    var steps: Schedule :| Runs(s, steps) && Run(s, steps) == end && AllMay(steps, Sized(sizes));
    RunCallsGrow(s, steps);
  }

  // ---- each way to arrive ------------------------------------------------------------------------------

  /** With thread `u` at rest, some bag of an allowed size is open a little later. */
  lemma BagIsOpened(s: Machine, u: nat, n: nat, sizes: nat -> bool) returns (end: Machine)
    requires Inv(s) && Over(s) && u in s.threads && sizes(n)
    ensures LeadsBy(s, end, Sized(sizes)) && AtRest(end, u) && end.shared.bag.open
    ensures end.threads == s.threads[u := Idle] && end.turns == s.turns && s.shared.bag.staged <= end.shared.bag.staged
  {
    var rest := Settles(s, u, sizes);
    end := OpensBag(rest, u, n, sizes);
    LeadsByThen(s, rest, end, Sized(sizes), Sized(sizes));
  }

  lemma StagedArrives(s: Machine, m: Message, n: nat, sizes: nat -> bool)
    requires Inv(s) && Over(s) && m.producer in s.threads && m in s.shared.bag.staged && sizes(n)
    ensures CanReachNextBag(s, m, sizes)
  {
    var t := m.producer;
    NotHandedYet(s, m);
    var openBag := BagIsOpened(s, t, n, sizes);
    assert m in openBag.shared.bag.staged;
    var end := FlushesStage(openBag, t, m, sizes);
    LeadsByThen(s, openBag, end, Sized(sizes), Sized(sizes));
    HandedIsLater(s, end, m, sizes);
    hide *;
  }

  /** Still in its thread's hand, and handed over at last. */
  lemma ArrivesLater(s: Machine, end: Machine, m: Message, sizes: nat -> bool)
    requires Inv(s) && Over(s) && m.producer in s.threads && m in InHand(s.threads[m.producer])
    requires LeadsBy(s, end, Sized(sizes)) && m in Handed(end.shared.bag.calls)
    ensures CanReachNextBag(s, m, sizes)
  {
    NotHandedYet(s, m);
    HandedIsLater(s, end, m, sizes);
    hide *;
  }

  /** A waiting write() takes the lock on an open bag: its message is handed over. */
  lemma WritesInto(s: Machine, t: nat, m: Message, sizes: nat -> bool) returns (end: Machine)
    requires Inv(s) && s.shared.owner == NOBODY && s.shared.bag.open && t in s.threads
    requires s.threads[t] == Arriving(m) || s.threads[t] == Waiting(m) || s.threads[t] == Polling(m)
    ensures LeadsBy(s, end, Sized(sizes)) && m in Handed(end.shared.bag.calls)
  {
    RestIsFree(s, t);
    end := WritesThrough(s, t, m);
    GoesAsSized(s, end, sizes);
    WriteHandsOver(s.shared.bag, m);
    hide AfterWrite, LeadsBy;
  }

  lemma OpensAndWrites(s: Machine, m: Message, u: nat, n: nat, sizes: nat -> bool) returns (end: Machine)
    requires Inv(s) && Over(s) && m.producer in s.threads && u in s.threads && u != m.producer && sizes(n)
    requires var pc := s.threads[m.producer]; pc == Arriving(m) || pc == Waiting(m) || pc == Polling(m)
    ensures LeadsBy(s, end, Sized(sizes)) && m in Handed(end.shared.bag.calls)
  {
    var openBag := BagIsOpened(s, u, n, sizes);
    end := WritesInto(openBag, m.producer, m, sizes);
    LeadsByThen(s, openBag, end, Sized(sizes), Sized(sizes));
    hide *;
  }

  lemma WaitingArrives(s: Machine, m: Message, u: nat, n: nat, sizes: nat -> bool)
    requires Inv(s) && Over(s) && m.producer in s.threads && u in s.threads && u != m.producer && sizes(n)
    requires var pc := s.threads[m.producer]; pc == Arriving(m) || pc == Waiting(m) || pc == Polling(m)
    ensures CanReachNextBag(s, m, sizes)
  {
    var end := OpensAndWrites(s, m, u, n, sizes);
    ArrivesLater(s, end, m, sizes);
    hide *;
  }

  lemma ParkStages(s: Shared, t: nat, m: Message)
    requires Fits(s.bag, m)
    ensures var move := Go1(s, t, Parking(m), true);
            move.pc == Idle && move.shared.owner == s.owner && move.shared.bag.open == s.bag.open && m in move.shared.bag.staged
  {
  }

  /** A parked thread stages its message if it fits. */
  lemma Parks(s: Machine, t: nat, m: Message, sizes: nat -> bool) returns (end: Machine)
    requires Inv(s) && t in s.threads && s.threads[t] == Parking(m) && Fits(s.shared.bag, m)
    ensures LeadsBy(s, end, Sized(sizes)) && Inv(end) && end.threads == s.threads[t := Idle]
    ensures end.shared.owner == s.shared.owner && end.shared.bag.open == s.shared.bag.open && m in end.shared.bag.staged
  {
    end := Step(s, t, Go(true));
    ParkStages(s.shared, t, m);
    StepKeepsInv(s, t, Go(true));
    hide Inv, Go1;
    LeadsByNothing(end, Sized(sizes));
    LeadsByStep(s, t, Go(true), end, Sized(sizes));
  }

  /** With thread `u` at rest, a bag of an allowed size is open a little later, with nothing on the stage. */
  lemma BagIsRenewed(s: Machine, u: nat, n: nat, sizes: nat -> bool) returns (end: Machine)
    requires Inv(s) && Over(s) && u in s.threads && sizes(n)
    ensures LeadsBy(s, end, Sized(sizes)) && AtRest(end, u) && end.shared.bag.open
    ensures end.threads == s.threads[u := Idle] && end.turns == s.turns
    ensures end.shared.bag.staged == [] && end.shared.bag.stagedBytes == 0 && end.shared.bag.maxStagedBytes == Cap(n)
  {
    var openBag := BagIsOpened(s, u, n, sizes);
    end := RenewsBag(openBag, u, n, sizes);
    LeadsByThen(s, openBag, end, Sized(sizes), Sized(sizes));
    hide *;
  }

  lemma ParksAndFlushes(s: Machine, m: Message, u: nat, sizes: nat -> bool) returns (end: Machine)
    requires AtRest(s, u) && s.shared.bag.open && u != m.producer && m.producer in s.threads
    requires s.threads[m.producer] == Parking(m) && Fits(s.shared.bag, m)
    ensures LeadsBy(s, end, Sized(sizes)) && m in Handed(end.shared.bag.calls)
  {
    var staged := Parks(s, m.producer, m, sizes);
    end := FlushesStage(staged, u, m, sizes);
    LeadsByThen(s, staged, end, Sized(sizes), Sized(sizes));
    hide *;
  }

  lemma RenewsAndStages(s: Machine, m: Message, u: nat, n: nat, sizes: nat -> bool) returns (end: Machine)
    requires Inv(s) && Over(s) && m.producer in s.threads && u in s.threads && u != m.producer
    requires s.threads[m.producer] == Parking(m) && sizes(n) && m.bytes <= Cap(n)
    ensures LeadsBy(s, end, Sized(sizes)) && m in Handed(end.shared.bag.calls)
  {
    var renewed := BagIsRenewed(s, u, n, sizes);
    end := ParksAndFlushes(renewed, m, u, sizes);
    LeadsByThen(s, renewed, end, Sized(sizes), Sized(sizes));
    hide *;
  }

  lemma ParkedArrives(s: Machine, m: Message, u: nat, n: nat, sizes: nat -> bool)
    requires Inv(s) && Over(s) && m.producer in s.threads && u in s.threads && u != m.producer
    requires s.threads[m.producer] == Parking(m) && sizes(n) && m.bytes <= Cap(n)
    ensures CanReachNextBag(s, m, sizes)
  {
    var end := RenewsAndStages(s, m, u, n, sizes);
    ArrivesLater(s, end, m, sizes);
    hide *;
  }

  lemma ComingArrives(s: Machine, m: Message, n: nat, sizes: nat -> bool)
    requires Inv(s) && Over(s) && m.producer in s.turns && m.turn < s.turns[m.producer] && sizes(n)
    requires StillComing(s, m, sizes)
    ensures CanReachNextBag(s, m, sizes)
  {
    if m in s.shared.bag.staged {
      StagedArrives(s, m, n, sizes);
    } else {
      WhereItIs(s, m);
      var u: nat :| u in s.threads && u != m.producer;
      if s.threads[m.producer].Parking? {
        var room: nat :| sizes(room) && m.bytes <= Cap(room);
        ParkedArrives(s, m, u, room, sizes);
      } else {
        WaitingArrives(s, m, u, n, sizes);
      }
    }
  }

  /** When a stop is over, a message that some thread had passed to write() can still be written into a bag
    * opened later exactly when it is on the stage, or its write() has not finished while another thread can open
    * a bag, and has room there if its thread has already read the busy flag. */
  lemma LateExactly(s: Machine, m: Message, sizes: nat -> bool)
    requires ReachableWith(s, sizes) && Over(s) && exists n: nat :: sizes(n)
    requires m.producer in s.turns && m.producer in s.threads && m.turn < s.turns[m.producer]
    ensures CanReachNextBag(s, m, sizes) <==> StillComing(s, m, sizes)
  {
    ReachableWithFacts(s, sizes);
    var n: nat :| sizes(n);
    if StillComing(s, m, sizes) {
      ComingArrives(s, m, n, sizes);
    } else if CanReachNextBag(s, m, sizes) {
      var end :| LeadsBy(s, end, Sized(sizes)) && WrittenLater(end.shared.bag.calls, |s.shared.bag.calls|, m);
      var steps: Schedule :| Runs(s, steps) && Run(s, steps) == end && AllMay(steps, Sized(sizes));
      NotComingNeverArrives(s, m, sizes, steps);
    }
  }

  /** With any cache size allowed, room is no condition. */
  lemma LateWithAnyCache(s: Machine, m: Message)
    requires ReachableWith(s, _ => true) && Over(s)
    requires m.producer in s.turns && m.producer in s.threads && m.turn < s.turns[m.producer]
    ensures CanReachNextBag(s, m, _ => true) <==>
            m in s.shared.bag.staged
            || (m in InHand(s.threads[m.producer]) && exists u: nat :: u in s.threads && u != m.producer)
  {
    var any := (n: nat) => true;
    assert any(m.bytes + 1) && m.bytes <= Cap(m.bytes + 1);
    LateExactly(s, m, any);
  }
}
