/** The bag under any interleaving of threads (packages/rosbag2_dynamic_recorder/src/bag.cpp): every
  * thread is somewhere in write() or in a slow operation, and one thread at a time takes one step. */
module Interleaving {
  import opened BagStore
  import opened Timeline

  // ---- the machine ---------------------------------------------------------------------------------

  /** The slow operations, with what the writer will answer. */
  datatype Op =
    | OpenBag(maxCacheSize: nat, ok: bool)
    | CloseBag
    | MakeChannel(topic: string, typeName: string, ok: bool)
    | LogOne(topic: string, typeName: string, event: Event, fate: Fate)
    | SplitBag(ok: bool)
    | SnapshotBag(ok: bool)

  /** What a flush returns to: write() itself, the middle of close(), or the release of the lock. */
  datatype Task = ThenWrite(m: Message) | ThenClose(early: seq<Message>) | ThenRelease

  /** Where a thread is. `early` is what was staged when close() took the lock. */
  datatype Pc =
    | Idle
    | Arriving(m: Message)    // write(): about to try the lock
    | Waiting(m: Message)     // in the polling loop, waiting for the lock
    | Polling(m: Message)     // the wait timed out: about to read busy_
    | Parking(m: Message)     // read busy_ set: about to stage
    | Holding(m: Message)     // took the lock: about to read open_ and staged_count_
    | Handing(m: Message)     // about to hand its own message to the writer
    | Asking(op: Op)          // a slow operation waiting for the lock
    | Entered(op: Op, early: seq<Message>)
    | Working(op: Op)         // busy_ set, about to do the operation
    | Swapping(task: Task)    // flush_staged_locked: about to swap the stage out
    | Draining(task: Task)    // flush_staged_locked: writing the batch
    | Ending(early: seq<Message>)     // close(): flushed, about to clear open_
    | Finishing(early: seq<Message>)  // close(): about to close the writer
    | Releasing               // ~Busy: about to clear busy_
    | Unlocking

  /** What the threads share. `completed` lists the messages that have left their write() call. */
  datatype Shared = Shared(
    bag: BagState, owner: int, busy: bool, batch: seq<Message>, completed: seq<Message>, largestStage: nat)

  /** `turns` numbers each thread's write() calls. */
  datatype Machine = Machine(shared: Shared, threads: map<nat, Pc>, turns: map<nat, nat>)

  /** No thread owns the lock. */
  const NOBODY: int := -1

  datatype Act = StartWrite(topic: string, recvNs: int, sendNs: int, bytes: nat) | StartOp(op: Op) | Go(ok: bool)

  function Init(threads: set<nat>): Machine {
    Machine(Shared(BagStore.EMPTY, NOBODY, false, [], [], 0),
            map t | t in threads :: Idle, map t | t in threads :: 0)
  }

  /** What one step does: the new shared state, and where its thread is now. */
  datatype Move = Move(shared: Shared, pc: Pc)

  /** The message leaves its write() call: handed over, staged, lost or discarded. */
  function Done(s: Shared, m: Message): Shared { s.(completed := s.completed + [m]) }

  /** write() waiting for the lock: `ok` is whether the try succeeds while the lock is free. */
  function TryLock(s: Shared, t: nat, m: Message, ok: bool, otherwise: Pc): Move {
    if s.owner == NOBODY && ok then Move(s.(owner := t), Holding(m)) else Move(s, otherwise)
  }

  function Hold(s: Shared, m: Message): Move {
    if !s.bag.open then Move(Done(s.(bag := Discard(s.bag, [m])), m), Unlocking)
    else Move(s, if s.bag.stagedCount > 0 then Swapping(ThenWrite(m)) else Handing(m))
  }

  predicate InWrite(pc: Pc) {
    pc.Arriving? || pc.Waiting? || pc.Polling? || pc.Parking? || pc.Holding? || pc.Handing?
  }

  /** One step inside write(). */
  function WriteGo(s: Shared, t: nat, pc: Pc, ok: bool): Move
    requires InWrite(pc)
  {
    match pc
    case Arriving(m) => TryLock(s, t, m, ok, Waiting(m))
    case Waiting(m) => TryLock(s, t, m, ok, Polling(m))
    case Polling(m) => Move(s, if s.busy then Parking(m) else Waiting(m))
    case Parking(m) => Move(Done(s.(bag := AfterStage(s.bag, m)), m), Idle)
    case Holding(m) => Hold(s, m)
    case Handing(m) => Move(Done(s.(bag := AfterWriteLocked(s.bag, m, ok)), m), Unlocking)
  }

  function AfterDrain(task: Task): Pc {
    match task
    case ThenWrite(m) => Handing(m)
    case ThenClose(early) => Ending(early)
    case ThenRelease => Unlocking
  }

  predicate InFlush(pc: Pc) { pc.Swapping? || pc.Draining? }

  /** One step inside flush_staged_locked. */
  function FlushGo(s: Shared, pc: Pc, ok: bool): Move
    requires InFlush(pc)
  {
    match pc
    case Swapping(task) =>
      if s.bag.open then Move(s.(bag := Unstaged(s.bag), batch := s.bag.staged), Draining(task))
      else Move(s.(bag := Discard(Unstaged(s.bag), s.bag.staged)), Draining(task))
    case Draining(task) =>
      if s.batch == [] then Move(s, AfterDrain(task))
      else Move(s.(bag := AfterWriteLocked(s.bag, s.batch[0], ok), batch := s.batch[1..]), pc)
  }

  /** A slow operation that has the lock looks at the bag and either gives up or turns the writer busy. */
  function Enter(s: Shared, op: Op, early: seq<Message>): Move {
    if op.OpenBag? then
      if s.bag.open || !op.ok then Move(s, Unlocking)
      else
        var b := AfterOpen(s.bag, op.maxCacheSize);
        Move(s.(bag := b, largestStage := if b.maxStagedBytes > s.largestStage then b.maxStagedBytes else s.largestStage), Unlocking)
    else if !s.bag.open || (op.MakeChannel? && op.topic in s.bag.channels) then Move(s, Unlocking)
    else Move(s.(busy := true), if op.CloseBag? then Swapping(ThenClose(early)) else Working(op))
  }

  function Work(b: BagState, op: Op): BagState {
    match op
    case MakeChannel(topic, typeName, ok) => CreateChannel(b, topic, typeName, ok)
    case LogOne(topic, typeName, e, fate) => LogEvent(b, topic, typeName, e, fate)
    case SplitBag(ok) => Called(b, SplitFile(ok))
    case SnapshotBag(ok) => Called(b, TookSnapshot(ok))
    case OpenBag(_, _) => b
    case CloseBag => b
  }

  predicate InSlow(pc: Pc) { !pc.Idle? && !InWrite(pc) && !InFlush(pc) }

  /** One step of a slow operation outside its flush, or of giving the lock back. */
  function SlowGo(s: Shared, t: nat, pc: Pc): Move
    requires InSlow(pc)
  {
    match pc
    case Asking(op) => Move(s.(owner := t), Entered(op, s.bag.staged))
    case Entered(op, early) => Enter(s, op, early)
    case Working(op) => Move(s.(bag := Work(s.bag, op)), Releasing)
    case Ending(early) => Move(s.(bag := s.bag.(open := false)), Finishing(early))
    case Finishing(early) => Move(s.(bag := Called(s.bag, Closed)), Releasing)
    case Releasing => Move(s.(busy := false), Swapping(ThenRelease))
    case Unlocking => Move(s.(owner := NOBODY), Idle)
  }

  function Go1(s: Shared, t: nat, pc: Pc, ok: bool): Move
    requires !pc.Idle?
  {
    if InWrite(pc) then WriteGo(s, t, pc, ok)
    else if InFlush(pc) then FlushGo(s, pc, ok)
    else SlowGo(s, t, pc)
  }

  /** A slow operation blocks on the lock; every other step can always be taken. */
  predicate Enabled(s: Machine, t: nat, a: Act) {
    && t in s.threads && t in s.turns
    && (a.Go? <==> !s.threads[t].Idle?)
    && (a.Go? && s.threads[t].Asking? ==> s.shared.owner == NOBODY)
  }

  function Step(s: Machine, t: nat, a: Act): Machine
    requires Enabled(s, t, a)
  {
    match a
    case StartWrite(topic, recvNs, sendNs, bytes) =>
      var m := Message(t, s.turns[t], topic, recvNs, sendNs, bytes);
      Machine(s.shared, s.threads[t := Arriving(m)], s.turns[t := s.turns[t] + 1])
    case StartOp(op) => s.(threads := s.threads[t := Asking(op)])
    case Go(ok) =>
      var move := Go1(s.shared, t, s.threads[t], ok);
      Machine(move.shared, s.threads[t := move.pc], s.turns)
  }

  type Schedule = seq<(nat, Act)>

  ghost predicate Runs(s: Machine, steps: Schedule)
    decreases |steps|
  {
    steps == [] || (Enabled(s, steps[0].0, steps[0].1) && Runs(Step(s, steps[0].0, steps[0].1), steps[1..]))
  }

  ghost function Run(s: Machine, steps: Schedule): Machine
    requires Runs(s, steps)
    decreases |steps|
  {
    if steps == [] then s else Run(Step(s, steps[0].0, steps[0].1), steps[1..])
  }

  ghost predicate Reachable(s: Machine) {
    exists threads: set<nat>, steps: Schedule :: Runs(Init(threads), steps) && Run(Init(threads), steps) == s
  }

  // ---- what some run can do -----------------------------------------------------------------------------

  /** Some run from `s` to `s'` takes only acts `may` allows. */
  ghost predicate LeadsBy(s: Machine, s': Machine, may: Act -> bool) {
    exists steps: Schedule :: Runs(s, steps) && Run(s, steps) == s' && AllMay(steps, may)
  }

  ghost predicate AllMay(steps: Schedule, may: Act -> bool) {
    forall i | 0 <= i < |steps| :: may(steps[i].1)
  }

  lemma LeadsByNothing(s: Machine, may: Act -> bool)
    ensures LeadsBy(s, s, may)
  {
    var none: Schedule := [];
    assert Runs(s, none) && Run(s, none) == s && AllMay(none, may);
  }

  lemma LeadsByStep(s: Machine, t: nat, a: Act, end: Machine, may: Act -> bool)
    requires Enabled(s, t, a) && may(a) && LeadsBy(Step(s, t, a), end, may)
    ensures LeadsBy(s, end, may)
  {
    var steps: Schedule :| Runs(Step(s, t, a), steps) && Run(Step(s, t, a), steps) == end && AllMay(steps, may);
    var all: Schedule := [(t, a)] + steps;
    assert all[1..] == steps && all[0] == (t, a);
    assert Runs(s, all) && Run(s, all) == end && AllMay(all, may);
  }

  lemma {:induction false} LeadsByThen(s: Machine, mid: Machine, end: Machine, may: Act -> bool, also: Act -> bool)
    requires LeadsBy(s, mid, may) && LeadsBy(mid, end, also) && forall a :: may(a) ==> also(a)
    ensures LeadsBy(s, end, also)
  {
    var steps: Schedule :| Runs(s, steps) && Run(s, steps) == mid && AllMay(steps, may);
    StepsThen(s, steps, end, may, also);
  }

  lemma {:induction false} StepsThen(s: Machine, steps: Schedule, end: Machine, may: Act -> bool, also: Act -> bool)
    requires Runs(s, steps) && AllMay(steps, may) && LeadsBy(Run(s, steps), end, also) && forall a :: may(a) ==> also(a)
    ensures LeadsBy(s, end, also)
    decreases |steps|
  {
    if steps == [] {
    } else {
      var (t, a) := steps[0];
      assert may(steps[0].1);
      StepsThen(Step(s, t, a), steps[1..], end, may, also);
      LeadsByStep(s, t, a, end, also);
    }
  }

  // ---- the lock --------------------------------------------------------------------------------------

  predicate HoldsLock(pc: Pc) {
    pc.Holding? || pc.Handing? || pc.Entered? || pc.Working? || pc.Swapping? || pc.Draining?
    || pc.Ending? || pc.Finishing? || pc.Releasing? || pc.Unlocking?
  }

  /** Inside a Busy: from setting the flag to clearing it. */
  predicate InBusy(pc: Pc) {
    pc.Working? || pc.Ending? || pc.Finishing? || pc.Releasing?
    || (pc.Swapping? && pc.task.ThenClose?) || (pc.Draining? && pc.task.ThenClose?)
  }

  /** The thread may only be here while the bag is open. */
  predicate NeedsOpen(pc: Pc) {
    pc.Handing? || pc.Working? || pc.Ending? || (pc.Swapping? && !pc.task.ThenRelease?)
    || (pc.Draining? && !pc.task.ThenRelease?)
  }

  /** The lock, the busy flag, the open flag and what the writer has seen agree. */
  predicate LockGlobal(s: Shared) {
    && s.owner >= NOBODY
    && (s.owner == NOBODY ==> !s.busy && s.batch == [] && (s.bag.open <==> PhaseOf(s.bag.calls).Live?))
    && !PhaseOf(s.bag.calls).Broken?
  }

  predicate LockLocal(s: Shared, t: nat, pc: Pc) {
    && (HoldsLock(pc) <==> s.owner == t)
    && (s.owner == t ==>
          && (s.busy <==> InBusy(pc))
          && (s.batch != [] ==> pc.Draining? && s.bag.open)
          && (PhaseOf(s.bag.calls).Live? <==> s.bag.open || pc.Finishing?)
          && (NeedsOpen(pc) ==> s.bag.open)
          && (pc.Finishing? ==> !s.bag.open))
  }

  /** What a step may do to the lock, as far as the other threads can tell. */
  predicate LockPasses(s: Shared, after: Shared, t: nat) {
    || (after.owner == s.owner &&
          (s.owner != t ==> after.busy == s.busy && after.batch == s.batch && SameWriter(s.bag, after.bag)))
    || (s.owner == NOBODY && after.owner == t)
    || (s.owner == t && after.owner == NOBODY)
  }

  predicate SameWriter(b: BagState, c: BagState) {
    c.open == b.open && c.calls == b.calls && c.channels == b.channels && c.maxStagedBytes == b.maxStagedBytes
  }

  lemma PhaseCalled(b: BagState, c: Call)
    ensures PhaseOf(Called(b, c).calls) == PhaseStep(PhaseOf(b.calls), c)
  {
    CalledFacts(b.calls, c);
  }

  lemma LiveCalled(calls: seq<Call>, c: Call)
    requires PhaseOf(calls).Live? && !c.Opened? && !c.Closed?
    ensures PhaseOf(calls + [c]).Live?
  {
    assert (calls + [c])[..|calls|] == calls;
  }

  lemma LogPhase(b: BagState, topic: string, typeName: string, e: Event, fate: Fate)
    requires PhaseOf(b.calls).Live?
    ensures PhaseOf(LogEvent(b, topic, typeName, e, fate).calls).Live? && LogEvent(b, topic, typeName, e, fate).open == b.open
  {
    var made := b.calls + [Created(topic, typeName, !fate.ChannelFailed?)];
    LiveCalled(b.calls, Created(topic, typeName, !fate.ChannelFailed?));
    LiveCalled(if topic in b.channels then b.calls else made, WroteEvent(e, fate.Stored?));
  }

  lemma WorkPhase(b: BagState, op: Op)
    requires PhaseOf(b.calls).Live?
    ensures PhaseOf(Work(b, op).calls).Live? && Work(b, op).open == b.open
  {
    if op.MakeChannel? { LiveCalled(b.calls, Created(op.topic, op.typeName, op.ok)); }
    else if op.LogOne? { LogPhase(b, op.topic, op.typeName, op.event, op.fate); }
    else if op.SplitBag? { LiveCalled(b.calls, SplitFile(op.ok)); }
    else if op.SnapshotBag? { LiveCalled(b.calls, TookSnapshot(op.ok)); }
  }

  /** What a step of `t` establishes about the lock. */
  predicate LockKept(s: Shared, t: nat, move: Move) {
    LockGlobal(move.shared) && LockLocal(move.shared, t, move.pc) && LockPasses(s, move.shared, t)
  }

  lemma LockWrite(s: Shared, t: nat, pc: Pc, ok: bool)
    requires InWrite(pc) && LockGlobal(s) && LockLocal(s, t, pc)
    ensures LockKept(s, t, WriteGo(s, t, pc, ok))
  {
    if pc.Handing? { PhaseCalled(s.bag, Wrote(pc.m, ok)); }
  }

  lemma LockFlush(s: Shared, t: nat, pc: Pc, ok: bool)
    requires InFlush(pc) && LockGlobal(s) && LockLocal(s, t, pc)
    ensures LockKept(s, t, FlushGo(s, pc, ok))
  {
    if s.batch != [] { PhaseCalled(s.bag, Wrote(s.batch[0], ok)); }
  }

  lemma OpenedPhase(calls: seq<Call>)
    requires PhaseOf(calls).Shut?
    ensures PhaseOf(calls + [Opened]).Live?
  {
    assert (calls + [Opened])[..|calls|] == calls;
  }

  lemma LockOpen(s: Shared, t: nat, op: Op, early: seq<Message>)
    requires LockGlobal(s) && LockLocal(s, t, Entered(op, early)) && op.OpenBag?
    ensures LockKept(s, t, Enter(s, op, early))
  {
    if !s.bag.open { OpenedPhase(s.bag.calls); }
    hide PhaseOf;
  }

  lemma LockEnter(s: Shared, t: nat, op: Op, early: seq<Message>)
    requires LockGlobal(s) && LockLocal(s, t, Entered(op, early))
    ensures LockKept(s, t, Enter(s, op, early))
  {
    hide PhaseOf;
    if op.OpenBag? { LockOpen(s, t, op, early); }
  }

  lemma LockWork(s: Shared, t: nat, op: Op)
    requires LockGlobal(s) && LockLocal(s, t, Working(op))
    ensures LockKept(s, t, Move(s.(bag := Work(s.bag, op)), Releasing))
  {
    WorkPhase(s.bag, op);
  }

  lemma LockSlow(s: Shared, t: nat, pc: Pc)
    requires InSlow(pc) && LockGlobal(s) && LockLocal(s, t, pc)
    requires pc.Asking? ==> s.owner == NOBODY
    ensures LockKept(s, t, SlowGo(s, t, pc))
  {
    if pc.Entered? { LockEnter(s, t, pc.op, pc.early); }
    else if pc.Finishing? { PhaseCalled(s.bag, Closed); }
    else if pc.Working? { LockWork(s, t, pc.op); }
  }

  // ---- the stage's books ------------------------------------------------------------------------------

  function Bytes(ms: seq<Message>): nat {
    if ms == [] then 0 else Bytes(ms[..|ms| - 1]) + ms[|ms| - 1].bytes
  }

  /** The cached size and count are those of the queue, and the size stays within the largest stage
    * any bag opened so far was given. */
  predicate StageInv(s: Shared) {
    && s.bag.stagedBytes == Bytes(s.bag.staged) && s.bag.stagedCount == |s.bag.staged|
    && s.bag.stagedBytes <= s.largestStage && s.bag.maxStagedBytes <= s.largestStage
  }

  /** Neither the stage nor the messages differ. */
  predicate SameMessages(b: BagState, c: BagState) {
    && c.staged == b.staged && c.stagedBytes == b.stagedBytes && c.stagedCount == b.stagedCount
    && c.maxStagedBytes == b.maxStagedBytes && c.lost == b.lost && c.discarded == b.discarded
    && Handed(c.calls) == Handed(b.calls)
  }

  lemma CalledFrame(b: BagState, c: Call)
    requires !c.Wrote?
    ensures SameMessages(b, Called(b, c))
  {
    CalledFacts(b.calls, c);
  }

  lemma LogFrame(b: BagState, topic: string, typeName: string, e: Event, fate: Fate)
    ensures SameMessages(b, LogEvent(b, topic, typeName, e, fate))
  {
    var ready := if topic in b.channels then b else CreateChannel(b, topic, typeName, !fate.ChannelFailed?);
    CalledFrame(b, Created(topic, typeName, !fate.ChannelFailed?));
    CalledFrame(ready, WroteEvent(e, fate.Stored?));
  }

  /** A slow operation's own work touches neither the stage nor the messages. */
  lemma WorkFrame(b: BagState, op: Op)
    ensures SameMessages(b, Work(b, op))
  {
    match op
    case MakeChannel(topic, typeName, ok) => CalledFrame(b, Created(topic, typeName, ok));
    case LogOne(topic, typeName, e, fate) => LogFrame(b, topic, typeName, e, fate);
    case SplitBag(ok) => CalledFrame(b, SplitFile(ok));
    case SnapshotBag(ok) => CalledFrame(b, TookSnapshot(ok));
    case _ =>
  }

  lemma StageMove(s: Shared, t: nat, pc: Pc, ok: bool)
    requires !pc.Idle? && StageInv(s)
    ensures StageInv(Go1(s, t, pc, ok).shared)
  {
    match pc
    case Parking(m) => assert (s.bag.staged + [m])[..|s.bag.staged|] == s.bag.staged;
    case Working(op) => WorkFrame(s.bag, op);
    case _ =>
  }

  // ---- order and conservation ---------------------------------------------------------------------------

  /** Each producer's messages appear in the order it called write(). */
  ghost predicate InTurn(ms: seq<Message>) {
    forall i, j | 0 <= i < j < |ms| && ms[i].producer == ms[j].producer :: ms[i].turn < ms[j].turn
  }

  /** Handed to the writer, then being flushed, then staged: the order messages reach the file in. */
  function Line(s: Shared): seq<Message> {
    Handed(s.bag.calls) + s.batch + s.bag.staged
  }

  ghost predicate OrderGlobal(s: Shared) {
    InTurn(Line(s)) && InTurn(s.completed) && forall x | x in Line(s) :: x in s.completed
  }

  function InHand(pc: Pc): seq<Message> {
    match pc
    case Arriving(m) => [m]
    case Waiting(m) => [m]
    case Polling(m) => [m]
    case Parking(m) => [m]
    case Holding(m) => [m]
    case Handing(m) => [m]
    case Swapping(task) => if task.ThenWrite? then [task.m] else []
    case Draining(task) => if task.ThenWrite? then [task.m] else []
    case _ => []
  }

  ghost predicate OrderLocal(s: Shared, t: nat, pc: Pc, turn: nat) {
    && (forall x | x in s.completed && x.producer == t :: x.turn < turn)
    && (forall m | m in InHand(pc) ::
          m.producer == t && m.turn < turn && forall x | x in s.completed && x.producer == t :: x.turn < m.turn)
    && (pc.Handing? || (pc.Draining? && pc.task.ThenWrite?) ==> forall x | x in s.bag.staged :: x.producer != t)
  }

  /** Another thread's messages never join the completed or the staged ones through a step of `t`. */
  ghost predicate OrderPasses(s: Shared, after: Shared, t: nat) {
    && (forall x | x in after.completed && x !in s.completed :: x.producer == t)
    && (forall x | x in after.bag.staged && x !in s.bag.staged :: x.producer == t)
  }

  ghost predicate OrderKept(s: Shared, t: nat, turn: nat, move: Move) {
    OrderGlobal(move.shared) && OrderLocal(move.shared, t, move.pc, turn) && OrderPasses(s, move.shared, t)
  }

  lemma AppendInTurn(ms: seq<Message>, m: Message)
    requires InTurn(ms) && forall x | x in ms && x.producer == m.producer :: x.turn < m.turn
    ensures InTurn(ms + [m])
  {
  }

  /** A message may be put between two parts of a line when the later part has none of its producer's. */
  lemma InsertInTurn(front: seq<Message>, m: Message, back: seq<Message>)
    requires InTurn(front + back)
    requires forall x | x in front && x.producer == m.producer :: x.turn < m.turn
    requires forall x | x in back :: x.producer != m.producer
    ensures InTurn(front + [m] + back)
  {
    var all, n := front + [m] + back, |front|;
    forall k | n < k < |all| ensures all[k].producer != m.producer {
      assert all[k] == back[k - n - 1] && back[k - n - 1] in back;
    }
    forall i, j | 0 <= i < j < |all| && all[i].producer == all[j].producer ensures all[i].turn < all[j].turn {
      if j == n { assert all[i] in front; }
      else {
        var i', j' := if i < n then i else i - 1, if j < n then j else j - 1;
        assert (front + back)[i'] == all[i] && (front + back)[j'] == all[j];
      }
    }
  }

  lemma OrderPark(s: Shared, t: nat, m: Message, turn: nat)
    requires OrderGlobal(s) && OrderLocal(s, t, Parking(m), turn)
    ensures OrderKept(s, t, turn, WriteGo(s, t, Parking(m), true))
  {
    assert m in InHand(Parking(m));
    AppendInTurn(s.completed, m);
    AppendInTurn(Line(s), m);
    assert Line(s) + [m] == Handed(s.bag.calls) + s.batch + (s.bag.staged + [m]);
  }

  lemma LineHand(s: Shared, m: Message, ok: bool)
    requires OrderGlobal(s) && s.batch == []
    requires forall x | x in s.completed && x.producer == m.producer :: x.turn < m.turn
    requires forall x | x in s.bag.staged :: x.producer != m.producer
    ensures var after := Done(s.(bag := AfterWriteLocked(s.bag, m, ok)), m);
            InTurn(Line(after)) && forall x :: x in Line(after) ==> x in Line(s) || x == m
  {
    CalledFacts(s.bag.calls, Wrote(m, ok));
    assert Line(s) == Handed(s.bag.calls) + s.bag.staged;
    assert forall x | x in Handed(s.bag.calls) :: x in Line(s);
    InsertInTurn(Handed(s.bag.calls), m, s.bag.staged);
    var after := Done(s.(bag := AfterWriteLocked(s.bag, m, ok)), m);
    assert Line(after) == Handed(s.bag.calls) + [m] + s.bag.staged;
  }

  lemma OrderHand(s: Shared, t: nat, m: Message, turn: nat, ok: bool)
    requires OrderGlobal(s) && OrderLocal(s, t, Handing(m), turn) && s.batch == []
    ensures OrderKept(s, t, turn, WriteGo(s, t, Handing(m), ok))
  {
    assert m in InHand(Handing(m));
    AppendInTurn(s.completed, m);
    LineHand(s, m, ok);
    HandedOver(s, Done(s.(bag := AfterWriteLocked(s.bag, m, ok)), m), t, m, turn);
  }

  lemma HandedOver(s: Shared, after: Shared, t: nat, m: Message, turn: nat)
    requires OrderGlobal(s) && OrderLocal(s, t, Handing(m), turn) && m.producer == t && m.turn < turn
    requires after.completed == s.completed + [m] && after.bag.staged == s.bag.staged
    requires InTurn(after.completed) && InTurn(Line(after)) && forall x :: x in Line(after) ==> x in Line(s) || x == m
    ensures OrderKept(s, t, turn, Move(after, Unlocking))
  {
    hide InTurn, Line;
  }

  lemma OrderHold(s: Shared, t: nat, m: Message, turn: nat)
    requires OrderGlobal(s) && OrderLocal(s, t, Holding(m), turn) && s.bag.stagedCount == |s.bag.staged|
    ensures OrderKept(s, t, turn, WriteGo(s, t, Holding(m), true))
  {
    assert m in InHand(Holding(m));
    AppendInTurn(s.completed, m);
  }

  lemma PrefixInTurn(front: seq<Message>, back: seq<Message>)
    requires InTurn(front + back)
    ensures InTurn(front)
  {
    forall i, j | 0 <= i < j < |front| && front[i].producer == front[j].producer ensures front[i].turn < front[j].turn {
      assert (front + back)[i] == front[i] && (front + back)[j] == front[j];
    }
  }

  lemma OrderSwap(s: Shared, t: nat, task: Task, turn: nat, ok: bool)
    requires OrderGlobal(s) && OrderLocal(s, t, Swapping(task), turn) && s.batch == []
    ensures OrderKept(s, t, turn, FlushGo(s, Swapping(task), ok))
  {
    var after := FlushGo(s, Swapping(task), ok).shared;
    if s.bag.open {
      assert Line(after) == Line(s);
    } else {
      assert Line(s) == Line(after) + s.bag.staged;
      PrefixInTurn(Line(after), s.bag.staged);
    }
  }

  lemma LineDrain(s: Shared, ok: bool)
    requires s.batch != []
    ensures Line(s.(bag := AfterWriteLocked(s.bag, s.batch[0], ok), batch := s.batch[1..])) == Line(s)
  {
    var head, rest := s.batch[0], s.batch[1..];
    CalledFacts(s.bag.calls, Wrote(head, ok));
    assert s.batch == [head] + rest;
    hide Handed;
    assert Handed(s.bag.calls) + [head] + rest == Handed(s.bag.calls) + s.batch;
  }

  /** A step that leaves the line, the completed and the staged messages alone keeps the order. */
  lemma SameLine(s: Shared, after: Shared, t: nat, pc: Pc, next: Pc, turn: nat)
    requires OrderGlobal(s) && OrderLocal(s, t, pc, turn)
    requires Line(after) == Line(s) && after.completed == s.completed && after.bag.staged == s.bag.staged
    requires InHand(next) == InHand(pc) && (next.Handing? || next.Draining? ==> pc.Handing? || pc.Draining?)
    ensures OrderKept(s, t, turn, Move(after, next))
  {
    hide InTurn, Line;
  }

  lemma OrderDrain(s: Shared, t: nat, task: Task, turn: nat, ok: bool)
    requires OrderGlobal(s) && OrderLocal(s, t, Draining(task), turn)
    ensures OrderKept(s, t, turn, FlushGo(s, Draining(task), ok))
  {
    hide Line, InTurn, OrderKept;
    var move := FlushGo(s, Draining(task), ok);
    if s.batch != [] { LineDrain(s, ok); }
    SameLine(s, move.shared, t, Draining(task), move.pc, turn);
  }

  lemma OrderFlush(s: Shared, t: nat, pc: Pc, turn: nat, ok: bool)
    requires InFlush(pc) && OrderGlobal(s) && OrderLocal(s, t, pc, turn)
    requires pc.Swapping? ==> s.batch == []
    ensures OrderKept(s, t, turn, FlushGo(s, pc, ok))
  {
    hide FlushGo;
    if pc.Swapping? { OrderSwap(s, t, pc.task, turn, ok); } else { OrderDrain(s, t, pc.task, turn, ok); }
  }

  /** A step that moves no message. */
  predicate Framed(s: Shared, move: Move) {
    && Handed(move.shared.bag.calls) == Handed(s.bag.calls) && move.shared.bag.staged == s.bag.staged
    && move.shared.bag.lost == s.bag.lost && move.shared.bag.discarded == s.bag.discarded
    && move.shared.batch == s.batch && move.shared.completed == s.completed
    && InHand(move.pc) == []
  }

  lemma EnterFrame(s: Shared, op: Op, early: seq<Message>)
    ensures Framed(s, Enter(s, op, early))
  {
    CalledFrame(s.bag, Opened);
    hide Handed;
  }

  lemma WorkingFrame(s: Shared, op: Op)
    ensures Framed(s, Move(s.(bag := Work(s.bag, op)), Releasing))
  {
    WorkFrame(s.bag, op);
    hide Handed, Work;
  }

  lemma SlowFrame(s: Shared, t: nat, pc: Pc)
    requires InSlow(pc)
    ensures Framed(s, SlowGo(s, t, pc))
  {
    hide Enter, Work;
    if pc.Working? { WorkingFrame(s, pc.op); }
    else if pc.Finishing? { CalledFrame(s.bag, Closed); }
    else if pc.Entered? { EnterFrame(s, pc.op, pc.early); }
  }

  lemma OrderSlow(s: Shared, t: nat, pc: Pc, turn: nat)
    requires InSlow(pc) && OrderGlobal(s) && OrderLocal(s, t, pc, turn)
    ensures OrderKept(s, t, turn, SlowGo(s, t, pc))
  {
    SlowFrame(s, t, pc);
    assert Line(SlowGo(s, t, pc).shared) == Line(s);
    assert !SlowGo(s, t, pc).pc.Handing? && !SlowGo(s, t, pc).pc.Draining?;
  }

  lemma OrderMove(s: Shared, t: nat, pc: Pc, turn: nat, ok: bool)
    requires !pc.Idle? && OrderGlobal(s) && OrderLocal(s, t, pc, turn)
    requires LockLocal(s, t, pc) && StageInv(s)
    ensures OrderKept(s, t, turn, Go1(s, t, pc, ok))
  {
    if InFlush(pc) { OrderFlush(s, t, pc, turn, ok); }
    else if InSlow(pc) { OrderSlow(s, t, pc, turn); }
    else { OrderWrite(s, t, pc, turn, ok); }
  }

  lemma OrderWrite(s: Shared, t: nat, pc: Pc, turn: nat, ok: bool)
    requires InWrite(pc) && OrderGlobal(s) && OrderLocal(s, t, pc, turn)
    requires LockLocal(s, t, pc) && StageInv(s)
    ensures OrderKept(s, t, turn, WriteGo(s, t, pc, ok))
  {
    if pc.Parking? { OrderPark(s, t, pc.m, turn); }
    else if pc.Holding? { OrderHold(s, t, pc.m, turn); }
    else if pc.Handing? { OrderHand(s, t, pc.m, turn, ok); }
    else { assert InHand(WriteGo(s, t, pc, ok).pc) == InHand(pc); }
  }

  /** Every completed message is in exactly one place. */
  ghost predicate Conserved(s: Shared) {
    multiset(s.completed) ==
      multiset(Handed(s.bag.calls)) + multiset(s.bag.lost) + multiset(s.bag.discarded)
      + multiset(s.batch) + multiset(s.bag.staged)
  }

  lemma ConservedHand(s: Shared, m: Message, ok: bool)
    requires Conserved(s)
    ensures Conserved(Done(s.(bag := AfterWriteLocked(s.bag, m, ok)), m))
  {
    CalledFacts(s.bag.calls, Wrote(m, ok));
  }

  lemma ConservedPark(s: Shared, m: Message)
    requires Conserved(s)
    ensures Conserved(Done(s.(bag := AfterStage(s.bag, m)), m))
  {
  }

  lemma ConservedDiscard(s: Shared, m: Message)
    requires Conserved(s)
    ensures Conserved(Done(s.(bag := Discard(s.bag, [m])), m))
  {
  }

  lemma ConservedWrite(s: Shared, t: nat, pc: Pc, ok: bool)
    requires InWrite(pc) && Conserved(s)
    ensures Conserved(WriteGo(s, t, pc, ok).shared)
  {
    if pc.Handing? { ConservedHand(s, pc.m, ok); }
    else if pc.Parking? { ConservedPark(s, pc.m); }
    else if pc.Holding? { ConservedDiscard(s, pc.m); }
  }

  lemma ConservedSwap(s: Shared, task: Task, ok: bool)
    requires Conserved(s) && s.batch == []
    ensures Conserved(FlushGo(s, Swapping(task), ok).shared)
  {
  }

  lemma ConservedDrain(s: Shared, task: Task, ok: bool)
    requires Conserved(s)
    ensures Conserved(FlushGo(s, Draining(task), ok).shared)
  {
    if s.batch != [] {
      CalledFacts(s.bag.calls, Wrote(s.batch[0], ok));
      assert s.batch == [s.batch[0]] + s.batch[1..];
    }
  }

  lemma ConservedFlush(s: Shared, pc: Pc, ok: bool)
    requires InFlush(pc) && Conserved(s) && (pc.Swapping? ==> s.batch == [])
    ensures Conserved(FlushGo(s, pc, ok).shared)
  {
    hide FlushGo, Conserved;
    if pc.Swapping? { ConservedSwap(s, pc.task, ok); } else { ConservedDrain(s, pc.task, ok); }
  }

  lemma ConservedMove(s: Shared, t: nat, pc: Pc, ok: bool)
    requires !pc.Idle? && Conserved(s) && (pc.Swapping? ==> s.batch == [])
    ensures Conserved(Go1(s, t, pc, ok).shared)
  {
    if InWrite(pc) { ConservedWrite(s, t, pc, ok); }
    else if InFlush(pc) { ConservedFlush(s, pc, ok); }
    else { SlowFrame(s, t, pc); }
  }

  // ---- close() -------------------------------------------------------------------------------------------

  /** How far close() has got with the messages that were staged when it took the lock. */
  ghost predicate CloseLocal(s: Shared, pc: Pc) {
    match pc
    case Entered(op, early) => forall x | x in early :: x in s.bag.staged
    case Swapping(task) => task.ThenClose? ==> forall x | x in task.early :: x in s.bag.staged
    case Draining(task) => task.ThenClose? ==> forall x | x in task.early :: x in Handed(s.bag.calls) || x in s.batch
    case Ending(early) => forall x | x in early :: x in Handed(s.bag.calls)
    case Finishing(early) => forall x | x in early :: x in Handed(s.bag.calls)
    case _ => true
  }

  lemma CloseMove(s: Shared, t: nat, pc: Pc, ok: bool)
    requires !pc.Idle? && CloseLocal(s, pc) && LockLocal(s, t, pc)
    ensures CloseLocal(Go1(s, t, pc, ok).shared, Go1(s, t, pc, ok).pc)
  {
    match pc
    case Draining(task) =>
      if s.batch != [] {
        CalledFacts(s.bag.calls, Wrote(s.batch[0], ok));
        assert s.batch == [s.batch[0]] + s.batch[1..];
      }
    case _ =>
  }

  /** Only the owner of the lock takes messages off the stage. */
  lemma StageOnlyGrows(s: Shared, t: nat, pc: Pc, ok: bool)
    requires !pc.Idle? && LockLocal(s, t, pc) && s.owner != t
    ensures s.bag.staged <= Go1(s, t, pc, ok).shared.bag.staged
  {
  }

  // ---- every reachable state ----------------------------------------------------------------------------

  /** The bag's counters agree with what the writer was handed since the last open. */
  predicate Counts(b: BagState) {
    b.messagesWritten == WritesSince(b.calls, true) && b.writeErrors == WritesSince(b.calls, false)
  }

  lemma CountsCalled(b: BagState, c: Call)
    requires Counts(b)
    ensures c.Wrote? || c.WroteEvent? ==> Counts(Counted(Called(b, c), c.ok))
    ensures !c.Wrote? && !c.WroteEvent? && !c.Opened? ==> Counts(Called(b, c))
  {
    CalledFacts(b.calls, c);
  }

  lemma CountsWork(b: BagState, op: Op)
    requires Counts(b)
    ensures Counts(Work(b, op))
  {
    match op
    case MakeChannel(topic, typeName, ok) => CountsCalled(b, Created(topic, typeName, ok));
    case LogOne(topic, typeName, e, fate) =>
      var ready := if topic in b.channels then b else CreateChannel(b, topic, typeName, !fate.ChannelFailed?);
      CountsCalled(b, Created(topic, typeName, !fate.ChannelFailed?));
      CountsCalled(ready, WroteEvent(e, fate.Stored?));
    case SplitBag(ok) => CountsCalled(b, SplitFile(ok));
    case SnapshotBag(ok) => CountsCalled(b, TookSnapshot(ok));
    case _ =>
  }

  lemma CountsWrite(s: Shared, t: nat, pc: Pc, ok: bool)
    requires InWrite(pc) && Counts(s.bag)
    ensures Counts(WriteGo(s, t, pc, ok).shared.bag)
  {
    if pc.Handing? { CountsCalled(s.bag, Wrote(pc.m, ok)); }
  }

  lemma CountsFlush(s: Shared, pc: Pc, ok: bool)
    requires InFlush(pc) && Counts(s.bag)
    ensures Counts(FlushGo(s, pc, ok).shared.bag)
  {
    if s.batch != [] { CountsCalled(s.bag, Wrote(s.batch[0], ok)); }
  }

  lemma CountsMove(s: Shared, t: nat, pc: Pc, ok: bool)
    requires !pc.Idle? && Counts(s.bag)
    ensures Counts(Go1(s, t, pc, ok).shared.bag)
  {
    if InWrite(pc) { CountsWrite(s, t, pc, ok); }
    else if InFlush(pc) { CountsFlush(s, pc, ok); }
    else { CountsSlow(s, t, pc); }
  }

  lemma CountsSlow(s: Shared, t: nat, pc: Pc)
    requires InSlow(pc) && Counts(s.bag)
    ensures Counts(SlowGo(s, t, pc).shared.bag)
  {
    if pc.Finishing? { CountsCalled(s.bag, Closed); }
    else if pc.Working? { hide Work, Counts; CountsWork(s.bag, pc.op); }
    else { CalledFacts(s.bag.calls, Opened); }
  }

  ghost predicate Global(s: Shared) {
    LockGlobal(s) && StageInv(s) && OrderGlobal(s) && Conserved(s) && Counts(s.bag)
  }

  ghost predicate Local(s: Shared, t: nat, pc: Pc, turn: nat) {
    LockLocal(s, t, pc) && OrderLocal(s, t, pc, turn) && CloseLocal(s, pc)
  }

  ghost predicate Inv(s: Machine) {
    && s.threads.Keys == s.turns.Keys
    && (s.shared.owner != NOBODY ==> s.shared.owner in s.threads)
    && Global(s.shared)
    && forall t: nat | t in s.threads :: Local(s.shared, t, s.threads[t], s.turns[t])
  }

  /** What a step of `t` leaves for a thread that did not move. */
  lemma OtherKeeps(s: Shared, t: nat, pc: Pc, ok: bool, u: nat, other: Pc, turn: nat)
    requires !pc.Idle? && u != t && LockLocal(s, t, pc) && Local(s, u, other, turn)
    requires LockPasses(s, Go1(s, t, pc, ok).shared, t) && OrderPasses(s, Go1(s, t, pc, ok).shared, t)
    ensures Local(Go1(s, t, pc, ok).shared, u, other, turn)
  {
    var after := Go1(s, t, pc, ok).shared;
    if s.owner == u { StageOnlyGrows(s, t, pc, ok); }
    assert LockLocal(after, u, other);
    assert OrderLocal(after, u, other, turn);
    CloseOther(s, t, pc, ok, u, other);
  }

  lemma CloseOther(s: Shared, t: nat, pc: Pc, ok: bool, u: nat, other: Pc)
    requires !pc.Idle? && u != t && LockLocal(s, t, pc) && LockLocal(s, u, other) && CloseLocal(s, other)
    requires LockPasses(s, Go1(s, t, pc, ok).shared, t)
    ensures CloseLocal(Go1(s, t, pc, ok).shared, other)
  {
    if s.owner == u { StageOnlyGrows(s, t, pc, ok); }
  }

  lemma MoverKeeps(s: Shared, t: nat, pc: Pc, ok: bool, turn: nat)
    requires !pc.Idle? && Global(s) && Local(s, t, pc, turn) && (pc.Asking? ==> s.owner == NOBODY)
    ensures var move := Go1(s, t, pc, ok);
            && Global(move.shared) && Local(move.shared, t, move.pc, turn)
            && LockPasses(s, move.shared, t) && OrderPasses(s, move.shared, t)
  {
    if InWrite(pc) { LockWrite(s, t, pc, ok); }
    else if InFlush(pc) { LockFlush(s, t, pc, ok); }
    else { LockSlow(s, t, pc); }
    StageMove(s, t, pc, ok);
    OrderMove(s, t, pc, turn, ok);
    ConservedMove(s, t, pc, ok);
    CountsMove(s, t, pc, ok);
    CloseMove(s, t, pc, ok);
  }

  lemma Rebuild(s: Machine, move: Move, t: nat)
    requires Inv(s) && t in s.threads && LockPasses(s.shared, move.shared, t)
    requires Global(move.shared) && Local(move.shared, t, move.pc, s.turns[t])
    requires forall u: nat | u in s.threads && u != t :: Local(move.shared, u, s.threads[u], s.turns[u])
    ensures Inv(Machine(move.shared, s.threads[t := move.pc], s.turns))
  {
    assert (s.threads[t := move.pc]).Keys == s.threads.Keys;
  }

  lemma GoKeepsInv(s: Machine, t: nat, ok: bool)
    requires Inv(s) && Enabled(s, t, Go(ok))
    ensures Inv(Step(s, t, Go(ok)))
  {
    hide Go1;
    assert Local(s.shared, t, s.threads[t], s.turns[t]);
    MoverKeeps(s.shared, t, s.threads[t], ok, s.turns[t]);
    OthersKeep(s, t, ok);
    Rebuild(s, Go1(s.shared, t, s.threads[t], ok), t);
  }

  lemma OthersKeep(s: Machine, t: nat, ok: bool)
    requires Inv(s) && Enabled(s, t, Go(ok))
    requires LockPasses(s.shared, Step(s, t, Go(ok)).shared, t) && OrderPasses(s.shared, Step(s, t, Go(ok)).shared, t)
    ensures forall u: nat | u in s.threads && u != t :: Local(Step(s, t, Go(ok)).shared, u, s.threads[u], s.turns[u])
  {
    hide Go1;
    var after := Step(s, t, Go(ok));
    assert Local(s.shared, t, s.threads[t], s.turns[t]);
    forall u: nat | u in s.threads && u != t ensures Local(after.shared, u, s.threads[u], s.turns[u]) {
      OtherKeeps(s.shared, t, s.threads[t], ok, u, s.threads[u], s.turns[u]);
    }
  }

  lemma StartKeepsInv(s: Machine, t: nat, a: Act)
    requires Inv(s) && Enabled(s, t, a) && !a.Go?
    ensures Inv(Step(s, t, a))
  {
    var after := Step(s, t, a);
    assert Local(s.shared, t, s.threads[t], s.turns[t]);
    assert Local(after.shared, t, after.threads[t], after.turns[t]) by {
      StartLocal(s.shared, t, s.turns[t], after.threads[t], after.turns[t]);
    }
    forall u: nat | u in after.threads && u != t ensures Local(after.shared, u, after.threads[u], after.turns[u]) {
      assert Local(s.shared, u, s.threads[u], s.turns[u]);
    }
  }

  lemma StartLocal(s: Shared, t: nat, turn: nat, pc: Pc, next: nat)
    requires Local(s, t, Idle, turn)
    requires pc.Asking? ==> next == turn
    requires pc.Asking? || (pc.Arriving? && pc.m.producer == t && pc.m.turn == turn && next == turn + 1)
    ensures Local(s, t, pc, next)
  {
  }

  lemma StepKeepsInv(s: Machine, t: nat, a: Act)
    requires Inv(s) && Enabled(s, t, a)
    ensures Inv(Step(s, t, a))
  {
    if a.Go? { GoKeepsInv(s, t, a.ok); } else { StartKeepsInv(s, t, a); }
  }

  lemma {:induction false} RunKeepsInv(s: Machine, steps: Schedule)
    requires Inv(s) && Runs(s, steps)
    ensures Inv(Run(s, steps))
    decreases |steps|
  {
    if steps == [] {
    } else {
      var (t, a) := steps[0];
      StepKeepsInv(s, t, a);
      RunKeepsInv(Step(s, t, a), steps[1..]);
    }
  }

  lemma InitInv(threads: set<nat>)
    ensures Inv(Init(threads))
  {
  }

  lemma ReachableInv(s: Machine)
    requires Reachable(s)
    ensures Inv(s)
  {
    var threads: set<nat>, steps: Schedule :| Runs(Init(threads), steps) && Run(Init(threads), steps) == s;
    InitInv(threads);
    RunKeepsInv(Init(threads), steps);
    hide *;
  }

  /** Per-producer FIFO: what one thread passed to write() reaches the writer in its call order. */
  lemma FifoPerProducer(s: Machine, i: nat, j: nat)
    requires Reachable(s) && i < j < |Handed(s.shared.bag.calls)|
    requires Handed(s.shared.bag.calls)[i].producer == Handed(s.shared.bag.calls)[j].producer
    ensures Handed(s.shared.bag.calls)[i].turn < Handed(s.shared.bag.calls)[j].turn
  {
    assert OrderGlobal(s.shared) by { ReachableInv(s); }
    var handed, later := Handed(s.shared.bag.calls), s.shared.batch + s.shared.bag.staged;
    assert Line(s.shared) == handed + later;
    PrefixInTurn(handed, later);
  }

  lemma {:induction false} InTurnOnce(ms: seq<Message>, m: Message)
    requires InTurn(ms)
    ensures multiset(ms)[m] == if m in ms then 1 else 0
  {
    if ms == [] {
    } else {
      var n := |ms| - 1;
      assert ms == ms[..n] + [ms[n]];
      PrefixInTurn(ms[..n], [ms[n]]);
      InTurnOnce(ms[..n], m);
    }
  }

  /** Conservation and at-most-once: a message whose write() is over is in exactly one place, once; any
    * other message is nowhere. */
  lemma ExactlyOnePlace(s: Machine, m: Message)
    requires Reachable(s)
    ensures var b := s.shared.bag;
            multiset(Handed(b.calls))[m] + multiset(b.lost)[m] + multiset(b.discarded)[m]
            + multiset(s.shared.batch)[m] + multiset(b.staged)[m]
            == if m in s.shared.completed then 1 else 0
  {
    ReachableInv(s);
    InTurnOnce(s.shared.completed, m);
  }

  /** The stage's cached size and count are right, and it never outgrows the largest stage any bag got. */
  lemma StageBooks(s: Machine)
    requires Reachable(s)
    ensures s.shared.bag.stagedBytes == Bytes(s.shared.bag.staged) <= s.shared.largestStage
    ensures s.shared.bag.stagedCount == |s.shared.bag.staged|
  {
    ReachableInv(s);
  }

  /** Every opening a thread is busy with asks for a cache of `size`. */
  predicate AsksFor(pc: Pc, size: nat) {
    ((pc.Asking? || pc.Entered?) && pc.op.OpenBag?) ==> pc.op.maxCacheSize == size
  }

  ghost predicate OneSize(s: Machine, size: nat) {
    && s.shared.bag.maxStagedBytes == s.shared.largestStage
    && (s.shared.largestStage == 0 || s.shared.largestStage == if size > 0 then size else DEFAULT_MAX_STAGED_BYTES)
    && forall t: nat | t in s.threads :: AsksFor(s.threads[t], size)
  }

  ghost predicate AllOneSize(steps: Schedule, size: nat) {
    forall i | 0 <= i < |steps| && steps[i].1.StartOp? && steps[i].1.op.OpenBag? :: steps[i].1.op.maxCacheSize == size
  }

  lemma OneSizeMove(s: Shared, t: nat, pc: Pc, ok: bool, size: nat)
    requires !pc.Idle? && AsksFor(pc, size) && s.bag.maxStagedBytes == s.largestStage
    requires s.largestStage == 0 || s.largestStage == if size > 0 then size else DEFAULT_MAX_STAGED_BYTES
    ensures var move := Go1(s, t, pc, ok);
            && AsksFor(move.pc, size) && move.shared.bag.maxStagedBytes == move.shared.largestStage
            && (move.shared.largestStage == 0
                || move.shared.largestStage == if size > 0 then size else DEFAULT_MAX_STAGED_BYTES)
  {
  }

  lemma OneSizeStep(s: Machine, t: nat, a: Act, size: nat)
    requires OneSize(s, size) && Enabled(s, t, a)
    requires a.StartOp? && a.op.OpenBag? ==> a.op.maxCacheSize == size
    ensures OneSize(Step(s, t, a), size)
  {
    hide Go1;
    if a.Go? { OneSizeMove(s.shared, t, s.threads[t], a.ok, size); }
  }

  lemma {:induction false} OneSizeRun(s: Machine, steps: Schedule, size: nat)
    requires OneSize(s, size) && Runs(s, steps) && AllOneSize(steps, size)
    ensures OneSize(Run(s, steps), size)
    decreases |steps|
  {
    if steps == [] {
    } else {
      OneSizeStep(s, steps[0].0, steps[0].1, size);
      OneSizeRun(Step(s, steps[0].0, steps[0].1), steps[1..], size);
    }
  }

  /** With one cache size for every bag, the stage never outgrows its limit, though bags come and go with
    * messages still staged. */
  lemma StageWithinCache(threads: set<nat>, steps: Schedule, size: nat)
    requires Runs(Init(threads), steps) && AllOneSize(steps, size)
    ensures var b := Run(Init(threads), steps).shared.bag; b.stagedBytes <= b.maxStagedBytes
  {
    OneSizeRun(Init(threads), steps, size);
    StageBooks(Run(Init(threads), steps));
  }

  /** The writer is used only between an open and its close; a busy flag means the lock is held; and a
    * bag that is open has a live writer, which outlives it only inside close(). */
  lemma WriterProtocol(s: Machine)
    requires Reachable(s)
    ensures !PhaseOf(s.shared.bag.calls).Broken?
    ensures s.shared.busy ==> s.shared.owner in s.threads && InBusy(s.threads[s.shared.owner])
    ensures s.shared.bag.open ==> PhaseOf(s.shared.bag.calls).Live?
    ensures PhaseOf(s.shared.bag.calls).Live? && !s.shared.bag.open ==>
              s.shared.owner in s.threads && s.threads[s.shared.owner].Finishing?
  {
    ReachableInv(s);
    if s.shared.owner != NOBODY {
      var t: nat := s.shared.owner;
      assert Local(s.shared, t, s.threads[t], s.turns[t]);
    }
  }

  /** The counters the status reports are those of the open bag. */
  lemma CountersAreTrue(s: Machine)
    requires Reachable(s)
    ensures s.shared.bag.messagesWritten == WritesSince(s.shared.bag.calls, true)
    ensures s.shared.bag.writeErrors == WritesSince(s.shared.bag.calls, false)
  {
    ReachableInv(s);
  }

  // ---- what a run does to the writer -----------------------------------------------------------------------

  lemma WorkCallsGrow(b: BagState, op: Op)
    ensures b.calls <= Work(b, op).calls
  {
    if op.LogOne? {
      var ready := CreateChannel(b, op.topic, op.typeName, !op.fate.ChannelFailed?);
      assert b.calls <= ready.calls;
    }
  }

  lemma SlowCallsGrow(s: Shared, t: nat, pc: Pc)
    requires InSlow(pc)
    ensures s.bag.calls <= SlowGo(s, t, pc).shared.bag.calls
  {
    if pc.Working? { WorkCallsGrow(s.bag, pc.op); }
  }

  lemma CallsGrow(s: Shared, t: nat, pc: Pc, ok: bool)
    requires !pc.Idle?
    ensures s.bag.calls <= Go1(s, t, pc, ok).shared.bag.calls
  {
    if InSlow(pc) { SlowCallsGrow(s, t, pc); }
  }

  lemma {:induction false} RunCallsGrow(s: Machine, steps: Schedule)
    requires Runs(s, steps)
    ensures s.shared.bag.calls <= Run(s, steps).shared.bag.calls
    decreases |steps|
  {
    if steps == [] {
    } else {
      var (t, a) := steps[0];
      if a.Go? { CallsGrow(s.shared, t, s.threads[t], a.ok); }
      RunCallsGrow(Step(s, t, a), steps[1..]);
    }
  }

  /** Still inside the close() that found `early` on the stage, before the writer is closed. */
  predicate Closing(pc: Pc, early: seq<Message>) {
    || pc == Entered(CloseBag, early) || pc == Swapping(ThenClose(early)) || pc == Draining(ThenClose(early))
    || pc == Ending(early) || pc == Finishing(early)
  }

  /** No close among the calls from `start` on. */
  predicate NoCloseFrom(calls: seq<Call>, start: nat, end: nat) {
    end <= |calls| && forall i | start <= i < end :: !calls[i].Closed?
  }

  /** Before the first close after `start`, every message of `early` has been handed over. */
  ghost predicate WrittenFirst(calls: seq<Call>, start: nat, early: seq<Message>) {
    exists k :: start <= k && NoCloseFrom(calls, start, k) && forall x | x in early :: x in Handed(calls[..k])
  }

  /** A close in progress: it has written nothing but what was staged, and the writer is not closed yet. */
  predicate InClose(b: BagState, pc: Pc, start: nat, early: seq<Message>) {
    Closing(pc, early) && (b.open || pc.Finishing?) && NoCloseFrom(b.calls, start, |b.calls|)
  }

  ghost predicate CloseProgress(s: Machine, t: nat, start: nat, early: seq<Message>) {
    && t in s.threads && start <= |s.shared.bag.calls|
    && (InClose(s.shared.bag, s.threads[t], start, early) || WrittenFirst(s.shared.bag.calls, start, early))
  }

  /** The close goes on, or has just closed the writer with everything written before. */
  lemma CloseMoves(s: Shared, t: nat, pc: Pc, ok: bool, start: nat, early: seq<Message>)
    requires LockLocal(s, t, pc) && CloseLocal(s, pc) && start <= |s.bag.calls| && InClose(s.bag, pc, start, early)
    ensures var move := Go1(s, t, pc, ok);
            && s.bag.calls <= move.shared.bag.calls
            && (InClose(move.shared.bag, move.pc, start, early) || WrittenFirst(move.shared.bag.calls, start, early))
  {
    if pc.Finishing? {
      var calls, after := s.bag.calls, s.bag.calls + [Closed];
      assert after[..|calls|] == calls;
      assert NoCloseFrom(after, start, |calls|);
    }
  }

  lemma CloseProgressMover(s: Machine, t: nat, ok: bool, start: nat, early: seq<Message>)
    requires Inv(s) && Enabled(s, t, Go(ok)) && start <= |s.shared.bag.calls|
    requires InClose(s.shared.bag, s.threads[t], start, early)
    ensures CloseProgress(Step(s, t, Go(ok)), t, start, early)
  {
    assert Local(s.shared, t, s.threads[t], s.turns[t]);
    CloseMoves(s.shared, t, s.threads[t], ok, start, early);
    hide Go1, Inv, InClose, WrittenFirst;
  }

  lemma WrittenFirstStays(calls: seq<Call>, more: seq<Call>, start: nat, early: seq<Message>)
    requires WrittenFirst(calls, start, early) && calls <= more
    ensures WrittenFirst(more, start, early)
  {
    var k :| start <= k && NoCloseFrom(calls, start, k) && forall x | x in early :: x in Handed(calls[..k]);
    assert more[..k] == calls[..k];
    assert NoCloseFrom(more, start, k);
  }

  /** Without the lock no thread reaches the writer. */
  lemma OutsideLock(s: Shared, t: nat, pc: Pc, ok: bool)
    requires !pc.Idle? && !HoldsLock(pc)
    ensures SameWriter(s.bag, Go1(s, t, pc, ok).shared.bag)
  {
  }

  /** A step of another thread leaves a close in progress alone. */
  lemma CloseProgressOther(s: Machine, u: nat, ok: bool, t: nat, start: nat, early: seq<Message>)
    requires Inv(s) && Enabled(s, u, Go(ok)) && u != t && t in s.threads && InClose(s.shared.bag, s.threads[t], start, early)
    requires start <= |s.shared.bag.calls|
    ensures CloseProgress(Step(s, u, Go(ok)), t, start, early)
  {
    assert LockLocal(s.shared, t, s.threads[t]) && LockLocal(s.shared, u, s.threads[u]) by {
      assert Local(s.shared, t, s.threads[t], s.turns[t]) && Local(s.shared, u, s.threads[u], s.turns[u]);
    }
    OutsideLock(s.shared, u, s.threads[u], ok);
    hide Go1, Inv;
  }

  lemma CloseProgressStep(s: Machine, u: nat, a: Act, t: nat, start: nat, early: seq<Message>)
    requires Inv(s) && Enabled(s, u, a) && CloseProgress(s, t, start, early)
    ensures CloseProgress(Step(s, u, a), t, start, early)
  {
    if WrittenFirst(s.shared.bag.calls, start, early) {
      if a.Go? { CallsGrow(s.shared, u, s.threads[u], a.ok); }
      hide Go1;
      WrittenFirstStays(s.shared.bag.calls, Step(s, u, a).shared.bag.calls, start, early);
    } else if u == t {
      CloseProgressMover(s, t, a.ok, start, early);
    } else if a.Go? {
      CloseProgressOther(s, u, a.ok, t, start, early);
    }
  }

  lemma {:induction false} CloseProgressRun(s: Machine, steps: Schedule, t: nat, start: nat, early: seq<Message>)
    requires Inv(s) && Runs(s, steps) && CloseProgress(s, t, start, early)
    ensures CloseProgress(Run(s, steps), t, start, early)
    decreases |steps|
  {
    if steps == [] {
    } else {
      var (u, a) := steps[0];
      CloseProgressStep(s, u, a, t, start, early);
      StepKeepsInv(s, u, a);
      CloseProgressRun(Step(s, u, a), steps[1..], t, start, early);
    }
  }

  lemma WrittenBeforeClose(calls: seq<Call>, start: nat, early: seq<Message>, i: nat)
    requires WrittenFirst(calls, start, early) && start <= i < |calls| && calls[i].Closed?
    ensures forall x | x in early :: x in Handed(calls[..i])
  {
    var k :| start <= k && NoCloseFrom(calls, start, k) && forall x | x in early :: x in Handed(calls[..k]);
    assert calls[..i][..k] == calls[..k];
    HandedGrows(calls[..k], calls[..i]);
  }

  lemma AsksToClose(s: Shared, t: nat, ok: bool)
    ensures Go1(s, t, Asking(CloseBag), ok) == Move(s.(owner := t), Entered(CloseBag, s.bag.staged))
  {
  }

  lemma CloseBegins(s: Machine, t: nat)
    requires Reachable(s) && Enabled(s, t, Go(true)) && s.threads[t] == Asking(CloseBag) && s.shared.bag.open
    ensures var entered := Step(s, t, Go(true));
            Inv(entered) && CloseProgress(entered, t, |s.shared.bag.calls|, s.shared.bag.staged)
  {
    ReachableInv(s);
    GoKeepsInv(s, t, true);
    AsksToClose(s.shared, t, true);
    hide Inv, Go1;
  }

  /** Everything staged when close() takes the lock is handed to the writer before the writer is closed,
    * whatever the other threads do meanwhile. */
  lemma CloseWritesWhatWasStaged(s: Machine, t: nat, steps: Schedule, i: nat)
    requires Reachable(s) && Enabled(s, t, Go(true)) && s.threads[t] == Asking(CloseBag) && s.shared.bag.open
    requires Runs(Step(s, t, Go(true)), steps)
    requires var calls := Run(Step(s, t, Go(true)), steps).shared.bag.calls;
             |s.shared.bag.calls| <= i < |calls| && calls[i].Closed?
    ensures forall x | x in s.shared.bag.staged ::
              x in Handed(Run(Step(s, t, Go(true)), steps).shared.bag.calls[..i])
  {
    var early, start := s.shared.bag.staged, |s.shared.bag.calls|;
    var entered := Step(s, t, Go(true));
    CloseBegins(s, t);
    CloseProgressRun(entered, steps, t, start, early);
    WrittenBeforeClose(Run(entered, steps).shared.bag.calls, start, early, i);
    hide *;
  }

  lemma {:induction false} HandedGrows(calls: seq<Call>, more: seq<Call>)
    requires calls <= more
    ensures forall x | x in Handed(calls) :: x in Handed(more)
    decreases |more|
  {
    if |calls| == |more| {
      assert calls == more;
    } else {
      HandedGrows(calls, more[..|more| - 1]);
    }
  }

  // ---- waiting, and channels ---------------------------------------------------------------------------------

  /** Steps a write() outside the lock still has to take once the writer is busy. */
  function Remaining(pc: Pc): nat {
    match pc
    case Arriving(_) => 4
    case Waiting(_) => 3
    case Polling(_) => 2
    case Parking(_) => 1
    case _ => 0
  }

  lemma ComesCloser(s: Shared, t: nat, pc: Pc, ok: bool)
    requires InWrite(pc) && s.busy && LockLocal(s, t, pc)
    ensures Remaining(WriteGo(s, t, pc, ok).pc) < Remaining(pc)
  {
  }

  /** A message never waits for a slow operation: while the writer is busy every step of a write() that
    * does not hold the lock is possible and brings it closer to its end. */
  lemma BusyNeverBlocksAMessage(s: Machine, t: nat, ok: bool)
    requires Reachable(s) && s.shared.busy && t in s.threads && InWrite(s.threads[t])
    ensures Enabled(s, t, Go(ok))
    ensures Remaining(Step(s, t, Go(ok)).threads[t]) < Remaining(s.threads[t])
  {
    hide FlushGo, SlowGo;
    ReachableInv(s);
    assert Local(s.shared, t, s.threads[t], s.turns[t]);
    ComesCloser(s.shared, t, s.threads[t], ok);
    assert Go1(s.shared, t, s.threads[t], ok) == WriteGo(s.shared, t, s.threads[t], ok);
  }

  ghost predicate SameTypes(b: BagState, c: BagState) {
    forall topic | topic in b.channels :: topic in c.channels && c.channels[topic] == b.channels[topic]
  }

  lemma ChannelsWork(b: BagState, op: Op)
    ensures SameTypes(b, Work(b, op))
  {
  }

  lemma ChannelsEnter(s: Shared, op: Op, early: seq<Message>)
    ensures var after := Enter(s, op, early).shared.bag; SameTypes(s.bag, after) || after.calls == s.bag.calls + [Opened]
  {
  }

  lemma ChannelsSlow(s: Shared, t: nat, pc: Pc)
    requires InSlow(pc)
    ensures var after := SlowGo(s, t, pc).shared.bag;
            SameTypes(s.bag, after) || after.calls == s.bag.calls + [Opened]
  {
    hide Work, Enter;
    if pc.Working? { ChannelsWork(s.bag, pc.op); }
    else if pc.Entered? { ChannelsEnter(s, pc.op, pc.early); }
  }

  predicate NoOpenFrom(calls: seq<Call>, start: nat) {
    forall i | start <= i < |calls| :: !calls[i].Opened?
  }

  lemma NoOpening(calls: seq<Call>, next: seq<Call>, end: seq<Call>)
    requires calls <= next <= end && NoOpenFrom(end, |calls|)
    ensures next != calls + [Opened] && NoOpenFrom(end, |next|)
  {
    assert |next| > |calls| ==> next[|calls|] == end[|calls|];
  }

  lemma ChannelsFast(s: Shared, t: nat, pc: Pc, ok: bool)
    requires !pc.Idle? && !InSlow(pc)
    ensures SameTypes(s.bag, Go1(s, t, pc, ok).shared.bag)
  {
  }

  lemma ChannelsStep(s: Machine, t: nat, a: Act, end: seq<Call>)
    requires Enabled(s, t, a) && Step(s, t, a).shared.bag.calls <= end && NoOpenFrom(end, |s.shared.bag.calls|)
    ensures SameTypes(s.shared.bag, Step(s, t, a).shared.bag) && NoOpenFrom(end, |Step(s, t, a).shared.bag.calls|)
  {
    if a.Go? {
      CallsGrow(s.shared, t, s.threads[t], a.ok);
      NoOpening(s.shared.bag.calls, Step(s, t, a).shared.bag.calls, end);
      if InSlow(s.threads[t]) { ChannelsSlow(s.shared, t, s.threads[t]); }
      else { ChannelsFast(s.shared, t, s.threads[t], a.ok); }
      hide WriteGo, FlushGo, SlowGo;
    }
  }

  /** Until another bag is opened, channels only appear: none disappears or changes type. */
  lemma {:induction false} ChannelsOnlyGrow(s: Machine, steps: Schedule)
    requires Runs(s, steps) && NoOpenFrom(Run(s, steps).shared.bag.calls, |s.shared.bag.calls|)
    ensures SameTypes(s.shared.bag, Run(s, steps).shared.bag)
    decreases |steps|
  {
    if steps == [] {
    } else {
      var (t, a) := steps[0];
      RunCallsGrow(Step(s, t, a), steps[1..]);
      ChannelsStep(s, t, a, Run(s, steps).shared.bag.calls);
      ChannelsOnlyGrow(Step(s, t, a), steps[1..]);
    }
  }
}
