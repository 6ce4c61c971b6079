/** One thread alone: the steps of the interleaving model, run without interference, do what the whole
  * operations of BagStore say. */
module Solo {
  import opened BagStore
  import opened Interleaving

  /** Steps under way go on; no call is started. */
  function Going(): Act -> bool { (a: Act) => a.Go? }

  ghost predicate Leads(s: Machine, s': Machine) { LeadsBy(s, s', Going()) }

  lemma LeadsSelf(s: Machine)
    ensures Leads(s, s)
  {
    LeadsByNothing(s, Going());
  }

  lemma LeadsOn(s: Machine, t: nat, a: Act, end: Machine)
    requires Enabled(s, t, a) && a.Go? && Leads(Step(s, t, a), end)
    ensures Leads(s, end)
  {
    LeadsByStep(s, t, a, end, Going());
  }

  /** `s` with the shared state `shared`, its thread `t` about to do `pc`. */
  function At(s: Machine, t: nat, shared: Shared, pc: Pc): Machine {
    Machine(shared, s.threads[t := pc], s.turns)
  }

  /** Thread `t` makes one step. */
  lemma Moves(s: Machine, t: nat, shared: Shared, pc: Pc, ok: bool, move: Move, end: Machine)
    requires t in s.threads && t in s.turns && !pc.Idle? && (pc.Asking? ==> shared.owner == NOBODY)
    requires move == Go1(shared, t, pc, ok) && Leads(At(s, t, move.shared, move.pc), end)
    ensures Leads(At(s, t, shared, pc), end)
  {
    hide Leads, Go1;
    var now := At(s, t, shared, pc);
    assert now.threads[t := move.pc] == s.threads[t := move.pc];
    LeadsOn(now, t, Go(ok), end);
  }

  lemma {:induction false} Drains(s: Machine, t: nat, shared: Shared, task: Task, accepts: Message -> bool, end: Machine)
    requires t in s.threads && t in s.turns
    requires Leads(At(s, t, shared.(bag := WriteAll(shared.bag, shared.batch, accepts), batch := []), AfterDrain(task)), end)
    ensures Leads(At(s, t, shared, Draining(task)), end)
    decreases |shared.batch|
  {
    hide Leads, At;
    var batch := shared.batch;
    if batch == [] {
      assert shared == shared.(bag := WriteAll(shared.bag, batch, accepts), batch := []);
      Moves(s, t, shared, Draining(task), true, Move(shared, AfterDrain(task)), end);
    } else {
      var ok := accepts(batch[0]);
      var next := shared.(bag := AfterWriteLocked(shared.bag, batch[0], ok), batch := batch[1..]);
      Drains(s, t, next, task, accepts, end);
      Moves(s, t, shared, Draining(task), ok, Move(next, Draining(task)), end);
    }
  }

  lemma Flushes(s: Machine, t: nat, shared: Shared, task: Task, accepts: Message -> bool, end: Machine)
    requires t in s.threads && t in s.turns && shared.batch == []
    requires Leads(At(s, t, shared.(bag := AfterFlush(shared.bag, accepts)), AfterDrain(task)), end)
    ensures Leads(At(s, t, shared, Swapping(task)), end)
  {
    hide Leads, At;
    var staged := shared.bag.staged;
    var swapped := if shared.bag.open then shared.(bag := Unstaged(shared.bag), batch := staged)
                   else shared.(bag := Discard(Unstaged(shared.bag), staged));
    assert swapped.(bag := WriteAll(swapped.bag, swapped.batch, accepts), batch := [])
        == shared.(bag := AfterFlush(shared.bag, accepts));
    Drains(s, t, swapped, task, accepts, end);
    Moves(s, t, shared, Swapping(task), true, Move(swapped, Draining(task)), end);
  }

  /** The lock is free and nobody is flushing. */
  predicate Free(s: Shared) { s.owner == NOBODY && !s.busy && s.batch == [] && s.bag.stagedCount == |s.bag.staged| }

  lemma Unlocks(s: Machine, t: nat, shared: Shared)
    requires t in s.threads && t in s.turns
    ensures Leads(At(s, t, shared, Unlocking), At(s, t, shared.(owner := NOBODY), Idle))
  {
    var end := At(s, t, shared.(owner := NOBODY), Idle);
    LeadsSelf(end);
    hide Leads;
    Moves(s, t, shared, Unlocking, true, Move(shared.(owner := NOBODY), Idle), end);
  }

  lemma Hands(s: Machine, t: nat, shared: Shared, m: Message, accepts: Message -> bool)
    requires t in s.threads && t in s.turns
    ensures Leads(At(s, t, shared, Handing(m)),
                  At(s, t, Done(shared.(bag := AfterWriteLocked(shared.bag, m, accepts(m)), owner := NOBODY), m), Idle))
  {
    hide Leads, At;
    var written := Done(shared.(bag := AfterWriteLocked(shared.bag, m, accepts(m))), m);
    Unlocks(s, t, written);
    Moves(s, t, shared, Handing(m), accepts(m), Move(written, Unlocking), At(s, t, written.(owner := NOBODY), Idle));
  }

  /** From holding the lock on, write() does to the bag what AfterWrite says. */
  lemma SoloWrite(s: Machine, t: nat, shared: Shared, m: Message, accepts: Message -> bool)
    requires t in s.threads && t in s.turns && Free(shared.(owner := NOBODY))
    ensures Leads(At(s, t, shared, Holding(m)),
                  At(s, t, Done(shared.(bag := AfterWrite(shared.bag, m, false, accepts), owner := NOBODY), m), Idle))
  {
    hide Leads, At, AfterFlush, AfterWriteLocked;
    var b := shared.bag;
    var end := At(s, t, Done(shared.(bag := AfterWrite(b, m, false, accepts), owner := NOBODY), m), Idle);
    if !b.open {
      var discarded := Done(shared.(bag := Discard(b, [m])), m);
      Unlocks(s, t, discarded);
      Moves(s, t, shared, Holding(m), true, Move(discarded, Unlocking), end);
    } else if b.stagedCount > 0 {
      Hands(s, t, shared.(bag := AfterFlush(b, accepts)), m, accepts);
      Flushes(s, t, shared, ThenWrite(m), accepts, end);
      Moves(s, t, shared, Holding(m), true, Move(shared, Swapping(ThenWrite(m))), end);
    } else {
      Hands(s, t, shared, m, accepts);
      Moves(s, t, shared, Holding(m), true, Move(shared, Handing(m)), end);
    }
  }

  /** So it does from reading the busy flag on, without the lock. */
  lemma SoloPark(s: Machine, t: nat, shared: Shared, m: Message, accepts: Message -> bool)
    requires t in s.threads && t in s.turns && shared.busy
    ensures Leads(At(s, t, shared, Polling(m)),
                  At(s, t, Done(shared.(bag := AfterWrite(shared.bag, m, true, accepts)), m), Idle))
  {
    var parked := Done(shared.(bag := AfterStage(shared.bag, m)), m);
    LeadsSelf(At(s, t, parked, Idle));
    hide Leads, At, AfterStage;
    Moves(s, t, shared, Parking(m), true, Move(parked, Idle), At(s, t, parked, Idle));
    Moves(s, t, shared, Polling(m), true, Move(shared, Parking(m)), At(s, t, parked, Idle));
  }

  /** What a whole operation does to the bag, per the functions the object is proved against. */
  function Effect(b: BagState, op: Op, accepts: Message -> bool): BagState {
    match op
    case OpenBag(size, ok) => if !b.open && ok then AfterOpen(b, size) else b
    case CloseBag => AfterClose(b, accepts)
    case MakeChannel(topic, typeName, ok) => AfterEnsureChannel(b, topic, typeName, ok, accepts).0
    case LogOne(topic, typeName, e, fate) => AfterWriteEvent(b, topic, typeName, e, fate, accepts)
    case SplitBag(ok) => AfterSplit(b, ok, accepts)
    case SnapshotBag(ok) => AfterSnapshot(b, ok, accepts)
  }

  /** Leaving a slow operation: the busy flag goes, what is staged is flushed, the lock goes. */
  lemma Releases(s: Machine, t: nat, shared: Shared, accepts: Message -> bool)
    requires t in s.threads && t in s.turns && shared.batch == []
    ensures Leads(At(s, t, shared, Releasing),
                  At(s, t, shared.(bag := AfterFlush(shared.bag, accepts), busy := false, owner := NOBODY), Idle))
  {
    hide Leads, At, AfterFlush;
    var calm := shared.(busy := false);
    var flushed := calm.(bag := AfterFlush(calm.bag, accepts));
    var end := At(s, t, flushed.(owner := NOBODY), Idle);
    Unlocks(s, t, flushed);
    Flushes(s, t, calm, ThenRelease, accepts, end);
    Moves(s, t, shared, Releasing, true, Move(calm, Swapping(ThenRelease)), end);
  }

  lemma Works(s: Machine, t: nat, shared: Shared, op: Op, accepts: Message -> bool)
    requires t in s.threads && t in s.turns && shared.batch == []
    ensures Leads(At(s, t, shared, Working(op)),
                  At(s, t, shared.(bag := AfterFlush(Work(shared.bag, op), accepts), busy := false, owner := NOBODY), Idle))
  {
    hide Leads, At, AfterFlush, Work;
    var worked := shared.(bag := Work(shared.bag, op));
    Releases(s, t, worked, accepts);
    Moves(s, t, shared, Working(op), true, Move(worked, Releasing),
          At(s, t, worked.(bag := AfterFlush(worked.bag, accepts), busy := false, owner := NOBODY), Idle));
  }

  lemma Closes(s: Machine, t: nat, shared: Shared, early: seq<Message>, accepts: Message -> bool)
    requires t in s.threads && t in s.turns && shared.batch == [] && shared.bag.open
    ensures Leads(At(s, t, shared, Swapping(ThenClose(early))),
                  At(s, t, shared.(bag := AfterClose(shared.bag, accepts), busy := false, owner := NOBODY), Idle))
  {
    hide Leads, At, AfterFlush;
    var flushed := shared.(bag := AfterFlush(shared.bag, accepts));
    var ended := flushed.(bag := flushed.bag.(open := false));
    var closed := ended.(bag := Called(ended.bag, Closed));
    var end := At(s, t, shared.(bag := AfterClose(shared.bag, accepts), busy := false, owner := NOBODY), Idle);
    Releases(s, t, closed, accepts);
    Moves(s, t, ended, Finishing(early), true, Move(closed, Releasing), end);
    Moves(s, t, flushed, Ending(early), true, Move(ended, Finishing(early)), end);
    Flushes(s, t, shared, ThenClose(early), accepts, end);
  }

  /** The operation with the lock held does its work, or gives up and unlocks. */
  lemma Enters(s: Machine, t: nat, shared: Shared, op: Op, accepts: Message -> bool) returns (end: Machine)
    requires t in s.threads && t in s.turns && Free(shared.(owner := NOBODY))
    ensures Leads(At(s, t, shared, Entered(op, shared.bag.staged)), end) && end.threads == s.threads[t := Idle]
    ensures Free(end.shared) && end.shared.bag == Effect(shared.bag, op, accepts) && end.turns == s.turns
  {
    hide Leads, AfterFlush;
    var b, move := shared.bag, Enter(shared, op, shared.bag.staged);
    if move.pc == Unlocking {
      end := At(s, t, move.shared.(owner := NOBODY), Idle);
      Unlocks(s, t, move.shared);
    } else if op.CloseBag? {
      end := At(s, t, move.shared.(bag := AfterClose(b, accepts), busy := false, owner := NOBODY), Idle);
      Closes(s, t, move.shared, b.staged, accepts);
      FlushEmpties(Called(AfterFlush(b, accepts).(open := false), Closed), accepts);
    } else {
      end := At(s, t, move.shared.(bag := AfterFlush(Work(b, op), accepts), busy := false, owner := NOBODY), Idle);
      Works(s, t, move.shared, op, accepts);
      FlushEmpties(Work(b, op), accepts);
    }
    Moves(s, t, shared, Entered(op, b.staged), true, move, end);
  }

  /** A slow operation that meets no interference does to the bag what the object's method is proved to do. */
  lemma SoloOperation(s: Machine, t: nat, op: Op, accepts: Message -> bool) returns (end: Machine)
    requires t in s.threads && t in s.turns && s.threads[t] == Asking(op) && Free(s.shared)
    ensures Leads(s, end) && end.threads == s.threads[t := Idle] && Free(end.shared)
    ensures end.shared.bag == Effect(s.shared.bag, op, accepts) && end.turns == s.turns
  {
    hide Leads, Effect;
    var held := s.shared.(owner := t);
    end := Enters(s, t, held, op, accepts);
    Moves(s, t, s.shared, Asking(op), true, Move(held, Entered(op, held.bag.staged)), end);
    assert s.threads[t := Asking(op)] == s.threads;
  }

  lemma {:induction false} WriteAllKeepsStage(b: BagState, batch: seq<Message>, accepts: Message -> bool)
    ensures WriteAll(b, batch, accepts).staged == b.staged && WriteAll(b, batch, accepts).stagedCount == b.stagedCount
    decreases |batch|
  {
    if batch == [] {
    } else {
      WriteAllKeepsStage(AfterWriteLocked(b, batch[0], accepts(batch[0])), batch[1..], accepts);
    }
  }

  lemma FlushEmpties(b: BagState, accepts: Message -> bool)
    ensures AfterFlush(b, accepts).staged == [] && AfterFlush(b, accepts).stagedCount == 0
  {
    WriteAllKeepsStage(Unstaged(b), b.staged, accepts);
  }
}
