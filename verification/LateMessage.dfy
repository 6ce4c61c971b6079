/** A message can outlive the bag it was meant for: one run of the interleaving model in which a message
  * handed to write() before a stop ends up in the bag opened after it. */
module LateMessage {
  import opened BagStore
  import opened Interleaving

  function Anything(): Act -> bool { (a: Act) => true }

  /** Some run leads from `s` to `s'`. */
  ghost predicate Leads(s: Machine, s': Machine) { LeadsBy(s, s', Anything()) }

  lemma LeadsSelf(s: Machine)
    ensures Leads(s, s)
  {
    LeadsByNothing(s, Anything());
  }

  lemma LeadsOn(s: Machine, t: nat, a: Act, end: Machine)
    requires Enabled(s, t, a) && Leads(Step(s, t, a), end)
    ensures Leads(s, end)
  {
    LeadsByStep(s, t, a, end, Anything());
  }

  /** Two threads: 0 delivers messages, 1 opens and closes the bag. */
  function Pair(shared: Shared, zero: Pc, one: Pc, written: nat): Machine {
    Machine(shared, map[0 := zero, 1 := one], map[0 := written, 1 := 0])
  }

  const LATE: Message := Message(0, 0, "/scan", 5, 5, 1)
  const NEXT: Message := Message(0, 1, "/scan", 9, 9, 1)

  /** Thread 0 makes the step `move`. */
  lemma ZeroGoes(shared: Shared, zero: Pc, one: Pc, n: nat, ok: bool, move: Move, end: Machine)
    requires !zero.Idle? && !zero.Asking? && move == Go1(shared, 0, zero, ok)
    requires Leads(Pair(move.shared, move.pc, one, n), end)
    ensures Leads(Pair(shared, zero, one, n), end)
  {
    hide Leads;
    var s := Pair(shared, zero, one, n);
    assert s.threads[0 := move.pc] == map[0 := move.pc, 1 := one];
    LeadsOn(s, 0, Go(ok), end);
  }

  /** Thread 1 makes the step `move`. */
  lemma OneGoes(shared: Shared, zero: Pc, one: Pc, n: nat, move: Move, end: Machine)
    requires !one.Idle? && (one.Asking? ==> shared.owner == NOBODY) && move == Go1(shared, 1, one, true)
    requires Leads(Pair(move.shared, zero, move.pc, n), end)
    ensures Leads(Pair(shared, zero, one, n), end)
  {
    hide Leads;
    var s := Pair(shared, zero, one, n);
    assert s.threads[1 := move.pc] == map[0 := zero, 1 := move.pc];
    LeadsOn(s, 1, Go(true), end);
  }

  lemma OneAsks(shared: Shared, zero: Pc, n: nat, op: Op, end: Machine)
    requires Leads(Pair(shared, zero, Asking(op), n), end)
    ensures Leads(Pair(shared, zero, Idle, n), end)
  {
    hide Leads, Go1;
    var s := Pair(shared, zero, Idle, n);
    assert Step(s, 1, StartOp(op)) == Pair(shared, zero, Asking(op), n);
    LeadsOn(s, 1, StartOp(op), end);
  }

  /** Thread 1 opens a bag while thread 0 does nothing. */
  lemma Opens(shared: Shared, zero: Pc, n: nat, end: Machine)
    requires shared.owner == NOBODY && !shared.bag.open
    requires Leads(Pair(Enter(shared.(owner := 1), OpenBag(64, true), shared.bag.staged).shared.(owner := NOBODY), zero, Idle, n), end)
    ensures Leads(Pair(shared, zero, Idle, n), end)
  {
    var op, held := OpenBag(64, true), shared.(owner := 1);
    var nowOpen := Enter(held, op, shared.bag.staged).shared;
    OneGoes(nowOpen, zero, Unlocking, n, Move(nowOpen.(owner := NOBODY), Idle), end);
    OneGoes(held, zero, Entered(op, shared.bag.staged), n, Move(nowOpen, Unlocking), end);
    OneGoes(shared, zero, Asking(op), n, Move(held, Entered(op, shared.bag.staged)), end);
    OneAsks(shared, zero, n, op, end);
  }

  /** Thread 1 has closed the writer; with nothing staged it clears the flag, flushes nothing and unlocks. */
  lemma ReleasesNothing(shared: Shared, zero: Pc, n: nat, end: Machine)
    requires shared.owner == 1 && shared.bag.staged == [] && shared.batch == [] && !shared.bag.open
    requires shared.bag == Unstaged(shared.bag)
    requires Leads(Pair(shared.(busy := false, owner := NOBODY), zero, Idle, n), end)
    ensures Leads(Pair(shared, zero, Releasing, n), end)
  {
    var calm := shared.(busy := false);
    FlushesNothing(calm, zero, n, end);
    OneGoes(shared, zero, Releasing, n, Move(calm, Swapping(ThenRelease)), end);
  }

  lemma FlushesNothing(shared: Shared, zero: Pc, n: nat, end: Machine)
    requires shared.bag.staged == [] && shared.batch == [] && !shared.bag.open && shared.bag == Unstaged(shared.bag)
    requires Leads(Pair(shared.(owner := NOBODY), zero, Idle, n), end)
    ensures Leads(Pair(shared, zero, Swapping(ThenRelease), n), end)
  {
    assert Discard(shared.bag, []) == shared.bag;
    OneGoes(shared, zero, Unlocking, n, Move(shared.(owner := NOBODY), Idle), end);
    OneGoes(shared, zero, Draining(ThenRelease), n, Move(shared, Unlocking), end);
    OneGoes(shared, zero, Swapping(ThenRelease), n, Move(shared, Draining(ThenRelease)), end);
  }

  /** close() from its flush on, with nothing staged and thread 0 parked. */
  lemma Closes(shared: Shared, zero: Pc, n: nat, end: Machine)
    requires shared.owner == 1 && shared.bag.open && shared.bag.staged == [] && shared.batch == []
    requires shared.bag == Unstaged(shared.bag)
    requires Leads(Pair(shared.(busy := false, owner := NOBODY, bag := Called(shared.bag.(open := false), Closed)), zero, Idle, n), end)
    ensures Leads(Pair(shared, zero, Swapping(ThenClose([])), n), end)
  {
    hide Leads;
    var ended := shared.(bag := shared.bag.(open := false));
    var closed := ended.(bag := Called(ended.bag, Closed));
    ReleasesNothing(closed, zero, n, end);
    OneGoes(ended, zero, Finishing([]), n, Move(closed, Releasing), end);
    OneGoes(shared, zero, Ending([]), n, Move(ended, Finishing([])), end);
    OneGoes(shared, zero, Draining(ThenClose([])), n, Move(shared, Ending([])), end);
    assert shared.(bag := Unstaged(shared.bag), batch := shared.bag.staged) == shared;
    OneGoes(shared, zero, Swapping(ThenClose([])), n, Move(shared, Draining(ThenClose([]))), end);
  }

  /** write() meets the busy writer: it fails to get the lock, sees the flag, and is about to stage. */
  lemma Parks(shared: Shared, one: Pc, n: nat, end: Machine)
    requires shared.owner == 1 && shared.busy
    requires Leads(Pair(shared, Parking(LATE), one, n), end)
    ensures Leads(Pair(shared, Arriving(LATE), one, n), end)
  {
    ZeroGoes(shared, Polling(LATE), one, n, true, Move(shared, Parking(LATE)), end);
    ZeroGoes(shared, Waiting(LATE), one, n, false, Move(shared, Polling(LATE)), end);
    ZeroGoes(shared, Arriving(LATE), one, n, false, Move(shared, Waiting(LATE)), end);
  }

  lemma Writes(shared: Shared, one: Pc, n: nat, m: Message, end: Machine)
    requires m == Message(0, n, "/scan", m.recvNs, m.sendNs, m.bytes)
    requires Leads(Pair(shared, Arriving(m), one, n + 1), end)
    ensures Leads(Pair(shared, Idle, one, n), end)
  {
    hide Leads, Go1;
    var s, a := Pair(shared, Idle, one, n), StartWrite("/scan", m.recvNs, m.sendNs, m.bytes);
    assert s.threads[0 := Arriving(m)] == map[0 := Arriving(m), 1 := one];
    assert s.turns[0 := n + 1] == map[0 := n + 1, 1 := 0];
    LeadsOn(s, 0, a, end);
  }

  /** Thread 1 starts close(), takes the lock and sets the busy flag. */
  lemma StartsClosing(shared: Shared, zero: Pc, n: nat, end: Machine)
    requires shared.owner == NOBODY && shared.bag.open && shared.bag.staged == []
    requires Leads(Pair(shared.(owner := 1, busy := true), zero, Swapping(ThenClose([])), n), end)
    ensures Leads(Pair(shared, zero, Idle, n), end)
  {
    var held := shared.(owner := 1);
    OneGoes(held, zero, Entered(CloseBag, []), n, Move(held.(busy := true), Swapping(ThenClose([]))), end);
    OneGoes(shared, zero, Asking(CloseBag), n, Move(held, Entered(CloseBag, [])), end);
    OneAsks(shared, zero, n, CloseBag, end);
  }

  /** The next write() in the new bag flushes what is staged. */
  lemma FlushesLate(shared: Shared, n: nat)
    requires shared.owner == NOBODY && shared.bag.open && shared.bag.staged == [LATE] && shared.bag.stagedCount == 1
    ensures var flushed := AfterWriteLocked(Unstaged(shared.bag), LATE, true);
            Leads(Pair(shared, Arriving(NEXT), Idle, n),
                  Pair(shared.(owner := 0, bag := flushed, batch := []), Draining(ThenWrite(NEXT)), Idle, n))
  {
    var held := shared.(owner := 0);
    var swapped := held.(bag := Unstaged(shared.bag), batch := [LATE]);
    var flushed := swapped.(bag := AfterWriteLocked(Unstaged(shared.bag), LATE, true), batch := []);
    var end := Pair(flushed, Draining(ThenWrite(NEXT)), Idle, n);
    LeadsSelf(end);
    ZeroGoes(swapped, Draining(ThenWrite(NEXT)), Idle, n, true, Move(flushed, Draining(ThenWrite(NEXT))), end);
    ZeroGoes(held, Swapping(ThenWrite(NEXT)), Idle, n, true, Move(swapped, Draining(ThenWrite(NEXT))), end);
    ZeroGoes(held, Holding(NEXT), Idle, n, true, Move(held, Swapping(ThenWrite(NEXT))), end);
    ZeroGoes(shared, Arriving(NEXT), Idle, n, true, Move(held, Holding(NEXT)), end);
  }

  const BEFORE: Shared := Init({}).shared
  const FIRST: Shared := BEFORE.(bag := AfterOpen(BEFORE.bag, 64), largestStage := 64)
  const STOPPED: Shared := FIRST.(bag := Called(FIRST.bag.(open := false), Closed))
  const PARKED: Shared := Done(STOPPED.(bag := AfterStage(STOPPED.bag, LATE)), LATE)
  const SECOND: Shared := PARKED.(bag := AfterOpen(PARKED.bag, 64))

  /** The first bag opens; while close() holds it busy, write() of LATE starts; the close ends. */
  lemma FirstBag(end: Machine)
    requires Leads(Pair(STOPPED, Parking(LATE), Idle, 1), end)
    ensures Leads(Pair(BEFORE, Idle, Idle, 0), end)
  {
    hide Leads;
    var closing := FIRST.(owner := 1, busy := true);
    Closes(closing, Parking(LATE), 1, end);
    Parks(closing, Swapping(ThenClose([])), 1, end);
    Writes(closing, Swapping(ThenClose([])), 0, LATE, end);
    StartsClosing(FIRST, Idle, 0, end);
    Opens(BEFORE, Idle, 0, end);
  }

  /** LATE is staged, the second bag opens, and the next write() flushes it there. */
  lemma SecondBag(end: Machine)
    requires Leads(Pair(SECOND, Arriving(NEXT), Idle, 2), end)
    ensures Leads(Pair(STOPPED, Parking(LATE), Idle, 1), end)
  {
    hide Leads;
    Writes(SECOND, Idle, 1, NEXT, end);
    Opens(PARKED, Idle, 1, end);
    ZeroGoes(STOPPED, Parking(LATE), Idle, 1, true, Move(PARKED, Idle), end);
  }

  const WRITTEN: BagState := AfterWriteLocked(Unstaged(SECOND.bag), LATE, true)
  const LAST: Machine := Pair(SECOND.(owner := 0, bag := WRITTEN, batch := []), Draining(ThenWrite(NEXT)), Idle, 2)

  lemma LastLog()
    ensures WRITTEN.calls == [Opened, Closed, Opened, Wrote(LATE, true)]
  {
  }

  lemma BothBags()
    ensures Leads(Pair(BEFORE, Idle, Idle, 0), LAST)
  {
    FlushesLate(SECOND, 2);
    SecondBag(LAST);
    FirstBag(LAST);
    hide *;
  }

  lemma Begins(end: Machine)
    requires Leads(Pair(BEFORE, Idle, Idle, 0), end)
    ensures Reachable(end)
  {
    var threads: set<nat> := {0, 1};
    assert Init(threads) == Pair(BEFORE, Idle, Idle, 0);
    var steps: Schedule :| Runs(Init(threads), steps) && Run(Init(threads), steps) == end;
  }

  /** write() of LATE begins before the first bag is closed, yet LATE is written into the second bag:
    * staging after a stop is not always the end of a message. */
  lemma LateMessageReachesNextBag() returns (end: Machine)
    ensures Reachable(end)
    ensures end.shared.bag.calls == [Opened, Closed, Opened, Wrote(LATE, true)]
  {
    end := LAST;
    LastLog();
    BothBags();
    Begins(end);
    hide Leads, AfterWriteLocked;
  }
}
