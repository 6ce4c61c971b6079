/** Exactly which messages are recorded: those delivered while the bag is open, their topic subscribed and the recorder
  * not paused, the message that ends the pause included
  * (packages/rosbag2_dynamic_recorder/src/dynamic_recorder.cpp). */
module Recording {
  import opened BagStore
  import opened RecorderState
  import opened RecorderInvariants
  import opened RecorderRuns
  import opened Reading
  import opened Timers
  import opened Delivery
  import opened Promises
  import CleanCut
  import S = Scheduling

  /** A bag is open and the recorder takes the message. */
  predicate Recorded(s: State, m: Message) { s.bag.open && Takes(s, m) }

  /** What a message fires hands the writer nothing. */
  lemma FiringHandsNothing(c: Config, s: State, m: Message, tick: Tick, splitOk: bool, delay: nat)
    requires Quiet(s.bag)
    ensures var after := FireDue(c, s, m, tick, splitOk, delay);
            Quiet(after.bag) && after.bag.open == s.bag.open && CleanCut.HandedTo(after) == CleanCut.HandedTo(s)
  {
    hide ResumeNow, SplitNow;
    var (scheduler, due) := S.AfterTakeDue(s.scheduler, ArrivalOf(m));
    var taken := s.(scheduler := scheduler);
    CleanCut.ResumeIsNoMessage(c, taken, tick);
    CleanCut.SplitIsNoMessage(c, if due.resume then ResumeNow(c, taken, tick) else taken, splitOk, delay);
  }

  lemma WriteIsOneCall(b: BagState, m: Message, accepts: Message -> bool)
    requires Quiet(b) && b.open
    ensures AfterWrite(b, m, false, accepts).calls == b.calls + [Wrote(m, accepts(m))]
  {
  }

  /** A delivered message is handed to the writer exactly when the bag is open, its topic is subscribed, and the recorder
    * is not paused or a scheduled resume is due on it; the bag then holds it exactly when the writer takes it. */
  lemma MessageIsRecordedExactly(c: Config, s: State, m: Message, tick: Tick, splitOk: bool, delay: nat)
    requires Shape(s) && Sound(s.scheduler)
    ensures var after := Exec(c, s, CMessage(m, tick, splitOk, delay));
            && CleanCut.HandedTo(after) == CleanCut.HandedTo(s) + (if Recorded(s, m) then [m] else [])
            && Kept(after) == Kept(s) + (if Recorded(s, m) && c.accepts(m) then [m] else [])
  {
    var ready := FireDue(c, s, m, tick, splitOk, delay);
    MessageFires(c, s, m, tick, splitOk, delay);
    FiringHandsNothing(c, s, m, tick, splitOk, delay);
    FireUnheard(c, s, m, tick, splitOk, delay);
    if m.topic in s.subs && !ready.paused {
      WriteIsOneCall(ready.bag, m, c.accepts);
      CalledFacts(ready.bag.calls, Wrote(m, c.accepts(m)));
      StoredStep(ready.bag.calls, Wrote(m, c.accepts(m)));
    }
    hide FireDue, AfterWrite, DueOn, StoredMessages, Handed;
  }

  /** What the open bag, or the last one, is to hold after each command. */
  ghost function Held(c: Config, start: State, cmds: seq<Command>): seq<Message> {
    if cmds == [] then Kept(start)
    else
      var n := |cmds| - 1;
      var s, cmd := ExecAll(c, start, cmds[..n]), cmds[n];
      if Opens(ViewOf(s), cmd) then []
      else
        Held(c, start, cmds[..n])
          + if cmd.CMessage? && Recorded(s, cmd.m) && c.accepts(cmd.m) then [cmd.m] else []
  }

  lemma OpeningsHoldNothing(c: Config, s: State, cmd: Command)
    requires Shape(s) && Sound(s.scheduler) && (cmd.CRecord? || cmd.CRecordTimer?)
    ensures Kept(Exec(c, s, cmd)) == if Opens(ViewOf(s), cmd) then [] else Kept(s)
  {
    TimerIsForItsSlot(s.scheduler, S.Record);
    RecordUnheard(c, s, cmd.graph, cmd.opening, cmd.tries);
    RecordUnheard(c, s.(scheduler := S.AfterTimer(s.scheduler, S.Record)), cmd.graph, cmd.opening, cmd.tries);
    hide Record, Shape, StoredMessages;
  }

  lemma CommandHoldsExactly(c: Config, s: State, cmd: Command)
    requires Shape(s) && Sound(s.scheduler)
    ensures Kept(Exec(c, s, cmd)) ==
            if Opens(ViewOf(s), cmd) then []
            else Kept(s) + if cmd.CMessage? && Recorded(s, cmd.m) && c.accepts(cmd.m) then [cmd.m] else []
  {
    hide Exec, StoredMessages, Recorded;
    if cmd.CMessage? { MessageIsRecordedExactly(c, s, cmd.m, cmd.tick, cmd.splitOk, cmd.delay); }
    else if cmd.CRecord? || cmd.CRecordTimer? { OpeningsHoldNothing(c, s, cmd); }
    else { EveryCommandHears(c, s, cmd); }
    hide Shape;
  }

  /** In every run the bag holds, in order, exactly the messages delivered since it was opened that the recorder was to
    * record and the writer took. */
  lemma {:induction false} RunHoldsExactly(c: Config, start: State, cmds: seq<Command>)
    requires Reaches(c, start)
    ensures Kept(ExecAll(c, start, cmds)) == Held(c, start, cmds)
  {
    hide Exec, Shape, Sound, Reaches, StoredMessages;
    ReachesSound(c, start);
    if cmds == [] {
    } else {
      var n := |cmds| - 1;
      RunHoldsExactly(c, start, cmds[..n]);
      RunStaysSound(c, start, cmds[..n]);
      CommandHoldsExactly(c, ExecAll(c, start, cmds[..n]), cmds[n]);
    }
  }
}
