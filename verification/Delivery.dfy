/** Which messages a bag holds: those delivered by the run that made it, and no others. */
module Delivery {
  import opened Timeline
  import opened BagStore
  import opened RecorderState
  import opened RecorderInvariants
  import opened Reading
  import opened Timers
  import Names
  import S = Scheduling

  function Kept(s: State): seq<Message> { StoredMessages(s.bag.calls) }

  /** Nothing was delivered: the bag holds the messages it held, and nothing is staged. */
  predicate Unheard(b: BagState, after: BagState) {
    Quiet(after) && StoredMessages(after.calls) == StoredMessages(b.calls)
  }

  // ---- the bag's operations -----------------------------------------------------------------------------

  lemma EventUnheard(c: Config, b: BagState, e: Event, fate: Fate)
    requires Quiet(b)
    ensures Unheard(b, RecordEvent(c, b, e, fate))
  {
    var topic, typeName := EventTopic(e.kind), EventType(e.kind);
    if b.open {
      LogEventWentOn(b, topic, typeName, e, fate);
      FlushQuiet(LogEvent(b, topic, typeName, e, fate), c.accepts);
      var made := b.calls + [Created(topic, typeName, !fate.ChannelFailed?)];
      StoredStep(b.calls, Created(topic, typeName, !fate.ChannelFailed?));
      StoredStep(if topic in b.channels then b.calls else made, WroteEvent(e, fate.Stored?));
      hide StoredMessages, EventTopic, EventType;
    }
  }

  lemma ChannelUnheard(c: Config, b: BagState, topic: string, typeName: string, ok: bool)
    requires Quiet(b)
    ensures Unheard(b, AfterEnsureChannel(b, topic, typeName, ok, c.accepts).0)
  {
    StoredStep(b.calls, Created(topic, typeName, ok));
    FlushQuiet(CreateChannel(b, topic, typeName, ok), c.accepts);
    hide StoredMessages;
  }

  lemma OtherUnheard(c: Config, b: BagState, ok: bool)
    requires Quiet(b)
    ensures Unheard(b, AfterSplit(b, ok, c.accepts)) && Unheard(b, AfterSnapshot(b, ok, c.accepts))
  {
    StoredStep(b.calls, Call.SplitFile(ok));
    StoredStep(b.calls, TookSnapshot(ok));
    FlushQuiet(Called(b, Call.SplitFile(ok)), c.accepts);
    FlushQuiet(Called(b, TookSnapshot(ok)), c.accepts);
    hide StoredMessages;
  }

  lemma CloseUnheard(c: Config, b: BagState)
    requires Quiet(b)
    ensures Unheard(b, AfterClose(b, c.accepts))
  {
    if b.open {
      FlushQuiet(b, c.accepts);
      StoredStep(b.calls, Closed);
      FlushQuiet(Called(b.(open := false), Closed), c.accepts);
      hide StoredMessages;
    }
  }

  // ---- the recorder's operations ---------------------------------------------------------------------------

  lemma EmitUnheard(c: Config, s: State, kind: Kind, action: Action, topic: string, record: bool, tick: Tick)
    requires Quiet(s.bag)
    ensures Unheard(s.bag, Emit(c, s, kind, action, topic, record, tick).bag)
  {
    if record { EventUnheard(c, s.bag, Event(kind, action, s.clock + tick.delay, topic), tick.fate); }
    hide RecordEvent;
  }

  lemma SubscribeUnheard(c: Config, s: State, topic: string, typeName: string, a: Attempt)
    requires Quiet(s.bag)
    ensures Unheard(s.bag, SubscribeTopic(c, s, topic, typeName, a).0.bag)
  {
    hide Emit, AfterEnsureChannel, StoredMessages, StoredEvents;
    ChannelUnheard(c, s.bag, topic, typeName, a.createOk);
    var bag := AfterEnsureChannel(s.bag, topic, typeName, a.createOk, c.accepts).0;
    var held := s.(bag := bag, subs := s.subs[topic := Sub(s.nextHandle, typeName)], nextHandle := s.nextHandle + 1);
    EmitUnheard(c, held, Subscription, Subscribed, topic, c.recordSubscriptions, a.tick);
  }

  lemma UnsubscribeUnheard(c: Config, s: State, topic: string, tick: Tick)
    requires Quiet(s.bag)
    ensures Unheard(s.bag, UnsubscribeTopic(c, s, topic, tick).bag)
  {
    EmitUnheard(c, s.(subs := s.subs - {topic}), Subscription, Unsubscribed, topic, c.recordSubscriptions, tick);
    hide Emit, StoredMessages;
  }

  lemma PauseUnheard(c: Config, s: State, tick: Tick)
    requires Quiet(s.bag)
    ensures Unheard(s.bag, PauseNow(c, s, tick).bag) && Unheard(s.bag, ResumeNow(c, s, tick).bag)
  {
    EmitUnheard(c, s.(paused := true), Pause, Paused, "", c.recordPauses, tick);
    EmitUnheard(c, s.(paused := false), Pause, Resumed, "", c.recordPauses, tick);
    hide Emit, StoredMessages;
  }

  lemma SplitUnheard(c: Config, s: State, ok: bool, delay: nat)
    requires Quiet(s.bag)
    ensures Unheard(s.bag, SplitNow(c, s, ok, delay).bag)
  {
    OtherUnheard(c, s.bag, ok);
    hide AfterSplit, StoredMessages;
  }

  lemma {:induction false} BatchUnheard(c: Config, s: State, sel: Selection, graph: Graph, tries: nat -> Attempt, n: nat)
    requires Quiet(s.bag) && n <= |sel.topics|
    ensures Unheard(s.bag, SubscribeFirst(c, s, sel, graph, tries, n).state.bag)
  {
    hide SubscribeTopic, StoredMessages;
    if n == 0 {
    } else {
      BatchUnheard(c, s, sel, graph, tries, n - 1);
      var b := SubscribeFirst(c, s, sel, graph, tries, n - 1);
      var typeName := TypeFor(sel, graph, n - 1);
      if typeName.Some? { SubscribeUnheard(c, b.state, sel.topics[n - 1], typeName.value, tries(n - 1)); }
    }
  }

  lemma {:induction false} DropsUnheard(c: Config, s: State, topics: seq<string>, keep: set<string>, ticks: nat -> Tick, n: nat)
    requires Quiet(s.bag) && n <= |topics|
    ensures Unheard(s.bag, UnsubscribeFirst(c, s, topics, keep, ticks, n).0.bag)
  {
    hide UnsubscribeTopic, StoredMessages;
    if n == 0 {
    } else {
      DropsUnheard(c, s, topics, keep, ticks, n - 1);
      UnsubscribeUnheard(c, UnsubscribeFirst(c, s, topics, keep, ticks, n - 1).0, topics[n - 1], ticks(n - 1));
    }
  }

  lemma {:induction false} DeferredUnheard(c: Config, b: BagState, events: seq<Event>, fates: nat -> Fate)
    requires Quiet(b)
    ensures Unheard(b, WriteDeferred(c, b, events, fates))
  {
    hide RecordEvent, StoredMessages;
    if events == [] {
    } else {
      var n := |events| - 1;
      DeferredUnheard(c, b, events[..n], fates);
      EventUnheard(c, WriteDeferred(c, b, events[..n], fates), events[n], fates(n));
    }
  }

  lemma StopUnheard(c: Config, s: State, how: Stopping)
    requires Quiet(s.bag)
    ensures Unheard(s.bag, Stop(c, s, how).bag)
  {
    DeferredUnheard(c, s.bag, s.deferred, how.fates);
    CloseUnheard(c, WriteDeferred(c, s.bag, s.deferred, how.fates));
    hide WriteDeferred, AfterClose, StoredMessages;
  }

  /** A bag just opened holds no message. */
  lemma RecordUnheard(c: Config, s: State, graph: Graph, how: Opening, tries: nat -> Attempt)
    requires Quiet(s.bag)
    ensures var after := Record(c, s, graph, how, tries);
            Quiet(after.bag) && Kept(after) == if Reopens(s, how) then [] else Kept(s)
  {
    hide OpenBag, SubscribeFirst, StoredMessages;
    if Reopens(s, how) {
      OpenUnheard(c, s, how);
      var ready := OpenBag(c, s, how).(stoppedForLowDisk := false, stoppedForMaxBagSize := false, topicsAtStop := []);
      BatchUnheard(c, ready, Selection(s.topicsAtStop, []), graph, tries, |s.topicsAtStop|);
    }
  }

  lemma OpenUnheard(c: Config, s: State, how: Opening)
    requires Quiet(s.bag)
    ensures Quiet(OpenBag(c, s, how).bag) && Kept(OpenBag(c, s, how)) == []
  {
    hide Emit, StoredMessages;
    var begun := s.(clock := s.clock + how.delay, bag := AfterOpen(s.bag, c.maxCacheSize));
    OpenFacts(c, s.bag);
    StoredStep(s.bag.calls, Opened);
    EmitUnheard(c, begun, Pause, Paused, "", c.recordPauses, how.tick);
  }

  lemma FireUnheard(c: Config, s: State, m: Message, tick: Tick, splitOk: bool, delay: nat)
    requires Quiet(s.bag)
    ensures Unheard(s.bag, FireDue(c, s, m, tick, splitOk, delay).bag)
  {
    hide ResumeNow, SplitNow, StoredMessages;
    var (scheduler, due) := S.AfterTakeDue(s.scheduler, ArrivalOf(m));
    var taken := s.(scheduler := scheduler);
    PauseUnheard(c, taken, tick);
    SplitUnheard(c, if due.resume then ResumeNow(c, taken, tick) else taken, splitOk, delay);
  }

  /** The recorder records this message: its topic is subscribed, and the recorder is not paused, or a resume scheduled
    * on a message's time is due on this very one. */
  predicate Takes(s: State, m: Message) {
    m.topic in s.subs && (!s.paused || DueOn(s.scheduler.resume.scheduled, ArrivalOf(m)))
  }

  /** What a command may add to the messages the bag holds: the one it delivers, if it is to be recorded. */
  ghost predicate Hears(s: State, cmd: Command, after: State) {
    && Quiet(after.bag)
    && (!cmd.CMessage? && !cmd.CRecord? && !cmd.CRecordTimer? ==> Kept(after) == Kept(s))
    && forall x | x in Kept(after) :: x in Kept(s) || (cmd.CMessage? && x == cmd.m && Takes(s, x))
  }

  /** Past the pause gate only if nothing was paused, or the message itself ended the pause. */
  lemma GateOpens(c: Config, s: State, m: Message, tick: Tick, splitOk: bool, delay: nat)
    requires m.topic in s.subs && !FireDue(c, s, m, tick, splitOk, delay).paused
    ensures Takes(s, m)
  {
    hide RecordEvent, AfterSplit;
  }

  /** A write with nothing staged is one call of the writer, or none. */
  lemma WriteHeard(b: BagState, m: Message, accepts: Message -> bool)
    requires Quiet(b)
    ensures var after := AfterWrite(b, m, false, accepts);
            Quiet(after) && forall x | x in StoredMessages(after.calls) :: x in StoredMessages(b.calls) || x == m
  {
    if b.open { StoredStep(b.calls, Wrote(m, accepts(m))); }
    hide StoredMessages;
  }

  lemma MessageHeard(c: Config, s: State, cmd: Command)
    requires Quiet(s.bag) && cmd.CMessage?
    ensures Hears(s, cmd, Exec(c, s, cmd))
  {
    hide FireDue, StoredMessages;
    var ready := FireDue(c, s, cmd.m, cmd.tick, cmd.splitOk, cmd.delay);
    FireUnheard(c, s, cmd.m, cmd.tick, cmd.splitOk, cmd.delay);
    WriteHeard(ready.bag, cmd.m, c.accepts);
    if cmd.m.topic in s.subs && !ready.paused { GateOpens(c, s, cmd.m, cmd.tick, cmd.splitOk, cmd.delay); }
    hide AfterWrite, Takes;
  }

  lemma SelectionHeard(c: Config, s: State, cmd: Command)
    requires Quiet(s.bag) && (cmd.CSubscribe? || cmd.CUnsubscribe? || cmd.CReplace?)
    ensures Hears(s, cmd, Exec(c, s, cmd))
  {
    hide SubscribeFirst, UnsubscribeFirst, StoredMessages;
    if cmd.CSubscribe? {
      BatchUnheard(c, s, cmd.sel, cmd.graph, cmd.tries, |cmd.sel.topics|);
    } else if cmd.CUnsubscribe? {
      DropsUnheard(c, s, cmd.topics, {}, cmd.drops, |cmd.topics|);
    } else {
      var listed := Names.Listing(s.subs.Keys);
      var keep := NamesIn(cmd.sel.topics);
      DropsUnheard(c, s, listed, keep, cmd.drops, |listed|);
      BatchUnheard(c, UnsubscribeFirst(c, s, listed, keep, cmd.drops, |listed|).0, cmd.sel, cmd.graph, cmd.tries, |cmd.sel.topics|);
    }
  }

  lemma TimerHeard(c: Config, s: State, cmd: Command)
    requires Quiet(s.bag) && (cmd.CResumeTimer? || cmd.CSplitTimer? || cmd.CRecordTimer? || cmd.CRecord?)
    ensures Hears(s, cmd, Exec(c, s, cmd))
  {
    hide ResumeNow, SplitNow, Record, StoredMessages, Reopens;
    if cmd.CResumeTimer? { PauseUnheard(c, s.(scheduler := S.AfterTimer(s.scheduler, S.Resume)), cmd.tick); }
    else if cmd.CSplitTimer? { SplitUnheard(c, s.(scheduler := S.AfterTimer(s.scheduler, S.Split)), cmd.splitOk, cmd.delay); }
    else if cmd.CRecordTimer? { RecordUnheard(c, s.(scheduler := S.AfterTimer(s.scheduler, S.Record)), cmd.graph, cmd.opening, cmd.tries); }
    else { RecordUnheard(c, s, cmd.graph, cmd.opening, cmd.tries); }
  }

  lemma PauseHeard(c: Config, s: State, cmd: Command)
    requires Quiet(s.bag) && (cmd.CPause? || cmd.CResume? || cmd.CResumeAt? || cmd.CSplitAt?)
    ensures Hears(s, cmd, Exec(c, s, cmd))
  {
    hide PauseNow, ResumeNow, SplitNow, StoredMessages;
    if cmd.CSplitAt? { SplitUnheard(c, s, cmd.splitOk, cmd.delay); } else { PauseUnheard(c, s, cmd.tick); }
  }

  lemma StopHeard(c: Config, s: State, cmd: Command)
    requires Quiet(s.bag) && (cmd.CStop? || cmd.CCheckFreeSpace? || cmd.CCheckBagSize?)
    ensures Hears(s, cmd, Exec(c, s, cmd))
  {
    hide Stop, Emit, StoredMessages;
    if cmd.CStop? {
      StopUnheard(c, s, cmd.stopping);
    } else if cmd.CCheckFreeSpace? {
      EmitUnheard(c, s, LowDisk, Stopped, "", c.recordLowDisk, cmd.tick);
      StopUnheard(c, Emit(c, s, LowDisk, Stopped, "", c.recordLowDisk, cmd.tick).(stoppedForLowDisk := true), cmd.stopping);
    } else {
      EmitUnheard(c, s, BagSizeLimit, Stopped, "", c.recordBagSize, cmd.tick);
      StopUnheard(c, Emit(c, s, BagSizeLimit, Stopped, "", c.recordBagSize, cmd.tick).(stoppedForMaxBagSize := true), cmd.stopping);
    }
  }

  lemma EveryCommandHears(c: Config, s: State, cmd: Command)
    requires Quiet(s.bag)
    ensures Hears(s, cmd, Exec(c, s, cmd))
  {
    if cmd.CMessage? { MessageHeard(c, s, cmd); }
    else if cmd.CSubscribe? || cmd.CUnsubscribe? || cmd.CReplace? { SelectionHeard(c, s, cmd); }
    else if cmd.CResumeTimer? || cmd.CSplitTimer? || cmd.CRecordTimer? || cmd.CRecord? { TimerHeard(c, s, cmd); }
    else if cmd.CPause? || cmd.CResume? || cmd.CResumeAt? || cmd.CSplitAt? { PauseHeard(c, s, cmd); }
    else if cmd.CStop? || cmd.CCheckFreeSpace? || cmd.CCheckBagSize? { StopHeard(c, s, cmd); }
    else { AsideHeard(c, s, cmd); }
    hide Exec;
  }

  lemma AsideHeard(c: Config, s: State, cmd: Command)
    requires Quiet(s.bag) && (cmd.CIdle? || cmd.CSnapshot? || cmd.CRecordAt? || cmd.CRollover? || cmd.CRecordDeferred?)
    ensures Hears(s, cmd, Exec(c, s, cmd))
  {
    hide WriteDeferred, AfterSnapshot, StoredMessages;
    if cmd.CSnapshot? { OtherUnheard(c, s.bag, cmd.ok); }
    else if cmd.CRecordDeferred? { DeferredUnheard(c, s.bag, s.deferred, cmd.fates); }
  }

  /** Command `i` of the run delivered `x` to a recorder that was to record it. */
  ghost predicate DeliveredAt(c: Config, s: State, cmds: seq<Command>, i: int, x: Message) {
    0 <= i < |cmds| && cmds[i].CMessage? && cmds[i].m == x && Takes(ExecAll(c, s, cmds[..i]), x)
  }

  lemma DeliveredEarlier(c: Config, s: State, cmds: seq<Command>, n: nat, i: int, x: Message)
    requires n <= |cmds| && DeliveredAt(c, s, cmds[..n], i, x)
    ensures DeliveredAt(c, s, cmds, i, x)
  {
    assert cmds[..n][..i] == cmds[..i];
  }

  /** After any run every message in the bag was there before it or was delivered by one of its commands, to a recorder
    * subscribed to its topic and either not paused or resumed by this very message. */
  lemma {:induction false} RunHears(c: Config, s: State, cmds: seq<Command>)
    requires Quiet(s.bag)
    ensures Quiet(ExecAll(c, s, cmds).bag)
    ensures forall x | x in Kept(ExecAll(c, s, cmds)) :: x in Kept(s) || exists i :: DeliveredAt(c, s, cmds, i, x)
  {
    hide Exec, StoredMessages, Takes;
    if cmds == [] {
    } else {
      var n := |cmds| - 1;
      RunHears(c, s, cmds[..n]);
      EveryCommandHears(c, ExecAll(c, s, cmds[..n]), cmds[n]);
      forall x | x in Kept(ExecAll(c, s, cmds)) && x !in Kept(s) ensures exists i :: DeliveredAt(c, s, cmds, i, x) {
        if x in Kept(ExecAll(c, s, cmds[..n])) {
          var i :| DeliveredAt(c, s, cmds[..n], i, x);
          DeliveredEarlier(c, s, cmds, n, i, x);
        } else {
          assert DeliveredAt(c, s, cmds, n, x);
        }
      }
    }
  }
}
