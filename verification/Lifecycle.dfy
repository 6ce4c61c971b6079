/** The life of bags: what holds between operations, self-stops, channels, and stop followed by record. */
module Lifecycle {
  import opened Options
  import opened Timeline
  import opened BagStore
  import opened RecorderState
  import opened RecorderInvariants
  import opened RecorderRuns
  import opened Explanation
  import opened Selections
  import opened Promises
  import Names

  // ---- between operations ---------------------------------------------------------------------------------

  /** A stopped recorder holds no subscription and no pending resume or split; a recording one has, for every
    * subscription, a channel of the subscription's own type, and no two subscriptions are one object. */
  lemma BetweenOperations(c: Config, s: State)
    requires Reaches(c, s)
    ensures !s.bag.open ==> s.subs == map[] && s.scheduler.resume.scheduled.None? && s.scheduler.split.scheduled.None?
    ensures s.bag.open ==> forall x | x in s.subs :: x in s.bag.channels && s.bag.channels[x] == s.subs[x].typeName
    ensures forall x, y | x in s.subs && y in s.subs && x != y :: s.subs[x].handle != s.subs[y].handle
  {
    ReachesShape(c, s);
  }

  /** The two flags are never both set, either one means stopped, and a bag ends with at most one self-stop, for
    * the reason the flag gives. */
  lemma SelfStopsOnce(c: Config, s: State)
    requires Reaches(c, s)
    ensures !(s.stoppedForLowDisk && s.stoppedForMaxBagSize)
    ensures s.stoppedForLowDisk || s.stoppedForMaxBagSize ==> !s.bag.open
    ensures |SelfStops(Log(s))| <= 1 && (s.bag.open ==> SelfStops(Log(s)) == [])
    ensures forall kind | kind in SelfStops(Log(s)) :: StoppedFor(s, kind)
  {
    ReachesShape(c, s);
  }

  /** A tripped disk guard explains itself inside the bag it ends, and on the same tick the size guard then
    * finds the recording stopped. */
  lemma GuardSpeaksOnce(c: Config, s: State, tick: Tick, how: Stopping, tooBig: bool, tick': Tick, how': Stopping)
    requires Reaches(c, s) && s.bag.open && c.recordLowDisk && tick.fate.Stored?
    ensures var after := CheckFreeSpace(c, s, true, tick, how);
            && !after.bag.open && after.stoppedForLowDisk && !after.stoppedForMaxBagSize
            && SelfStops(Log(after)) == [LowDisk]
            && CheckBagSize(c, after, tooBig, tick', how') == after
  {
    ReachesShape(c, s);
    var told := Emit(c, s, LowDisk, Stopped, "", c.recordLowDisk, tick);
    var marked := told.(stoppedForLowDisk := true);
    EmitFacts(c, s, LowDisk, Stopped, "", c.recordLowDisk, tick);
    SelfStopsAppend(Log(s), Event(LowDisk, Stopped, told.clock, ""));
    GuardEventKeeps(c, Pausing, s, LowDisk, c.recordLowDisk, tick);
    assert Shape(marked);
    StopKeeps(c, Pausing, marked, how);
  }

  ghost predicate OpenThroughout(c: Config, start: State, cmds: seq<Command>) {
    forall i | 0 <= i <= |cmds| :: ExecAll(c, start, cmds[..i]).bag.open
  }

  lemma OneFewer(cmds: seq<Command>, i: nat)
    requires cmds != [] && i <= |cmds| - 1
    ensures cmds[..|cmds| - 1][..i] == cmds[..i]
  {
  }

  /** Within one bag channels are only ever added, and none changes its type, whatever is unsubscribed,
    * resubscribed or replaced. */
  lemma {:induction false} ChannelsOnlyGrow(c: Config, start: State, cmds: seq<Command>)
    requires Shape(start) && OpenThroughout(c, start, cmds)
    ensures Extends(start.bag.channels, ExecAll(c, start, cmds).bag.channels)
  {
    if cmds == [] {
    } else {
      var n := |cmds| - 1;
      forall i | 0 <= i <= n ensures ExecAll(c, start, cmds[..n][..i]).bag.open { OneFewer(cmds, i); }
      ChannelsOnlyGrow(c, start, cmds[..n]);
      RunAdvances(c, Pausing, start, cmds[..n]);
      EveryCommand(c, Pausing, ExecAll(c, start, cmds[..n]), cmds[n]);
      assert cmds[..|cmds|] == cmds;
      assert ExecAll(c, start, cmds[..n]).bag.open && ExecAll(c, start, cmds[..n + 1]).bag.open;
    }
  }

  // ---- stop, then record ------------------------------------------------------------------------------------

  ghost predicate ClosedThroughout(c: Config, start: State, cmds: seq<Command>) {
    forall i | 0 <= i <= |cmds| :: !ExecAll(c, start, cmds[..i]).bag.open
  }

  /** Repeated stops, failed records and anything else done while stopped leave the saved selection alone. */
  lemma {:induction false} SelectionStaysSaved(c: Config, start: State, cmds: seq<Command>)
    requires Shape(start) && ClosedThroughout(c, start, cmds)
    ensures Shape(ExecAll(c, start, cmds)) && ExecAll(c, start, cmds).topicsAtStop == start.topicsAtStop
  {
    if cmds == [] {
    } else {
      var n := |cmds| - 1;
      forall i | 0 <= i <= n ensures !ExecAll(c, start, cmds[..n][..i]).bag.open { OneFewer(cmds, i); }
      SelectionStaysSaved(c, start, cmds[..n]);
      EveryCommand(c, Pausing, ExecAll(c, start, cmds[..n]), cmds[n]);
      assert cmds[..|cmds|] == cmds;
      assert !ExecAll(c, start, cmds[..n]).bag.open && !ExecAll(c, start, cmds[..n + 1]).bag.open;
    }
  }

  // ---- restoring the selection on a new bag -------------------------------------------------------------------

  /** The channel that opening a bag makes for `x`: its first event's, if it opens paused. */
  function OpeningChannel(c: Config, paused: bool, tick: Tick, x: string): Option<string> {
    if paused && c.recordPauses then WithEvent(None, x, Pause, tick.fate) else None
  }

  /** A topic can be subscribed on a new bag that has this channel for it, or none. */
  predicate Restorable(graph: Graph, topic: string, a: Attempt, channel: Option<string>) {
    && SingleType(graph, topic).Some? && a.nameOk && a.subscribeOk
    && if channel.Some? then channel == SingleType(graph, topic) else a.createOk
  }

  /** Restoring `saved[j]` works and its announcement makes the channel of the recorder's subscription events. */
  predicate MakesChannel(c: Config, paused: bool, tick: Tick, saved: seq<string>, graph: Graph, tries: nat -> Attempt, j: nat)
    requires j < |saved|
  {
    && c.recordSubscriptions && !tries(j).tick.fate.ChannelFailed?
    && Restorable(graph, saved[j], tries(j), OpeningChannel(c, paused, tick, saved[j]))
  }

  /** Restoring `saved[i]` works: its one channel not its own doing is the opening's or, for the recorder's subscription
    * events, one made by an announcement before it. */
  predicate Restores(c: Config, paused: bool, tick: Tick, saved: seq<string>, graph: Graph, tries: nat -> Attempt, i: nat)
    requires i < |saved|
  {
    var announced := saved[i] == EventTopic(Subscription)
                     && exists j | 0 <= j < i :: MakesChannel(c, paused, tick, saved, graph, tries, j);
    Restorable(graph, saved[i], tries(i),
               if announced then Some(EventType(Subscription)) else OpeningChannel(c, paused, tick, saved[i]))
  }

  lemma EventTopicsDiffer()
    ensures EventTopic(Pause) != EventTopic(Subscription)
  {
    EventTopicsStream(Pause);
    EventTopicsStream(Subscription);
    hide StreamOf;
  }

  /** Before its own attempt a topic, if it is not that of the subscription events, has the channel it had. */
  lemma {:induction false} SameChannelYet(c: Config, ready: State, sel: Selection, graph: Graph, tries: nat -> Attempt, n: nat, x: string)
    requires n <= |sel.topics| && x != EventTopic(Subscription) && x !in sel.topics[..n]
    ensures ChannelBefore(c, ready, sel, graph, tries, n, x) == ChannelOf(ready.bag, x)
  {
    if n == 0 {
    } else {
      assert sel.topics[..n] == sel.topics[..n - 1] + [sel.topics[n - 1]];
      SameChannelYet(c, ready, sel, graph, tries, n - 1, x);
      hide Adds;
    }
  }

  /** A bag just opened, with nothing subscribed yet. */
  predicate Fresh(c: Config, ready: State, tick: Tick, x: string) {
    ready.subs == map[] && ChannelOf(ready.bag, x) == OpeningChannel(c, ready.paused, tick, x)
  }

  lemma OthersGet(c: Config, ready: State, tick: Tick, saved: seq<string>, graph: Graph, tries: nat -> Attempt, i: nat)
    requires i < |saved| && Names.Strict(saved) && saved[i] != EventTopic(Subscription) && Fresh(c, ready, tick, saved[i])
    ensures var sel := Selection(saved, []);
            var can := Restorable(graph, saved[i], tries(i), OpeningChannel(c, ready.paused, tick, saved[i]));
            (Gets(c, ready, sel, graph, tries, i) <==> can) && (Adds(c, ready, sel, graph, tries, i) <==> can)
  {
    var sel := Selection(saved, []);
    assert saved[i] !in saved[..i];
    SameChannelYet(c, ready, sel, graph, tries, i, saved[i]);
    assert forall j | 0 <= j < i :: saved[j] != saved[i];
    hide ChannelBefore, OpeningChannel;
  }

  lemma AnnouncedOn(c: Config, ready: State, tick: Tick, saved: seq<string>, graph: Graph, tries: nat -> Attempt, n: nat)
    requires n < |saved| && Names.Strict(saved) && saved[n] != EventTopic(Subscription) && Fresh(c, ready, tick, saved[n])
    ensures var sel, own := Selection(saved, []), EventTopic(Subscription);
            var before := ChannelBefore(c, ready, sel, graph, tries, n, own);
            ChannelBefore(c, ready, sel, graph, tries, n + 1, own) ==
            if before.None? && MakesChannel(c, ready.paused, tick, saved, graph, tries, n) then Some(EventType(Subscription))
            else before
  {
    OthersGet(c, ready, tick, saved, graph, tries, n);
    hide Adds, EventTopic, OpeningChannel, Restorable, Fresh;
  }

  lemma {:induction false} AnnouncedChannel(c: Config, ready: State, tick: Tick, saved: seq<string>, graph: Graph,
                                            tries: nat -> Attempt, n: nat)
    requires n <= |saved| && Names.Strict(saved) && EventTopic(Subscription) !in saved[..n]
    requires forall x: string :: Fresh(c, ready, tick, x)
    ensures ChannelBefore(c, ready, Selection(saved, []), graph, tries, n, EventTopic(Subscription)) ==
            if exists j | 0 <= j < n :: MakesChannel(c, ready.paused, tick, saved, graph, tries, j)
            then Some(EventType(Subscription)) else None
  {
    EventTopicsDiffer();
    var own := EventTopic(Subscription);
    if n == 0 {
      assert Fresh(c, ready, tick, own);
      assert ChannelBefore(c, ready, Selection(saved, []), graph, tries, 0, own) == OpeningChannel(c, ready.paused, tick, own) == None;
    } else {
      assert saved[..n] == saved[..n - 1] + [saved[n - 1]];
      hide ChannelBefore, MakesChannel, Fresh;
      AnnouncedChannel(c, ready, tick, saved, graph, tries, n - 1);
      assert Fresh(c, ready, tick, saved[n - 1]) && saved[n - 1] in saved[..n];
      AnnouncedOn(c, ready, tick, saved, graph, tries, n - 1);
    }
  }

  lemma GetsRestores(c: Config, ready: State, tick: Tick, saved: seq<string>, graph: Graph, tries: nat -> Attempt, i: nat)
    requires i < |saved| && Names.Strict(saved) && forall x: string :: Fresh(c, ready, tick, x)
    ensures Gets(c, ready, Selection(saved, []), graph, tries, i) <==>
            Restores(c, ready.paused, tick, saved, graph, tries, i)
  {
    assert Fresh(c, ready, tick, saved[i]);
    if saved[i] == EventTopic(Subscription) {
      EventTopicsDiffer();
      assert saved[i] !in saved[..i];
      AnnouncedChannel(c, ready, tick, saved, graph, tries, i);
    } else {
      OthersGet(c, ready, tick, saved, graph, tries, i);
    }
    hide ChannelBefore, MakesChannel, EventTopic, Fresh;
  }

  /** The channels of a bag just opened. */
  lemma OpenedChannels(c: Config, s: State, how: Opening, x: string)
    requires Quiet(s.bag)
    ensures ChannelOf(OpenBag(c, s, how).bag, x) == OpeningChannel(c, s.paused, how.tick, x)
  {
    OpenFacts(c, s.bag);
    var begun := s.(clock := s.clock + how.delay, bag := AfterOpen(s.bag, c.maxCacheSize));
    EventChannels(c, begun.bag, Event(Pause, Paused, begun.clock + how.tick.delay, ""), how.tick.fate);
    hide RecordEvent, EventTopic;
  }

  /** The new bag as record() has it when it restores the selection. */
  function Renewed(c: Config, s: State, how: Opening): State {
    OpenBag(c, s, how).(stoppedForLowDisk := false, stoppedForMaxBagSize := false, topicsAtStop := [])
  }

  lemma LowDiskSaves(c: Config, s: State, tick: Tick, how: Stopping)
    requires Shape(s) && s.bag.open
    ensures var after := Stop(c, Emit(c, s, LowDisk, Stopped, "", c.recordLowDisk, tick).(stoppedForLowDisk := true), how);
            Shape(after) && after.topicsAtStop == Names.Listing(s.subs.Keys)
  {
    hide Stop, Emit, Shape;
    GuardSaves(c, s, LowDisk, c.recordLowDisk, tick, how,
      Emit(c, s, LowDisk, Stopped, "", c.recordLowDisk, tick).(stoppedForLowDisk := true));
  }

  lemma BagSizeSaves(c: Config, s: State, tick: Tick, how: Stopping)
    requires Shape(s) && s.bag.open
    ensures var after := Stop(c, Emit(c, s, BagSizeLimit, Stopped, "", c.recordBagSize, tick).(stoppedForMaxBagSize := true), how);
            Shape(after) && after.topicsAtStop == Names.Listing(s.subs.Keys)
  {
    hide Stop, Emit, Shape;
    GuardSaves(c, s, BagSizeLimit, c.recordBagSize, tick, how,
      Emit(c, s, BagSizeLimit, Stopped, "", c.recordBagSize, tick).(stoppedForMaxBagSize := true));
  }

  /** The three commands that can close a bag. */
  lemma ClosingCommands(c: Config, s: State, cmd: Command)
    ensures cmd.CStop? ==> Exec(c, s, cmd) == Stop(c, s, cmd.stopping)
    ensures cmd.CCheckFreeSpace? ==> Exec(c, s, cmd) == CheckFreeSpace(c, s, cmd.verdict, cmd.tick, cmd.stopping)
    ensures cmd.CCheckBagSize? ==> Exec(c, s, cmd) == CheckBagSize(c, s, cmd.verdict, cmd.tick, cmd.stopping)
  {
  }

  /** Whatever command closes the bag, be it a stop or a tripped guard, the selection it found is saved. */
  lemma ClosingSaves(c: Config, s: State, cmd: Command)
    requires Shape(s) && s.bag.open && !Exec(c, s, cmd).bag.open
    ensures Shape(Exec(c, s, cmd)) && Exec(c, s, cmd).topicsAtStop == Names.Listing(s.subs.Keys)
  {
    hide Exec;
    ClosingCommands(c, s, cmd);
    if cmd.CStop? {
      StopKeeps(c, Pausing, s, cmd.stopping);
    } else if cmd.CCheckFreeSpace? {
      LowDiskSaves(c, s, cmd.tick, cmd.stopping);
    } else if cmd.CCheckBagSize? {
      BagSizeSaves(c, s, cmd.tick, cmd.stopping);
    } else {
      StaysOpen(c, s, cmd);
    }
    hide Stop, Emit, Shape;
  }

  lemma GuardSaves(c: Config, s: State, kind: Kind, record: bool, tick: Tick, how: Stopping, marked: State)
    requires Shape(s) && s.bag.open && (kind.LowDisk? || kind.BagSizeLimit?)
    requires marked == Emit(c, s, kind, Stopped, "", record, tick).(
                         stoppedForLowDisk := marked.stoppedForLowDisk, stoppedForMaxBagSize := marked.stoppedForMaxBagSize)
    ensures Shape(Stop(c, marked, how)) && Stop(c, marked, how).topicsAtStop == Names.Listing(s.subs.Keys)
  {
    GuardEventKeeps(c, Pausing, s, kind, record, tick);
    EmitFacts(c, s, kind, Stopped, "", record, tick);
    hide Emit, StoredEvents, Stop;
    StopKeeps(c, Pausing, marked, how);
  }

  lemma StaysOpen(c: Config, s: State, cmd: Command)
    requires Shape(s) && s.bag.open && !cmd.CStop? && !cmd.CCheckFreeSpace? && !cmd.CCheckBagSize?
    ensures Exec(c, s, cmd).bag.open
  {
    if !cmd.CRecord? && !cmd.CRecordAt? && !cmd.CRecordTimer? {
      QuietCommand(c, Pausing, s, cmd);
      hide Exec;
    }
  }

  lemma RenewedIsFresh(c: Config, s: State, how: Opening)
    requires Quiet(s.bag) && s.subs == map[]
    ensures var ready := Renewed(c, s, how);
            && Quiet(ready.bag) && ready.bag.open && ready.paused == s.paused && ready.topicsAtStop == [] && ready.subs == map[]
            && forall x: string :: Fresh(c, ready, how.tick, x)
  {
    OpenBagBegins(c, s, how);
    forall x: string ensures Fresh(c, Renewed(c, s, how), how.tick, x) { OpenedChannels(c, s, how, x); }
    hide OpenBag;
  }

  /** However long and with whatever attempts in between the recorder stays stopped, the record that at last
    * succeeds subscribes exactly those topics of the selection at the stop that can be subscribed then. */
  lemma StopRecordRoundTrip(c: Config, s: State, closing: Command, cmds: seq<Command>,
                            graph: Graph, how: Opening, tries: nat -> Attempt, x: string)
    requires Reaches(c, s) && s.bag.open && !Exec(c, s, closing).bag.open
    requires ClosedThroughout(c, Exec(c, s, closing), cmds)
    requires Reopens(ExecAll(c, Exec(c, s, closing), cmds), how)
    ensures var stopped := ExecAll(c, Exec(c, s, closing), cmds);
            var saved := stopped.topicsAtStop;
            var after := Record(c, stopped, graph, how, tries);
            && saved == Names.Listing(s.subs.Keys) && after.topicsAtStop == []
            && (x in after.subs ==> x in s.subs)
            && (x in after.subs <==>
                exists i :: 0 <= i < |saved| && saved[i] == x && Restores(c, stopped.paused, how.tick, saved, graph, tries, i))
  {
    hide Exec, OpenBag, ExecAll, Fresh, Restores, Gets;
    var stopped := ExecAll(c, Exec(c, s, closing), cmds);
    var saved := stopped.topicsAtStop;
    ReachesShape(c, s);
    ClosingSaves(c, s, closing);
    SelectionStaysSaved(c, Exec(c, s, closing), cmds);
    var ready := Renewed(c, stopped, how);
    RenewedIsFresh(c, stopped, how);
    RestoresExactly(c, ready, how.tick, saved, graph, tries, x);
    BatchLeavesSaved(c, ready, Selection(saved, []), graph, tries, |saved|);
  }

  lemma RestoresExactly(c: Config, ready: State, tick: Tick, saved: seq<string>, graph: Graph, tries: nat -> Attempt, x: string)
    requires Quiet(ready.bag) && ready.bag.open && ready.subs == map[] && Names.Strict(saved)
    requires forall y: string :: Fresh(c, ready, tick, y)
    ensures x in SubscribeBatch(c, ready, Selection(saved, []), graph, tries).state.subs <==>
            exists i :: 0 <= i < |saved| && saved[i] == x && Restores(c, ready.paused, tick, saved, graph, tries, i)
  {
    hide Fresh, Restores, Gets, SubscribeBatch;
    BatchSubscribes(c, ready, Selection(saved, []), graph, tries, x);
    forall i | 0 <= i < |saved|
      ensures Gets(c, ready, Selection(saved, []), graph, tries, i) <==> Restores(c, ready.paused, tick, saved, graph, tries, i)
    {
      GetsRestores(c, ready, tick, saved, graph, tries, i);
    }
  }

  lemma StepLeavesSaved(c: Config, b: Batch, sel: Selection, graph: Graph, i: nat, a: Attempt)
    requires i < |sel.topics|
    ensures BatchStep(c, b, sel, graph, i, a).state.topicsAtStop == b.state.topicsAtStop
  {
    hide AfterEnsureChannel, RecordEvent;
  }

  lemma {:induction false} BatchLeavesSaved(c: Config, s: State, sel: Selection, graph: Graph, tries: nat -> Attempt, n: nat)
    requires n <= |sel.topics|
    ensures SubscribeFirst(c, s, sel, graph, tries, n).state.topicsAtStop == s.topicsAtStop
  {
    if n == 0 {
    } else {
      BatchLeavesSaved(c, s, sel, graph, tries, n - 1);
      StepLeavesSaved(c, SubscribeFirst(c, s, sel, graph, tries, n - 1), sel, graph, n - 1, tries(n - 1));
      hide BatchStep;
    }
  }

  /** A launch opens the bag exactly when the writer can, paused or not as configured, and records exactly those of the
    * configured topics that can be subscribed on it. */
  lemma LaunchRecords(c: Config, startPaused: bool, topics: seq<string>, graph: Graph, how: Opening, tries: nat -> Attempt,
                      x: string)
    ensures var s, begun := Launch(c, startPaused, topics, graph, how, tries), OpenBag(c, Initial(startPaused), how);
            && s.bag.open == how.writerOpens && s.paused == startPaused
            && (x in s.subs <==>
                how.writerOpens
                && exists i :: 0 <= i < |topics| && topics[i] == x && Gets(c, begun, Selection(topics, []), graph, tries, i))
            && (forall y: string :: ChannelOf(begun.bag, y) == OpeningChannel(c, startPaused, how.tick, y))
  {
    var init := Initial(startPaused);
    OpenBagBegins(c, init, how);
    forall y: string ensures ChannelOf(OpenBag(c, init, how).bag, y) == OpeningChannel(c, startPaused, how.tick, y) {
      OpenedChannels(c, init, how, y);
    }
    hide OpenBag, SubscribeFirst, Gets, OpeningChannel;
    if how.writerOpens {
      BatchSubscribes(c, OpenBag(c, init, how), Selection(topics, []), graph, tries, x);
      BatchIsExact(c, OpenBag(c, init, how), Selection(topics, []), graph, tries, |topics|);
      BatchSelects(c, OpenBag(c, init, how), Selection(topics, []), graph, tries, |topics|);
    }
  }
}
