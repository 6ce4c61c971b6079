/** The bag explains itself: what the reader rebuilds from a bag's events is what the recorder was doing. */
module Explanation {
  import opened Options
  import opened Windows
  import opened Timeline
  import opened BagStore
  import opened RecorderState
  import opened RecorderInvariants
  import opened RecorderRuns
  import opened Reading
  import opened Delivery
  import Names
  import S = Scheduling

  // ---- bags whose events were all stored ---------------------------------------------------------------

  /** A recorder that has just opened a bag, at launch or by record, after whatever came before; what it said of the
    * signal so far was stored. */
  ghost predicate JustOpened(c: Config, g: Signal, begun: State) {
    || (exists startPaused, topics, graph, how, tries ::
          begun == Launch(c, startPaused, topics, graph, how, tries)
          && how.writerOpens && OpeningTold(g, how, topics, tries))
    || (exists before, graph, how, tries ::
          Reaches(c, before) && begun == Record(c, before, graph, how, tries)
          && Reopens(before, how) && OpeningTold(g, how, before.topicsAtStop, tries))
  }

  /** A recorder some way on from there, with no event of the signal lost. */
  ghost predicate Explains(c: Config, g: Signal, begun: State, cmds: seq<Command>) {
    JustOpened(c, g, begun) && AlwaysStored(c, g, begun, cmds)
  }

  /** A recorder in or after a bag in which all events of the signal were stored. */
  ghost predicate WellTold(c: Config, g: Signal, s: State) {
    exists begun, cmds :: Explains(c, g, begun, cmds) && s == ExecAll(c, begun, cmds)
  }

  lemma ReachesShape(c: Config, s: State)
    requires Reaches(c, s)
    ensures Shape(s) && SelfStopped(s)
  {
    var startPaused, topics, graph, how, tries, cmds :|
      s == ExecAll(c, Launch(c, startPaused, topics, graph, how, tries), cmds);
    LaunchShape(c, Pausing, startPaused, topics, graph, how, tries);
    RunAdvances(c, Pausing, Launch(c, startPaused, topics, graph, how, tries), cmds);
  }

  lemma JustOpenedTold(c: Config, g: Signal, begun: State)
    requires JustOpened(c, g, begun)
    ensures Shape(begun) && (Records(c, g) ==> Faithful(g, begun))
  {
    if startPaused, topics, graph, how, tries :|
         begun == Launch(c, startPaused, topics, graph, how, tries)
         && how.writerOpens && OpeningTold(g, how, topics, tries) {
      LaunchShape(c, g, startPaused, topics, graph, how, tries);
    } else {
      var before, graph, how, tries :|
        Reaches(c, before) && begun == Record(c, before, graph, how, tries)
        && Reopens(before, how) && OpeningTold(g, how, before.topicsAtStop, tries);
      ReachesShape(c, before);
      OpenedKeeps(c, g, before, graph, how, Selection(before.topicsAtStop, []), tries);
    }
  }

  lemma WellToldIsFaithful(c: Config, g: Signal, s: State)
    requires WellTold(c, g, s)
    ensures Shape(s) && (Records(c, g) ==> Faithful(g, s))
  {
    var begun, cmds :| Explains(c, g, begun, cmds) && s == ExecAll(c, begun, cmds);
    JustOpenedTold(c, g, begun);
    RunAdvances(c, g, begun, cmds);
  }

  /** What the reader asks of a bag's events for one signal. */
  function Rebuilt(g: Signal, events: seq<Event>, bagEnd: int): seq<Window> {
    match g
    case Subscribing(topic) => SubscribedWindows(events, topic, bagEnd)
    case Pausing => PauseWindows(events, Some(bagEnd))
  }

  lemma RebuiltExact(g: Signal, events: seq<Event>, bagEnd: int, t: int)
    ensures t in Points(Rebuilt(g, events, bagEnd)) <==>
            LatestOpens(TrackOf(g), events, t) && (t < bagEnd || ClosesAfter(TrackOf(g), events, t))
  {
    EventWindowsExact(TrackOf(g), events, bagEnd, t);
    OpenAtIsLatest(TrackOf(g), events, t);
  }

  /** The windows rebuilt from the recorder's own events tell the signal. */
  lemma OwnEventsTell(c: Config, g: Signal, s: State, t: int)
    requires WellTold(c, g, s) && Records(c, g) && InBag(s, t)
    ensures At(s.history, t).Some? && (LatestOpens(TrackOf(g), Log(s), t) <==> Reads(g, At(s.history, t).value))
  {
    WellToldIsFaithful(c, g, s);
    assert Told(g, s, t);
  }

  /** Before the bag's end, the windows a reader rebuilds from the bag cover an instant exactly when the topic was
    * subscribed, or the recorder paused, at that instant; unless the bag holds messages, other than the recorder's
    * own events, on a channel whose name the reader takes for the signal's, with no own event of that very instant
    * after them. */
  lemma BagExplainsItself(c: Config, g: Signal, s: State, says: Message -> Event, bagEnd: int, t: int)
    requires WellTold(c, g, s) && Records(c, g) && !Contested(s.bag.calls, g, t) && InBag(s, t) && t < bagEnd
    ensures At(s.history, t).Some?
    ensures t in Points(Rebuilt(g, Found(s.bag.calls, says), bagEnd)) <==> Reads(g, At(s.history, t).value)
  {
    OwnEventsTell(c, g, s, t);
    LatestIsOwn(g, s.bag.calls, says, t);
    RebuiltExact(g, Found(s.bag.calls, says), bagEnd, t);
  }

  /** A reader who believes such a message gets the signal wrong. */
  lemma LieIsBelieved(g: Signal, calls: seq<Call>, truth: bool, bagEnd: int, t: int)
    requires Contested(calls, g, t) && t < bagEnd
    ensures t in Points(Rebuilt(g, Found(calls, Lying(g, truth, t)), bagEnd)) <==> !truth
  {
    LatestIsImitation(g, calls, truth, t);
    hide Found, Latest, Contested;
    RebuiltExact(g, Found(calls, Lying(g, truth, t)), bagEnd, t);
    hide Rebuilt, Points;
  }

  /** That condition is needed, at every instant of the bag: the reader is right whatever recorded messages say
    * exactly when the instant is not contested. */
  lemma ExplainsUnlessContested(c: Config, g: Signal, s: State, bagEnd: int, t: int)
    requires WellTold(c, g, s) && Records(c, g) && InBag(s, t) && t < bagEnd
    ensures At(s.history, t).Some?
    ensures !Contested(s.bag.calls, g, t) <==>
            forall says: Message -> Event ::
              t in Points(Rebuilt(g, Found(s.bag.calls, says), bagEnd)) <==> Reads(g, At(s.history, t).value)
  {
    OwnEventsTell(c, g, s, t);
    var truth := Reads(g, At(s.history, t).value);
    if Contested(s.bag.calls, g, t) {
      LieIsBelieved(g, s.bag.calls, truth, bagEnd, t);
    } else {
      forall says: Message -> Event ensures t in Points(Rebuilt(g, Found(s.bag.calls, says), bagEnd)) <==> truth {
        BagExplainsItself(c, g, s, says, bagEnd, t);
      }
    }
    hide WellTold, Rebuilt, Found, Points, Contested;
  }

  // ---- when the bag holds no imitation ---------------------------------------------------------------------

  lemma JustOpenedIsEmpty(c: Config, g: Signal, begun: State)
    requires JustOpened(c, g, begun)
    ensures Quiet(begun.bag) && Kept(begun) == []
  {
    hide OpenBag, SubscribeFirst, StoredMessages;
    if startPaused, topics, graph, how, tries :|
         begun == Launch(c, startPaused, topics, graph, how, tries)
         && how.writerOpens && OpeningTold(g, how, topics, tries) {
      OpenUnheard(c, Initial(startPaused), how);
      BatchUnheard(c, OpenBag(c, Initial(startPaused), how), Selection(topics, []), graph, tries, |topics|);
    } else {
      var before, graph, how, tries :|
        Reaches(c, before) && begun == Record(c, before, graph, how, tries)
        && Reopens(before, how) && OpeningTold(g, how, before.topicsAtStop, tries);
      ReachesShape(c, before);
      RecordUnheard(c, before, graph, how, tries);
    }
  }

  /** Every message in the bag was delivered since it was opened. */
  lemma WasDelivered(c: Config, g: Signal, begun: State, cmds: seq<Command>, m: Message)
    requires JustOpened(c, g, begun) && m in StoredMessages(ExecAll(c, begun, cmds).bag.calls)
    ensures exists i :: 0 <= i < |cmds| && cmds[i].CMessage? && cmds[i].m == m
  {
    JustOpenedIsEmpty(c, g, begun);
    RunHears(c, begun, cmds);
    assert m in Kept(ExecAll(c, begun, cmds));
    hide *;
  }

  /** A run that delivers no message on the signal's channel leaves none in the bag. */
  lemma NoneDelivered(c: Config, g: Signal, begun: State, cmds: seq<Command>)
    requires JustOpened(c, g, begun)
    requires forall i | 0 <= i < |cmds| && cmds[i].CMessage? :: StreamOf(cmds[i].m.topic) != Some(KindOf(g))
    ensures !Imitated(ExecAll(c, begun, cmds).bag.calls, KindOf(g))
  {
    var messages := StoredMessages(ExecAll(c, begun, cmds).bag.calls);
    forall m | m in messages ensures StreamOf(m.topic) != Some(KindOf(g)) {
      WasDelivered(c, g, begun, cmds, m);
    }
    hide JustOpened, ExecAll, StoredMessages, StreamOf, KindOf;
  }

  // ---- the history is what really happened ---------------------------------------------------------------

  /** The history only grows, and only with moments no earlier than the clock. */
  predicate Grows(s: State, after: State) {
    && s.clock <= after.clock && |s.history| <= |after.history| && after.history[..|s.history|] == s.history
    && forall j | |s.history| <= j < |after.history| :: s.clock <= after.history[j].stamp
  }

  lemma GrowsThen(s: State, mid: State, after: State)
    requires Grows(s, mid) && Grows(mid, after)
    ensures Grows(s, after)
  {
    assert after.history[..|s.history|] == after.history[..|mid.history|][..|s.history|];
    forall j | |s.history| <= j < |after.history| ensures s.clock <= after.history[j].stamp {
      if j < |mid.history| { assert after.history[j] == mid.history[j]; }
    }
  }

  lemma StillGrows(s: State, after: State)
    requires after.history == s.history && s.clock <= after.clock
    ensures Grows(s, after) && Grows(s, Observe(after))
  {
  }

  lemma EmitsGrow(c: Config, s: State, held: State, kind: Kind, action: Action, topic: string, record: bool, tick: Tick)
    requires held.history == s.history && held.clock == s.clock
    ensures Grows(s, Observe(Emit(c, held, kind, action, topic, record, tick)))
    ensures Grows(s, Emit(c, held, kind, action, topic, record, tick))
  {
    var after := Emit(c, held, kind, action, topic, record, tick);
    assert after.history == s.history && after.clock == s.clock + tick.delay;
    StillGrows(s, after);
  }

  lemma SubscribeTopicGrows(c: Config, s: State, topic: string, typeName: string, a: Attempt)
    ensures Grows(s, SubscribeTopic(c, s, topic, typeName, a).0)
  {
    var bag := AfterEnsureChannel(s.bag, topic, typeName, a.createOk, c.accepts).0;
    StillGrows(s, s);
    StillGrows(s, s.(bag := bag));
    EmitsGrow(c, s, s.(bag := bag, subs := s.subs[topic := Sub(s.nextHandle, typeName)], nextHandle := s.nextHandle + 1),
      Subscription, Subscribed, topic, c.recordSubscriptions, a.tick);
  }

  lemma UnsubscribeTopicGrows(c: Config, s: State, topic: string, tick: Tick)
    ensures Grows(s, UnsubscribeTopic(c, s, topic, tick))
  {
    EmitsGrow(c, s, s.(subs := s.subs - {topic}), Subscription, Unsubscribed, topic, c.recordSubscriptions, tick);
  }

  lemma PauseGrows(c: Config, s: State, tick: Tick)
    ensures Grows(s, PauseNow(c, s, tick)) && Grows(s, ResumeNow(c, s, tick))
  {
    EmitsGrow(c, s, s.(paused := true), Pause, Paused, "", c.recordPauses, tick);
    EmitsGrow(c, s, s.(paused := false), Pause, Resumed, "", c.recordPauses, tick);
  }

  lemma {:induction false} SubscribeGrows(c: Config, s: State, sel: Selection, graph: Graph, tries: nat -> Attempt, n: nat)
    requires n <= |sel.topics|
    ensures Grows(s, SubscribeFirst(c, s, sel, graph, tries, n).state)
  {
    if n == 0 {
    } else {
      SubscribeGrows(c, s, sel, graph, tries, n - 1);
      var b := SubscribeFirst(c, s, sel, graph, tries, n - 1);
      var typeName := TypeFor(sel, graph, n - 1);
      if typeName.Some? {
        SubscribeTopicGrows(c, b.state, sel.topics[n - 1], typeName.value, tries(n - 1));
        GrowsThen(s, b.state, SubscribeTopic(c, b.state, sel.topics[n - 1], typeName.value, tries(n - 1)).0);
      }
    }
  }

  lemma {:induction false} UnsubscribeGrows(c: Config, s: State, topics: seq<string>, keep: set<string>, ticks: nat -> Tick, n: nat)
    requires n <= |topics|
    ensures Grows(s, UnsubscribeFirst(c, s, topics, keep, ticks, n).0)
  {
    if n == 0 {
    } else {
      UnsubscribeGrows(c, s, topics, keep, ticks, n - 1);
      var before := UnsubscribeFirst(c, s, topics, keep, ticks, n - 1).0;
      var after := UnsubscribeTopic(c, before, topics[n - 1], ticks(n - 1));
      UnsubscribeTopicGrows(c, before, topics[n - 1], ticks(n - 1));
      GrowsThen(s, before, after);
    }
  }

  lemma RecordGrows(c: Config, s: State, graph: Graph, how: Opening, tries: nat -> Attempt)
    ensures Grows(s, Record(c, s, graph, how, tries))
  {
    if Reopens(s, how) {
      var ready := OpenBag(c, s, how).(stoppedForLowDisk := false, stoppedForMaxBagSize := false, topicsAtStop := []);
      OpenGrows(c, s, how, ready);
      SubscribeGrows(c, ready, Selection(s.topicsAtStop, []), graph, tries, |s.topicsAtStop|);
      GrowsThen(s, ready, Record(c, s, graph, how, tries));
    }
  }

  lemma OpenGrows(c: Config, s: State, how: Opening, after: State)
    requires var told := OpenBag(c, s, how); after.clock == told.clock && after.history == told.history
    ensures Grows(s, after)
  {
    var begun := s.(clock := s.clock + how.delay, bag := AfterOpen(s.bag, c.maxCacheSize));
    var told := Emit(c, begun, Pause, Paused, "", c.recordPauses, how.tick);
    assert told.history == s.history && told.clock == begun.clock + how.tick.delay;
  }

  lemma ReplaceGrows(c: Config, s: State, desired: Selection, graph: Graph, drops: nat -> Tick, tries: nat -> Attempt)
    ensures Grows(s, ReplaceTopics(c, s, desired, graph, drops, tries).0.state)
  {
    var listed := Names.Listing(s.subs.Keys);
    var dropped := UnsubscribeFirst(c, s, listed, NamesIn(desired.topics), drops, |listed|).0;
    UnsubscribeGrows(c, s, listed, NamesIn(desired.topics), drops, |listed|);
    SubscribeGrows(c, dropped, desired, graph, tries, |desired.topics|);
    GrowsThen(s, dropped, ReplaceTopics(c, s, desired, graph, drops, tries).0.state);
  }

  lemma SplitGrows(c: Config, s: State, ok: bool, delay: nat)
    ensures Grows(s, SplitNow(c, s, ok, delay))
  {
    StillGrows(s, SplitNow(c, s, ok, delay));
  }

  lemma MessageGrows(c: Config, s: State, m: Message, tick: Tick, splitOk: bool, delay: nat)
    ensures Grows(s, OnMessage(c, s, m, tick, splitOk, delay))
  {
    var (scheduler, due) := S.AfterTakeDue(s.scheduler, ArrivalOf(m));
    var taken := s.(scheduler := scheduler);
    var resumed := if due.resume then ResumeNow(c, taken, tick) else taken;
    var ready := FireDue(c, s, m, tick, splitOk, delay);
    StillGrows(s, taken);
    PauseGrows(c, taken, tick);
    GrowsThen(s, taken, resumed);
    SplitGrows(c, resumed, splitOk, delay);
    GrowsThen(s, resumed, ready);
    var after := OnMessage(c, s, m, tick, splitOk, delay);
    assert after.history == ready.history && after.clock == ready.clock;
    StillGrows(ready, after);
    GrowsThen(s, ready, after);
  }

  lemma StopGrows(c: Config, s: State, how: Stopping)
    ensures Grows(s, Stop(c, s, how))
  {
    var written := RecordDeferred(c, s, how.fates);
    StillGrows(s, written);
  }

  lemma GuardGrows(c: Config, s: State, cmd: Command)
    requires cmd.CCheckFreeSpace? || cmd.CCheckBagSize?
    ensures Grows(s, Exec(c, s, cmd))
  {
    StillGrows(s, s);
    if s.bag.open && cmd.verdict {
      var kind := if cmd.CCheckFreeSpace? then LowDisk else BagSizeLimit;
      var told := Emit(c, s, kind, Stopped, "", if cmd.CCheckFreeSpace? then c.recordLowDisk else c.recordBagSize, cmd.tick);
      var marked := if cmd.CCheckFreeSpace? then told.(stoppedForLowDisk := true) else told.(stoppedForMaxBagSize := true);
      assert told.history == s.history && told.clock == s.clock + cmd.tick.delay;
      StillGrows(s, marked);
      StopGrows(c, marked, cmd.stopping);
      GrowsThen(s, marked, Stop(c, marked, cmd.stopping));
    }
  }

  lemma SelectionGrows(c: Config, s: State, cmd: Command)
    requires cmd.CSubscribe? || cmd.CUnsubscribe? || cmd.CReplace?
    ensures Grows(s, Exec(c, s, cmd))
  {
    StillGrows(s, s);
    if cmd.CSubscribe? {
      SubscribeGrows(c, s, cmd.sel, cmd.graph, cmd.tries, |cmd.sel.topics|);
    } else if cmd.CUnsubscribe? {
      UnsubscribeGrows(c, s, cmd.topics, {}, cmd.drops, |cmd.topics|);
    } else {
      ReplaceGrows(c, s, cmd.sel, cmd.graph, cmd.drops, cmd.tries);
    }
  }

  lemma ScheduledGrows(c: Config, s: State, cmd: Command)
    requires cmd.CResumeAt? || cmd.CSplitAt? || cmd.CRecordAt?
    ensures Grows(s, Exec(c, s, cmd))
  {
    hide Judge, ResumeNow, SplitNow;
    if cmd.CResumeAt? {
      StillGrows(s, Schedule(s, S.Resume, cmd.atNs, Judge(s, cmd.atNs, cmd.mode, cmd.trackingTopic), cmd.trackingTopic));
      PauseGrows(c, s, cmd.tick);
    } else if cmd.CSplitAt? {
      StillGrows(s, Schedule(s, S.Split, cmd.atNs, Judge(s, cmd.atNs, cmd.mode, cmd.trackingTopic), cmd.trackingTopic));
      SplitGrows(c, s, cmd.splitOk, cmd.delay);
    } else {
      StillGrows(s, Exec(c, s, cmd));
    }
  }

  lemma TimerGrows(c: Config, s: State, cmd: Command)
    requires cmd.CResumeTimer? || cmd.CSplitTimer? || cmd.CRecordTimer?
    ensures Grows(s, Exec(c, s, cmd))
  {
    var kind := if cmd.CResumeTimer? then S.Resume else if cmd.CSplitTimer? then S.Split else S.Record;
    var taken := s.(scheduler := S.AfterTimer(s.scheduler, kind));
    StillGrows(s, s);
    if S.TimerLive(s.scheduler, kind) {
      StillGrows(s, taken);
      if cmd.CResumeTimer? { PauseGrows(c, taken, cmd.tick); }
      else if cmd.CSplitTimer? { SplitGrows(c, taken, cmd.splitOk, cmd.delay); }
      else { RecordGrows(c, taken, cmd.graph, cmd.opening, cmd.tries); }
      GrowsThen(s, taken, Exec(c, s, cmd));
    }
  }

  lemma EveryCommandGrows(c: Config, s: State, cmd: Command)
    ensures Grows(s, Exec(c, s, cmd))
  {
    StillGrows(s, s);
    if cmd.CRecord? {
      RecordGrows(c, s, cmd.graph, cmd.opening, cmd.tries);
    } else if cmd.CSubscribe? || cmd.CUnsubscribe? || cmd.CReplace? {
      SelectionGrows(c, s, cmd);
    } else if cmd.CStop? {
      StopGrows(c, s, cmd.stopping);
    } else if cmd.CCheckFreeSpace? || cmd.CCheckBagSize? {
      GuardGrows(c, s, cmd);
    } else if cmd.CMessage? {
      MessageGrows(c, s, cmd.m, cmd.tick, cmd.splitOk, cmd.delay);
    } else if cmd.CResumeAt? || cmd.CSplitAt? || cmd.CRecordAt? {
      ScheduledGrows(c, s, cmd);
    } else if cmd.CResumeTimer? || cmd.CSplitTimer? || cmd.CRecordTimer? {
      TimerGrows(c, s, cmd);
    } else if cmd.CPause? || cmd.CResume? {
      PauseGrows(c, s, cmd.tick);
    } else {
      StillGrows(s, Exec(c, s, cmd));
    }
  }

  lemma {:induction false} RunGrows(c: Config, s: State, cmds: seq<Command>, i: nat)
    requires i <= |cmds|
    ensures Grows(ExecAll(c, s, cmds[..i]), ExecAll(c, s, cmds))
    decreases |cmds|
  {
    if i == |cmds| {
      assert cmds[..i] == cmds;
    } else {
      var n := |cmds| - 1;
      RunGrows(c, s, cmds[..n], i);
      assert cmds[..n][..i] == cmds[..i];
      EveryCommandGrows(c, ExecAll(c, s, cmds[..n]), cmds[n]);
      GrowsThen(ExecAll(c, s, cmds[..i]), ExecAll(c, s, cmds[..n]), ExecAll(c, s, cmds));
    }
  }

  lemma {:induction false} AtIgnoresLater(history: seq<Moment>, n: nat, t: int)
    requires 0 < n <= |history| && history[n - 1].stamp <= t
    requires forall j | n <= j < |history| :: t < history[j].stamp
    ensures At(history, t) == Some(history[n - 1])
    decreases |history|
  {
    if n == |history| {
    } else {
      AtIgnoresLater(history[..|history| - 1], n, t);
    }
  }

  /** A clock that runs from `was` past `t` with nothing else happening leaves `was` in force at `t`. */
  lemma IdleInForce(c: Config, begun: State, cmds: seq<Command>, i: nat, t: int)
    requires i < |cmds| && cmds[i].CIdle?
    requires var was := ExecAll(c, begun, cmds[..i]);
             was.history != [] && Last(was.history).stamp <= was.clock <= t < was.clock + cmds[i].delay
    ensures At(ExecAll(c, begun, cmds).history, t) == Some(Last(ExecAll(c, begun, cmds[..i]).history))
  {
    var was, s := ExecAll(c, begun, cmds[..i]), ExecAll(c, begun, cmds);
    assert cmds[..i + 1][..i] == cmds[..i];
    assert ExecAll(c, begun, cmds[..i + 1]) == was.(clock := was.clock + cmds[i].delay);
    RunGrows(c, begun, cmds, i + 1);
    var n := |was.history|;
    assert s.history[n - 1] == s.history[..n][n - 1];
    AtIgnoresLater(s.history, n, t);
  }

  lemma PrefixWellTold(c: Config, g: Signal, begun: State, cmds: seq<Command>, i: nat)
    requires Explains(c, g, begun, cmds) && i <= |cmds|
    ensures WellTold(c, g, ExecAll(c, begun, cmds)) && WellTold(c, g, ExecAll(c, begun, cmds[..i]))
  {
    SoFarStored(c, g, begun, cmds, i);
    hide ExecAll, JustOpened, AlwaysStored;
    assert Explains(c, g, begun, cmds[..i]);
  }

  /** While the clock ran and nothing else happened, the recorder was in one state; however much later, the
    * windows a reader rebuilds from that bag still say what it was doing then. */
  lemma ReaderSeesTheRecorder(c: Config, g: Signal, begun: State, cmds: seq<Command>, i: nat,
                              says: Message -> Event, bagEnd: int, t: int)
    requires Explains(c, g, begun, cmds) && Records(c, g)
    requires !Contested(ExecAll(c, begun, cmds).bag.calls, g, t)
    requires i < |cmds| && cmds[i].CIdle?
    requires var was := ExecAll(c, begun, cmds[..i]); was.clock <= t < was.clock + cmds[i].delay
    requires InBag(ExecAll(c, begun, cmds), t) && t < bagEnd
    ensures t in Points(Rebuilt(g, Found(ExecAll(c, begun, cmds).bag.calls, says), bagEnd)) <==>
            Holds(g, ExecAll(c, begun, cmds[..i]))
  {
    var was, s := ExecAll(c, begun, cmds[..i]), ExecAll(c, begun, cmds);
    PrefixWellTold(c, g, begun, cmds, i);
    hide ExecAll, Explains, WellTold, Contested, Rebuilt, Found, Points;
    WellToldIsFaithful(c, g, was);
    IdleInForce(c, begun, cmds, i, t);
    BagExplainsItself(c, g, s, says, bagEnd, t);
    CurrentReads(g, was);
    hide *;
  }

  lemma CurrentReads(g: Signal, s: State)
    requires s.history != [] && Current(s)
    ensures Reads(g, Last(s.history)) <==> Holds(g, s)
  {
  }
}
