/** Exactly what each command writes into the bag's log, and which split events it leaves due
  * (packages/rosbag2_dynamic_recorder/src/recorder_events.cpp, dynamic_recorder.cpp). */
module Journal {
  import opened Options
  import opened Timeline
  import opened BagStore
  import opened RecorderState
  import opened RecorderInvariants
  import opened RecorderRuns
  import opened Timers
  import opened Promises
  import opened Explanation
  import Names
  import S = Scheduling

  // ---- what is to be said ------------------------------------------------------------------------------------

  /** An event in a log that asks for it, if the writer took it. */
  function Told(asked: bool, fate: Fate, kind: Kind, action: Action, stamp: int): seq<Event> {
    if asked && fate == Stored then [Event(kind, action, stamp, "")] else []
  }

  /** The queued split events, in order, but for those the writer refused. */
  function Written(events: seq<Event>, fates: nat -> Fate): seq<Event> {
    if events == [] then []
    else
      var n := |events| - 1;
      Written(events[..n], fates) + if fates(n) == Stored then [events[n]] else []
  }

  /** A pause or resume is told if it changes anything. */
  function PauseTold(c: Config, s: State, cmd: Command, tick: Tick): seq<Event> {
    var v := ViewOf(s);
    if PausedNext(v, cmd) == v.paused then []
    else Told(c.recordPauses, tick.fate, Pause, if v.paused then Resumed else Paused, v.clock + tick.delay)
  }

  /** What a command that neither opens a bag nor changes the selection adds to the log of an open bag. */
  function Entries(c: Config, s: State, cmd: Command): seq<Event> {
    match cmd
    case CPause(tick) => PauseTold(c, s, cmd, tick)
    case CResume(tick) => PauseTold(c, s, cmd, tick)
    case CResumeAt(_, _, _, tick) => PauseTold(c, s, cmd, tick)
    case CMessage(_, tick, _, _) => PauseTold(c, s, cmd, tick)
    case CResumeTimer(tick) => PauseTold(c, s, cmd, tick)
    case CRecordDeferred(fates) => Written(s.deferred, fates)
    case CStop(how) => Written(s.deferred, how.fates)
    case CCheckFreeSpace(low, tick, how) =>
      if !low then []
      else Told(c.recordLowDisk, tick.fate, LowDisk, Stopped, s.clock + tick.delay) + Written(s.deferred, how.fates)
    case CCheckBagSize(tooBig, tick, how) =>
      if !tooBig then []
      else Told(c.recordBagSize, tick.fate, BagSizeLimit, Stopped, s.clock + tick.delay) + Written(s.deferred, how.fates)
    case _ => []
  }

  /** The log goes on with exactly these. */
  ghost predicate GoesOn(b: BagState, after: BagState, more: seq<Event>) {
    Quiet(after) && StoredEvents(after.calls) == StoredEvents(b.calls) + more
  }

  /** The events of a log that announce no subscription. */
  function Others(log: seq<Event>): seq<Event> {
    if log == [] then []
    else
      var n := |log| - 1;
      Others(log[..n]) + if log[n].kind == Subscription then [] else [log[n]]
  }

  lemma OthersAppend(log: seq<Event>, e: Event)
    ensures Others(log + [e]) == Others(log) + if e.kind == Subscription then [] else [e]
  {
    assert (log + [e])[..|log|] == log;
  }

  // ---- single events -----------------------------------------------------------------------------------------------

  lemma GrownGoesOn(b: BagState, after: BagState, more: Option<Event>)
    requires WentOn(b, after, more)
    ensures Quiet(after) && after.open == b.open && GoesOn(b, after, if more.Some? then [more.value] else [])
  {
    hide StoredEvents, Extends;
  }

  lemma EmitGoesOn(c: Config, s: State, kind: Kind, action: Action, record: bool, tick: Tick)
    requires Quiet(s.bag)
    ensures var after := Emit(c, s, kind, action, "", record, tick);
            && after == s.(clock := s.clock + tick.delay, bag := after.bag) && after.bag.open == s.bag.open
            && GoesOn(s.bag, after.bag, if s.bag.open then Told(record, tick.fate, kind, action, s.clock + tick.delay) else [])
  {
    EmitFacts(c, s, kind, action, "", record, tick);
    hide Emit;
    var after := Emit(c, s, kind, action, "", record, tick);
    var more := if record && s.bag.open && tick.fate.Stored? then Some(Event(kind, action, after.clock, "")) else None;
    GrownGoesOn(s.bag, after.bag, more);
    assert (if more.Some? then [more.value] else [])
        == if s.bag.open then Told(record, tick.fate, kind, action, s.clock + tick.delay) else [];
    hide WentOn, GoesOn, Quiet, Told;
  }

  lemma GoesThen(b: BagState, mid: BagState, after: BagState, more: seq<Event>, last: seq<Event>)
    requires GoesOn(b, mid, more) && GoesOn(mid, after, last)
    ensures GoesOn(b, after, more + last)
  {
    hide StoredEvents;
    assert StoredEvents(b.calls) + more + last == StoredEvents(b.calls) + (more + last);
  }

  lemma NothingGoesOn(b: BagState)
    requires Quiet(b)
    ensures GoesOn(b, b, [])
  {
    hide StoredEvents;
  }

  /** A pause or a resume leaves the recorder so, and is told if it was not so already. */
  lemma PauseGoesOn(c: Config, s: State, paused: bool, tick: Tick)
    requires Quiet(s.bag)
    ensures var after := if paused then PauseNow(c, s, tick) else ResumeNow(c, s, tick);
            && after.bag.open == s.bag.open && after.deferred == s.deferred
            && after.clock == (if paused == s.paused then s.clock else s.clock + tick.delay)
            && GoesOn(s.bag, after.bag,
                 if s.bag.open && paused != s.paused
                 then Told(c.recordPauses, tick.fate, Pause, if paused then Paused else Resumed, s.clock + tick.delay) else [])
  {
    hide Emit, StoredEvents, GoesOn, Told, Quiet;
    NothingGoesOn(s.bag);
    if paused { EmitGoesOn(c, s.(paused := true), Pause, Paused, c.recordPauses, tick); }
    else { EmitGoesOn(c, s.(paused := false), Pause, Resumed, c.recordPauses, tick); }
  }

  lemma {:induction false} DeferredGoesOn(c: Config, b: BagState, events: seq<Event>, fates: nat -> Fate)
    requires Quiet(b)
    ensures var after := WriteDeferred(c, b, events, fates);
            after.open == b.open && GoesOn(b, after, if b.open then Written(events, fates) else [])
  {
    hide RecordEvent, StoredEvents;
    if events == [] {
    } else {
      var n := |events| - 1;
      DeferredGoesOn(c, b, events[..n], fates);
      EventWentOn(c, WriteDeferred(c, b, events[..n], fates), events[n], fates(n));
    }
  }

  lemma StopGoesOn(c: Config, s: State, how: Stopping)
    requires Quiet(s.bag)
    ensures var after := Stop(c, s, how);
            after.deferred == [] && GoesOn(s.bag, after.bag, if s.bag.open then Written(s.deferred, how.fates) else [])
  {
    DeferredGoesOn(c, s.bag, s.deferred, how.fates);
    var written := WriteDeferred(c, s.bag, s.deferred, how.fates);
    if written.open { CloseFacts(c, written); }
    hide WriteDeferred, AfterClose, StoredEvents, S.AfterClear;
  }

  lemma GuardGoesOn(c: Config, s: State, kind: Kind, record: bool, marked: State, tick: Tick, how: Stopping)
    requires Quiet(s.bag) && s.bag.open
    requires marked == Emit(c, s, kind, Stopped, "", record, tick).(
                         stoppedForLowDisk := marked.stoppedForLowDisk, stoppedForMaxBagSize := marked.stoppedForMaxBagSize)
    ensures var after := Stop(c, marked, how);
            && after.deferred == []
            && GoesOn(s.bag, after.bag,
                      Told(record, tick.fate, kind, Stopped, s.clock + tick.delay) + Written(s.deferred, how.fates))
  {
    EmitGoesOn(c, s, kind, Stopped, record, tick);
    StopGoesOn(c, marked, how);
    GoesThen(s.bag, marked.bag, Stop(c, marked, how).bag,
      Told(record, tick.fate, kind, Stopped, s.clock + tick.delay), Written(s.deferred, how.fates));
    hide Emit, Stop, StoredEvents, Written, Told, GoesOn;
  }

  lemma SplitGoesOn(c: Config, s: State, ok: bool, delay: nat)
    requires Quiet(s.bag)
    ensures var after := SplitNow(c, s, ok, delay);
            && after.bag.open == s.bag.open && GoesOn(s.bag, after.bag, [])
            && after.deferred == s.deferred + (if s.bag.open && ok && c.recordSplits
                                               then [Event(Split, SplitDone, s.clock + delay, "")] else [])
  {
    SplitWentOn(c, s.bag, ok);
    hide AfterSplit, StoredEvents;
  }

  // ---- the split events due ----------------------------------------------------------------------------------------

  /** The command has the writer begin a new file at once. */
  predicate SplitsNow(v: View, cmd: Command) {
    && v.open
    && match cmd
       case CSplitAt(atNs, mode, topic, _, _) => Answered(v, S.Split, atNs, mode, topic).AtOnce?
       case CSplitTimer(_, _) => OnClock(v.split)
       case CMessage(m, _, _, _) => Reached(v, v.split, m)
       case _ => false
  }

  /** The split events waiting to be written after the command: one more for each new file, asked for or not, until
    * they are written or the recording ends. */
  function DeferredNext(c: Config, s: State, cmd: Command): seq<Event> {
    var v := ViewOf(s);
    match cmd
    case CRecordDeferred(_) => []
    case CStop(_) => []
    case CCheckFreeSpace(low, _, _) => if v.open && low then [] else s.deferred
    case CCheckBagSize(tooBig, _, _) => if v.open && tooBig then [] else s.deferred
    case CRollover(delay) => s.deferred + NewFile(c, v.open, s.clock + delay)
    case CSplitAt(_, _, _, ok, delay) => s.deferred + NewFile(c, SplitsNow(v, cmd) && ok, s.clock + delay)
    case CSplitTimer(ok, delay) => s.deferred + NewFile(c, SplitsNow(v, cmd) && ok, s.clock + delay)
    case CMessage(_, tick, ok, delay) =>
      s.deferred + NewFile(c, SplitsNow(v, cmd) && ok,
                           s.clock + (if PausedNext(v, cmd) == v.paused then 0 else tick.delay) + delay)
    case _ => s.deferred
  }

  function NewFile(c: Config, begun: bool, stamp: int): seq<Event> {
    if begun && c.recordSplits then [Event(Split, SplitDone, stamp, "")] else []
  }

  // ---- each command ------------------------------------------------------------------------------------------------

  /** The command leaves exactly its entries in the log and exactly its split events due. */
  ghost predicate Journaled(c: Config, s: State, cmd: Command, after: State) {
    && GoesOn(s.bag, after.bag, if s.bag.open then Entries(c, s, cmd) else [])
    && after.deferred == DeferredNext(c, s, cmd)
  }

  lemma PauseJournaled(c: Config, s: State, cmd: Command)
    requires Quiet(s.bag) && (cmd.CPause? || cmd.CResume?)
    ensures Journaled(c, s, cmd, Exec(c, s, cmd))
  {
    hide PauseNow, ResumeNow, GoesOn, Told;
    PauseGoesOn(c, s, cmd.CPause?, cmd.tick);
  }

  lemma ResumeAtJournaled(c: Config, s: State, atNs: int, mode: int, topic: string, tick: Tick)
    requires Quiet(s.bag)
    ensures Journaled(c, s, CResumeAt(atNs, mode, topic, tick), Exec(c, s, CResumeAt(atNs, mode, topic, tick)))
  {
    hide ResumeNow, GoesOn, Told, Judge, Answered, Schedule;
    PauseGoesOn(c, s, false, tick);
    NothingGoesOn(s.bag);
    JudgeIsAnswer(s, S.Resume, atNs, mode, topic);
    PlacedAsAnswered(s, S.Resume, atNs, mode, topic, S.Resume);
  }

  lemma SplitAtJournaled(c: Config, s: State, atNs: int, mode: int, topic: string, ok: bool, delay: nat)
    requires Quiet(s.bag)
    ensures Journaled(c, s, CSplitAt(atNs, mode, topic, ok, delay), Exec(c, s, CSplitAt(atNs, mode, topic, ok, delay)))
  {
    hide SplitNow, GoesOn, Judge, Answered, Schedule;
    SplitGoesOn(c, s, ok, delay);
    NothingGoesOn(s.bag);
    JudgeIsAnswer(s, S.Split, atNs, mode, topic);
    PlacedAsAnswered(s, S.Split, atNs, mode, topic, S.Split);
  }

  lemma ResumeTimerJournaled(c: Config, s: State, tick: Tick)
    requires Quiet(s.bag) && Sound(s.scheduler)
    ensures Journaled(c, s, CResumeTimer(tick), Exec(c, s, CResumeTimer(tick)))
  {
    hide ResumeNow, GoesOn, Told, S.AfterTimer, S.TimerLive;
    TimerIsForItsSlot(s.scheduler, S.Resume);
    PauseGoesOn(c, s.(scheduler := S.AfterTimer(s.scheduler, S.Resume)), false, tick);
    NothingGoesOn(s.bag);
  }

  lemma SplitTimerJournaled(c: Config, s: State, ok: bool, delay: nat)
    requires Quiet(s.bag) && Sound(s.scheduler)
    ensures Journaled(c, s, CSplitTimer(ok, delay), Exec(c, s, CSplitTimer(ok, delay)))
  {
    hide SplitNow, GoesOn, S.AfterTimer, S.TimerLive;
    TimerIsForItsSlot(s.scheduler, S.Split);
    SplitGoesOn(c, s.(scheduler := S.AfterTimer(s.scheduler, S.Split)), ok, delay);
    NothingGoesOn(s.bag);
  }

  lemma FiringGoesOn(c: Config, s: State, m: Message, tick: Tick, ok: bool, delay: nat)
    requires Quiet(s.bag) && Sound(s.scheduler)
    ensures var after := FireDue(c, s, m, tick, ok, delay);
            var resumes := s.paused && DueOn(s.scheduler.resume.scheduled, ArrivalOf(m));
            && after.bag.open == s.bag.open
            && GoesOn(s.bag, after.bag,
                      if s.bag.open && resumes then Told(c.recordPauses, tick.fate, Pause, Resumed, s.clock + tick.delay) else [])
            && after.deferred == s.deferred +
                 NewFile(c, s.bag.open && DueOn(s.scheduler.split.scheduled, ArrivalOf(m)) && ok,
                         s.clock + (if resumes then tick.delay else 0) + delay)
  {
    hide ResumeNow, SplitNow, GoesOn, Told, S.AfterTakeDue, DueOn;
    TakesExactlyTheDue(s.scheduler, ArrivalOf(m));
    var (scheduler, due) := S.AfterTakeDue(s.scheduler, ArrivalOf(m));
    var taken := s.(scheduler := scheduler);
    var ready := if due.resume then ResumeNow(c, taken, tick) else taken;
    PauseGoesOn(c, taken, false, tick);
    NothingGoesOn(s.bag);
    QuietOn(s.bag, ready.bag);
    SplitGoesOn(c, ready, ok, delay);
    var told := if s.bag.open && s.paused && due.resume
                then Told(c.recordPauses, tick.fate, Pause, Resumed, s.clock + tick.delay) else [];
    GoesThen(s.bag, ready.bag, SplitNow(c, ready, ok, delay).bag, told, []);
    assert told + [] == told;
  }

  lemma QuietOn(b: BagState, after: BagState)
    ensures forall more :: GoesOn(b, after, more) ==> Quiet(after)
  {
  }

  lemma MessageJournaled(c: Config, s: State, m: Message, tick: Tick, ok: bool, delay: nat)
    requires Quiet(s.bag) && Sound(s.scheduler) && (m.topic in s.subs ==> s.bag.open)
    ensures Journaled(c, s, CMessage(m, tick, ok, delay), Exec(c, s, CMessage(m, tick, ok, delay)))
  {
    hide FireDue, AfterWrite, GoesOn, Told, DueOn, Answered, Written;
    NothingGoesOn(s.bag);
    if m.topic in s.subs {
      var ready := FireDue(c, s, m, tick, ok, delay);
      FiringGoesOn(c, s, m, tick, ok, delay);
      QuietOn(s.bag, ready.bag);
      WriteGoesOn(c, ready.bag, m);
      var told := PauseTold(c, s, CMessage(m, tick, ok, delay), tick);
      GoesThen(s.bag, ready.bag, AfterWrite(ready.bag, m, false, c.accepts), told, []);
      assert told + [] == told;
    }
  }

  lemma WriteGoesOn(c: Config, b: BagState, m: Message)
    requires Quiet(b)
    ensures GoesOn(b, AfterWrite(b, m, false, c.accepts), [])
  {
    WriteWentOn(c, b, m);
    hide AfterWrite, StoredEvents;
  }

  lemma StopJournaled(c: Config, s: State, how: Stopping)
    requires Quiet(s.bag)
    ensures Journaled(c, s, CStop(how), Exec(c, s, CStop(how)))
  {
    hide Stop, GoesOn;
    StopGoesOn(c, s, how);
  }

  lemma FreeSpaceJournaled(c: Config, s: State, low: bool, tick: Tick, how: Stopping)
    requires Quiet(s.bag)
    ensures Journaled(c, s, CCheckFreeSpace(low, tick, how), Exec(c, s, CCheckFreeSpace(low, tick, how)))
  {
    hide Stop, Emit, GoesOn, Told, Written;
    NothingGoesOn(s.bag);
    if s.bag.open && low {
      GuardGoesOn(c, s, LowDisk, c.recordLowDisk,
        Emit(c, s, LowDisk, Stopped, "", c.recordLowDisk, tick).(stoppedForLowDisk := true), tick, how);
    }
  }

  lemma BagSizeJournaled(c: Config, s: State, tooBig: bool, tick: Tick, how: Stopping)
    requires Quiet(s.bag)
    ensures Journaled(c, s, CCheckBagSize(tooBig, tick, how), Exec(c, s, CCheckBagSize(tooBig, tick, how)))
  {
    hide Stop, Emit, GoesOn, Told, Written;
    NothingGoesOn(s.bag);
    if s.bag.open && tooBig {
      GuardGoesOn(c, s, BagSizeLimit, c.recordBagSize,
        Emit(c, s, BagSizeLimit, Stopped, "", c.recordBagSize, tick).(stoppedForMaxBagSize := true), tick, how);
    }
  }

  lemma AsideJournaled(c: Config, s: State, cmd: Command)
    requires Quiet(s.bag) && (cmd.CRecordDeferred? || cmd.CRollover? || cmd.CIdle? || cmd.CSnapshot? || cmd.CRecordAt?)
    ensures Journaled(c, s, cmd, Exec(c, s, cmd))
  {
    hide WriteDeferred, AfterSnapshot, GoesOn, Written, S.AfterNodeTime;
    NothingGoesOn(s.bag);
    if cmd.CRecordDeferred? { DeferredGoesOn(c, s.bag, s.deferred, cmd.fates); }
    else if cmd.CSnapshot? { SnapshotGoesOn(c, s.bag, cmd.ok); }
  }

  lemma SnapshotGoesOn(c: Config, b: BagState, ok: bool)
    requires Quiet(b)
    ensures GoesOn(b, AfterSnapshot(b, ok, c.accepts), [])
  {
    SnapshotWentOn(c, b, ok);
    hide AfterSnapshot, StoredEvents;
  }

  /** The command changes the selection, or may open a bag. */
  predicate Selects(cmd: Command) {
    cmd.CSubscribe? || cmd.CUnsubscribe? || cmd.CReplace? || cmd.CRecord? || cmd.CRecordTimer?
  }

  lemma CommandJournaled(c: Config, s: State, cmd: Command)
    requires Shape(s) && Sound(s.scheduler) && !Selects(cmd)
    ensures Journaled(c, s, cmd, Exec(c, s, cmd))
  {
    hide Exec, Journaled, Sound;
    ShapeIdle(s);
    match cmd
    case CResumeAt(atNs, mode, topic, tick) => ResumeAtJournaled(c, s, atNs, mode, topic, tick);
    case CSplitAt(atNs, mode, topic, ok, delay) => SplitAtJournaled(c, s, atNs, mode, topic, ok, delay);
    case CMessage(m, tick, ok, delay) => MessageJournaled(c, s, m, tick, ok, delay);
    case CResumeTimer(tick) => ResumeTimerJournaled(c, s, tick);
    case CSplitTimer(ok, delay) => SplitTimerJournaled(c, s, ok, delay);
    case CStop(how) => StopJournaled(c, s, how);
    case CCheckFreeSpace(low, tick, how) => FreeSpaceJournaled(c, s, low, tick, how);
    case CCheckBagSize(tooBig, tick, how) => BagSizeJournaled(c, s, tooBig, tick, how);
    case CPause(_) => PauseJournaled(c, s, cmd);
    case CResume(_) => PauseJournaled(c, s, cmd);
    case _ => AsideJournaled(c, s, cmd);
  }

  /** In every reachable state a command that neither changes the selection nor opens a bag adds to the log exactly the
    * events due: a pause or resume that changes something, the split events waiting, the reason a guard stops for, each
    * if it is recorded and the writer takes it, and nothing else. */
  lemma EveryCommandJournaled(c: Config, s: State, cmd: Command)
    requires Reaches(c, s) && !Selects(cmd)
    ensures Journaled(c, s, cmd, Exec(c, s, cmd))
  {
    ReachesSound(c, s);
    CommandJournaled(c, s, cmd);
  }

  // ---- commands that change the selection ------------------------------------------------------------------------------

  /** Nothing but subscription events was added to the log, and not even these if they are not recorded. */
  ghost predicate OnlyAnnounces(c: Config, s: State, after: State) {
    && Quiet(after.bag) && after.deferred == s.deferred
    && Others(Log(after)) == Others(Log(s)) && (!c.recordSubscriptions ==> Log(after) == Log(s))
  }

  lemma AnnouncementOnly(c: Config, s: State, action: Action, topic: string, tick: Tick)
    requires Quiet(s.bag)
    ensures OnlyAnnounces(c, s, EmitSubscription(c, s, action, topic, tick))
  {
    EmitFacts(c, s, Subscription, action, topic, c.recordSubscriptions, tick);
    OthersAppend(Log(s), Event(Subscription, action, s.clock + tick.delay, topic));
    hide RecordEvent, StoredEvents, Others;
  }

  lemma SubscribeOnlyAnnounces(c: Config, s: State, topic: string, typeName: string, a: Attempt)
    requires Quiet(s.bag)
    ensures OnlyAnnounces(c, s, SubscribeTopic(c, s, topic, typeName, a).0)
  {
    hide AfterEnsureChannel, EmitSubscription, StoredEvents, Others;
    ChannelWentOn(c, s.bag, topic, typeName, a.createOk);
    var bag := AfterEnsureChannel(s.bag, topic, typeName, a.createOk, c.accepts).0;
    AnnouncementOnly(c, s.(bag := bag, subs := s.subs[topic := Sub(s.nextHandle, typeName)], nextHandle := s.nextHandle + 1),
                     Subscribed, topic, a.tick);
  }

  lemma {:induction false} BatchOnlyAnnounces(c: Config, s: State, sel: Selection, graph: Graph, tries: nat -> Attempt, n: nat)
    requires Quiet(s.bag) && n <= |sel.topics|
    ensures OnlyAnnounces(c, s, SubscribeFirst(c, s, sel, graph, tries, n).state)
  {
    hide SubscribeTopic, StoredEvents, Others;
    if n == 0 {
    } else {
      BatchOnlyAnnounces(c, s, sel, graph, tries, n - 1);
      var b := SubscribeFirst(c, s, sel, graph, tries, n - 1);
      var typeName := TypeFor(sel, graph, n - 1);
      if typeName.Some? { SubscribeOnlyAnnounces(c, b.state, sel.topics[n - 1], typeName.value, tries(n - 1)); }
    }
  }

  lemma {:induction false} DropsOnlyAnnounce(c: Config, s: State, topics: seq<string>, keep: set<string>, ticks: nat -> Tick,
                                             n: nat)
    requires Quiet(s.bag) && n <= |topics|
    ensures OnlyAnnounces(c, s, UnsubscribeFirst(c, s, topics, keep, ticks, n).0)
  {
    hide EmitSubscription, StoredEvents, Others;
    if n == 0 {
    } else {
      DropsOnlyAnnounce(c, s, topics, keep, ticks, n - 1);
      var before := UnsubscribeFirst(c, s, topics, keep, ticks, n - 1).0;
      var topic := topics[n - 1];
      AnnouncementOnly(c, before.(subs := before.subs - {topic}), Unsubscribed, topic, ticks(n - 1));
    }
  }

  /** What a bag says of itself as it opens: that it opens paused, if it does. */
  function OpeningEntry(c: Config, s: State, how: Opening): seq<Event> {
    if s.paused then Told(c.recordPauses, how.tick.fate, Pause, Paused, s.clock + how.delay + how.tick.delay) else []
  }

  lemma FreshGoesOn(b: BagState, after: BagState, more: seq<Event>)
    requires StoredEvents(b.calls) == [] && GoesOn(b, after, more)
    ensures Quiet(after) && StoredEvents(after.calls) == more
  {
    hide StoredEvents;
    assert [] + more == more;
  }

  lemma OpeningSays(c: Config, s: State, how: Opening)
    requires Quiet(s.bag)
    ensures Quiet(OpenBag(c, s, how).bag) && Log(OpenBag(c, s, how)) == OpeningEntry(c, s, how)
  {
    hide AfterOpen, Emit, StoredEvents, Told, GoesOn;
    OpenFacts(c, s.bag);
    var begun := s.(clock := s.clock + how.delay, bag := AfterOpen(s.bag, c.maxCacheSize));
    if s.paused {
      EmitGoesOn(c, begun, Pause, Paused, c.recordPauses, how.tick);
      FreshGoesOn(begun.bag, Emit(c, begun, Pause, Paused, "", c.recordPauses, how.tick).bag, OpeningEntry(c, s, how));
    }
  }

  /** A record that opens a bag: the opening's own entry, and the announcements of what it restores. */
  lemma RecordSays(c: Config, s: State, graph: Graph, how: Opening, tries: nat -> Attempt)
    requires Quiet(s.bag)
    ensures var after := Record(c, s, graph, how, tries);
            && after.deferred == s.deferred
            && if Reopens(s, how) then Others(Log(after)) == Others(OpeningEntry(c, s, how)) else after == s
  {
    hide OpenBag, SubscribeFirst, StoredEvents, Others, OpeningEntry;
    if Reopens(s, how) {
      OpeningSays(c, s, how);
      OpenBagBegins(c, s, how);
      var ready := OpenBag(c, s, how).(stoppedForLowDisk := false, stoppedForMaxBagSize := false, topicsAtStop := []);
      BatchOnlyAnnounces(c, ready, Selection(s.topicsAtStop, []), graph, tries, |s.topicsAtStop|);
    }
  }

  lemma OpeningIsOther(c: Config, s: State, how: Opening)
    ensures Others(OpeningEntry(c, s, how)) == OpeningEntry(c, s, how)
  {
    var entry := OpeningEntry(c, s, how);
    if entry != [] {
      assert entry == [] + [entry[0]];
      OthersAppend([], entry[0]);
    }
  }

  lemma RecordTimerSays(c: Config, s: State, graph: Graph, how: Opening, tries: nat -> Attempt)
    requires Quiet(s.bag) && Sound(s.scheduler)
    ensures var cmd := CRecordTimer(graph, how, tries);
            var after := Exec(c, s, cmd);
            && after.deferred == s.deferred
            && if Opens(ViewOf(s), cmd) then Others(Log(after)) == OpeningEntry(c, s, how) else Log(after) == Log(s)
  {
    hide Record, StoredEvents, Others, S.AfterTimer, S.TimerLive;
    TimerIsForItsSlot(s.scheduler, S.Record);
    RecordSays(c, s.(scheduler := S.AfterTimer(s.scheduler, S.Record)), graph, how, tries);
    OpeningIsOther(c, s, how);
  }

  /** In every reachable state a command that changes the selection adds only subscription events to the log, and none if
    * they are not recorded; one that opens a bag begins its log with whether it opens paused. */
  lemma EverySelectionJournaled(c: Config, s: State, cmd: Command)
    requires Reaches(c, s) && Selects(cmd)
    ensures var after := Exec(c, s, cmd);
            && after.deferred == s.deferred
            && if !Opens(ViewOf(s), cmd) then Others(Log(after)) == Others(Log(s)) && (!c.recordSubscriptions ==> Log(after) == Log(s))
               else Others(Log(after)) == OpeningEntry(c, s, cmd.opening)
  {
    hide StoredEvents, Others, OpeningEntry, Sound, Reaches;
    ReachesSound(c, s);
    match cmd
    case CSubscribe(sel, graph, tries) => BatchOnlyAnnounces(c, s, sel, graph, tries, |sel.topics|); hide SubscribeFirst, Shape;
    case CUnsubscribe(topics, drops) => DropsOnlyAnnounce(c, s, topics, {}, drops, |topics|); hide UnsubscribeFirst, Shape;
    case CReplace(sel, graph, drops, tries) =>
      var listed := Names.Listing(s.subs.Keys);
      DropsOnlyAnnounce(c, s, listed, NamesIn(sel.topics), drops, |listed|);
      BatchOnlyAnnounces(c, UnsubscribeFirst(c, s, listed, NamesIn(sel.topics), drops, |listed|).0, sel, graph, tries,
                         |sel.topics|);
      hide SubscribeFirst, UnsubscribeFirst, Shape;
    case CRecord(graph, how, tries) =>
      RecordSays(c, s, graph, how, tries);
      OpeningIsOther(c, s, how);
      hide Record, Shape;
    case CRecordTimer(graph, how, tries) => RecordTimerSays(c, s, graph, how, tries); hide Record, Shape;
  }

  // ---- the guards, and the files ------------------------------------------------------------------------------------------

  lemma GuardEntries(c: Config, s: State, tick: Tick, how: Stopping)
    ensures Entries(c, s, CCheckBagSize(true, tick, how)) ==
            Told(c.recordBagSize, tick.fate, BagSizeLimit, Stopped, s.clock + tick.delay) + Written(s.deferred, how.fates)
    ensures Entries(c, s, CCheckFreeSpace(true, tick, how)) ==
            Told(c.recordLowDisk, tick.fate, LowDisk, Stopped, s.clock + tick.delay) + Written(s.deferred, how.fates)
  {
    hide Told, Written;
  }

  /** A size guard that finds the bag too big stops the recording: the bag is closed, the flag set, and the log ends with
    * the reason, if it is recorded and the writer takes it, and the split events that were waiting. */
  lemma BagSizeGuardStops(c: Config, s: State, tick: Tick, how: Stopping)
    requires Reaches(c, s) && s.bag.open
    ensures var after := Exec(c, s, CCheckBagSize(true, tick, how));
            && !after.bag.open && after.stoppedForMaxBagSize && !after.stoppedForLowDisk
            && Log(after) == Log(s) + (Told(c.recordBagSize, tick.fate, BagSizeLimit, Stopped, s.clock + tick.delay)
                                       + Written(s.deferred, how.fates))
  {
    GuardStops(c, s, CCheckBagSize(true, tick, how));
    GuardEntries(c, s, tick, how);
    hide Exec, StoredEvents, Written, Told, Entries, Reaches;
  }

  /** So does the disk guard. */
  lemma DiskGuardStops(c: Config, s: State, tick: Tick, how: Stopping)
    requires Reaches(c, s) && s.bag.open
    ensures var after := Exec(c, s, CCheckFreeSpace(true, tick, how));
            && !after.bag.open && after.stoppedForLowDisk && !after.stoppedForMaxBagSize
            && Log(after) == Log(s) + (Told(c.recordLowDisk, tick.fate, LowDisk, Stopped, s.clock + tick.delay)
                                       + Written(s.deferred, how.fates))
  {
    GuardStops(c, s, CCheckFreeSpace(true, tick, how));
    GuardEntries(c, s, tick, how);
    hide Exec, StoredEvents, Written, Told, Entries, Reaches;
  }

  lemma GuardStops(c: Config, s: State, cmd: Command)
    requires Reaches(c, s) && s.bag.open && (cmd.CCheckFreeSpace? || cmd.CCheckBagSize?) && cmd.verdict
    ensures var after := Exec(c, s, cmd);
            && !after.bag.open && after.stoppedForLowDisk == cmd.CCheckFreeSpace? && after.stoppedForMaxBagSize == cmd.CCheckBagSize?
            && Log(after) == Log(s) + Entries(c, s, cmd)
  {
    EveryCommandJournaled(c, s, cmd);
    EveryCommandFollows(c, s, cmd);
    ReachesShape(c, s);
    hide Exec, Entries, StoredEvents, Reaches, Shape;
  }

  /** The new files the writer was asked for, and whether it began them. */
  function Files(calls: seq<Call>): seq<bool> {
    if calls == [] then []
    else
      var n := |calls| - 1;
      Files(calls[..n]) + if calls[n].SplitFile? then [calls[n].ok] else []
  }

  lemma FilesAppend(calls: seq<Call>, call: Call)
    ensures Files(calls + [call]) == Files(calls) + if call.SplitFile? then [call.ok] else []
  {
    assert (calls + [call])[..|calls|] == calls;
  }

  lemma LogMakesNoFile(b: BagState, topic: string, typeName: string, e: Event, fate: Fate)
    ensures Files(LogEvent(b, topic, typeName, e, fate).calls) == Files(b.calls)
  {
    hide Files;
    var made := b.calls + [Created(topic, typeName, !fate.ChannelFailed?)];
    FilesAppend(b.calls, Created(topic, typeName, !fate.ChannelFailed?));
    FilesAppend(if topic in b.channels then b.calls else made, WroteEvent(e, fate.Stored?));
    assert Files(b.calls) + [] == Files(b.calls);
  }

  lemma EventMakesNoFile(c: Config, b: BagState, e: Event, fate: Fate)
    requires Quiet(b)
    ensures Files(RecordEvent(c, b, e, fate).calls) == Files(b.calls)
  {
    var topic, typeName := EventTopic(e.kind), EventType(e.kind);
    if b.open {
      LogEventWentOn(b, topic, typeName, e, fate);
      FlushQuiet(LogEvent(b, topic, typeName, e, fate), c.accepts);
      LogMakesNoFile(b, topic, typeName, e, fate);
    }
    hide Files, EventTopic, EventType, StoredEvents, LogEvent, AfterFlush;
  }

  lemma PauseMakesNoFile(c: Config, s: State, tick: Tick)
    requires Quiet(s.bag)
    ensures Files(ResumeNow(c, s, tick).bag.calls) == Files(s.bag.calls)
  {
    hide RecordEvent, Files;
    EventMakesNoFile(c, s.bag, Event(Pause, Resumed, s.clock + tick.delay, ""), tick.fate);
  }

  lemma SplitMakesFile(c: Config, s: State, ok: bool, delay: nat)
    requires Quiet(s.bag)
    ensures Files(SplitNow(c, s, ok, delay).bag.calls) == Files(s.bag.calls) + if s.bag.open then [ok] else []
  {
    FilesAppend(s.bag.calls, Call.SplitFile(ok));
    FlushQuiet(Called(s.bag, Call.SplitFile(ok)), c.accepts);
    hide Files;
  }

  lemma WriteMakesNoFile(c: Config, b: BagState, m: Message)
    requires Quiet(b)
    ensures Files(AfterWrite(b, m, false, c.accepts).calls) == Files(b.calls)
  {
    FilesAppend(b.calls, Wrote(m, c.accepts(m)));
    hide Files;
  }

  lemma FiringMakesFile(c: Config, s: State, m: Message, tick: Tick, ok: bool, delay: nat)
    requires Quiet(s.bag) && Sound(s.scheduler)
    ensures var after := FireDue(c, s, m, tick, ok, delay);
            && Quiet(after.bag)
            && Files(after.bag.calls) == Files(s.bag.calls) +
                 if s.bag.open && DueOn(s.scheduler.split.scheduled, ArrivalOf(m)) then [ok] else []
  {
    hide ResumeNow, SplitNow, Files, S.AfterTakeDue, DueOn, StoredEvents;
    TakesExactlyTheDue(s.scheduler, ArrivalOf(m));
    var (scheduler, due) := S.AfterTakeDue(s.scheduler, ArrivalOf(m));
    var taken := s.(scheduler := scheduler);
    PauseGoesOn(c, taken, false, tick);
    PauseMakesNoFile(c, taken, tick);
    var ready := if due.resume then ResumeNow(c, taken, tick) else taken;
    SplitGoesOn(c, ready, ok, delay);
    SplitMakesFile(c, ready, ok, delay);
  }

  lemma RequestMakesFile(c: Config, s: State, atNs: int, mode: int, topic: string, ok: bool, delay: nat)
    requires Quiet(s.bag)
    ensures var cmd := CSplitAt(atNs, mode, topic, ok, delay);
            Files(Exec(c, s, cmd).bag.calls) == Files(s.bag.calls) + if SplitsNow(ViewOf(s), cmd) then [ok] else []
  {
    hide SplitNow, Files, Judge, Schedule, Answered;
    SplitMakesFile(c, s, ok, delay);
    JudgeIsAnswer(s, S.Split, atNs, mode, topic);
    PlacedAsAnswered(s, S.Split, atNs, mode, topic, S.Split);
  }

  lemma TimerMakesFile(c: Config, s: State, ok: bool, delay: nat)
    requires Quiet(s.bag) && Sound(s.scheduler)
    ensures var cmd := CSplitTimer(ok, delay);
            Files(Exec(c, s, cmd).bag.calls) == Files(s.bag.calls) + if SplitsNow(ViewOf(s), cmd) then [ok] else []
  {
    hide SplitNow, Files, S.AfterTimer, S.TimerLive;
    TimerIsForItsSlot(s.scheduler, S.Split);
    SplitMakesFile(c, s.(scheduler := S.AfterTimer(s.scheduler, S.Split)), ok, delay);
  }

  lemma MessageMakesFile(c: Config, s: State, m: Message, tick: Tick, ok: bool, delay: nat)
    requires Quiet(s.bag) && Sound(s.scheduler)
    ensures var cmd := CMessage(m, tick, ok, delay);
            Files(Exec(c, s, cmd).bag.calls) == Files(s.bag.calls) + if SplitsNow(ViewOf(s), cmd) then [ok] else []
  {
    hide FireDue, Files, AfterWrite, DueOn;
    FiringMakesFile(c, s, m, tick, ok, delay);
    WriteMakesNoFile(c, FireDue(c, s, m, tick, ok, delay).bag, m);
  }

  /** A snapshot reaches the writer exactly while a bag is open. */
  lemma SnapshotsExactly(c: Config, s: State, ok: bool)
    requires Reaches(c, s)
    ensures Exec(c, s, CSnapshot(ok)).bag.calls == s.bag.calls + if s.bag.open then [TookSnapshot(ok)] else []
  {
    ReachesSound(c, s);
    FlushQuiet(Called(s.bag, TookSnapshot(ok)), c.accepts);
  }

  /** In every reachable state a request, a timer or a message that is to split the bag has the writer asked for a new file
    * once, and at no other time. */
  lemma SplitsExactly(c: Config, s: State, cmd: Command)
    requires Reaches(c, s) && (cmd.CSplitAt? || cmd.CSplitTimer? || cmd.CMessage?)
    ensures Files(Exec(c, s, cmd).bag.calls) == Files(s.bag.calls) + if SplitsNow(ViewOf(s), cmd) then [cmd.splitOk] else []
  {
    ReachesSound(c, s);
    hide Files, Exec, SplitsNow, Reaches, Sound;
    match cmd
    case CSplitAt(atNs, mode, topic, ok, delay) => RequestMakesFile(c, s, atNs, mode, topic, ok, delay);
    case CSplitTimer(ok, delay) => TimerMakesFile(c, s, ok, delay);
    case CMessage(m, tick, ok, delay) => MessageMakesFile(c, s, m, tick, ok, delay);
  }
}
