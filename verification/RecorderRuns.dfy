/** Every command, and whole runs of them: what each keeps. */
module RecorderRuns {
  import opened Timeline
  import opened BagStore
  import opened Options
  import opened RecorderState
  import opened RecorderInvariants
  import Names
  import S = Scheduling

  // ---- deferred split events ---------------------------------------------------------------------------

  /** An event that toggles no signal is logged, or lost, and nothing else happens. */
  lemma OtherEventIsNeutral(g: Signal, s: State, after: State, e: Event)
    requires Dated(s) && Faithful(g, s) && SameStretch(s, after) && after.history == s.history
    requires !e.kind.Subscription? && !e.kind.Pause?
    requires Log(after) == Log(s) || Log(after) == Log(s) + [e]
    ensures Faithful(g, after)
  {
    NeutralKeeps(g, s, after);
  }

  /** A split event, however late it is written, says nothing about subscriptions or pauses. */
  lemma SplitEventKeeps(c: Config, g: Signal, s: State, e: Event, fate: Fate)
    requires Shape(s) && e.kind.Split? && e.stamp <= s.clock
    ensures Keeps(c, g, s, s.(bag := RecordEvent(c, s.bag, e, fate)), true)
  {
    var after := s.(bag := RecordEvent(c, s.bag, e, fate));
    EventWentOn(c, s.bag, e, fate);
    LoggedShape(s, after, if s.bag.open && fate.Stored? then Some(e) else None);
    if Faithful(g, s) { OtherEventIsNeutral(g, s, after, e); }
    hide RecordEvent, Shape, SameBag, Faithful;
  }

  lemma {:induction false} WriteDeferredKeeps(c: Config, g: Signal, s: State, events: seq<Event>, fates: nat -> Fate)
    requires Shape(s) && forall e | e in events :: e.stamp <= s.clock && e.kind.Split?
    ensures Keeps(c, g, s, s.(bag := WriteDeferred(c, s.bag, events, fates)), true)
  {
    if events == [] {
      BagOnlyKeeps(c, g, s, s);
    } else {
      var n := |events| - 1;
      WriteDeferredKeeps(c, g, s, events[..n], fates);
      var mid := s.(bag := WriteDeferred(c, s.bag, events[..n], fates));
      SplitEventKeeps(c, g, mid, events[n], fates(n));
      KeepsThen(c, g, s, mid, mid.(bag := RecordEvent(c, mid.bag, events[n], fates(n))), true, true);
    }
  }

  lemma RecordDeferredKeeps(c: Config, g: Signal, s: State, fates: nat -> Fate)
    requires Shape(s)
    ensures Keeps(c, g, s, RecordDeferred(c, s, fates), true)
  {
    WriteDeferredKeeps(c, g, s, s.deferred, fates);
    var mid := s.(bag := WriteDeferred(c, s.bag, s.deferred, fates));
    AsideKeeps(c, g, mid, mid.(deferred := []));
    KeepsThen(c, g, s, mid, mid.(deferred := []), true, true);
  }

  // ---- stop ----------------------------------------------------------------------------------------------

  lemma CloseIsTold(g: Signal, s: State, after: State)
    requires Faithful(g, s) && s.bag.open && !after.bag.open && Log(after) == Log(s)
    requires after.explainedFrom == s.explainedFrom && after.closedAt == after.clock
    requires exists m: Moment :: m.stamp == after.clock && after.history == s.history + [m]
    ensures Faithful(g, after)
  {
    var m: Moment :| m.stamp == after.clock && after.history == s.history + [m];
    forall t ensures Told(g, after, t) {
      assert Told(g, s, t);
      AtAppend(s.history, m, t);
    }
  }

  /** What any command does to the recorder: the shape and the self-stop bookkeeping are kept, a bag that
    * stays open keeps its channels, a recorder that stays closed its saved selection, and a signal whose
    * events are recorded and stored stays truly told. */
  ghost predicate Advances(c: Config, g: Signal, s: State, after: State, stored: bool) {
    && Shape(after) && s.clock <= after.clock
    && (SelfStopped(s) ==> SelfStopped(after))
    && (s.bag.open && after.bag.open ==> after.explainedFrom == s.explainedFrom && Extends(s.bag.channels, after.bag.channels))
    && (!s.bag.open && !after.bag.open ==> after.topicsAtStop == s.topicsAtStop)
    && (Records(c, g) && stored && Faithful(g, s) ==> Faithful(g, after))
  }

  predicate StoppedFor(s: State, kind: Kind) {
    if kind.LowDisk? then s.stoppedForLowDisk else s.stoppedForMaxBagSize
  }

  /** At most one self-stop flag, only while stopped, and at most one self-stop event, as a bag's end, for the reason
    * the flag gives. */
  predicate SelfStopped(s: State) {
    && !(s.stoppedForLowDisk && s.stoppedForMaxBagSize)
    && (s.stoppedForLowDisk || s.stoppedForMaxBagSize ==> !s.bag.open)
    && |SelfStops(Log(s))| <= 1 && (s.bag.open ==> SelfStops(Log(s)) == [])
    && (forall kind | kind in SelfStops(Log(s)) :: StoppedFor(s, kind))
  }

  lemma KeepsAdvances(c: Config, g: Signal, s: State, after: State, stored: bool)
    requires Keeps(c, g, s, after, stored)
    ensures Advances(c, g, s, after, stored)
  {
  }

  lemma EndedShape(c: Config, s: State, delay: nat)
    requires Shape(s) && s.bag.open
    ensures var after := Ended(c, s, delay);
            Shape(after) && !after.bag.open && Log(after) == Log(s)
  {
    CloseFacts(c, s.bag);
  }

  lemma EndedKeeps(c: Config, g: Signal, s: State, delay: nat)
    requires Shape(s) && s.bag.open
    ensures Faithful(g, s) ==> Faithful(g, Ended(c, s, delay))
  {
    EndedShape(c, s, delay);
    var after := Ended(c, s, delay);
    assert after.history == s.history + [Moment(after.clock, after.subs.Keys, s.paused)];
    if Faithful(g, s) { CloseIsTold(g, s, after); }
  }

  /** stop() leaves the bag closed with its log as it was, and the selection saved unless already closed. */
  ghost predicate Stops(c: Config, g: Signal, s: State, after: State) {
    && Shape(after) && !after.bag.open && s.clock <= after.clock
    && SelfStops(Log(after)) == SelfStops(Log(s))
    && after.stoppedForLowDisk == s.stoppedForLowDisk && after.stoppedForMaxBagSize == s.stoppedForMaxBagSize
    && after.topicsAtStop == (if s.bag.open then Names.Listing(s.subs.Keys) else s.topicsAtStop)
    && (Records(c, g) && Faithful(g, s) ==> Faithful(g, after))
  }

  lemma StopKeeps(c: Config, g: Signal, s: State, how: Stopping)
    requires Shape(s)
    ensures Stops(c, g, s, Stop(c, s, how))
  {
    var written := RecordDeferred(c, s, how.fates);
    RecordDeferredKeeps(c, g, s, how.fates);
    if written.bag.open {
      EndedShape(c, written, how.delay);
      EndedKeeps(c, g, written, how.delay);
    }
  }

  // ---- opening a bag ---------------------------------------------------------------------------------------

  /** What an opening leaves: a fresh log holding at most the initial pause event, and one new moment. */
  predicate Begins(c: Config, s: State, after: State, stored: bool) {
    && after == s.(clock := after.clock, bag := after.bag, explainedFrom := after.clock, history := after.history)
    && Quiet(after.bag) && after.bag.open && s.clock <= after.clock
    && after.history == s.history + [Moment(after.clock, s.subs.Keys, s.paused)]
    && Log(after) == if s.paused && c.recordPauses && stored then [Event(Pause, Paused, after.clock, "")] else []
  }

  lemma OpenBagBegins(c: Config, s: State, how: Opening)
    requires Quiet(s.bag)
    ensures Begins(c, s, OpenBag(c, s, how), how.tick.fate.Stored?)
  {
    hide AfterOpen, Emit;
    var begun := s.(clock := s.clock + how.delay, bag := AfterOpen(s.bag, c.maxCacheSize));
    OpenFacts(c, s.bag);
    if s.paused {
      EmitFacts(c, begun, Pause, Paused, "", c.recordPauses, how.tick);
    }
  }

  lemma OpenBagShape(c: Config, s: State, after: State, stored: bool)
    requires Shape(s) && !s.bag.open && Begins(c, s, after, stored)
    ensures Shape(after)
  {
  }

  /** A new bag starts by saying what it needs to: nothing is subscribed yet, and a paused bag says so. */
  lemma OpenBagTold(c: Config, g: Signal, s: State, how: Opening)
    requires Shape(s) && !s.bag.open && Records(c, g) && PauseTold(g, how.tick)
    ensures Faithful(g, OpenBag(c, s, how))
  {
    OpenBagBegins(c, s, how);
    var after := OpenBag(c, s, how);
    var m := Moment(after.clock, s.subs.Keys, s.paused);
    forall t ensures Told(g, after, t) {
      AtAppend(s.history, m, t);
      if s.paused && c.recordPauses {
        var e := Event(Pause, Paused, after.clock, "");
        assert [e][..0] == [];
      }
    }
  }

  /** The events of the signal that an opening and its first batch emit are stored. */
  predicate OpeningTold(g: Signal, how: Opening, topics: seq<string>, tries: nat -> Attempt) {
    PauseTold(g, how.tick) && BatchTold(g, topics, tries)
  }

  lemma OpenedKeeps(c: Config, g: Signal, s: State, graph: Graph, how: Opening, sel: Selection, tries: nat -> Attempt)
    requires Shape(s) && !s.bag.open
    ensures var ready := OpenBag(c, s, how).(stoppedForLowDisk := false, stoppedForMaxBagSize := false, topicsAtStop := []);
            var after := SubscribeBatch(c, ready, sel, graph, tries).state;
            && Advances(c, g, s, after, OpeningTold(g, how, sel.topics, tries))
            && (Records(c, g) && OpeningTold(g, how, sel.topics, tries) ==> Faithful(g, after))
            && after.bag.open && SelfStopped(after)
  {
    OpenBagBegins(c, s, how);
    var begun := OpenBag(c, s, how);
    OpenBagShape(c, s, begun, how.tick.fate.Stored?);
    var ready := begun.(stoppedForLowDisk := false, stoppedForMaxBagSize := false, topicsAtStop := []);
    SubscribeFirstKeeps(c, g, ready, sel, graph, tries, |sel.topics|);
    assert sel.topics[..|sel.topics|] == sel.topics;
    SelfStopsOfOpening(ready);
    if Records(c, g) && PauseTold(g, how.tick) {
      OpenBagTold(c, g, s, how);
      NeutralKeeps(g, begun, ready);
    }
  }

  lemma SelfStopsOfOpening(s: State)
    requires Log(s) == [] || exists t :: Log(s) == [Event(Pause, Paused, t, "")]
    ensures SelfStops(Log(s)) == []
  {
    if Log(s) != [] { assert Log(s)[..0] == []; }
  }

  lemma RecordKeeps(c: Config, g: Signal, s: State, graph: Graph, how: Opening, tries: nat -> Attempt)
    requires Shape(s)
    ensures Advances(c, g, s, Record(c, s, graph, how, tries), OpeningTold(g, how, s.topicsAtStop, tries))
  {
    if Reopens(s, how) { OpenedKeeps(c, g, s, graph, how, Selection(s.topicsAtStop, []), tries); }
  }

  // ---- the storage guards --------------------------------------------------------------------------------------

  lemma GuardEventShape(c: Config, s: State, kind: Kind, record: bool, tick: Tick)
    requires Shape(s) && s.bag.open && (kind.LowDisk? || kind.BagSizeLimit?)
    ensures var told := Emit(c, s, kind, Stopped, "", record, tick);
            && Shape(told) && SameStretch(s, told) && told.history == s.history
            && (Log(told) == Log(s) || Log(told) == Log(s) + [Event(kind, Stopped, told.clock, "")])
  {
    EmitFacts(c, s, kind, Stopped, "", record, tick);
    hide Emit, StoredEvents;
  }

  /** A guard's event before the stop it announces. */
  lemma GuardEventKeeps(c: Config, g: Signal, s: State, kind: Kind, record: bool, tick: Tick)
    requires Shape(s) && s.bag.open && (kind.LowDisk? || kind.BagSizeLimit?)
    ensures var told := Emit(c, s, kind, Stopped, "", record, tick);
            && Shape(told) && SameStretch(s, told) && (Faithful(g, s) ==> Faithful(g, told))
            && (SelfStops(Log(told)) == SelfStops(Log(s)) || SelfStops(Log(told)) == SelfStops(Log(s)) + [kind])
  {
    hide Emit, StoredEvents, Faithful;
    var told := Emit(c, s, kind, Stopped, "", record, tick);
    GuardEventShape(c, s, kind, record, tick);
    SelfStopsAppend(Log(s), Event(kind, Stopped, told.clock, ""));
    if Faithful(g, s) { OtherEventIsNeutral(g, s, told, Event(kind, Stopped, told.clock, "")); }
  }

  lemma GuardKeeps(c: Config, g: Signal, s: State, kind: Kind, record: bool, marked: State, tick: Tick, how: Stopping)
    requires Shape(s) && s.bag.open && (kind.LowDisk? || kind.BagSizeLimit?)
    requires marked == Emit(c, s, kind, Stopped, "", record, tick).(
                         stoppedForLowDisk := marked.stoppedForLowDisk, stoppedForMaxBagSize := marked.stoppedForMaxBagSize)
    requires SelfStopped(s) ==> !(marked.stoppedForLowDisk && marked.stoppedForMaxBagSize)
    requires StoppedFor(marked, kind)
    ensures Advances(c, g, s, Stop(c, marked, how), true)
  {
    var told := Emit(c, s, kind, Stopped, "", record, tick);
    GuardEventKeeps(c, g, s, kind, record, tick);
    if Faithful(g, told) { NeutralKeeps(g, told, marked); }
    StopKeeps(c, g, marked, how);
  }

  // ---- replacement and schedules ---------------------------------------------------------------------------------

  lemma ReplaceKeeps(c: Config, g: Signal, s: State, desired: Selection, graph: Graph, drops: nat -> Tick, tries: nat -> Attempt)
    requires Shape(s) && s.bag.open
    ensures Keeps(c, g, s, ReplaceTopics(c, s, desired, graph, drops, tries).0.state,
                  DropsTold(g, Names.Listing(s.subs.Keys), drops) && BatchTold(g, desired.topics, tries))
  {
    var listed := Names.Listing(s.subs.Keys);
    var dropped := UnsubscribeFirst(c, s, listed, NamesIn(desired.topics), drops, |listed|).0;
    UnsubscribeFirstKeeps(c, g, s, listed, NamesIn(desired.topics), drops, |listed|);
    SubscribeFirstKeeps(c, g, dropped, desired, graph, tries, |desired.topics|);
    assert listed[..|listed|] == listed && desired.topics[..|desired.topics|] == desired.topics;
  }

  lemma ScheduleKeeps(c: Config, g: Signal, s: State, kind: S.Kind, atNs: int, verdict: Verdict, topic: string)
    requires Shape(s) && (s.bag.open || kind.Record?)
    ensures Keeps(c, g, s, Schedule(s, kind, atNs, verdict, topic), true)
  {
    AsideKeeps(c, g, s, Schedule(s, kind, atNs, verdict, topic));
  }

  /** A timer runs: it cancels itself and empties its slot before its action. */
  lemma TimerKeeps(c: Config, g: Signal, s: State, kind: S.Kind)
    requires Shape(s)
    ensures Keeps(c, g, s, s.(scheduler := S.AfterTimer(s.scheduler, kind)), true)
  {
    AsideKeeps(c, g, s, s.(scheduler := S.AfterTimer(s.scheduler, kind)));
  }

  // ---- every command ---------------------------------------------------------------------------------------------

  /** Every event of the signal that the command emits is stored. */
  ghost predicate SignalStored(g: Signal, s: State, cmd: Command) {
    match cmd
    case CRecord(_, opening, tries) => OpeningTold(g, opening, s.topicsAtStop, tries)
    case CPause(tick) => PauseTold(g, tick)
    case CResume(tick) => PauseTold(g, tick)
    case CSubscribe(sel, _, tries) => BatchTold(g, sel.topics, tries)
    case CUnsubscribe(topics, drops) => DropsTold(g, topics, drops)
    case CReplace(sel, _, drops, tries) => DropsTold(g, Names.Listing(s.subs.Keys), drops) && BatchTold(g, sel.topics, tries)
    case CMessage(_, tick, _, _) => PauseTold(g, tick)
    case CResumeAt(_, _, _, tick) => PauseTold(g, tick)
    case CResumeTimer(tick) => PauseTold(g, tick)
    case CRecordTimer(_, opening, tries) => OpeningTold(g, opening, s.topicsAtStop, tries)
    case _ => true
  }

  lemma NothingKeeps(c: Config, g: Signal, s: State, stored: bool)
    requires Shape(s)
    ensures Keeps(c, g, s, s, stored)
  {
    BagOnlyKeeps(c, g, s, s);
  }

  lemma SubscribeCommand(c: Config, g: Signal, s: State, sel: Selection, graph: Graph, tries: nat -> Attempt)
    requires Shape(s)
    ensures Keeps(c, g, s, Exec(c, s, CSubscribe(sel, graph, tries)), BatchTold(g, sel.topics, tries))
  {
    hide SubscribeFirst, BatchTold;
    assert sel.topics[..|sel.topics|] == sel.topics;
    if s.bag.open { SubscribeFirstKeeps(c, g, s, sel, graph, tries, |sel.topics|); }
    else { NothingKeeps(c, g, s, BatchTold(g, sel.topics, tries)); }
  }

  lemma UnsubscribeCommand(c: Config, g: Signal, s: State, topics: seq<string>, drops: nat -> Tick)
    requires Shape(s)
    ensures Keeps(c, g, s, Exec(c, s, CUnsubscribe(topics, drops)), DropsTold(g, topics, drops))
  {
    hide UnsubscribeFirst, DropsTold;
    assert topics[..|topics|] == topics;
    UnsubscribeFirstKeeps(c, g, s, topics, {}, drops, |topics|);
  }

  lemma ReplaceCommand(c: Config, g: Signal, s: State, sel: Selection, graph: Graph, drops: nat -> Tick, tries: nat -> Attempt)
    requires Shape(s)
    ensures Keeps(c, g, s, Exec(c, s, CReplace(sel, graph, drops, tries)),
                  DropsTold(g, Names.Listing(s.subs.Keys), drops) && BatchTold(g, sel.topics, tries))
  {
    hide ReplaceTopics, DropsTold, BatchTold;
    if s.bag.open { ReplaceKeeps(c, g, s, sel, graph, drops, tries); }
    else { NothingKeeps(c, g, s, DropsTold(g, Names.Listing(s.subs.Keys), drops) && BatchTold(g, sel.topics, tries)); }
  }

  lemma PauseCommand(c: Config, g: Signal, s: State, tick: Tick)
    requires Shape(s)
    ensures Keeps(c, g, s, Exec(c, s, CPause(tick)), PauseTold(g, tick))
  {
    hide PauseNow;
    PauseKeeps(c, g, s, tick);
  }

  lemma ResumeCommand(c: Config, g: Signal, s: State, tick: Tick)
    requires Shape(s)
    ensures Keeps(c, g, s, Exec(c, s, CResume(tick)), PauseTold(g, tick))
  {
    hide ResumeNow;
    ResumeKeeps(c, g, s, tick);
  }

  lemma ResumeAtCommand(c: Config, g: Signal, s: State, atNs: int, mode: int, topic: string, tick: Tick)
    requires Shape(s)
    ensures Keeps(c, g, s, Exec(c, s, CResumeAt(atNs, mode, topic, tick)), PauseTold(g, tick))
  {
    hide ResumeNow, Judge, Schedule;
    if !s.bag.open { NothingKeeps(c, g, s, PauseTold(g, tick)); }
    else if Judge(s, atNs, mode, topic).RunNow? { ResumeKeeps(c, g, s, tick); }
    else { ScheduleKeeps(c, g, s, S.Resume, atNs, Judge(s, atNs, mode, topic), topic); }
  }

  lemma SplitAtCommand(c: Config, g: Signal, s: State, atNs: int, mode: int, topic: string, ok: bool, delay: nat)
    requires Shape(s)
    ensures Keeps(c, g, s, Exec(c, s, CSplitAt(atNs, mode, topic, ok, delay)), true)
  {
    hide SplitNow, Judge, Schedule;
    if !s.bag.open { NothingKeeps(c, g, s, true); }
    else if Judge(s, atNs, mode, topic).RunNow? { SplitKeeps(c, g, s, ok, delay); }
    else { ScheduleKeeps(c, g, s, S.Split, atNs, Judge(s, atNs, mode, topic), topic); }
  }

  lemma ResumeTimerCommand(c: Config, g: Signal, s: State, tick: Tick)
    requires Shape(s)
    ensures Keeps(c, g, s, Exec(c, s, CResumeTimer(tick)), PauseTold(g, tick))
  {
    hide ResumeNow, S.AfterTimer;
    var taken := s.(scheduler := S.AfterTimer(s.scheduler, S.Resume));
    if S.TimerLive(s.scheduler, S.Resume) {
      TimerKeeps(c, g, s, S.Resume);
      ResumeKeeps(c, g, taken, tick);
      KeepsThen(c, g, s, taken, ResumeNow(c, taken, tick), true, PauseTold(g, tick));
    } else {
      NothingKeeps(c, g, s, PauseTold(g, tick));
    }
  }

  lemma SplitTimerCommand(c: Config, g: Signal, s: State, ok: bool, delay: nat)
    requires Shape(s)
    ensures Keeps(c, g, s, Exec(c, s, CSplitTimer(ok, delay)), true)
  {
    hide SplitNow, S.AfterTimer;
    var taken := s.(scheduler := S.AfterTimer(s.scheduler, S.Split));
    if S.TimerLive(s.scheduler, S.Split) {
      TimerKeeps(c, g, s, S.Split);
      SplitKeeps(c, g, taken, ok, delay);
      KeepsThen(c, g, s, taken, SplitNow(c, taken, ok, delay), true, true);
    } else {
      NothingKeeps(c, g, s, true);
    }
  }

  lemma RolloverCommand(c: Config, g: Signal, s: State, delay: nat)
    requires Shape(s)
    ensures Keeps(c, g, s, Exec(c, s, CRollover(delay)), true)
  {
    if s.bag.open { RolloverKeeps(c, g, s, delay); } else { NothingKeeps(c, g, s, true); }
    hide Rollover;
  }

  lemma RolloverKeeps(c: Config, g: Signal, s: State, delay: nat)
    requires Shape(s)
    ensures Keeps(c, g, s, Rollover(c, s, delay), true)
  {
    AsideKeeps(c, g, s, Rollover(c, s, delay));
  }

  lemma SnapshotKeeps(c: Config, g: Signal, s: State, ok: bool)
    requires Shape(s)
    ensures Keeps(c, g, s, s.(bag := AfterSnapshot(s.bag, ok, c.accepts)), true)
  {
    SnapshotWentOn(c, s.bag, ok);
    hide AfterSnapshot;
    BagOnlyKeeps(c, g, s, s.(bag := AfterSnapshot(s.bag, ok, c.accepts)));
  }

  lemma DeferredCommand(c: Config, g: Signal, s: State, fates: nat -> Fate)
    requires Shape(s)
    ensures Keeps(c, g, s, Exec(c, s, CRecordDeferred(fates)), true)
  {
    hide RecordDeferred;
    RecordDeferredKeeps(c, g, s, fates);
  }

  lemma SnapshotCommand(c: Config, g: Signal, s: State, ok: bool)
    requires Shape(s)
    ensures Keeps(c, g, s, Exec(c, s, CSnapshot(ok)), true)
  {
    hide AfterSnapshot;
    SnapshotKeeps(c, g, s, ok);
  }

  lemma IdleCommand(c: Config, g: Signal, s: State, delay: nat)
    requires Shape(s)
    ensures Keeps(c, g, s, Exec(c, s, CIdle(delay)), true)
  {
    IdleKeeps(c, g, s, delay);
    hide Keeps;
  }

  lemma IdleKeeps(c: Config, g: Signal, s: State, delay: nat)
    requires Shape(s)
    ensures Keeps(c, g, s, s.(clock := s.clock + delay), true)
  {
    AsideKeeps(c, g, s, s.(clock := s.clock + delay));
  }

  lemma RecordCommand(c: Config, g: Signal, s: State, cmd: Command)
    requires Shape(s) && (cmd.CRecord? || cmd.CRecordAt? || cmd.CRecordTimer?)
    ensures Advances(c, g, s, Exec(c, s, cmd), SignalStored(g, s, cmd))
  {
    hide Record, Schedule, S.AfterTimer;
    if cmd.CRecord? {
      RecordKeeps(c, g, s, cmd.graph, cmd.opening, cmd.tries);
    } else if cmd.CRecordAt? {
      ScheduleKeeps(c, g, s, S.Record, s.clock + cmd.delay, AtNode(cmd.delay), "");
    } else {
      TimerKeeps(c, g, s, S.Record);
      RecordKeeps(c, g, s.(scheduler := S.AfterTimer(s.scheduler, S.Record)), cmd.graph, cmd.opening, cmd.tries);
    }
  }

  lemma FreeSpaceCommand(c: Config, g: Signal, s: State, low: bool, tick: Tick, how: Stopping)
    requires Shape(s)
    ensures Advances(c, g, s, Exec(c, s, CCheckFreeSpace(low, tick, how)), true)
  {
    hide Stop;
    if s.bag.open && low {
      GuardKeeps(c, g, s, LowDisk, c.recordLowDisk,
        Emit(c, s, LowDisk, Stopped, "", c.recordLowDisk, tick).(stoppedForLowDisk := true), tick, how);
    }
  }

  lemma BagSizeCommand(c: Config, g: Signal, s: State, tooBig: bool, tick: Tick, how: Stopping)
    requires Shape(s)
    ensures Advances(c, g, s, Exec(c, s, CCheckBagSize(tooBig, tick, how)), true)
  {
    hide Stop;
    if s.bag.open && tooBig {
      GuardKeeps(c, g, s, BagSizeLimit, c.recordBagSize,
        Emit(c, s, BagSizeLimit, Stopped, "", c.recordBagSize, tick).(stoppedForMaxBagSize := true), tick, how);
    }
  }

  lemma StopCommand(c: Config, g: Signal, s: State, how: Stopping)
    requires Shape(s)
    ensures Advances(c, g, s, Exec(c, s, CStop(how)), true)
  {
    hide Stop;
    StopKeeps(c, g, s, how);
  }

  lemma EveryCommand(c: Config, g: Signal, s: State, cmd: Command)
    requires Shape(s)
    ensures Advances(c, g, s, Exec(c, s, cmd), SignalStored(g, s, cmd))
  {
    hide Exec;
    if cmd.CRecord? || cmd.CRecordAt? || cmd.CRecordTimer? {
      RecordCommand(c, g, s, cmd);
    } else if cmd.CStop? {
      StopCommand(c, g, s, cmd.stopping);
    } else if cmd.CCheckFreeSpace? {
      FreeSpaceCommand(c, g, s, cmd.verdict, cmd.tick, cmd.stopping);
    } else if cmd.CCheckBagSize? {
      BagSizeCommand(c, g, s, cmd.verdict, cmd.tick, cmd.stopping);
    } else {
      QuietCommand(c, g, s, cmd);
      KeepsAdvances(c, g, s, Exec(c, s, cmd), SignalStored(g, s, cmd));
    }
  }

  /** Commands that neither open nor close a bag. */
  lemma QuietCommand(c: Config, g: Signal, s: State, cmd: Command)
    requires Shape(s)
    requires !cmd.CRecord? && !cmd.CRecordAt? && !cmd.CRecordTimer? && !cmd.CStop? && !cmd.CCheckFreeSpace? && !cmd.CCheckBagSize?
    ensures Keeps(c, g, s, Exec(c, s, cmd), SignalStored(g, s, cmd))
  {
    hide Exec;
    if cmd.CSubscribe? {
      SubscribeCommand(c, g, s, cmd.sel, cmd.graph, cmd.tries);
    } else if cmd.CUnsubscribe? {
      UnsubscribeCommand(c, g, s, cmd.topics, cmd.drops);
    } else if cmd.CReplace? {
      ReplaceCommand(c, g, s, cmd.sel, cmd.graph, cmd.drops, cmd.tries);
    } else if cmd.CPause? {
      PauseCommand(c, g, s, cmd.tick);
    } else if cmd.CResume? {
      ResumeCommand(c, g, s, cmd.tick);
    } else if cmd.CResumeAt? {
      ResumeAtCommand(c, g, s, cmd.atNs, cmd.mode, cmd.trackingTopic, cmd.tick);
    } else if cmd.CSplitAt? {
      SplitAtCommand(c, g, s, cmd.atNs, cmd.mode, cmd.trackingTopic, cmd.splitOk, cmd.delay);
    } else if cmd.CResumeTimer? {
      ResumeTimerCommand(c, g, s, cmd.tick);
    } else if cmd.CSplitTimer? {
      SplitTimerCommand(c, g, s, cmd.splitOk, cmd.delay);
    } else if cmd.CRollover? {
      RolloverCommand(c, g, s, cmd.delay);
    } else if cmd.CMessage? {
      MessageCommand(c, g, s, cmd);
    } else if cmd.CRecordDeferred? {
      DeferredCommand(c, g, s, cmd.fates);
    } else if cmd.CSnapshot? {
      SnapshotCommand(c, g, s, cmd.ok);
    } else {
      IdleCommand(c, g, s, cmd.delay);
    }
  }

  lemma MessageCommand(c: Config, g: Signal, s: State, cmd: Command)
    requires Shape(s) && cmd.CMessage?
    ensures Keeps(c, g, s, Exec(c, s, cmd), SignalStored(g, s, cmd))
  {
    if cmd.m.topic in s.subs {
      MessageKeeps(c, g, s, cmd.m, cmd.tick, cmd.splitOk, cmd.delay);
    } else {
      BagOnlyKeeps(c, g, s, s);
    }
  }

  // ---- every run -------------------------------------------------------------------------------------------------

  lemma LaunchShape(c: Config, g: Signal, startPaused: bool, topics: seq<string>, graph: Graph, how: Opening, tries: nat -> Attempt)
    ensures var s := Launch(c, startPaused, topics, graph, how, tries);
            && Shape(s) && SelfStopped(s)
            && (Records(c, g) && how.writerOpens && OpeningTold(g, how, topics, tries) ==> Faithful(g, s))
  {
    var init := Initial(startPaused);
    assert Log(init) == [];
    if how.writerOpens {
      var begun := OpenBag(c, init, how);
      assert begun == begun.(stoppedForLowDisk := false, stoppedForMaxBagSize := false, topicsAtStop := []);
      OpenedKeeps(c, g, init, graph, how, Selection(topics, []), tries);
    }
  }

  /** The states a recorder can reach from its launch. */
  ghost predicate Reaches(c: Config, s: State) {
    exists startPaused, topics, graph, how, tries, cmds ::
      s == ExecAll(c, Launch(c, startPaused, topics, graph, how, tries), cmds)
  }

  /** Every event of the signal in the run is stored. */
  ghost predicate AlwaysStored(c: Config, g: Signal, start: State, cmds: seq<Command>) {
    forall i | 0 <= i < |cmds| :: SignalStored(g, ExecAll(c, start, cmds[..i]), cmds[i])
  }

  lemma SoFarStored(c: Config, g: Signal, start: State, cmds: seq<Command>, n: nat)
    requires AlwaysStored(c, g, start, cmds) && n <= |cmds|
    ensures AlwaysStored(c, g, start, cmds[..n])
  {
    forall i | 0 <= i < n ensures SignalStored(g, ExecAll(c, start, cmds[..n][..i]), cmds[..n][i]) {
      assert cmds[..n][..i] == cmds[..i];
    }
  }

  lemma {:induction false} RunAdvances(c: Config, g: Signal, start: State, cmds: seq<Command>)
    requires Shape(start)
    ensures Shape(ExecAll(c, start, cmds))
    ensures SelfStopped(start) ==> SelfStopped(ExecAll(c, start, cmds))
    ensures Records(c, g) && Faithful(g, start) && AlwaysStored(c, g, start, cmds) ==>
              Faithful(g, ExecAll(c, start, cmds))
  {
    if cmds == [] {
    } else {
      var n := |cmds| - 1;
      RunAdvances(c, g, start, cmds[..n]);
      if AlwaysStored(c, g, start, cmds) { SoFarStored(c, g, start, cmds, n); }
      EveryCommand(c, g, ExecAll(c, start, cmds[..n]), cmds[n]);
    }
  }
}
