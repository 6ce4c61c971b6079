/** What the services promise, as a machine of its own: whether the recorder is open, paused and why it stopped, what
  * it records, what it will restore and what is scheduled. Every command of the recorder is a step of it
  * (packages/rosbag2_dynamic_recorder/src/dynamic_recorder.cpp, recorder_services.cpp, recorder_events.cpp). */
module Promises {
  import opened Options
  import opened Timeline
  import opened BagStore
  import opened RecorderState
  import opened RecorderInvariants
  import opened RecorderRuns
  import opened Timers
  import Names
  import S = Scheduling

  /** What a user can see of the recorder. */
  datatype View = View(
    clock: int, open: bool, paused: bool, lowDisk: bool, tooBig: bool,
    topics: set<string>, saved: seq<string>,
    resume: Option<S.Scheduled>, split: Option<S.Scheduled>, record: Option<S.Scheduled>)

  function ViewOf(s: State): View {
    View(s.clock, s.bag.open, s.paused, s.stoppedForLowDisk, s.stoppedForMaxBagSize, s.subs.Keys, s.topicsAtStop,
         s.scheduler.resume.scheduled, s.scheduler.split.scheduled, s.scheduler.record.scheduled)
  }

  // ---- the steps ---------------------------------------------------------------------------------------------

  /** How a request to resume or split at a time is met. */
  datatype Answer = AtOnce | UnknownMode | UnknownTopic | Later(what: S.Scheduled)

  /** Time zero means now, and so does a time on the node's clock that has passed; otherwise the mode must be one of
    * the three and the topic, if one is named, recorded. */
  function Answered(v: View, kind: S.Kind, atNs: int, mode: int, topic: string): Answer {
    if atNs == 0 || (mode == 0 && (topic == "" || topic in v.topics) && atNs <= v.clock) then AtOnce
    else if mode < 0 || 2 < mode then UnknownMode
    else if !(topic == "" || topic in v.topics) then UnknownTopic
    else Later(if mode == 0 then S.Scheduled(kind, atNs, S.NodeTime, "")
               else S.Scheduled(kind, atNs, if mode == 1 then S.PublishTime else S.ReceiveTime, topic))
  }

  /** A recorded topic's message on which the schedule is due. */
  predicate Reached(v: View, pending: Option<S.Scheduled>, m: Message) {
    m.topic in v.topics && DueOn(pending, S.Arrival(m.topic, m.sendNs, m.recvNs))
  }

  function OpenNext(v: View, cmd: Command): bool {
    match cmd
    case CStop(_) => false
    case CCheckFreeSpace(low, _, _) => v.open && !low
    case CCheckBagSize(tooBig, _, _) => v.open && !tooBig
    case CRecord(_, how, _) => v.open || (how.pathFree && how.writerOpens)
    case CRecordTimer(_, how, _) => v.open || (OnClock(v.record) && how.pathFree && how.writerOpens)
    case _ => v.open
  }

  predicate Closes(v: View, cmd: Command) { v.open && !OpenNext(v, cmd) }

  predicate Opens(v: View, cmd: Command) { !v.open && OpenNext(v, cmd) }

  function PausedNext(v: View, cmd: Command): bool {
    match cmd
    case CPause(_) => true
    case CResume(_) => false
    case CResumeAt(atNs, mode, topic, _) => v.paused && !(v.open && Answered(v, S.Resume, atNs, mode, topic).AtOnce?)
    case CMessage(m, _, _, _) => v.paused && !Reached(v, v.resume, m)
    case CResumeTimer(_) => v.paused && !OnClock(v.resume)
    case _ => v.paused
  }

  function ResumeNext(v: View, cmd: Command): Option<S.Scheduled> {
    if Closes(v, cmd) then None
    else
      match cmd
      case CResumeAt(atNs, mode, topic, _) =>
        var answer := Answered(v, S.Resume, atNs, mode, topic);
        if v.open && answer.Later? then Some(answer.what) else v.resume
      case CMessage(m, _, _, _) => if Reached(v, v.resume, m) then None else v.resume
      case CResumeTimer(_) => if OnClock(v.resume) then None else v.resume
      case _ => v.resume
  }

  function SplitNext(v: View, cmd: Command): Option<S.Scheduled> {
    if Closes(v, cmd) then None
    else
      match cmd
      case CSplitAt(atNs, mode, topic, _, _) =>
        var answer := Answered(v, S.Split, atNs, mode, topic);
        if v.open && answer.Later? then Some(answer.what) else v.split
      case CMessage(m, _, _, _) => if Reached(v, v.split, m) then None else v.split
      case CSplitTimer(_, _) => if OnClock(v.split) then None else v.split
      case _ => v.split
  }

  function RecordNext(v: View, cmd: Command): Option<S.Scheduled> {
    match cmd
    case CRecordAt(delay) =>
      if !v.open && delay > 0 then Some(S.Scheduled(S.Record, v.clock + delay, S.NodeTime, "")) else v.record
    case CRecordTimer(_, _, _) => if OnClock(v.record) then None else v.record
    case _ => v.record
  }

  /** A guard that stops the recording leaves its reason until a bag opens. */
  function ReasonNext(v: View, cmd: Command, guard: bool, before: bool): bool {
    if Closes(v, cmd) && guard then true else if Opens(v, cmd) then false else before
  }

  ghost function SavedNext(v: View, cmd: Command): seq<string> {
    if Closes(v, cmd) then Names.Listing(v.topics) else if Opens(v, cmd) then [] else v.saved
  }

  /** Only what was asked for is added, only what was to go goes; which additions work, `Selections` says. */
  predicate TopicsFollow(v: View, cmd: Command, topics: set<string>) {
    if Closes(v, cmd) then topics == {}
    else if Opens(v, cmd) then topics <= NamesIn(v.saved)
    else
      match cmd
      case CSubscribe(sel, _, _) => v.topics <= topics <= v.topics + (if v.open then NamesIn(sel.topics) else {})
      case CUnsubscribe(gone, _) => topics == v.topics - NamesIn(gone)
      case CReplace(sel, _, _, _) =>
        if v.open then v.topics * NamesIn(sel.topics) <= topics <= NamesIn(sel.topics) else topics == v.topics
      case _ => topics == v.topics
  }

  ghost predicate Follows(v: View, cmd: Command, w: View) {
    && v.clock <= w.clock && (cmd.CIdle? ==> w.clock == v.clock + cmd.delay)
    && w.open == OpenNext(v, cmd) && w.paused == PausedNext(v, cmd)
    && w.lowDisk == ReasonNext(v, cmd, cmd.CCheckFreeSpace?, v.lowDisk)
    && w.tooBig == ReasonNext(v, cmd, cmd.CCheckBagSize?, v.tooBig)
    && TopicsFollow(v, cmd, w.topics) && w.saved == SavedNext(v, cmd)
    && w.resume == ResumeNext(v, cmd) && w.split == SplitNext(v, cmd) && w.record == RecordNext(v, cmd)
  }

  // ---- what each operation leaves alone --------------------------------------------------------------------------

  /** Nothing changed but the selection, the log and the clock. */
  predicate SelectionOnly(s: State, after: State) {
    after == s.(clock := after.clock, bag := after.bag, subs := after.subs, nextHandle := after.nextHandle,
                history := after.history)
  }

  lemma SubscribeSelects(c: Config, s: State, topic: string, typeName: string, a: Attempt)
    ensures var after := SubscribeTopic(c, s, topic, typeName, a).0;
            SelectionOnly(s, after) && s.subs.Keys <= after.subs.Keys <= s.subs.Keys + {topic}
  {
    hide AfterEnsureChannel, RecordEvent;
  }

  lemma {:induction false} BatchSelects(c: Config, s: State, sel: Selection, graph: Graph, tries: nat -> Attempt, n: nat)
    requires n <= |sel.topics|
    ensures var after := SubscribeFirst(c, s, sel, graph, tries, n).state;
            SelectionOnly(s, after) && s.subs.Keys <= after.subs.Keys <= s.subs.Keys + NamesIn(sel.topics)
  {
    hide SubscribeTopic;
    if n == 0 {
    } else {
      BatchSelects(c, s, sel, graph, tries, n - 1);
      var b := SubscribeFirst(c, s, sel, graph, tries, n - 1);
      var typeName := TypeFor(sel, graph, n - 1);
      if typeName.Some? { SubscribeSelects(c, b.state, sel.topics[n - 1], typeName.value, tries(n - 1)); }
      assert sel.topics[n - 1] in sel.topics;
    }
  }

  lemma UnsubscribeSelects(c: Config, s: State, topic: string, tick: Tick)
    ensures var after := UnsubscribeTopic(c, s, topic, tick);
            SelectionOnly(s, after) && after.subs.Keys == s.subs.Keys - {topic}
  {
    hide RecordEvent;
  }

  lemma {:induction false} DropsSelect(c: Config, s: State, topics: seq<string>, keep: set<string>, ticks: nat -> Tick, n: nat)
    requires n <= |topics|
    ensures var after := UnsubscribeFirst(c, s, topics, keep, ticks, n).0;
            SelectionOnly(s, after) && after.subs.Keys == s.subs.Keys - (NamesIn(topics[..n]) - keep)
  {
    hide UnsubscribeTopic;
    if n == 0 {
    } else {
      DropsSelect(c, s, topics, keep, ticks, n - 1);
      assert topics[..n] == topics[..n - 1] + [topics[n - 1]];
      UnsubscribeSelects(c, UnsubscribeFirst(c, s, topics, keep, ticks, n - 1).0, topics[n - 1], ticks(n - 1));
    }
  }

  lemma ReplaceSelects(c: Config, s: State, desired: Selection, graph: Graph, drops: nat -> Tick, tries: nat -> Attempt)
    ensures var after := ReplaceTopics(c, s, desired, graph, drops, tries).0.state;
            && SelectionOnly(s, after)
            && s.subs.Keys * NamesIn(desired.topics) <= after.subs.Keys <= NamesIn(desired.topics)
  {
    var listed, wanted := Names.Listing(s.subs.Keys), NamesIn(desired.topics);
    DropsSelect(c, s, listed, wanted, drops, |listed|);
    assert listed[..|listed|] == listed && NamesIn(listed) == s.subs.Keys;
    BatchSelects(c, UnsubscribeFirst(c, s, listed, wanted, drops, |listed|).0, desired, graph, tries, |desired.topics|);
    hide SubscribeFirst, UnsubscribeFirst;
  }

  /** Nothing changed but the pause, the log and the clock. */
  predicate PauseOnly(s: State, after: State, paused: bool) {
    after == s.(clock := after.clock, bag := after.bag, paused := paused, history := after.history)
  }

  lemma PauseIsPause(c: Config, s: State, tick: Tick)
    ensures PauseOnly(s, PauseNow(c, s, tick), true) && PauseOnly(s, ResumeNow(c, s, tick), false)
  {
    hide RecordEvent;
  }

  /** Nothing changed but the bag's files, the split events due and the clock. */
  predicate SplitOnly(s: State, after: State) {
    after == s.(clock := after.clock, bag := after.bag, deferred := after.deferred)
  }

  lemma SplitIsSplit(c: Config, s: State, ok: bool, delay: nat)
    ensures SplitOnly(s, SplitNow(c, s, ok, delay))
  {
    hide AfterSplit;
  }

  // ---- each command ------------------------------------------------------------------------------------------------

  /** What the handler does with a request is what the answer says. */
  function VerdictOf(answer: Answer, now: int): Verdict {
    match answer
    case AtOnce => RunNow
    case UnknownMode => InvalidMode
    case UnknownTopic => InvalidTopic
    case Later(what) => if what.mode.NodeTime? && what.atNs > now then AtNode(what.atNs - now) else AtMessage(what.mode)
  }

  lemma JudgeIsAnswer(s: State, kind: S.Kind, atNs: int, mode: int, topic: string)
    ensures var answer := Answered(ViewOf(s), kind, atNs, mode, topic);
            && Judge(s, atNs, mode, topic) == VerdictOf(answer, s.clock)
            && (answer.Later? ==> answer.what.kind == kind && answer.what.atNs == atNs
                                  && (if answer.what.mode.NodeTime? then answer.what.trackingTopic == "" && atNs > s.clock
                                      else answer.what.trackingTopic == topic))
  {
  }

  lemma PlacedAsAnswered(s: State, kind: S.Kind, atNs: int, mode: int, topic: string, k: S.Kind)
    ensures var answer := Answered(ViewOf(s), kind, atNs, mode, topic);
            var after := Schedule(s, kind, atNs, Judge(s, atNs, mode, topic), topic);
            && after == s.(scheduler := after.scheduler)
            && S.SlotOf(after.scheduler, k).scheduled ==
               if k == kind && answer.Later? then Some(answer.what) else S.SlotOf(s.scheduler, k).scheduled
  {
    JudgeIsAnswer(s, kind, atNs, mode, topic);
    hide Judge, Answered, S.AfterNodeTime, S.AfterMessageTime;
    var answer := Answered(ViewOf(s), kind, atNs, mode, topic);
    if answer.Later? { SchedulesExactly(s.scheduler, kind, k, atNs, answer.what.mode, topic); }
  }

  /** Neither the bag, nor what it was closed with, nor the reasons change. */
  lemma StaysSo(c: Config, s: State, cmd: Command)
    requires Shape(s)
    requires !cmd.CRecord? && !cmd.CRecordAt? && !cmd.CRecordTimer? && !cmd.CStop? && !cmd.CCheckFreeSpace? && !cmd.CCheckBagSize?
    ensures var v, w := ViewOf(s), ViewOf(Exec(c, s, cmd));
            v.clock <= w.clock && w.open == v.open && w.lowDisk == v.lowDisk && w.tooBig == v.tooBig && w.saved == v.saved
  {
    QuietCommand(c, Pausing, s, cmd);
    hide Exec, Shape;
  }

  lemma SubscribeFollows(c: Config, s: State, after: State, sel: Selection, graph: Graph, tries: nat -> Attempt)
    requires Shape(s)
    requires after == (if s.bag.open then SubscribeBatch(c, s, sel, graph, tries).state else s)
    ensures Follows(ViewOf(s), CSubscribe(sel, graph, tries), ViewOf(after))
  {
    StaysSo(c, s, CSubscribe(sel, graph, tries));
    assert after == Exec(c, s, CSubscribe(sel, graph, tries));
    hide Exec;
    BatchSelects(c, s, sel, graph, tries, |sel.topics|);
    hide SubscribeFirst, Shape;
  }

  lemma UnsubscribeFollows(c: Config, s: State, after: State, topics: seq<string>, drops: nat -> Tick)
    requires Shape(s)
    requires after == UnsubscribeFirst(c, s, topics, {}, drops, |topics|).0
    ensures Follows(ViewOf(s), CUnsubscribe(topics, drops), ViewOf(after))
  {
    StaysSo(c, s, CUnsubscribe(topics, drops));
    assert after == Exec(c, s, CUnsubscribe(topics, drops));
    hide Exec;
    DropsSelect(c, s, topics, {}, drops, |topics|);
    assert topics[..|topics|] == topics;
    hide UnsubscribeFirst, Shape;
  }

  lemma ReplaceFollows(c: Config, s: State, after: State, sel: Selection, graph: Graph, drops: nat -> Tick, tries: nat -> Attempt)
    requires Shape(s)
    requires after == (if s.bag.open then ReplaceTopics(c, s, sel, graph, drops, tries).0.state else s)
    ensures Follows(ViewOf(s), CReplace(sel, graph, drops, tries), ViewOf(after))
  {
    StaysSo(c, s, CReplace(sel, graph, drops, tries));
    assert after == Exec(c, s, CReplace(sel, graph, drops, tries));
    hide Exec;
    ReplaceSelects(c, s, sel, graph, drops, tries);
    hide ReplaceTopics, Shape;
  }

  lemma PauseFollows(c: Config, s: State, after: State, tick: Tick)
    requires Shape(s)
    requires after == PauseNow(c, s, tick)
    ensures Follows(ViewOf(s), CPause(tick), ViewOf(after))
  {
    StaysSo(c, s, CPause(tick));
    assert after == Exec(c, s, CPause(tick));
    hide Exec;
    PauseIsPause(c, s, tick);
    hide PauseNow, Shape;
  }

  lemma ResumeFollows(c: Config, s: State, after: State, tick: Tick)
    requires Shape(s)
    requires after == ResumeNow(c, s, tick)
    ensures Follows(ViewOf(s), CResume(tick), ViewOf(after))
  {
    StaysSo(c, s, CResume(tick));
    assert after == Exec(c, s, CResume(tick));
    hide Exec;
    PauseIsPause(c, s, tick);
    hide ResumeNow, Shape;
  }

  lemma ResumeAtFollows(c: Config, s: State, after: State, atNs: int, mode: int, topic: string, tick: Tick)
    requires Shape(s)
    requires after == (var verdict := Judge(s, atNs, mode, topic);
                      if !s.bag.open then s else if verdict.RunNow? then ResumeNow(c, s, tick)
                      else Schedule(s, S.Resume, atNs, verdict, topic))
    ensures Follows(ViewOf(s), CResumeAt(atNs, mode, topic, tick), ViewOf(after))
  {
    StaysSo(c, s, CResumeAt(atNs, mode, topic, tick));
    assert after == Exec(c, s, CResumeAt(atNs, mode, topic, tick));
    hide Exec;
    PauseIsPause(c, s, tick);
    JudgeIsAnswer(s, S.Resume, atNs, mode, topic);
    forall k: S.Kind { PlacedAsAnswered(s, S.Resume, atNs, mode, topic, k); }
    hide Judge, Schedule, Answered;
    SlotsOf(Schedule(s, S.Resume, atNs, Judge(s, atNs, mode, topic), topic).scheduler);
    SlotsOf(s.scheduler);
    hide ResumeNow, Shape, S.SlotOf;
    hide Reached, NamesIn, Names.Listing;
  }

  lemma SlotsOf(s: S.State)
    ensures S.SlotOf(s, S.Resume) == s.resume && S.SlotOf(s, S.Split) == s.split && S.SlotOf(s, S.Record) == s.record
  {
  }

  lemma SplitAtFollows(c: Config, s: State, after: State, atNs: int, mode: int, topic: string, ok: bool, delay: nat)
    requires Shape(s)
    requires after == (var verdict := Judge(s, atNs, mode, topic);
                      if !s.bag.open then s else if verdict.RunNow? then SplitNow(c, s, ok, delay)
                      else Schedule(s, S.Split, atNs, verdict, topic))
    ensures Follows(ViewOf(s), CSplitAt(atNs, mode, topic, ok, delay), ViewOf(after))
  {
    StaysSo(c, s, CSplitAt(atNs, mode, topic, ok, delay));
    assert after == Exec(c, s, CSplitAt(atNs, mode, topic, ok, delay));
    hide Exec;
    SplitIsSplit(c, s, ok, delay);
    JudgeIsAnswer(s, S.Split, atNs, mode, topic);
    forall k: S.Kind { PlacedAsAnswered(s, S.Split, atNs, mode, topic, k); }
    hide Judge, Schedule, Answered;
    SlotsOf(Schedule(s, S.Split, atNs, Judge(s, atNs, mode, topic), topic).scheduler);
    SlotsOf(s.scheduler);
    hide SplitNow, Shape, S.SlotOf;
    hide Reached, NamesIn, Names.Listing;
  }

  lemma AsideIsStep(v: View, w: View, cmd: Command)
    requires cmd.CSnapshot? || cmd.CRollover? || cmd.CRecordDeferred? || cmd.CIdle?
    requires w == v.(clock := w.clock) && v.clock <= w.clock && (cmd.CIdle? ==> w.clock == v.clock + cmd.delay)
    ensures Follows(v, cmd, w)
  {
  }

  lemma AsideFollows(c: Config, s: State, cmd: Command)
    requires Shape(s) && (cmd.CSnapshot? || cmd.CRollover? || cmd.CRecordDeferred? || cmd.CIdle?)
    ensures Follows(ViewOf(s), cmd, ViewOf(Exec(c, s, cmd)))
  {
    hide Follows, WriteDeferred, AfterSnapshot;
    StaysSo(c, s, cmd);
    hide Shape;
    AsideIsStep(ViewOf(s), ViewOf(Exec(c, s, cmd)), cmd);
  }

  /** What a message fires: a due resume ends the pause, and the schedules due on it are gone. */
  lemma MessageFires(c: Config, s: State, m: Message, tick: Tick, splitOk: bool, delay: nat)
    requires Sound(s.scheduler)
    ensures var after, m' := FireDue(c, s, m, tick, splitOk, delay), ArrivalOf(m);
            && after == s.(clock := after.clock, bag := after.bag, deferred := after.deferred, history := after.history,
                           paused := s.paused && !DueOn(s.scheduler.resume.scheduled, m'),
                           scheduler := S.AfterTakeDue(s.scheduler, m').0)
  {
    hide ResumeNow, SplitNow, S.AfterTakeDue, DueOn;
    TakesExactlyTheDue(s.scheduler, ArrivalOf(m));
    var (scheduler, due) := S.AfterTakeDue(s.scheduler, ArrivalOf(m));
    var taken := s.(scheduler := scheduler);
    PauseIsPause(c, taken, tick);
    SplitIsSplit(c, if due.resume then ResumeNow(c, taken, tick) else taken, splitOk, delay);
  }

  /** A delivery to a recorded topic: what it fires, and then at most a write. */
  lemma MessageArrives(c: Config, s: State, m: Message, tick: Tick, splitOk: bool, delay: nat)
    requires Sound(s.scheduler)
    ensures var v, w := ViewOf(s), ViewOf(OnMessage(c, s, m, tick, splitOk, delay));
            var resumes, splits := DueOn(v.resume, ArrivalOf(m)), DueOn(v.split, ArrivalOf(m));
            w == v.(clock := w.clock, open := w.open, paused := v.paused && !resumes,
                    resume := if resumes then None else v.resume, split := if splits then None else v.split)
  {
    MessageFires(c, s, m, tick, splitOk, delay);
    TakesExactlyTheDue(s.scheduler, ArrivalOf(m));
    hide FireDue, S.AfterTakeDue, DueOn, AfterWrite, Sound;
  }

  lemma MessageIsStep(v: View, w: View, m: Message, tick: Tick, splitOk: bool, delay: nat)
    requires v.clock <= w.clock
    requires var resumes, splits := DueOn(v.resume, ArrivalOf(m)), DueOn(v.split, ArrivalOf(m));
             w == if m.topic in v.topics
                  then v.(clock := w.clock, paused := v.paused && !resumes, resume := if resumes then None else v.resume,
                          split := if splits then None else v.split)
                  else v
    ensures Follows(v, CMessage(m, tick, splitOk, delay), w)
  {
    hide DueOn;
  }

  lemma MessageFollows(c: Config, s: State, after: State, m: Message, tick: Tick, splitOk: bool, delay: nat)
    requires Shape(s) && Sound(s.scheduler)
    requires after == (if m.topic in s.subs then OnMessage(c, s, m, tick, splitOk, delay) else s)
    ensures Follows(ViewOf(s), CMessage(m, tick, splitOk, delay), ViewOf(after))
  {
    StaysSo(c, s, CMessage(m, tick, splitOk, delay));
    assert after == Exec(c, s, CMessage(m, tick, splitOk, delay));
    hide Exec, OnMessage, DueOn, Shape, Sound, Follows;
    MessageArrives(c, s, m, tick, splitOk, delay);
    MessageIsStep(ViewOf(s), ViewOf(after), m, tick, splitOk, delay);
  }

  /** A timer's run takes its schedule off the list. */
  lemma TimerTakes(s: State, kind: S.Kind)
    ensures var v, w := ViewOf(s), ViewOf(s.(scheduler := S.AfterTimer(s.scheduler, kind)));
            w == v.(resume := if kind == S.Resume then None else v.resume, split := if kind == S.Split then None else v.split,
                    record := if kind == S.Record then None else v.record)
  {
  }

  lemma ResumeTimerFollows(c: Config, s: State, after: State, tick: Tick)
    requires Shape(s) && Sound(s.scheduler)
    requires after == (if S.TimerLive(s.scheduler, S.Resume)
                      then ResumeNow(c, s.(scheduler := S.AfterTimer(s.scheduler, S.Resume)), tick) else s)
    ensures Follows(ViewOf(s), CResumeTimer(tick), ViewOf(after))
  {
    StaysSo(c, s, CResumeTimer(tick));
    assert after == Exec(c, s, CResumeTimer(tick));
    hide Exec;
    TimerIsForItsSlot(s.scheduler, S.Resume);
    TimerTakes(s, S.Resume);
    PauseIsPause(c, s.(scheduler := S.AfterTimer(s.scheduler, S.Resume)), tick);
    hide ResumeNow, Shape, Sound, S.TimerLive, S.AfterTimer;
    hide Answered, Reached, NamesIn, Names.Listing;
  }

  lemma SplitTimerFollows(c: Config, s: State, after: State, ok: bool, delay: nat)
    requires Shape(s) && Sound(s.scheduler)
    requires after == (if S.TimerLive(s.scheduler, S.Split)
                      then SplitNow(c, s.(scheduler := S.AfterTimer(s.scheduler, S.Split)), ok, delay) else s)
    ensures Follows(ViewOf(s), CSplitTimer(ok, delay), ViewOf(after))
  {
    StaysSo(c, s, CSplitTimer(ok, delay));
    assert after == Exec(c, s, CSplitTimer(ok, delay));
    hide Exec;
    TimerIsForItsSlot(s.scheduler, S.Split);
    TimerTakes(s, S.Split);
    SplitIsSplit(c, s.(scheduler := S.AfterTimer(s.scheduler, S.Split)), ok, delay);
    hide SplitNow, Shape, Sound, S.TimerLive, S.AfterTimer;
    hide Answered, Reached, NamesIn, Names.Listing;
  }

  // ---- the commands that open and close ---------------------------------------------------------------------------------

  lemma StopDrops(c: Config, s: State, how: Stopping)
    requires Shape(s)
    ensures var after := Stop(c, s, how);
            && after.paused == s.paused && after.subs == (if s.bag.open then map[] else s.subs)
            && after.scheduler == (if s.bag.open then S.AfterClear(s.scheduler) else s.scheduler)
  {
    RecordDeferredKeeps(c, Pausing, s, how.fates);
    hide WriteDeferred, AfterClose, S.AfterClear, Names.Listing, Shape, Faithful, SelfStops;
  }

  /** stop() from open: closed, the selection saved, nothing recorded and no resume or split scheduled. */
  lemma StopEnds(c: Config, s: State, how: Stopping)
    requires Shape(s)
    ensures var v, w := ViewOf(s), ViewOf(Stop(c, s, how));
            && v.clock <= w.clock && !w.open
            && w == v.(clock := w.clock, open := false,
                       topics := if v.open then {} else v.topics, saved := if v.open then Names.Listing(v.topics) else v.saved,
                       resume := if v.open then None else v.resume, split := if v.open then None else v.split)
  {
    StopKeeps(c, Pausing, s, how);
    StopDrops(c, s, how);
    hide Stop, Shape, Faithful, SelfStops, Names.Listing;
  }

  lemma EmitIsAside(c: Config, s: State, kind: Kind, record: bool, tick: Tick)
    ensures var after := Emit(c, s, kind, Stopped, "", record, tick); after == s.(clock := after.clock, bag := after.bag)
  {
    hide RecordEvent;
  }

  /** A guard that trips emits, marks its reason and stops. */
  lemma GuardEnds(c: Config, s: State, kind: Kind, record: bool, marked: State, tick: Tick, how: Stopping)
    requires Shape(s) && s.bag.open && (kind.LowDisk? || kind.BagSizeLimit?)
    requires marked == Emit(c, s, kind, Stopped, "", record, tick).(
                         stoppedForLowDisk := marked.stoppedForLowDisk, stoppedForMaxBagSize := marked.stoppedForMaxBagSize)
    ensures var v, w := ViewOf(s), ViewOf(Stop(c, marked, how));
            && v.clock <= w.clock
            && w == v.(clock := w.clock, open := false, lowDisk := marked.stoppedForLowDisk,
                       tooBig := marked.stoppedForMaxBagSize, topics := {}, saved := Names.Listing(v.topics),
                       resume := None, split := None)
  {
    GuardEventKeeps(c, Pausing, s, kind, record, tick);
    EmitIsAside(c, s, kind, record, tick);
    hide Emit, Stop, Faithful, SelfStops;
    assert Shape(marked);
    StopEnds(c, marked, how);
    hide Shape;
  }

  lemma StopFollows(c: Config, s: State, after: State, how: Stopping)
    requires Shape(s)
    requires after == Stop(c, s, how)
    ensures Follows(ViewOf(s), CStop(how), ViewOf(after))
  {
    StopEnds(c, s, how);
    hide Stop, Shape;
    hide Answered, Reached, NamesIn, Names.Listing;
  }

  lemma FreeSpaceFollows(c: Config, s: State, after: State, low: bool, tick: Tick, how: Stopping)
    requires Shape(s)
    requires after == CheckFreeSpace(c, s, low, tick, how)
    ensures Follows(ViewOf(s), CCheckFreeSpace(low, tick, how), ViewOf(after))
  {
    hide Stop, Emit, Shape;
    if s.bag.open && low {
      EmitIsAside(c, s, LowDisk, c.recordLowDisk, tick);
      GuardEnds(c, s, LowDisk, c.recordLowDisk,
        Emit(c, s, LowDisk, Stopped, "", c.recordLowDisk, tick).(stoppedForLowDisk := true), tick, how);
    }
    hide Answered, Reached, NamesIn, Names.Listing;
  }

  lemma BagSizeFollows(c: Config, s: State, after: State, tooBig: bool, tick: Tick, how: Stopping)
    requires Shape(s)
    requires after == CheckBagSize(c, s, tooBig, tick, how)
    ensures Follows(ViewOf(s), CCheckBagSize(tooBig, tick, how), ViewOf(after))
  {
    hide Stop, Emit, Shape;
    if s.bag.open && tooBig {
      EmitIsAside(c, s, BagSizeLimit, c.recordBagSize, tick);
      GuardEnds(c, s, BagSizeLimit, c.recordBagSize,
        Emit(c, s, BagSizeLimit, Stopped, "", c.recordBagSize, tick).(stoppedForMaxBagSize := true), tick, how);
    }
    hide Answered, Reached, NamesIn, Names.Listing;
  }

  /** record() from closed: open, with both reasons gone, and recording what it could of the saved selection. */
  lemma RecordBegins(c: Config, s: State, graph: Graph, how: Opening, tries: nat -> Attempt)
    requires Shape(s)
    ensures var v, w := ViewOf(s), ViewOf(Record(c, s, graph, how, tries));
            var opens := !v.open && how.pathFree && how.writerOpens;
            && v.clock <= w.clock && w.topics <= v.topics + NamesIn(v.saved)
            && w == v.(clock := w.clock, open := v.open || opens, topics := if opens then w.topics else v.topics,
                       saved := if opens then [] else v.saved, lowDisk := !opens && v.lowDisk, tooBig := !opens && v.tooBig)
            && Record(c, s, graph, how, tries).scheduler == s.scheduler
  {
    if Reopens(s, how) {
      OpenBagBegins(c, s, how);
      OpenedKeeps(c, Pausing, s, graph, how, Selection(s.topicsAtStop, []), tries);
      var ready := OpenBag(c, s, how).(stoppedForLowDisk := false, stoppedForMaxBagSize := false, topicsAtStop := []);
      BatchSelects(c, ready, Selection(s.topicsAtStop, []), graph, tries, |s.topicsAtStop|);
    }
    hide OpenBag, SubscribeFirst, Faithful, SelfStops;
  }

  lemma RecordNowFollows(c: Config, s: State, after: State, graph: Graph, how: Opening, tries: nat -> Attempt)
    requires Shape(s)
    requires after == Record(c, s, graph, how, tries)
    ensures Follows(ViewOf(s), CRecord(graph, how, tries), ViewOf(after))
  {
    RecordBegins(c, s, graph, how, tries);
    ShapeIdle(s);
    hide Record, Shape;
    hide Answered, Reached, NamesIn, Names.Listing;
  }

  lemma RecordTimerIsStep(v: View, w: View, graph: Graph, how: Opening, tries: nat -> Attempt)
    requires v.clock <= w.clock && (!v.open ==> v.topics == {})
    requires var opens := !v.open && how.pathFree && how.writerOpens;
             w == if OnClock(v.record)
                  then v.(clock := w.clock, open := v.open || opens, topics := if opens then w.topics else v.topics,
                          saved := if opens then [] else v.saved, lowDisk := !opens && v.lowDisk, tooBig := !opens && v.tooBig,
                          record := None)
                  else v
    requires w.topics <= v.topics + NamesIn(v.saved)
    ensures Follows(v, CRecordTimer(graph, how, tries), w)
  {
    hide NamesIn, Names.Listing;
  }

  lemma RecordTimerFollows(c: Config, s: State, after: State, graph: Graph, how: Opening, tries: nat -> Attempt)
    requires Shape(s) && Sound(s.scheduler)
    requires after == (if S.TimerLive(s.scheduler, S.Record)
                      then Record(c, s.(scheduler := S.AfterTimer(s.scheduler, S.Record)), graph, how, tries) else s)
    ensures Follows(ViewOf(s), CRecordTimer(graph, how, tries), ViewOf(after))
  {
    hide Record, Sound, S.TimerLive, S.AfterTimer, Follows, NamesIn;
    TimerIsForItsSlot(s.scheduler, S.Record);
    TimerTakes(s, S.Record);
    TimerKeeps(c, Pausing, s, S.Record);
    RecordBegins(c, s.(scheduler := S.AfterTimer(s.scheduler, S.Record)), graph, how, tries);
    ShapeIdle(s);
    hide Shape, Faithful;
    RecordTimerIsStep(ViewOf(s), ViewOf(after), graph, how, tries);
  }

  lemma RecordAtFollows(c: Config, s: State, after: State, delay: nat)
    requires Shape(s)
    requires after == (if s.bag.open || delay == 0 then s
                      else Schedule(s, S.Record, s.clock + delay, AtNode(delay), ""))
    ensures Follows(ViewOf(s), CRecordAt(delay), ViewOf(after))
  {
    hide Answered, Reached, NamesIn, Names.Listing;
  }

  lemma ShapeIdle(s: State)
    requires Shape(s)
    ensures !s.bag.open ==> s.subs == map[]
  {
  }

  /** Every command is a step of the machine above. */
  lemma CommandFollows(c: Config, s: State, cmd: Command)
    requires Shape(s) && Sound(s.scheduler)
    ensures Follows(ViewOf(s), cmd, ViewOf(Exec(c, s, cmd)))
  {
    hide Follows, Shape, Sound, SubscribeBatch, UnsubscribeFirst, ReplaceTopics, PauseNow, ResumeNow, SplitNow, Judge,
      Schedule, OnMessage, Stop, CheckFreeSpace, CheckBagSize, Record, RecordDeferred, Rollover, AfterSnapshot,
      S.TimerLive, S.AfterTimer;
    var after := Exec(c, s, cmd);
    match cmd
    case CSubscribe(sel, graph, tries) => SubscribeFollows(c, s, after, sel, graph, tries);
    case CUnsubscribe(topics, drops) => UnsubscribeFollows(c, s, after, topics, drops);
    case CReplace(sel, graph, drops, tries) => ReplaceFollows(c, s, after, sel, graph, drops, tries);
    case CPause(tick) => PauseFollows(c, s, after, tick);
    case CResume(tick) => ResumeFollows(c, s, after, tick);
    case CResumeAt(atNs, mode, topic, tick) => ResumeAtFollows(c, s, after, atNs, mode, topic, tick);
    case CSplitAt(atNs, mode, topic, ok, delay) => SplitAtFollows(c, s, after, atNs, mode, topic, ok, delay);
    case CMessage(m, tick, splitOk, delay) => MessageFollows(c, s, after, m, tick, splitOk, delay);
    case CResumeTimer(tick) => ResumeTimerFollows(c, s, after, tick);
    case CSplitTimer(ok, delay) => SplitTimerFollows(c, s, after, ok, delay);
    case CStop(how) => StopFollows(c, s, after, how);
    case CCheckFreeSpace(low, tick, how) => FreeSpaceFollows(c, s, after, low, tick, how);
    case CCheckBagSize(tooBig, tick, how) => BagSizeFollows(c, s, after, tooBig, tick, how);
    case CRecord(graph, how, tries) => RecordNowFollows(c, s, after, graph, how, tries);
    case CRecordAt(delay) => RecordAtFollows(c, s, after, delay);
    case CRecordTimer(graph, how, tries) => RecordTimerFollows(c, s, after, graph, how, tries);
    case _ => AsideFollows(c, s, cmd);
  }

  // ---- every run ---------------------------------------------------------------------------------------------------------

  /** Schedules and messages leave the scheduler in a state that some run of its steps rests in. */
  lemma ScheduleStaysSound(s: State, kind: S.Kind, atNs: int, verdict: Verdict, topic: string)
    requires Sound(s.scheduler) && (verdict.AtMessage? ==> !kind.Record? && !verdict.mode.NodeTime?)
    ensures Sound(Schedule(s, kind, atNs, verdict, topic).scheduler)
  {
    var history :| Hosted(s.scheduler, history);
    hide Hosted, S.AfterNodeTime, S.AfterMessageTime;
    if verdict.AtMessage? { MessageTimeHosted(s.scheduler, history, kind, atNs, verdict.mode, topic); }
    else if verdict.AtNode? { NodeTimeHosted(s.scheduler, history, kind, s.clock + verdict.delay); }
  }

  lemma OthersStaySound(s: S.State, kind: S.Kind, m: S.Arrival)
    requires Sound(s)
    ensures S.TimerLive(s, kind) ==> Sound(S.AfterTimer(s, kind))
    ensures Sound(S.AfterClear(s)) && Sound(S.AfterTakeDue(s, m).0)
  {
    var history :| Hosted(s, history);
    hide Hosted;
    if S.TimerLive(s, kind) { TimerHosted(s, history, kind); }
    ClearHosted(s, history);
    MessageHosted(s, history, m);
    hide S.AfterTimer, S.AfterClear, S.AfterTakeDue;
  }

  lemma StopStaysSound(c: Config, s: State, how: Stopping)
    requires Sound(s.scheduler)
    ensures Sound(Stop(c, s, how).scheduler)
  {
    OthersStaySound(s.scheduler, S.Resume, S.Arrival("", 0, 0));
    hide Sound, WriteDeferred, AfterClose, S.AfterClear;
  }

  lemma ClosingStaysSound(c: Config, s: State, cmd: Command)
    requires Sound(s.scheduler) && (cmd.CStop? || cmd.CCheckFreeSpace? || cmd.CCheckBagSize?)
    ensures Sound(Exec(c, s, cmd).scheduler)
  {
    hide Sound, Stop, RecordEvent;
    if cmd.CStop? { StopStaysSound(c, s, cmd.stopping); }
    else if cmd.CCheckFreeSpace? {
      StopStaysSound(c, Emit(c, s, LowDisk, Stopped, "", c.recordLowDisk, cmd.tick).(stoppedForLowDisk := true), cmd.stopping);
    } else {
      StopStaysSound(c, Emit(c, s, BagSizeLimit, Stopped, "", c.recordBagSize, cmd.tick).(stoppedForMaxBagSize := true),
                     cmd.stopping);
    }
  }

  lemma RequestStaysSound(c: Config, s: State, cmd: Command)
    requires Sound(s.scheduler) && (cmd.CResumeAt? || cmd.CSplitAt? || cmd.CRecordAt?)
    ensures Sound(Exec(c, s, cmd).scheduler)
  {
    hide Sound, Schedule, ResumeNow, SplitNow;
    if cmd.CResumeAt? {
      ScheduleStaysSound(s, S.Resume, cmd.atNs, Judge(s, cmd.atNs, cmd.mode, cmd.trackingTopic), cmd.trackingTopic);
      PauseIsPause(c, s, cmd.tick);
    } else if cmd.CSplitAt? {
      ScheduleStaysSound(s, S.Split, cmd.atNs, Judge(s, cmd.atNs, cmd.mode, cmd.trackingTopic), cmd.trackingTopic);
      SplitIsSplit(c, s, cmd.splitOk, cmd.delay);
    } else {
      ScheduleStaysSound(s, S.Record, s.clock + cmd.delay, AtNode(cmd.delay), "");
    }
  }

  lemma TimerStaysSound(c: Config, s: State, cmd: Command)
    requires Sound(s.scheduler) && (cmd.CResumeTimer? || cmd.CSplitTimer? || cmd.CMessage?)
    ensures Sound(Exec(c, s, cmd).scheduler)
  {
    hide Sound, ResumeNow, SplitNow, S.AfterTimer, FireDue, AfterWrite;
    if cmd.CResumeTimer? {
      OthersStaySound(s.scheduler, S.Resume, S.Arrival("", 0, 0));
      PauseIsPause(c, s.(scheduler := S.AfterTimer(s.scheduler, S.Resume)), cmd.tick);
    } else if cmd.CSplitTimer? {
      OthersStaySound(s.scheduler, S.Split, S.Arrival("", 0, 0));
      SplitIsSplit(c, s.(scheduler := S.AfterTimer(s.scheduler, S.Split)), cmd.splitOk, cmd.delay);
    } else {
      OthersStaySound(s.scheduler, S.Resume, ArrivalOf(cmd.m));
      MessageFires(c, s, cmd.m, cmd.tick, cmd.splitOk, cmd.delay);
    }
  }

  lemma RecordStaysSound(c: Config, s: State, cmd: Command)
    requires Shape(s) && Sound(s.scheduler) && (cmd.CRecord? || cmd.CRecordTimer?)
    ensures Sound(Exec(c, s, cmd).scheduler)
  {
    hide Sound, Record, S.AfterTimer;
    if cmd.CRecord? {
      RecordBegins(c, s, cmd.graph, cmd.opening, cmd.tries);
    } else if S.TimerLive(s.scheduler, S.Record) {
      OthersStaySound(s.scheduler, S.Record, S.Arrival("", 0, 0));
      TimerKeeps(c, Pausing, s, S.Record);
      RecordBegins(c, s.(scheduler := S.AfterTimer(s.scheduler, S.Record)), cmd.graph, cmd.opening, cmd.tries);
    }
    hide Shape, Faithful, S.TimerLive;
  }

  lemma SelectionStaysSound(c: Config, s: State, cmd: Command)
    requires Sound(s.scheduler) && (cmd.CSubscribe? || cmd.CUnsubscribe? || cmd.CReplace?)
    ensures Sound(Exec(c, s, cmd).scheduler)
  {
    hide Sound, SubscribeFirst, UnsubscribeFirst, ReplaceTopics;
    if cmd.CSubscribe? { BatchSelects(c, s, cmd.sel, cmd.graph, cmd.tries, |cmd.sel.topics|); }
    else if cmd.CUnsubscribe? { DropsSelect(c, s, cmd.topics, {}, cmd.drops, |cmd.topics|); }
    else { ReplaceSelects(c, s, cmd.sel, cmd.graph, cmd.drops, cmd.tries); }
  }

  lemma RestStaysSound(c: Config, s: State, cmd: Command)
    requires Sound(s.scheduler)
    requires cmd.CPause? || cmd.CResume? || cmd.CSnapshot? || cmd.CRollover? || cmd.CRecordDeferred? || cmd.CIdle?
    ensures Sound(Exec(c, s, cmd).scheduler)
  {
    hide Sound, PauseNow, ResumeNow, WriteDeferred, AfterSnapshot;
    if cmd.CPause? || cmd.CResume? { PauseIsPause(c, s, cmd.tick); }
  }

  lemma CommandStaysSound(c: Config, s: State, cmd: Command)
    requires Shape(s) && Sound(s.scheduler)
    ensures Sound(Exec(c, s, cmd).scheduler)
  {
    hide Exec, Shape, Sound;
    match cmd
    case CSubscribe(_, _, _) => SelectionStaysSound(c, s, cmd);
    case CUnsubscribe(_, _) => SelectionStaysSound(c, s, cmd);
    case CReplace(_, _, _, _) => SelectionStaysSound(c, s, cmd);
    case CResumeAt(_, _, _, _) => RequestStaysSound(c, s, cmd);
    case CSplitAt(_, _, _, _, _) => RequestStaysSound(c, s, cmd);
    case CRecordAt(_) => RequestStaysSound(c, s, cmd);
    case CMessage(_, _, _, _) => TimerStaysSound(c, s, cmd);
    case CResumeTimer(_) => TimerStaysSound(c, s, cmd);
    case CSplitTimer(_, _) => TimerStaysSound(c, s, cmd);
    case CStop(_) => ClosingStaysSound(c, s, cmd);
    case CCheckFreeSpace(_, _, _) => ClosingStaysSound(c, s, cmd);
    case CCheckBagSize(_, _, _) => ClosingStaysSound(c, s, cmd);
    case CRecord(_, _, _) => RecordStaysSound(c, s, cmd);
    case CRecordTimer(_, _, _) => RecordStaysSound(c, s, cmd);
    case _ => RestStaysSound(c, s, cmd);
  }

  lemma LaunchIsSound(c: Config, startPaused: bool, topics: seq<string>, graph: Graph, how: Opening, tries: nat -> Attempt)
    ensures Sound(Launch(c, startPaused, topics, graph, how, tries).scheduler)
  {
    FreshIsSound();
    var begun := OpenBag(c, Initial(startPaused), how);
    OpenBagBegins(c, Initial(startPaused), how);
    if how.writerOpens { BatchSelects(c, begun, Selection(topics, []), graph, tries, |topics|); }
    hide OpenBag, SubscribeFirst, Sound, Hosted;
  }

  /** In every run from a sound state the recorder's scheduler rests where some run of the interleaved one does. */
  lemma {:induction false} RunStaysSound(c: Config, s: State, cmds: seq<Command>)
    requires Shape(s) && Sound(s.scheduler)
    ensures Shape(ExecAll(c, s, cmds)) && Sound(ExecAll(c, s, cmds).scheduler)
  {
    hide Exec, Shape, Sound;
    if cmds == [] {
    } else {
      var n := |cmds| - 1;
      RunStaysSound(c, s, cmds[..n]);
      CommandStaysSound(c, ExecAll(c, s, cmds[..n]), cmds[n]);
      EveryCommand(c, Pausing, ExecAll(c, s, cmds[..n]), cmds[n]);
    }
  }

  lemma ReachesSound(c: Config, s: State)
    requires Reaches(c, s)
    ensures Shape(s) && Sound(s.scheduler)
  {
    hide Shape, Sound, Launch, ExecAll;
    var startPaused, topics, graph, how, tries, cmds :|
      s == ExecAll(c, Launch(c, startPaused, topics, graph, how, tries), cmds);
    LaunchShape(c, Pausing, startPaused, topics, graph, how, tries);
    LaunchIsSound(c, startPaused, topics, graph, how, tries);
    RunStaysSound(c, Launch(c, startPaused, topics, graph, how, tries), cmds);
  }

  /** In every reachable state every command does what the machine says. */
  lemma EveryCommandFollows(c: Config, s: State, cmd: Command)
    requires Reaches(c, s)
    ensures Follows(ViewOf(s), cmd, ViewOf(Exec(c, s, cmd)))
  {
    ReachesSound(c, s);
    CommandFollows(c, s, cmd);
  }

  /** In every reachable state a kind's timer is live exactly when a node-time schedule of the kind is pending, and then
    * it was made for that very schedule. */
  lemma LiveTimerIsForItsSchedule(c: Config, s: State, kind: S.Kind)
    requires Reaches(c, s)
    ensures var pending := S.SlotOf(s.scheduler, kind).scheduled;
            && (S.TimerLive(s.scheduler, kind) <==> OnClock(pending))
            && (S.TimerLive(s.scheduler, kind) ==>
                  pending == Some(s.scheduler.armed[S.SlotOf(s.scheduler, kind).timer.value]))
  {
    ReachesSound(c, s);
    TimerIsForItsSlot(s.scheduler, kind);
  }
}
