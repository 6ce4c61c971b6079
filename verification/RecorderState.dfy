/** The recorder as values: its state, and what each of its operations does to it
  * (packages/rosbag2_dynamic_recorder/src/dynamic_recorder.cpp, recorder_events.cpp and
  * recorder_services.cpp). What the node clock, the graph, the writer and rclcpp answer are parameters. */
module RecorderState {
  import opened Options
  import opened Timeline
  import opened BagStore
  import Names
  import S = Scheduling

  datatype Config = Config(
    recordSubscriptions: bool, recordPauses: bool, recordLowDisk: bool, recordBagSize: bool, recordSplits: bool,
    maxCacheSize: nat, accepts: Message -> bool)

  /** `handle` is the identity of the subscription object. */
  datatype Sub = Sub(handle: nat, typeName: string)

  /** What the recorder was doing from `stamp` on. */
  datatype Moment = Moment(stamp: int, topics: set<string>, paused: bool)

  datatype State = State(
    clock: int, bag: BagState,
    subs: map<string, Sub>, nextHandle: nat, topicsAtStop: seq<string>,
    paused: bool, stoppedForLowDisk: bool, stoppedForMaxBagSize: bool,
    scheduler: S.State, deferred: seq<Event>,
    explainedFrom: int, closedAt: int, history: seq<Moment>)

  function Initial(startPaused: bool): State {
    State(0, BagStore.EMPTY, map[], 0, [], startPaused, false, false, S.EMPTY, [], 0, 0, [Moment(0, {}, startPaused)])
  }

  // ---- what the environment answers --------------------------------------------------------------------

  /** One emitted event: how long the clock had moved since the last reading, and the event's fate in the bag. */
  datatype Tick = Tick(delay: nat, fate: Fate)

  /** One subscribe attempt: is the name usable, does create_topic work, does rclcpp subscribe. */
  datatype Attempt = Attempt(nameOk: bool, createOk: bool, subscribeOk: bool, tick: Tick)

  /** One bag opening: is a path free, does the writer open it, after how long, and the initial pause event. */
  datatype Opening = Opening(pathFree: bool, writerOpens: bool, delay: nat, tick: Tick)

  /** One stop: the fates of the deferred events, and how long until the bag is closed. */
  datatype Stopping = Stopping(fates: nat -> Fate, delay: nat)

  type Graph = map<string, seq<string>>

  /** Topics and their types, index-aligned; a missing or empty type is looked up in the graph. */
  datatype Selection = Selection(topics: seq<string>, types: seq<string>)

  // ---- events ----------------------------------------------------------------------------------------------

  /** The recorder's own event channels; "~" stands for its node name. */
  function EventTopic(kind: Kind): string { "~" + StreamSuffix(kind) }

  lemma EventTopicsStream(kind: Kind)
    ensures StreamOf(EventTopic(kind)) == Some(kind)
  {
    StreamIsSuffix(EventTopic(kind), kind);
    hide StreamSuffix, StreamOf;
    assert EventTopic(kind)[1..] == StreamSuffix(kind);
  }

  function EventType(kind: Kind): string {
    match kind
    case Subscription => "SubscriptionChangeEvent"
    case Pause => "PauseEvent"
    case Split => "FileSplitEvent"
    case LowDisk => "LowDiskEvent"
    case BagSizeLimit => "BagSizeLimitEvent"
  }

  /** record_event: an already stamped event goes into the bag, whether or not the recorder is paused. */
  function RecordEvent(c: Config, b: BagState, e: Event, fate: Fate): BagState {
    AfterWriteEvent(b, EventTopic(e.kind), EventType(e.kind), e, fate, c.accepts)
  }

  /** emit_event: stamp with now(), publish, and if `record` is set write into the bag. */
  function Emit(c: Config, s: State, kind: Kind, action: Action, topic: string, record: bool, tick: Tick): State {
    var now := s.clock + tick.delay;
    if record then s.(clock := now, bag := RecordEvent(c, s.bag, Event(kind, action, now, topic), tick.fate))
    else s.(clock := now)
  }

  /** Note down what the recorder is doing as of now. */
  function Observe(s: State): State {
    s.(history := s.history + [Moment(s.clock, s.subs.Keys, s.paused)])
  }

  function EmitSubscription(c: Config, s: State, action: Action, topic: string, tick: Tick): State {
    Observe(Emit(c, s, Subscription, action, topic, c.recordSubscriptions, tick))
  }

  function EmitPause(c: Config, s: State, action: Action, tick: Tick): State {
    Observe(Emit(c, s, Pause, action, "", c.recordPauses, tick))
  }

  // ---- subscriptions -----------------------------------------------------------------------------------------

  datatype SubscribeResult = Added | AlreadySubscribed | Failed

  function SubscribeTopic(c: Config, s: State, topic: string, typeName: string, a: Attempt): (State, SubscribeResult) {
    if topic in s.subs then (s, AlreadySubscribed)
    else if !a.nameOk then (s, Failed)
    else
      var (bag, ready) := AfterEnsureChannel(s.bag, topic, typeName, a.createOk, c.accepts);
      var channelled := s.(bag := bag);
      if !ready.Ready? || !a.subscribeOk then (channelled, Failed)
      else
        var held := channelled.(subs := s.subs[topic := Sub(s.nextHandle, typeName)], nextHandle := s.nextHandle + 1);
        (EmitSubscription(c, held, Subscribed, topic, a.tick), Added)
  }

  function UnsubscribeTopic(c: Config, s: State, topic: string, tick: Tick): State {
    if topic !in s.subs then s
    else EmitSubscription(c, s.(subs := s.subs - {topic}), Unsubscribed, topic, tick)
  }

  /** The one type `topic` is published as, if it is on the graph with exactly one. */
  function SingleType(graph: Graph, topic: string): Option<string> {
    if topic in graph && |graph[topic]| == 1 then Some(graph[topic][0]) else None
  }

  /** The type the `i`th requested topic is subscribed with. */
  function TypeFor(sel: Selection, graph: Graph, i: nat): Option<string>
    requires i < |sel.topics|
  {
    if i < |sel.types| && sel.types[i] != "" then Some(sel.types[i]) else SingleType(graph, sel.topics[i])
  }

  datatype Batch = Batch(state: State, subscribed: seq<string>, unavailable: seq<string>, added: seq<string>)

  function BatchStep(c: Config, b: Batch, sel: Selection, graph: Graph, i: nat, a: Attempt): Batch
    requires i < |sel.topics|
  {
    var topic := sel.topics[i];
    var typeName := TypeFor(sel, graph, i);
    if typeName.None? then b.(unavailable := b.unavailable + [topic])
    else
      var (after, result) := SubscribeTopic(c, b.state, topic, typeName.value, a);
      match result
      case Added => Batch(after, b.subscribed + [topic], b.unavailable, b.added + [topic])
      case AlreadySubscribed => b.(state := after, subscribed := b.subscribed + [topic])
      case Failed => b.(state := after, unavailable := b.unavailable + [topic])
  }

  /** subscribe_batch after its first `n` topics. */
  function SubscribeFirst(c: Config, s: State, sel: Selection, graph: Graph, tries: nat -> Attempt, n: nat): Batch
    requires n <= |sel.topics|
  {
    if n == 0 then Batch(s, [], [], [])
    else BatchStep(c, SubscribeFirst(c, s, sel, graph, tries, n - 1), sel, graph, n - 1, tries(n - 1))
  }

  function SubscribeBatch(c: Config, s: State, sel: Selection, graph: Graph, tries: nat -> Attempt): Batch {
    SubscribeFirst(c, s, sel, graph, tries, |sel.topics|)
  }

  /** Unsubscribe the first `n` of `topics`, skipping those in `keep`. */
  function UnsubscribeFirst(c: Config, s: State, topics: seq<string>, keep: set<string>, ticks: nat -> Tick, n: nat): (State, seq<string>)
    requires n <= |topics|
  {
    if n == 0 then (s, [])
    else
      var (before, gone) := UnsubscribeFirst(c, s, topics, keep, ticks, n - 1);
      var topic := topics[n - 1];
      if topic !in keep && topic in before.subs then (UnsubscribeTopic(c, before, topic, ticks(n - 1)), gone + [topic])
      else (before, gone)
  }

  function NamesIn(topics: seq<string>): set<string> { set x | x in topics }

  /** replace_topics: drop what is not desired, in sorted order, then add what is missing. */
  ghost function ReplaceTopics(c: Config, s: State, desired: Selection, graph: Graph, drops: nat -> Tick, tries: nat -> Attempt)
    : (Batch, seq<string>)
  {
    var listed := Names.Listing(s.subs.Keys);
    var (dropped, gone) := UnsubscribeFirst(c, s, listed, NamesIn(desired.topics), drops, |listed|);
    (SubscribeBatch(c, dropped, desired, graph, tries), gone)
  }

  // ---- pause, split, stop, record ------------------------------------------------------------------------------

  function PauseNow(c: Config, s: State, tick: Tick): State {
    if s.paused then s else EmitPause(c, s.(paused := true), Paused, tick)
  }

  function ResumeNow(c: Config, s: State, tick: Tick): State {
    if !s.paused then s else EmitPause(c, s.(paused := false), Resumed, tick)
  }

  /** on_rollover: the in-bag copy of the split event is queued, stamped when it happened. */
  function Rollover(c: Config, s: State, delay: nat): State {
    var now := s.clock + delay;
    s.(clock := now, deferred := if c.recordSplits then s.deferred + [Event(Split, SplitDone, now, "")] else s.deferred)
  }

  /** A split asked for by a service or a schedule; a successful one rolls over. */
  function SplitNow(c: Config, s: State, ok: bool, delay: nat): State {
    var split := s.(bag := AfterSplit(s.bag, ok, c.accepts));
    if s.bag.open && ok then Rollover(c, split, delay) else split
  }

  function WriteDeferred(c: Config, b: BagState, events: seq<Event>, fates: nat -> Fate): BagState {
    if events == [] then b
    else RecordEvent(c, WriteDeferred(c, b, events[..|events| - 1], fates), events[|events| - 1], fates(|events| - 1))
  }

  function RecordDeferred(c: Config, s: State, fates: nat -> Fate): State {
    s.(bag := WriteDeferred(c, s.bag, s.deferred, fates), deferred := [])
  }

  /** stop() once the bag has closed: save the selection, drop every subscription and schedule. */
  ghost function Ended(c: Config, s: State, delay: nat): State {
    var now := s.clock + delay;
    Observe(s.(
      clock := now, closedAt := now, bag := AfterClose(s.bag, c.accepts),
      topicsAtStop := Names.Listing(s.subs.Keys), subs := map[], scheduler := S.AfterClear(s.scheduler)))
  }

  ghost function Stop(c: Config, s: State, how: Stopping): State {
    var written := RecordDeferred(c, s, how.fates);
    if !written.bag.open then written else Ended(c, written, how.delay)
  }

  /** emit_initial_pause_state on a bag just opened: from here on the bag answers for itself. */
  function SayStart(c: Config, s: State, tick: Tick): State {
    var told := if s.paused then Emit(c, s, Pause, Paused, "", c.recordPauses, tick) else s;
    Observe(told.(explainedFrom := told.clock))
  }

  /** Open a bag and say at once if it opens paused: the common part of start() and record(). */
  function OpenBag(c: Config, s: State, how: Opening): State {
    SayStart(c, s.(clock := s.clock + how.delay, bag := AfterOpen(s.bag, c.maxCacheSize)), how.tick)
  }

  /** The self-stop flags play no part in what an opening says. */
  lemma FlagsAside(c: Config, s: State, how: Opening)
    ensures var begun := s.(clock := s.clock + how.delay, bag := AfterOpen(s.bag, c.maxCacheSize));
            SayStart(c, begun.(stoppedForLowDisk := false, stoppedForMaxBagSize := false), how.tick)
              == OpenBag(c, s, how).(stoppedForLowDisk := false, stoppedForMaxBagSize := false)
  {
  }

  function Start(c: Config, s: State, topics: seq<string>, graph: Graph, how: Opening, tries: nat -> Attempt): State {
    if s.bag.open || !how.writerOpens then s
    else SubscribeBatch(c, OpenBag(c, s, how), Selection(topics, []), graph, tries).state
  }

  /** Whether record() gets a new bag open. */
  predicate Reopens(s: State, how: Opening) { !s.bag.open && how.pathFree && how.writerOpens }

  function Record(c: Config, s: State, graph: Graph, how: Opening, tries: nat -> Attempt): State {
    if !Reopens(s, how) then s
    else
      var ready := OpenBag(c, s, how).(stoppedForLowDisk := false, stoppedForMaxBagSize := false, topicsAtStop := []);
      SubscribeBatch(c, ready, Selection(s.topicsAtStop, []), graph, tries).state
  }

  ghost function CheckFreeSpace(c: Config, s: State, low: bool, tick: Tick, how: Stopping): State {
    if !s.bag.open || !low then s
    else Stop(c, Emit(c, s, LowDisk, Stopped, "", c.recordLowDisk, tick).(stoppedForLowDisk := true), how)
  }

  ghost function CheckBagSize(c: Config, s: State, tooBig: bool, tick: Tick, how: Stopping): State {
    if !s.bag.open || !tooBig then s
    else Stop(c, Emit(c, s, BagSizeLimit, Stopped, "", c.recordBagSize, tick).(stoppedForMaxBagSize := true), how)
  }

  // ---- messages and schedules --------------------------------------------------------------------------------------

  function ArrivalOf(m: Message): S.Arrival { S.Arrival(m.topic, m.sendNs, m.recvNs) }

  /** on_message up to the pause gate: the schedules the message fires take effect first. */
  function FireDue(c: Config, s: State, m: Message, tick: Tick, splitOk: bool, splitDelay: nat): State {
    var (scheduler, due) := S.AfterTakeDue(s.scheduler, ArrivalOf(m));
    var taken := s.(scheduler := scheduler);
    var resumed := if due.resume then ResumeNow(c, taken, tick) else taken;
    if due.split then SplitNow(c, resumed, splitOk, splitDelay) else resumed
  }

  function OnMessage(c: Config, s: State, m: Message, tick: Tick, splitOk: bool, splitDelay: nat): State {
    var ready := FireDue(c, s, m, tick, splitOk, splitDelay);
    if ready.paused then ready else ready.(bag := AfterWrite(ready.bag, m, false, c.accepts))
  }

  /** schedule_or_run behind resume and split_bagfile: what to do with a request. */
  datatype Verdict = RunNow | InvalidMode | InvalidTopic | AtMessage(mode: S.Mode) | AtNode(delay: nat)

  function Judge(s: State, atNs: int, mode: int, trackingTopic: string): Verdict {
    var parsed := S.ModeFrom(mode);
    if atNs == 0 then RunNow
    else if parsed.None? then InvalidMode
    else if trackingTopic != "" && trackingTopic !in s.subs then InvalidTopic
    else if !parsed.value.NodeTime? then AtMessage(parsed.value)
    else if atNs <= s.clock then RunNow
    else AtNode(atNs - s.clock)
  }

  function Schedule(s: State, kind: S.Kind, atNs: int, verdict: Verdict, trackingTopic: string): State {
    match verdict
    case AtMessage(mode) => s.(scheduler := S.AfterMessageTime(s.scheduler, kind, atNs, mode, trackingTopic))
    case AtNode(delay) => s.(scheduler := S.AfterNodeTime(s.scheduler, kind, s.clock + delay))
    case _ => s
  }

  // ---- profiles ----------------------------------------------------------------------------------------------------

  /** The first profile whose list is exactly `topics`, or none. */
  function ActiveProfile(profiles: seq<(string, seq<string>)>, topics: seq<string>): Option<string> {
    if profiles == [] then None
    else if profiles[0].1 == topics then Some(profiles[0].0)
    else ActiveProfile(profiles[1..], topics)
  }

  // ---- every command -----------------------------------------------------------------------------------------------

  datatype Command =
    | CIdle(delay: nat)
    | CRecord(graph: Graph, opening: Opening, tries: nat -> Attempt)
    | CStop(stopping: Stopping)
    | CPause(tick: Tick)
    | CResume(tick: Tick)
    | CSubscribe(sel: Selection, graph: Graph, tries: nat -> Attempt)
    | CUnsubscribe(topics: seq<string>, drops: nat -> Tick)
    | CReplace(sel: Selection, graph: Graph, drops: nat -> Tick, tries: nat -> Attempt)
    | CMessage(m: Message, tick: Tick, splitOk: bool, delay: nat)
    | CResumeAt(atNs: int, mode: int, trackingTopic: string, tick: Tick)
    | CSplitAt(atNs: int, mode: int, trackingTopic: string, splitOk: bool, delay: nat)
    | CSnapshot(ok: bool)
    | CRecordAt(delay: nat)
    | CResumeTimer(tick: Tick)
    | CSplitTimer(splitOk: bool, delay: nat)
    | CRecordTimer(graph: Graph, opening: Opening, tries: nat -> Attempt)
    | CRollover(delay: nat)
    | CRecordDeferred(fates: nat -> Fate)
    | CCheckFreeSpace(verdict: bool, tick: Tick, stopping: Stopping)
    | CCheckBagSize(verdict: bool, tick: Tick, stopping: Stopping)

  /** The recorder once its constructor or the wait for /clock has run start(), which happens once. */
  function Launch(c: Config, startPaused: bool, topics: seq<string>, graph: Graph, how: Opening, tries: nat -> Attempt): State {
    Start(c, Initial(startPaused), topics, graph, how, tries)
  }

  /** One command, guarded as its handler guards it. */
  ghost function Exec(c: Config, s: State, cmd: Command): State {
    match cmd
    case CIdle(delay) => s.(clock := s.clock + delay)
    case CRecord(graph, opening, tries) => Record(c, s, graph, opening, tries)
    case CStop(stopping) => Stop(c, s, stopping)
    case CPause(tick) => PauseNow(c, s, tick)
    case CResume(tick) => ResumeNow(c, s, tick)
    case CSubscribe(sel, graph, tries) => if s.bag.open then SubscribeBatch(c, s, sel, graph, tries).state else s
    case CUnsubscribe(topics, drops) => UnsubscribeFirst(c, s, topics, {}, drops, |topics|).0
    case CReplace(sel, graph, drops, tries) => if s.bag.open then ReplaceTopics(c, s, sel, graph, drops, tries).0.state else s
    case CMessage(m, tick, splitOk, delay) => if m.topic in s.subs then OnMessage(c, s, m, tick, splitOk, delay) else s
    case CResumeAt(atNs, mode, topic, tick) =>
      var verdict := Judge(s, atNs, mode, topic);
      if !s.bag.open then s else if verdict.RunNow? then ResumeNow(c, s, tick) else Schedule(s, S.Resume, atNs, verdict, topic)
    case CSplitAt(atNs, mode, topic, splitOk, delay) =>
      var verdict := Judge(s, atNs, mode, topic);
      if !s.bag.open then s else if verdict.RunNow? then SplitNow(c, s, splitOk, delay) else Schedule(s, S.Split, atNs, verdict, topic)
    case CSnapshot(ok) => s.(bag := AfterSnapshot(s.bag, ok, c.accepts))
    case CRecordAt(delay) => if s.bag.open || delay == 0 then s else Schedule(s, S.Record, s.clock + delay, AtNode(delay), "")
    case CResumeTimer(tick) =>
      if S.TimerLive(s.scheduler, S.Resume) then ResumeNow(c, s.(scheduler := S.AfterTimer(s.scheduler, S.Resume)), tick) else s
    case CSplitTimer(splitOk, delay) =>
      if S.TimerLive(s.scheduler, S.Split) then SplitNow(c, s.(scheduler := S.AfterTimer(s.scheduler, S.Split)), splitOk, delay) else s
    case CRecordTimer(graph, opening, tries) =>
      if S.TimerLive(s.scheduler, S.Record)
      then Record(c, s.(scheduler := S.AfterTimer(s.scheduler, S.Record)), graph, opening, tries) else s
    case CRollover(delay) => if s.bag.open then Rollover(c, s, delay) else s
    case CRecordDeferred(fates) => RecordDeferred(c, s, fates)
    case CCheckFreeSpace(verdict, tick, stopping) => CheckFreeSpace(c, s, verdict, tick, stopping)
    case CCheckBagSize(verdict, tick, stopping) => CheckBagSize(c, s, verdict, tick, stopping)
  }

  ghost function ExecAll(c: Config, s: State, cmds: seq<Command>): State {
    if cmds == [] then s else Exec(c, ExecAll(c, s, cmds[..|cmds| - 1]), cmds[|cmds| - 1])
  }
}
