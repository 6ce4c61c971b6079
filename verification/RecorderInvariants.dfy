/** What every recorder operation keeps, and why the events in a bag tell what the recorder was doing. */
module RecorderInvariants {
  import opened Options
  import opened Timeline
  import opened BagStore
  import opened RecorderState
  import S = Scheduling

  /** The events the open bag, or the last one, holds. */
  function Log(s: State): seq<Event> { StoredEvents(s.bag.calls) }

  // ---- what the bag's operations do to the log ---------------------------------------------------------

  /** With nothing staged the bag's operations are just their writer calls. */
  predicate Quiet(b: BagState) { b.staged == [] && b.stagedBytes == 0 && b.stagedCount == 0 }

  predicate Extends(m: map<string, string>, n: map<string, string>) {
    forall topic | topic in m :: topic in n && n[topic] == m[topic]
  }

  function Grown(log: seq<Event>, more: Option<Event>): seq<Event> {
    if more.Some? then log + [more.value] else log
  }

  /** The bag went on quietly: still as open as before, channels kept, and `more` logged. */
  predicate WentOn(b: BagState, after: BagState, more: Option<Event>) {
    Quiet(after) && after.open == b.open && Extends(b.channels, after.channels)
    && StoredEvents(after.calls) == Grown(StoredEvents(b.calls), more)
  }

  lemma FlushQuiet(b: BagState, accepts: Message -> bool)
    requires Quiet(b)
    ensures AfterFlush(b, accepts) == b
  {
    assert Discard(b, []) == b;
  }

  lemma CreateWentOn(b: BagState, topic: string, typeName: string, ok: bool)
    requires Quiet(b)
    ensures WentOn(b, CreateChannel(b, topic, typeName, ok), None)
  {
    CalledFacts(b.calls, Created(topic, typeName, ok));
  }

  lemma WroteWentOn(b: BagState, e: Event, ok: bool)
    requires Quiet(b)
    ensures WentOn(b, Counted(Called(b, WroteEvent(e, ok)), ok), if ok then Some(e) else None)
  {
    CalledFacts(b.calls, WroteEvent(e, ok));
    assert StoredEvents(b.calls) + [] == StoredEvents(b.calls);
  }

  lemma LogEventWentOn(b: BagState, topic: string, typeName: string, e: Event, fate: Fate)
    requires Quiet(b) && b.open
    ensures WentOn(b, LogEvent(b, topic, typeName, e, fate), if fate.Stored? then Some(e) else None)
  {
    if topic in b.channels {
      WroteWentOn(b, e, fate.Stored?);
    } else {
      var ready := CreateChannel(b, topic, typeName, !fate.ChannelFailed?);
      CreateWentOn(b, topic, typeName, !fate.ChannelFailed?);
      WroteWentOn(ready, e, fate.Stored?);
    }
  }

  lemma EventWentOn(c: Config, b: BagState, e: Event, fate: Fate)
    requires Quiet(b)
    ensures WentOn(b, RecordEvent(c, b, e, fate), if b.open && fate.Stored? then Some(e) else None)
  {
    var topic, typeName := EventTopic(e.kind), EventType(e.kind);
    if b.open {
      LogEventWentOn(b, topic, typeName, e, fate);
      FlushQuiet(LogEvent(b, topic, typeName, e, fate), c.accepts);
    }
  }

  lemma ChannelWentOn(c: Config, b: BagState, topic: string, typeName: string, ok: bool)
    requires Quiet(b)
    ensures var (after, r) := AfterEnsureChannel(b, topic, typeName, ok, c.accepts);
            && WentOn(b, after, None)
            && (r.Ready? <==> b.open && (if topic in b.channels then b.channels[topic] == typeName else ok))
            && (r.Ready? ==> topic in after.channels && after.channels[topic] == typeName)
            && (forall x | x in after.channels && x !in b.channels :: x == topic)
  {
    CalledFacts(b.calls, Created(topic, typeName, ok));
    FlushQuiet(CreateChannel(b, topic, typeName, ok), c.accepts);
  }

  lemma SplitWentOn(c: Config, b: BagState, ok: bool)
    requires Quiet(b)
    ensures WentOn(b, AfterSplit(b, ok, c.accepts), None)
  {
    CalledFacts(b.calls, Call.SplitFile(ok));
    FlushQuiet(Called(b, Call.SplitFile(ok)), c.accepts);
  }

  lemma SnapshotWentOn(c: Config, b: BagState, ok: bool)
    requires Quiet(b)
    ensures WentOn(b, AfterSnapshot(b, ok, c.accepts), None)
  {
    CalledFacts(b.calls, TookSnapshot(ok));
    FlushQuiet(Called(b, TookSnapshot(ok)), c.accepts);
  }

  lemma WriteWentOn(c: Config, b: BagState, m: Message)
    requires Quiet(b)
    ensures WentOn(b, AfterWrite(b, m, false, c.accepts), None)
  {
    CalledFacts(b.calls, Wrote(m, c.accepts(m)));
  }

  lemma CloseFacts(c: Config, b: BagState)
    requires Quiet(b) && b.open
    ensures var after := AfterClose(b, c.accepts);
            Quiet(after) && !after.open && StoredEvents(after.calls) == StoredEvents(b.calls)
  {
    FlushQuiet(b, c.accepts);
    CalledFacts(b.calls, Closed);
    FlushQuiet(Called(b.(open := false), Closed), c.accepts);
  }

  lemma OpenFacts(c: Config, b: BagState)
    requires Quiet(b)
    ensures Quiet(AfterOpen(b, c.maxCacheSize)) && AfterOpen(b, c.maxCacheSize).open
    ensures StoredEvents(AfterOpen(b, c.maxCacheSize).calls) == [] && AfterOpen(b, c.maxCacheSize).channels == map[]
  {
    CalledFacts(b.calls, Opened);
  }

  // ---- the history of what the recorder was doing --------------------------------------------------------

  /** The moment in force at `t`: the last one at or before it. */
  function At(history: seq<Moment>, t: int): Option<Moment> {
    if history == [] then None
    else
      var n := |history| - 1;
      if history[n].stamp <= t then Some(history[n]) else At(history[..n], t)
  }

  lemma AtAppend(history: seq<Moment>, m: Moment, t: int)
    ensures At(history + [m], t) == if m.stamp <= t then Some(m) else At(history, t)
  {
    assert (history + [m])[..|history|] == history;
  }

  function Last(history: seq<Moment>): Moment
    requires history != []
  {
    history[|history| - 1]
  }

  // ---- the shape every operation keeps ----------------------------------------------------------------------

  predicate Typed(s: State) {
    forall topic | topic in s.subs :: topic in s.bag.channels && s.bag.channels[topic] == s.subs[topic].typeName
  }

  predicate Dated(s: State) {
    && (forall e | e in Log(s) :: e.stamp <= s.clock)
    && (forall e | e in s.deferred :: e.stamp <= s.clock && e.kind.Split?)
    && s.explainedFrom <= s.clock && s.closedAt <= s.clock
    && s.history != [] && Last(s.history).stamp <= s.clock
  }

  /** The last entry of the history is the present. */
  predicate Current(s: State)
    requires s.history != []
  {
    Last(s.history).topics == s.subs.Keys && Last(s.history).paused == s.paused
  }

  /** A closed bag has no subscriptions and no pending resume or split. */
  predicate Idle(s: State) {
    !s.bag.open ==> s.subs == map[] && s.scheduler.resume.scheduled.None? && s.scheduler.split.scheduled.None?
  }

  predicate Handled(s: State) {
    && (forall x | x in s.subs :: s.subs[x].handle < s.nextHandle)
    && (forall x, y | x in s.subs && y in s.subs && x != y :: s.subs[x].handle != s.subs[y].handle)
  }

  predicate Shape(s: State) {
    Quiet(s.bag) && (s.bag.open ==> Typed(s)) && Dated(s) && Current(s) && Idle(s) && Handled(s)
  }

  /** The self-stops a log tells of. */
  function SelfStops(log: seq<Event>): seq<Kind> {
    if log == [] then []
    else
      var kind := log[|log| - 1].kind;
      SelfStops(log[..|log| - 1]) + if kind.LowDisk? || kind.BagSizeLimit? then [kind] else []
  }

  lemma SelfStopsAppend(log: seq<Event>, e: Event)
    ensures SelfStops(log + [e]) == SelfStops(log) + if e.kind.LowDisk? || e.kind.BagSizeLimit? then [e.kind] else []
  {
    assert (log + [e])[..|log|] == log;
  }

  lemma {:induction false} SelfStopsHold(log: seq<Event>, kind: Kind)
    requires kind.LowDisk? || kind.BagSizeLimit?
    ensures kind in SelfStops(log) <==> exists e :: e in log && e.kind == kind
  {
    if log == [] {
    } else {
      var n := |log| - 1;
      assert log == log[..n] + [log[n]];
      SelfStopsHold(log[..n], kind);
    }
  }

  /** Neither opened nor closed since, and time did not run back. */
  predicate SameStretch(s: State, after: State) {
    && after.bag.open == s.bag.open && after.explainedFrom == s.explainedFrom && after.closedAt == s.closedAt
    && s.clock <= after.clock
  }

  /** The same bag goes on: nothing an opening, a stop or a guard would change has changed. */
  predicate SameBag(s: State, after: State) {
    && SameStretch(s, after)
    && after.stoppedForLowDisk == s.stoppedForLowDisk && after.stoppedForMaxBagSize == s.stoppedForMaxBagSize
    && after.topicsAtStop == s.topicsAtStop
    && SelfStops(Log(after)) == SelfStops(Log(s)) && Extends(s.bag.channels, after.bag.channels)
  }

  // ---- one signal against its track ----------------------------------------------------------------------------

  /** Something the reader reconstructs: whether a topic was subscribed, or whether the recorder was paused. */
  datatype Signal = Subscribing(topic: string) | Pausing

  function TrackOf(g: Signal): Track {
    match g case Subscribing(topic) => SubscriptionTrack(topic) case Pausing => PauseTrack()
  }

  predicate Reads(g: Signal, m: Moment) {
    match g case Subscribing(topic) => topic in m.topics case Pausing => m.paused
  }

  predicate Holds(g: Signal, s: State) {
    match g case Subscribing(topic) => topic in s.subs case Pausing => s.paused
  }

  /** Whether the configuration records the signal's events. */
  predicate Records(c: Config, g: Signal) {
    match g case Subscribing(_) => c.recordSubscriptions case Pausing => c.recordPauses
  }

  /** `t` lies in the stretch the log answers for: from the bag's opening to its end. */
  predicate InBag(s: State, t: int) { s.explainedFrom <= t && (s.bag.open || t < s.closedAt) }

  predicate Told(g: Signal, s: State, t: int) {
    InBag(s, t) ==>
      At(s.history, t).Some? && (LatestOpens(TrackOf(g), Log(s), t) <==> Reads(g, At(s.history, t).value))
  }

  /** The log never speaks of the signal before the bag was opened, and tells it truly from then on. */
  ghost predicate Faithful(g: Signal, s: State) {
    && (forall t :: Told(g, s, t))
    && (forall e | e in Log(s) && Toggles(TrackOf(g), e) :: s.explainedFrom <= e.stamp)
  }

  lemma AppendNeutral(k: Track, log: seq<Event>, e: Event, t: int)
    requires !Toggles(k, e)
    ensures Latest(k, log + [e], t) == Latest(k, log, t)
  {
    assert (log + [e])[..|log|] == log;
  }

  lemma AppendDecides(k: Track, log: seq<Event>, e: Event, t: int)
    requires Toggles(k, e) && forall x | x in log :: x.stamp <= e.stamp
    ensures LatestOpens(k, log + [e], t) <==> if e.stamp <= t then e.action == k.opening else LatestOpens(k, log, t)
  {
    assert (log + [e])[..|log|] == log;
  }

  /** The log may gain one event that does not toggle the signal; the history one moment that reads the same. */
  predicate NeutralStep(g: Signal, s: State, after: State) {
    && SameStretch(s, after) && s.history != []
    && (Log(after) == Log(s) ||
        (|Log(after)| == |Log(s)| + 1 && Log(after)[..|Log(s)|] == Log(s) && !Toggles(TrackOf(g), Log(after)[|Log(s)|])))
    && (after.history == s.history ||
        (|after.history| == |s.history| + 1 && after.history[..|s.history|] == s.history
         && Last(after.history).stamp == after.clock && (Reads(g, Last(after.history)) <==> Reads(g, Last(s.history)))))
  }

  lemma NeutralKeeps(g: Signal, s: State, after: State)
    requires Dated(s) && Faithful(g, s) && NeutralStep(g, s, after)
    ensures Faithful(g, after)
  {
    var k := TrackOf(g);
    forall t ensures Told(g, after, t) {
      assert Told(g, s, t);
      if Log(after) != Log(s) {
        assert Log(after) == Log(s) + [Log(after)[|Log(s)|]];
        AppendNeutral(k, Log(s), Log(after)[|Log(s)|], t);
      }
      if after.history != s.history {
        assert after.history == s.history + [Last(after.history)];
        AtAppend(s.history, Last(after.history), t);
      }
    }
    if Log(after) != Log(s) {
      assert Log(after) == Log(s) + [Log(after)[|Log(s)|]];
    }
  }

  /** The signal changes, and the log and the history say so at the same stamp. */
  predicate SignalStep(g: Signal, s: State, after: State, e: Event) {
    && SameStretch(s, after) && Toggles(TrackOf(g), e) && e.stamp == after.clock
    && Log(after) == Log(s) + [e]
    && |after.history| == |s.history| + 1 && after.history[..|s.history|] == s.history
    && Last(after.history).stamp == after.clock
    && (Reads(g, Last(after.history)) <==> e.action == TrackOf(g).opening)
  }

  lemma SignalKeeps(g: Signal, s: State, after: State, e: Event)
    requires Dated(s) && Faithful(g, s) && SignalStep(g, s, after, e)
    ensures Faithful(g, after)
  {
    forall t ensures Told(g, after, t) {
      assert Told(g, s, t);
      AppendDecides(TrackOf(g), Log(s), e, t);
      assert after.history == s.history + [Last(after.history)];
      AtAppend(s.history, Last(after.history), t);
    }
  }

  /** While the bag is closed what happens now is after its end. */
  predicate LaterStep(s: State, after: State) {
    && SameStretch(s, after) && !s.bag.open && Log(after) == Log(s)
    && |after.history| == |s.history| + 1 && after.history[..|s.history|] == s.history
    && Last(after.history).stamp >= s.closedAt
  }

  lemma LaterKeeps(g: Signal, s: State, after: State)
    requires Faithful(g, s) && LaterStep(s, after)
    ensures Faithful(g, after)
  {
    forall t ensures Told(g, after, t) {
      assert Told(g, s, t);
      assert after.history == s.history + [Last(after.history)];
      AtAppend(s.history, Last(after.history), t);
    }
  }

  // ---- each operation --------------------------------------------------------------------------------------------

  lemma EmitFacts(c: Config, s: State, kind: Kind, action: Action, topic: string, record: bool, tick: Tick)
    requires Quiet(s.bag)
    ensures var after := Emit(c, s, kind, action, topic, record, tick);
            && after == s.(clock := s.clock + tick.delay, bag := after.bag)
            && WentOn(s.bag, after.bag,
                      if record && s.bag.open && tick.fate.Stored? then Some(Event(kind, action, after.clock, topic)) else None)
  {
    hide RecordEvent;
    if record { EventWentOn(c, s.bag, Event(kind, action, s.clock + tick.delay, topic), tick.fate); }
  }

  // Which answers the writer must have given for every event of a signal to be stored.

  predicate PauseTold(g: Signal, tick: Tick) { g.Pausing? ==> tick.fate.Stored? }

  predicate ChangeTold(g: Signal, topic: string, tick: Tick) { g == Subscribing(topic) ==> tick.fate.Stored? }

  predicate BatchTold(g: Signal, topics: seq<string>, tries: nat -> Attempt) {
    forall i | 0 <= i < |topics| :: ChangeTold(g, topics[i], tries(i).tick)
  }

  predicate DropsTold(g: Signal, topics: seq<string>, ticks: nat -> Tick) {
    forall i | 0 <= i < |topics| :: ChangeTold(g, topics[i], ticks(i))
  }

  /** What an operation on the bag in hand keeps; the signal is told if its events are recorded and stored. */
  ghost predicate Keeps(c: Config, g: Signal, s: State, after: State, stored: bool) {
    Shape(after) && SameBag(s, after) && (Records(c, g) && stored && Faithful(g, s) ==> Faithful(g, after))
  }

  /** `held` is `s` with one topic's subscription added or dropped and not yet announced. */
  predicate Changing(s: State, held: State, action: Action, topic: string) {
    && held == s.(subs := held.subs, nextHandle := held.nextHandle, bag := held.bag)
    && WentOn(s.bag, held.bag, None) && Typed(held) && Handled(held) && s.bag.open
    && ((action == Subscribed && held.subs.Keys == s.subs.Keys + {topic})
        || (action == Unsubscribed && held.subs.Keys == s.subs.Keys - {topic}))
  }

  /** A subscription event, logged with its moment, tells its own topic's signal; any other it leaves alone, logged
    * or lost. */
  lemma AnnouncedIsTold(g: Signal, s: State, after: State, action: Action, topic: string)
    requires Dated(s) && Current(s) && Faithful(g, s) && SameBag(s, after)
    requires action == Subscribed || action == Unsubscribed
    requires Log(after) == Log(s) + [Event(Subscription, action, after.clock, topic)]
             || (Log(after) == Log(s) && g != Subscribing(topic))
    requires after.history == s.history + [Moment(after.clock, after.subs.Keys, s.paused)]
    requires after.subs.Keys == if action == Subscribed then s.subs.Keys + {topic} else s.subs.Keys - {topic}
    ensures Faithful(g, after)
  {
    hide Faithful, StoredEvents, SelfStops, Extends;
    assert Last(after.history) == Moment(after.clock, after.subs.Keys, s.paused) && after.history[..|s.history|] == s.history;
    if g == Subscribing(topic) {
      SignalKeeps(g, s, after, Event(Subscription, action, after.clock, topic));
    } else {
      assert Reads(g, Last(after.history)) <==> Reads(g, Last(s.history));
      NeutralKeeps(g, s, after);
    }
  }

  lemma AnnounceKeeps(c: Config, g: Signal, s: State, held: State, action: Action, topic: string, tick: Tick)
    requires Shape(s) && Changing(s, held, action, topic)
    ensures Keeps(c, g, s, EmitSubscription(c, held, action, topic, tick), ChangeTold(g, topic, tick))
  {
    var after := EmitSubscription(c, held, action, topic, tick);
    AnnounceShape(c, s, held, action, topic, tick);
    if Records(c, g) && ChangeTold(g, topic, tick) && Faithful(g, s) {
      EmitFacts(c, held, Subscription, action, topic, c.recordSubscriptions, tick);
      hide Emit, Faithful;
      AnnouncedIsTold(g, s, after, action, topic);
    }
  }

  lemma AnnounceShape(c: Config, s: State, held: State, action: Action, topic: string, tick: Tick)
    requires Shape(s) && Changing(s, held, action, topic)
    ensures Shape(EmitSubscription(c, held, action, topic, tick))
    ensures SameBag(s, EmitSubscription(c, held, action, topic, tick))
  {
    EmitFacts(c, held, Subscription, action, topic, c.recordSubscriptions, tick);
    var after := EmitSubscription(c, held, action, topic, tick);
    SelfStopsAppend(Log(s), Event(Subscription, action, after.clock, topic));
  }

  /** A subscription that succeeds, before it is announced. */
  function Adding(c: Config, s: State, topic: string, typeName: string, a: Attempt): State {
    s.(bag := AfterEnsureChannel(s.bag, topic, typeName, a.createOk, c.accepts).0,
       subs := s.subs[topic := Sub(s.nextHandle, typeName)], nextHandle := s.nextHandle + 1)
  }

  lemma AddingIsChanging(c: Config, s: State, topic: string, typeName: string, a: Attempt)
    requires Shape(s) && s.bag.open && topic !in s.subs
    requires AfterEnsureChannel(s.bag, topic, typeName, a.createOk, c.accepts).1.Ready?
    ensures Changing(s, Adding(c, s, topic, typeName, a), Subscribed, topic)
  {
    ChannelWentOn(c, s.bag, topic, typeName, a.createOk);
    hide AfterEnsureChannel;
  }

  lemma AddingKeeps(c: Config, g: Signal, s: State, topic: string, typeName: string, a: Attempt)
    requires Shape(s) && s.bag.open && topic !in s.subs && a.nameOk && a.subscribeOk
    requires AfterEnsureChannel(s.bag, topic, typeName, a.createOk, c.accepts).1.Ready?
    ensures Keeps(c, g, s, SubscribeTopic(c, s, topic, typeName, a).0, ChangeTold(g, topic, a.tick))
  {
    hide AfterEnsureChannel, EmitSubscription;
    assert SubscribeTopic(c, s, topic, typeName, a).0
        == EmitSubscription(c, Adding(c, s, topic, typeName, a), Subscribed, topic, a.tick);
    hide Adding, SubscribeTopic;
    AddingIsChanging(c, s, topic, typeName, a);
    AnnounceKeeps(c, g, s, Adding(c, s, topic, typeName, a), Subscribed, topic, a.tick);
    hide Keeps, Shape;
  }

  lemma SubscribeKeeps(c: Config, g: Signal, s: State, topic: string, typeName: string, a: Attempt)
    requires Shape(s) && s.bag.open
    ensures Keeps(c, g, s, SubscribeTopic(c, s, topic, typeName, a).0, ChangeTold(g, topic, a.tick))
  {
    var (bag, ready) := AfterEnsureChannel(s.bag, topic, typeName, a.createOk, c.accepts);
    if topic in s.subs || !a.nameOk {
      BagOnlyKeeps(c, g, s, s);
    } else if ready.Ready? && a.subscribeOk {
      AddingKeeps(c, g, s, topic, typeName, a);
    } else {
      ChannelWentOn(c, s.bag, topic, typeName, a.createOk);
      BagOnlyKeeps(c, g, s, s.(bag := bag));
    }
    hide AfterEnsureChannel, EmitSubscription, Shape;
  }

  /** Only the bag changed, and quietly. */
  lemma BagOnlyKeeps(c: Config, g: Signal, s: State, after: State)
    requires Shape(s) && after == s.(bag := after.bag) && WentOn(s.bag, after.bag, None)
    ensures Keeps(c, g, s, after, true)
  {
    if Faithful(g, s) { NeutralKeeps(g, s, after); }
  }

  lemma UnsubscribeKeeps(c: Config, g: Signal, s: State, topic: string, tick: Tick)
    requires Shape(s)
    ensures Keeps(c, g, s, UnsubscribeTopic(c, s, topic, tick), ChangeTold(g, topic, tick))
  {
    if topic in s.subs {
      AnnounceKeeps(c, g, s, s.(subs := s.subs - {topic}), Unsubscribed, topic, tick);
    } else {
      BagOnlyKeeps(c, g, s, s);
    }
  }

  lemma BatchStepKeeps(c: Config, g: Signal, b: Batch, sel: Selection, graph: Graph, i: nat, a: Attempt)
    requires Shape(b.state) && b.state.bag.open && i < |sel.topics|
    ensures Keeps(c, g, b.state, BatchStep(c, b, sel, graph, i, a).state, ChangeTold(g, sel.topics[i], a.tick))
  {
    var typeName := TypeFor(sel, graph, i);
    if typeName.Some? { SubscribeKeeps(c, g, b.state, sel.topics[i], typeName.value, a); }
    else { BagOnlyKeeps(c, g, b.state, b.state); }
  }

  lemma KeepsThen(c: Config, g: Signal, s: State, mid: State, after: State, stored: bool, last: bool)
    requires Keeps(c, g, s, mid, stored) && Keeps(c, g, mid, after, last)
    ensures Keeps(c, g, s, after, stored && last)
  {
  }

  lemma BatchToldStep(g: Signal, topics: seq<string>, tries: nat -> Attempt, n: nat)
    requires n < |topics|
    ensures BatchTold(g, topics[..n + 1], tries) ==> BatchTold(g, topics[..n], tries) && ChangeTold(g, topics[n], tries(n).tick)
  {
    if BatchTold(g, topics[..n + 1], tries) {
      assert topics[..n + 1][n] == topics[n];
      forall i | 0 <= i < n ensures ChangeTold(g, topics[..n][i], tries(i).tick) { assert topics[..n + 1][i] == topics[i]; }
    }
  }

  lemma {:induction false} SubscribeFirstKeeps(c: Config, g: Signal, s: State, sel: Selection, graph: Graph, tries: nat -> Attempt, n: nat)
    requires Shape(s) && s.bag.open && n <= |sel.topics|
    ensures Keeps(c, g, s, SubscribeFirst(c, s, sel, graph, tries, n).state, BatchTold(g, sel.topics[..n], tries))
  {
    if n == 0 {
      BagOnlyKeeps(c, g, s, s);
    } else {
      SubscribeFirstKeeps(c, g, s, sel, graph, tries, n - 1);
      var b := SubscribeFirst(c, s, sel, graph, tries, n - 1);
      BatchStepKeeps(c, g, b, sel, graph, n - 1, tries(n - 1));
      BatchToldStep(g, sel.topics, tries, n - 1);
      hide BatchStep, BatchTold, ChangeTold;
      KeepsThen(c, g, s, b.state, BatchStep(c, b, sel, graph, n - 1, tries(n - 1)).state,
                BatchTold(g, sel.topics[..n - 1], tries), ChangeTold(g, sel.topics[n - 1], tries(n - 1).tick));
    }
  }

  lemma DropsToldStep(g: Signal, topics: seq<string>, ticks: nat -> Tick, n: nat)
    requires n < |topics|
    ensures DropsTold(g, topics[..n + 1], ticks) ==> DropsTold(g, topics[..n], ticks) && ChangeTold(g, topics[n], ticks(n))
  {
    if DropsTold(g, topics[..n + 1], ticks) {
      assert topics[..n + 1][n] == topics[n];
      forall i | 0 <= i < n ensures ChangeTold(g, topics[..n][i], ticks(i)) { assert topics[..n + 1][i] == topics[i]; }
    }
  }

  lemma {:induction false} UnsubscribeFirstKeeps(c: Config, g: Signal, s: State, topics: seq<string>, keep: set<string>,
                                                 ticks: nat -> Tick, n: nat)
    requires Shape(s) && n <= |topics|
    ensures Keeps(c, g, s, UnsubscribeFirst(c, s, topics, keep, ticks, n).0, DropsTold(g, topics[..n], ticks))
  {
    if n == 0 {
      BagOnlyKeeps(c, g, s, s);
    } else {
      UnsubscribeFirstKeeps(c, g, s, topics, keep, ticks, n - 1);
      DropsToldStep(g, topics, ticks, n - 1);
      hide UnsubscribeTopic, DropsTold, ChangeTold;
      var before := UnsubscribeFirst(c, s, topics, keep, ticks, n - 1).0;
      if topics[n - 1] !in keep && topics[n - 1] in before.subs {
        UnsubscribeKeeps(c, g, before, topics[n - 1], ticks(n - 1));
        KeepsThen(c, g, s, before, UnsubscribeTopic(c, before, topics[n - 1], ticks(n - 1)),
                  DropsTold(g, topics[..n - 1], ticks), ChangeTold(g, topics[n - 1], ticks(n - 1)));
      }
    }
  }

  // ---- pause, resume, split, messages ------------------------------------------------------------------------------

  /** The bag logged at most one event, not a self-stop, and the rest of the state fits it. */
  lemma LoggedShape(s: State, after: State, more: Option<Event>)
    requires Shape(s) && WentOn(s.bag, after.bag, more) && s.clock <= after.clock
    requires after == s.(paused := after.paused, clock := after.clock, bag := after.bag, history := after.history)
    requires after.history != [] && Last(after.history).stamp <= after.clock && Current(after)
    requires more.Some? ==> more.value.stamp <= after.clock && !more.value.kind.LowDisk? && !more.value.kind.BagSizeLimit?
    ensures Shape(after) && SameBag(s, after)
  {
    hide SelfStops;
    if more.Some? { SelfStopsAppend(Log(s), more.value); }
  }

  lemma PauseEventShape(c: Config, s: State, paused: bool, tick: Tick)
    requires Shape(s) && paused != s.paused
    ensures var after := EmitPause(c, s.(paused := paused), if paused then Paused else Resumed, tick);
            Shape(after) && SameBag(s, after)
  {
    var action := if paused then Paused else Resumed;
    var after := EmitPause(c, s.(paused := paused), action, tick);
    EmitFacts(c, s.(paused := paused), Pause, action, "", c.recordPauses, tick);
    LoggedShape(s, after, if c.recordPauses && s.bag.open && tick.fate.Stored?
                          then Some(Event(Pause, action, after.clock, "")) else None);
    hide Shape, SameBag;
  }

  /** A pause event logged with its moment tells the pause signal, and no subscription's. */
  lemma PauseIsTold(c: Config, g: Signal, s: State, after: State)
    requires Dated(s) && Current(s) && Faithful(g, s) && SameBag(s, after)
    requires var e := Event(Pause, if after.paused then Paused else Resumed, after.clock, "");
             Log(after) == Log(s) + [e] || (Log(after) == Log(s) && !g.Pausing?)
    requires after.history == s.history + [Moment(after.clock, s.subs.Keys, after.paused)]
    ensures Faithful(g, after)
  {
    hide Faithful, StoredEvents, SelfStops, Extends;
    assert Last(after.history) == Moment(after.clock, s.subs.Keys, after.paused) && after.history[..|s.history|] == s.history;
    if g.Pausing? {
      SignalKeeps(g, s, after, Event(Pause, if after.paused then Paused else Resumed, after.clock, ""));
    } else {
      NeutralKeeps(g, s, after);
    }
  }

  lemma PauseEventKeeps(c: Config, g: Signal, s: State, paused: bool, tick: Tick)
    requires Shape(s) && paused != s.paused
    ensures Keeps(c, g, s, EmitPause(c, s.(paused := paused), if paused then Paused else Resumed, tick), PauseTold(g, tick))
  {
    var action := if paused then Paused else Resumed;
    var after := EmitPause(c, s.(paused := paused), action, tick);
    PauseEventShape(c, s, paused, tick);
    EmitFacts(c, s.(paused := paused), Pause, action, "", c.recordPauses, tick);
    assert after.history == s.history + [Moment(after.clock, s.subs.Keys, paused)];
    assert s.bag.open && Records(c, g) && PauseTold(g, tick) ==>
           Log(after) == Log(s) + [Event(Pause, action, after.clock, "")] || (Log(after) == Log(s) && !g.Pausing?);
    hide Emit, EmitPause, Faithful, Dated;
    if Records(c, g) && PauseTold(g, tick) && Faithful(g, s) {
      if s.bag.open { PauseIsTold(c, g, s, after); } else { PauseAside(g, s, after); }
    }
  }

  /** A pause or resume while stopped comes after the last bag's end. */
  lemma PauseAside(g: Signal, s: State, after: State)
    requires Dated(s) && Faithful(g, s) && SameBag(s, after) && !s.bag.open && Log(after) == Log(s)
    requires after.history == s.history + [Moment(after.clock, s.subs.Keys, after.paused)]
    ensures Faithful(g, after)
  {
    LaterKeeps(g, s, after);
  }

  lemma ResumeKeeps(c: Config, g: Signal, s: State, tick: Tick)
    requires Shape(s)
    ensures Keeps(c, g, s, ResumeNow(c, s, tick), PauseTold(g, tick))
  {
    if s.paused { PauseEventKeeps(c, g, s, false, tick); } else { BagOnlyKeeps(c, g, s, s); }
  }

  lemma PauseKeeps(c: Config, g: Signal, s: State, tick: Tick)
    requires Shape(s)
    ensures Keeps(c, g, s, PauseNow(c, s, tick), PauseTold(g, tick))
  {
    if s.paused { BagOnlyKeeps(c, g, s, s); } else { PauseEventKeeps(c, g, s, true, tick); }
  }

  /** Neither the log, the history, the subscriptions nor the pause changed. */
  lemma AsideKeeps(c: Config, g: Signal, s: State, after: State)
    requires Shape(s) && WentOn(s.bag, after.bag, None) && s.clock <= after.clock
    requires after == s.(bag := after.bag, clock := after.clock, deferred := after.deferred, scheduler := after.scheduler)
    requires forall e | e in after.deferred :: e.stamp <= after.clock && e.kind.Split?
    requires !s.bag.open ==> after.scheduler.resume.scheduled.None? && after.scheduler.split.scheduled.None?
    ensures Keeps(c, g, s, after, true)
  {
    if Faithful(g, s) { NeutralKeeps(g, s, after); }
  }

  lemma SplitKeeps(c: Config, g: Signal, s: State, ok: bool, delay: nat)
    requires Shape(s)
    ensures Keeps(c, g, s, SplitNow(c, s, ok, delay), true)
  {
    SplitWentOn(c, s.bag, ok);
    AsideKeeps(c, g, s, SplitNow(c, s, ok, delay));
  }

  lemma FireDueKeeps(c: Config, g: Signal, s: State, m: Message, tick: Tick, splitOk: bool, delay: nat)
    requires Shape(s) && s.bag.open
    ensures Keeps(c, g, s, FireDue(c, s, m, tick, splitOk, delay), PauseTold(g, tick))
  {
    var stored := PauseTold(g, tick);
    var (scheduler, due) := S.AfterTakeDue(s.scheduler, ArrivalOf(m));
    var taken := s.(scheduler := scheduler);
    AsideKeeps(c, g, s, taken);
    var resumed := if due.resume then ResumeNow(c, taken, tick) else taken;
    ResumeKeeps(c, g, taken, tick);
    if due.resume { KeepsThen(c, g, s, taken, resumed, true, stored); }
    SplitKeeps(c, g, resumed, splitOk, delay);
    if due.split { KeepsThen(c, g, s, resumed, SplitNow(c, resumed, splitOk, delay), stored, true); }
  }

  lemma MessageKeeps(c: Config, g: Signal, s: State, m: Message, tick: Tick, splitOk: bool, delay: nat)
    requires Shape(s) && s.bag.open
    ensures Keeps(c, g, s, OnMessage(c, s, m, tick, splitOk, delay), PauseTold(g, tick))
  {
    var ready := FireDue(c, s, m, tick, splitOk, delay);
    FireDueKeeps(c, g, s, m, tick, splitOk, delay);
    if !ready.paused {
      WriteWentOn(c, ready.bag, m);
      var after := ready.(bag := AfterWrite(ready.bag, m, false, c.accepts));
      BagOnlyKeeps(c, g, ready, after);
      KeepsThen(c, g, s, ready, after, PauseTold(g, tick), true);
    }
  }
}
