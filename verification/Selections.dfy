/** What subscribing a batch, replacing the selection, and stopping then recording do to the selection. */
module Selections {
  import opened Options
  import opened Timeline
  import opened BagStore
  import opened RecorderState
  import opened RecorderInvariants
  import Names

  // ---- the subscription changes a log announces --------------------------------------------------------

  /** The subscription events of a log, in order, as (action, topic). */
  function Announced(log: seq<Event>): seq<(Action, string)> {
    if log == [] then []
    else
      var e := log[|log| - 1];
      Announced(log[..|log| - 1]) + if e.kind.Subscription? then [(e.action, e.topic)] else []
  }

  function Said(action: Action, topics: seq<string>): seq<(Action, string)> {
    seq(|topics|, i requires 0 <= i < |topics| => (action, topics[i]))
  }

  lemma SaidMore(action: Action, topics: seq<string>, topic: string)
    ensures Said(action, topics + [topic]) == Said(action, topics) + [(action, topic)]
  {
  }

  lemma AnnouncedAppend(log: seq<Event>, e: Event)
    ensures Announced(log + [e]) == Announced(log) + if e.kind.Subscription? then [(e.action, e.topic)] else []
  {
    assert (log + [e])[..|log|] == log;
  }

  // ---- one subscription -----------------------------------------------------------------------------------

  /** Whether subscribing `topic`, not yet subscribed, succeeds in this state. */
  predicate CanSubscribe(s: State, topic: string, typeName: string, a: Attempt) {
    a.nameOk && a.subscribeOk
    && (if topic in s.bag.channels then s.bag.channels[topic] == typeName else a.createOk)
  }

  function ChannelOf(b: BagState, x: string): Option<string> {
    if x in b.channels then Some(b.channels[x]) else None
  }

  /** A channel made for `kind`'s events, if there was none and its creation worked. */
  function WithEvent(channel: Option<string>, x: string, kind: Kind, fate: Fate): Option<string> {
    if channel.None? && x == EventTopic(kind) && !fate.ChannelFailed? then Some(EventType(kind)) else channel
  }

  /** The channel of `x` after an attempt to subscribe `topic`: a failed one may leave its channel behind, and one that
    * works announces itself. */
  function ChannelAfter(c: Config, s: State, topic: string, typeName: string, a: Attempt, x: string): Option<string> {
    var before := ChannelOf(s.bag, x);
    if topic in s.subs || !a.nameOk then before
    else
      var tried := if before.None? && x == topic && a.createOk then Some(typeName) else before;
      if c.recordSubscriptions && CanSubscribe(s, topic, typeName, a) then WithEvent(tried, x, Subscription, a.tick.fate)
      else tried
  }

  /** What one subscribe attempt comes to. */
  ghost predicate Outcome(c: Config, s: State, topic: string, typeName: string, a: Attempt, after: State, r: SubscribeResult) {
    && (r == if topic in s.subs then AlreadySubscribed else if CanSubscribe(s, topic, typeName, a) then Added else Failed)
    && after.subs == (if r.Added? then s.subs[topic := Sub(s.nextHandle, typeName)] else s.subs)
    && after.nextHandle == (if r.Added? then s.nextHandle + 1 else s.nextHandle)
    && Quiet(after.bag) && after.bag.open
    && (forall x: string :: ChannelOf(after.bag, x) == ChannelAfter(c, s, topic, typeName, a, x))
    && (c.recordSubscriptions && a.tick.fate.Stored? ==>
          Announced(Log(after)) == Announced(Log(s)) + if r.Added? then [(Subscribed, topic)] else [])
  }

  lemma SubscribeOutcome(c: Config, s: State, topic: string, typeName: string, a: Attempt)
    requires Quiet(s.bag) && s.bag.open
    ensures var (after, r) := SubscribeTopic(c, s, topic, typeName, a); Outcome(c, s, topic, typeName, a, after, r)
  {
    if topic in s.subs || !a.nameOk {
      FailedOutcome(c, s, topic, typeName, a, s);
    } else {
      var bag := AfterEnsureChannel(s.bag, topic, typeName, a.createOk, c.accepts).0;
      ChannelEnsured(c, s, topic, typeName, a);
      hide AfterEnsureChannel, EmitSubscription;
      if CanSubscribe(s, topic, typeName, a) {
        AddedOutcome(c, s, topic, typeName, a, bag);
      } else {
        FailedOutcome(c, s, topic, typeName, a, s.(bag := bag));
      }
    }
  }

  /** The channel of the topic is there, or was made, or could not be. */
  ghost predicate Tried(s: State, topic: string, typeName: string, a: Attempt, bag: BagState) {
    && WentOn(s.bag, bag, None)
    && forall x: string :: ChannelOf(bag, x) ==
         if ChannelOf(s.bag, x).None? && x == topic && a.createOk then Some(typeName) else ChannelOf(s.bag, x)
  }

  lemma ChannelEnsured(c: Config, s: State, topic: string, typeName: string, a: Attempt)
    requires Quiet(s.bag) && s.bag.open
    ensures var (bag, ready) := AfterEnsureChannel(s.bag, topic, typeName, a.createOk, c.accepts);
            && Tried(s, topic, typeName, a, bag)
            && (ready.Ready? <==> if topic in s.bag.channels then s.bag.channels[topic] == typeName else a.createOk)
  {
    ChannelWentOn(c, s.bag, topic, typeName, a.createOk);
    if topic !in s.bag.channels { FlushQuiet(CreateChannel(s.bag, topic, typeName, a.createOk), c.accepts); }
  }

  lemma FailedOutcome(c: Config, s: State, topic: string, typeName: string, a: Attempt, after: State)
    requires topic in s.subs || !CanSubscribe(s, topic, typeName, a)
    requires after == s.(bag := after.bag) && s.bag.open
    requires if topic in s.subs || !a.nameOk then Quiet(s.bag) && after.bag == s.bag else Tried(s, topic, typeName, a, after.bag)
    ensures Outcome(c, s, topic, typeName, a, after, if topic in s.subs then AlreadySubscribed else Failed)
  {
    assert Announced(Log(s)) + [] == Announced(Log(s));
    hide Announced;
  }

  lemma AddedOutcome(c: Config, s: State, topic: string, typeName: string, a: Attempt, bag: BagState)
    requires topic !in s.subs && CanSubscribe(s, topic, typeName, a) && s.bag.open && Tried(s, topic, typeName, a, bag)
    ensures var held := s.(bag := bag, subs := s.subs[topic := Sub(s.nextHandle, typeName)], nextHandle := s.nextHandle + 1);
            Outcome(c, s, topic, typeName, a, EmitSubscription(c, held, Subscribed, topic, a.tick), Added)
  {
    var held := s.(bag := bag, subs := s.subs[topic := Sub(s.nextHandle, typeName)], nextHandle := s.nextHandle + 1);
    AnnouncementOutcome(c, held, Subscribed, topic, a.tick);
    hide EmitSubscription, Announced;
  }

  /** An announcement touches only the log and, for the first of its kind, the event's own channel. */
  lemma AnnouncementOutcome(c: Config, s: State, action: Action, topic: string, tick: Tick)
    requires Quiet(s.bag) && s.bag.open
    ensures var after := EmitSubscription(c, s, action, topic, tick);
            && after.subs == s.subs && after.nextHandle == s.nextHandle
            && Quiet(after.bag) && after.bag.open
            && (forall x: string :: ChannelOf(after.bag, x) ==
                  if c.recordSubscriptions then WithEvent(ChannelOf(s.bag, x), x, Subscription, tick.fate) else ChannelOf(s.bag, x))
            && (c.recordSubscriptions && tick.fate.Stored? ==> Announced(Log(after)) == Announced(Log(s)) + [(action, topic)])
  {
    EmitFacts(c, s, Subscription, action, topic, c.recordSubscriptions, tick);
    var e := Event(Subscription, action, s.clock + tick.delay, topic);
    AnnouncedAppend(Log(s), e);
    EventChannels(c, s.bag, e, tick.fate);
    hide RecordEvent, Announced;
  }

  lemma EventChannels(c: Config, b: BagState, e: Event, fate: Fate)
    requires Quiet(b) && b.open
    ensures forall x: string :: ChannelOf(RecordEvent(c, b, e, fate), x) == WithEvent(ChannelOf(b, x), x, e.kind, fate)
  {
    LogEventWentOn(b, EventTopic(e.kind), EventType(e.kind), e, fate);
    FlushQuiet(LogEvent(b, EventTopic(e.kind), EventType(e.kind), e, fate), c.accepts);
  }

  // ---- a batch -----------------------------------------------------------------------------------------------

  /** The batch up to `n`: who was subscribed already keeps the same subscription, and who is new is in `added`. */
  ghost predicate BatchHolds(s: State, b: Batch) {
    && Quiet(b.state.bag) && b.state.bag.open && s.nextHandle <= b.state.nextHandle
    && (forall x :: x in b.state.subs <==> x in s.subs || x in b.added)
    && (forall x | x in s.subs :: x !in b.added && b.state.subs[x] == s.subs[x])
    && (forall x | x in b.added :: b.state.subs[x].handle >= s.nextHandle)
    && (forall i, j | 0 <= i < j < |b.added| :: b.added[i] != b.added[j])
    && (forall x :: x in b.subscribed ==> x in b.state.subs)
  }

  /** One more request, as its outcome alone describes it. */
  ghost predicate StepsTo(c: Config, b: Batch, next: Batch, topic: string, typeName: Option<string>, a: Attempt) {
    if typeName.None? then next == b.(unavailable := b.unavailable + [topic])
    else
      var r := if topic in b.state.subs then AlreadySubscribed
               else if CanSubscribe(b.state, topic, typeName.value, a) then Added else Failed;
      && Outcome(c, b.state, topic, typeName.value, a, next.state, r)
      && next.subscribed == (if r.Failed? then b.subscribed else b.subscribed + [topic])
      && next.unavailable == (if r.Failed? then b.unavailable + [topic] else b.unavailable)
      && next.added == (if r.Added? then b.added + [topic] else b.added)
  }

  lemma BatchStepsTo(c: Config, b: Batch, sel: Selection, graph: Graph, i: nat, a: Attempt)
    requires Quiet(b.state.bag) && b.state.bag.open && i < |sel.topics|
    ensures StepsTo(c, b, BatchStep(c, b, sel, graph, i, a), sel.topics[i], TypeFor(sel, graph, i), a)
  {
    var typeName := TypeFor(sel, graph, i);
    if typeName.Some? { SubscribeOutcome(c, b.state, sel.topics[i], typeName.value, a); }
  }

  lemma HoldsOn(c: Config, s: State, b: Batch, next: Batch, topic: string, typeName: Option<string>, a: Attempt)
    requires BatchHolds(s, b) && StepsTo(c, b, next, topic, typeName, a)
    ensures BatchHolds(s, next)
  {
  }

  lemma LastOne(c: Config, s: State, sel: Selection, graph: Graph, tries: nat -> Attempt, n: nat)
    requires 0 < n <= |sel.topics|
    ensures SubscribeFirst(c, s, sel, graph, tries, n) ==
            BatchStep(c, SubscribeFirst(c, s, sel, graph, tries, n - 1), sel, graph, n - 1, tries(n - 1))
  {
    hide BatchStep;
  }

  lemma StepHolds(c: Config, s: State, b: Batch, sel: Selection, graph: Graph, i: nat, a: Attempt)
    requires i < |sel.topics| && BatchHolds(s, b)
    ensures BatchHolds(s, BatchStep(c, b, sel, graph, i, a))
  {
    hide BatchStep;
    BatchStepsTo(c, b, sel, graph, i, a);
    HoldsOn(c, s, b, BatchStep(c, b, sel, graph, i, a), sel.topics[i], TypeFor(sel, graph, i), a);
    hide BatchHolds;
  }

  lemma HoldsNext(c: Config, s: State, sel: Selection, graph: Graph, tries: nat -> Attempt, n: nat)
    requires 0 < n <= |sel.topics| && BatchHolds(s, SubscribeFirst(c, s, sel, graph, tries, n - 1))
    ensures BatchHolds(s, SubscribeFirst(c, s, sel, graph, tries, n))
  {
    hide SubscribeFirst, BatchStep;
    LastOne(c, s, sel, graph, tries, n);
    StepHolds(c, s, SubscribeFirst(c, s, sel, graph, tries, n - 1), sel, graph, n - 1, tries(n - 1));
    hide BatchHolds;
  }

  lemma HoldsAtFirst(c: Config, s: State, sel: Selection, graph: Graph, tries: nat -> Attempt)
    requires Quiet(s.bag) && s.bag.open
    ensures BatchHolds(s, SubscribeFirst(c, s, sel, graph, tries, 0))
  {
    hide BatchStep;
  }

  lemma {:induction false} BatchIsExact(c: Config, s: State, sel: Selection, graph: Graph, tries: nat -> Attempt, n: nat)
    requires Quiet(s.bag) && s.bag.open && n <= |sel.topics|
    ensures BatchHolds(s, SubscribeFirst(c, s, sel, graph, tries, n))
  {
    hide SubscribeFirst, BatchHolds;
    if n == 0 {
      HoldsAtFirst(c, s, sel, graph, tries);
    } else {
      BatchIsExact(c, s, sel, graph, tries, n - 1);
      HoldsNext(c, s, sel, graph, tries, n);
    }
  }

  /** The last step of a batch of `n` requests. */
  lemma LastStep(c: Config, s: State, sel: Selection, graph: Graph, tries: nat -> Attempt, n: nat)
    requires Quiet(s.bag) && s.bag.open && 0 < n <= |sel.topics|
    ensures var b := SubscribeFirst(c, s, sel, graph, tries, n - 1);
            StepsTo(c, b, SubscribeFirst(c, s, sel, graph, tries, n), sel.topics[n - 1], TypeFor(sel, graph, n - 1), tries(n - 1))
  {
    hide BatchStep, SubscribeFirst;
    LastOne(c, s, sel, graph, tries, n);
    BatchIsExact(c, s, sel, graph, tries, n - 1);
    BatchStepsTo(c, SubscribeFirst(c, s, sel, graph, tries, n - 1), sel, graph, n - 1, tries(n - 1));
  }

  ghost predicate Partitioned(b: Batch, asked: seq<string>) {
    multiset(b.subscribed) + multiset(b.unavailable) == multiset(asked)
  }

  /** Every request ends up subscribed or unavailable, exactly once each, duplicates included. */
  lemma {:induction false} BatchPartitions(c: Config, s: State, sel: Selection, graph: Graph, tries: nat -> Attempt, n: nat)
    requires Quiet(s.bag) && s.bag.open && n <= |sel.topics|
    ensures Partitioned(SubscribeFirst(c, s, sel, graph, tries, n), sel.topics[..n])
  {
    hide BatchStep;
    if n == 0 {
    } else {
      BatchPartitions(c, s, sel, graph, tries, n - 1);
      LastStep(c, s, sel, graph, tries, n);
      assert sel.topics[..n] == sel.topics[..n - 1] + [sel.topics[n - 1]];
      PartitionOn(c, SubscribeFirst(c, s, sel, graph, tries, n - 1), SubscribeFirst(c, s, sel, graph, tries, n),
        sel.topics[n - 1], TypeFor(sel, graph, n - 1), tries(n - 1), sel.topics[..n - 1]);
    }
  }

  lemma PartitionOn(c: Config, b: Batch, next: Batch, topic: string, typeName: Option<string>, a: Attempt, asked: seq<string>)
    requires StepsTo(c, b, next, topic, typeName, a)
    requires Partitioned(b, asked)
    ensures Partitioned(next, asked + [topic])
  {
  }

  /** Since `s` the log announces `topics`, and nothing else, with `action`. */
  ghost predicate Announces(s: State, after: State, action: Action, topics: seq<string>) {
    Announced(Log(after)) == Announced(Log(s)) + Said(action, topics)
  }

  lemma NothingAnnounced(s: State, action: Action)
    ensures Announces(s, s, action, [])
  {
    assert Announced(Log(s)) + [] == Announced(Log(s));
  }

  ghost predicate AllTold(tries: nat -> Attempt) { forall i: nat :: tries(i).tick.fate.Stored? }

  ghost predicate AllStored(ticks: nat -> Tick) { forall i: nat :: ticks(i).fate.Stored? }

  lemma NoneYet(c: Config, s: State, sel: Selection, graph: Graph, tries: nat -> Attempt)
    ensures SubscribeFirst(c, s, sel, graph, tries, 0) == Batch(s, [], [], [])
  {
    hide BatchStep;
  }

  lemma {:induction false} BatchAnnounces(c: Config, s: State, sel: Selection, graph: Graph, tries: nat -> Attempt, n: nat)
    requires Quiet(s.bag) && s.bag.open && n <= |sel.topics| && c.recordSubscriptions && AllTold(tries)
    ensures var b := SubscribeFirst(c, s, sel, graph, tries, n); Announces(s, b.state, Subscribed, b.added)
  {
    hide SubscribeFirst, BatchStep, Announces;
    if n == 0 {
      NoneYet(c, s, sel, graph, tries);
      NothingAnnounced(s, Subscribed);
    } else {
      BatchAnnounces(c, s, sel, graph, tries, n - 1);
      LastStep(c, s, sel, graph, tries, n);
      AnnouncesOn(c, s, SubscribeFirst(c, s, sel, graph, tries, n - 1), SubscribeFirst(c, s, sel, graph, tries, n),
        sel.topics[n - 1], TypeFor(sel, graph, n - 1), tries(n - 1));
    }
  }

  lemma AnnouncesOn(c: Config, s: State, b: Batch, next: Batch, topic: string, typeName: Option<string>, a: Attempt)
    requires StepsTo(c, b, next, topic, typeName, a) && c.recordSubscriptions && a.tick.fate.Stored?
    requires Announces(s, b.state, Subscribed, b.added)
    ensures Announces(s, next.state, Subscribed, next.added)
  {
    SaidMore(Subscribed, b.added, topic);
  }

  // ---- which topics a batch subscribes, read off the state before it -----------------------------------------

  /** The channel `x` has when request `n` is reached, as long as no request for `x` itself got it subscribed: one it
    * had, one a failed attempt left behind, or, for the recorder's own subscription events, one that an earlier
    * announcement made. */
  function ChannelBefore(c: Config, s: State, sel: Selection, graph: Graph, tries: nat -> Attempt, n: nat, x: string): Option<string>
    requires n <= |sel.topics|
    decreases n, 0
  {
    if n == 0 then ChannelOf(s.bag, x)
    else
      var before := ChannelBefore(c, s, sel, graph, tries, n - 1, x);
      if before.Some? then before
      else if sel.topics[n - 1] == x then (if tries(n - 1).nameOk && tries(n - 1).createOk then TypeFor(sel, graph, n - 1) else None)
      else if c.recordSubscriptions && Adds(c, s, sel, graph, tries, n - 1)
      then WithEvent(None, x, Subscription, tries(n - 1).tick.fate)
      else None
  }

  /** Request `i` gets its topic subscribed, unless it is subscribed already: its type is found, name and subscription
    * work, and its channel has that type or can be made. */
  predicate Gets(c: Config, s: State, sel: Selection, graph: Graph, tries: nat -> Attempt, i: nat)
    requires i < |sel.topics|
    decreases i, 1
  {
    var typeName, channel := TypeFor(sel, graph, i), ChannelBefore(c, s, sel, graph, tries, i, sel.topics[i]);
    && typeName.Some? && tries(i).nameOk && tries(i).subscribeOk
    && if channel.Some? then channel == typeName else tries(i).createOk
  }

  /** Request `i` is the one that gets its topic subscribed. */
  predicate Adds(c: Config, s: State, sel: Selection, graph: Graph, tries: nat -> Attempt, i: nat)
    requires i < |sel.topics|
    decreases i, 2
  {
    && sel.topics[i] !in s.subs && Gets(c, s, sel, graph, tries, i)
    && forall j | 0 <= j < i && sel.topics[j] == sel.topics[i] :: !Gets(c, s, sel, graph, tries, j)
  }

  /** One of the first `n` requests gets `x` subscribed. */
  ghost predicate Got(c: Config, s: State, sel: Selection, graph: Graph, tries: nat -> Attempt, n: nat, x: string)
    requires n <= |sel.topics|
  {
    exists i :: 0 <= i < n && sel.topics[i] == x && Gets(c, s, sel, graph, tries, i)
  }

  lemma GotStep(c: Config, s: State, sel: Selection, graph: Graph, tries: nat -> Attempt, n: nat, x: string)
    requires n < |sel.topics|
    ensures Got(c, s, sel, graph, tries, n + 1, x) <==>
            Got(c, s, sel, graph, tries, n, x) || (sel.topics[n] == x && Gets(c, s, sel, graph, tries, n))
    ensures Adds(c, s, sel, graph, tries, n) <==>
            sel.topics[n] !in s.subs && Gets(c, s, sel, graph, tries, n) && !Got(c, s, sel, graph, tries, n, sel.topics[n])
  {
    hide Gets;
  }

  /** The subscriptions and channels after the first `n` requests. */
  ghost predicate Foreseen(c: Config, s: State, after: State, sel: Selection, graph: Graph, tries: nat -> Attempt, n: nat, x: string)
    requires n <= |sel.topics|
  {
    && (x in after.subs <==> x in s.subs || Got(c, s, sel, graph, tries, n, x))
    && (x !in after.subs ==> ChannelOf(after.bag, x) == ChannelBefore(c, s, sel, graph, tries, n, x))
  }

  lemma GetsIsCan(c: Config, s: State, b: Batch, sel: Selection, graph: Graph, tries: nat -> Attempt, n: nat)
    requires n < |sel.topics| && Foreseen(c, s, b.state, sel, graph, tries, n, sel.topics[n]) && sel.topics[n] !in b.state.subs
    ensures var typeName := TypeFor(sel, graph, n);
            Gets(c, s, sel, graph, tries, n) <==>
            typeName.Some? && CanSubscribe(b.state, sel.topics[n], typeName.value, tries(n))
  {
    hide ChannelBefore, Got;
  }

  lemma ForeseenOn(c: Config, s: State, b: Batch, next: Batch, sel: Selection, graph: Graph, tries: nat -> Attempt, n: nat, x: string)
    requires n < |sel.topics| && StepsTo(c, b, next, sel.topics[n], TypeFor(sel, graph, n), tries(n))
    requires Foreseen(c, s, b.state, sel, graph, tries, n, x) && Foreseen(c, s, b.state, sel, graph, tries, n, sel.topics[n])
    ensures Foreseen(c, s, next.state, sel, graph, tries, n + 1, x)
  {
    GotStep(c, s, sel, graph, tries, n, x);
    GotStep(c, s, sel, graph, tries, n, sel.topics[n]);
    if sel.topics[n] !in b.state.subs { GetsIsCan(c, s, b, sel, graph, tries, n); }
    hide Got, Gets, Adds;
  }

  lemma {:induction false} BatchForeseen(c: Config, s: State, sel: Selection, graph: Graph, tries: nat -> Attempt, n: nat, x: string)
    requires Quiet(s.bag) && s.bag.open && n <= |sel.topics|
    ensures Foreseen(c, s, SubscribeFirst(c, s, sel, graph, tries, n).state, sel, graph, tries, n, x)
  {
    hide SubscribeFirst, BatchStep;
    if n == 0 {
      NoneYet(c, s, sel, graph, tries);
    } else {
      BatchForeseen(c, s, sel, graph, tries, n - 1, x);
      BatchForeseen(c, s, sel, graph, tries, n - 1, sel.topics[n - 1]);
      LastStep(c, s, sel, graph, tries, n);
      hide Foreseen;
      ForeseenOn(c, s, SubscribeFirst(c, s, sel, graph, tries, n - 1), SubscribeFirst(c, s, sel, graph, tries, n),
        sel, graph, tries, n - 1, x);
    }
  }

  /** A batch leaves subscribed exactly what was subscribed before and what some request gets, judged from the state
    * before the batch, the graph and the attempts alone. */
  lemma BatchSubscribes(c: Config, s: State, sel: Selection, graph: Graph, tries: nat -> Attempt, x: string)
    requires Quiet(s.bag) && s.bag.open
    ensures x in SubscribeBatch(c, s, sel, graph, tries).state.subs <==>
            x in s.subs || exists i :: 0 <= i < |sel.topics| && sel.topics[i] == x && Gets(c, s, sel, graph, tries, i)
  {
    BatchForeseen(c, s, sel, graph, tries, |sel.topics|, x);
    hide SubscribeFirst, Gets, ChannelBefore;
  }

  /** A topic subscribed all along is called unavailable exactly when no type can be found for it; it
    * stays subscribed, by the same subscription, either way. */
  lemma {:induction false} KeptButUnavailable(c: Config, s: State, sel: Selection, graph: Graph, tries: nat -> Attempt, n: nat, x: string)
    requires Quiet(s.bag) && s.bag.open && n <= |sel.topics| && x in s.subs
    ensures var b := SubscribeFirst(c, s, sel, graph, tries, n);
            && x in b.state.subs && b.state.subs[x] == s.subs[x]
            && (x in b.unavailable <==> exists i :: 0 <= i < n && sel.topics[i] == x && TypeFor(sel, graph, i).None?)
  {
    hide BatchStep;
    BatchIsExact(c, s, sel, graph, tries, n);
    if n == 0 {
    } else {
      KeptButUnavailable(c, s, sel, graph, tries, n - 1, x);
      LastStep(c, s, sel, graph, tries, n);
      UnavailableOn(c, SubscribeFirst(c, s, sel, graph, tries, n - 1), SubscribeFirst(c, s, sel, graph, tries, n),
        sel.topics[n - 1], TypeFor(sel, graph, n - 1), tries(n - 1), x);
    }
  }

  lemma UnavailableOn(c: Config, b: Batch, next: Batch, topic: string, typeName: Option<string>, a: Attempt, x: string)
    requires StepsTo(c, b, next, topic, typeName, a) && x in b.state.subs
    ensures x in next.unavailable <==> x in b.unavailable || (x == topic && typeName.None?)
  {
  }

  // ---- replace_topics --------------------------------------------------------------------------------------

  /** The names of `topics` not in `keep`, in order. */
  function Without(topics: seq<string>, keep: set<string>): (r: seq<string>)
    ensures forall x :: x in r <==> x in topics && x !in keep
  {
    if topics == [] then []
    else
      var n := |topics| - 1;
      assert topics == topics[..n] + [topics[n]];
      Without(topics[..n], keep) + if topics[n] in keep then [] else [topics[n]]
  }

  lemma {:induction false} WithoutStrict(topics: seq<string>, keep: set<string>)
    requires Names.Strict(topics)
    ensures Names.Strict(Without(topics, keep))
  {
    if topics == [] {
    } else {
      var n := |topics| - 1;
      WithoutStrict(topics[..n], keep);
      forall x | x in topics[..n] ensures Names.Leq(x, topics[n]) && x != topics[n] {}
    }
  }

  /** What dropping the first of a list of subscribed topics leaves. */
  ghost predicate DropsHold(c: Config, s: State, after: State, gone: seq<string>, stored: bool) {
    && Quiet(after.bag) && after.bag.open && after.nextHandle == s.nextHandle
    && (forall x :: x in after.subs <==> x in s.subs && x !in gone)
    && (forall x | x in after.subs :: after.subs[x] == s.subs[x])
    && (c.recordSubscriptions && stored ==> Announces(s, after, Unsubscribed, gone))
  }

  lemma DropOn(c: Config, s: State, before: State, gone: seq<string>, topic: string, tick: Tick, stored: bool)
    requires DropsHold(c, s, before, gone, stored) && topic in before.subs && (stored ==> tick.fate.Stored?)
    ensures DropsHold(c, s, UnsubscribeTopic(c, before, topic, tick), gone + [topic], stored)
  {
    hide EmitSubscription;
    AnnouncementOutcome(c, before.(subs := before.subs - {topic}), Unsubscribed, topic, tick);
    SaidMore(Unsubscribed, gone, topic);
  }

  lemma {:induction false} DropsAreExact(c: Config, s: State, listed: seq<string>, keep: set<string>, drops: nat -> Tick, n: nat)
    requires Quiet(s.bag) && s.bag.open && n <= |listed| && Names.Strict(listed)
    requires forall x | x in listed :: x in s.subs
    ensures var (after, gone) := UnsubscribeFirst(c, s, listed, keep, drops, n);
            gone == Without(listed[..n], keep) && DropsHold(c, s, after, gone, AllStored(drops))
  {
    hide UnsubscribeTopic;
    if n == 0 {
      NothingAnnounced(s, Unsubscribed);
    } else {
      DropsAreExact(c, s, listed, keep, drops, n - 1);
      var (before, gone) := UnsubscribeFirst(c, s, listed, keep, drops, n - 1);
      var topic := listed[n - 1];
      assert listed[..n][..n - 1] == listed[..n - 1] && topic in listed && topic !in listed[..n - 1];
      if topic !in keep { DropOn(c, s, before, gone, topic, drops(n - 1), AllStored(drops)); }
    }
  }

  /** What is left of the old selection, by the subscriptions it had, and what was added, each topic once. */
  ghost predicate Replaced(s: State, b: Batch, wanted: set<string>) {
    && (forall x :: x in b.state.subs <==> (x in s.subs && x in wanted) || x in b.added)
    && (forall x | x in s.subs && x in wanted :: x !in b.added && b.state.subs[x] == s.subs[x])
    && (forall x | x in b.added :: x in wanted && x !in s.subs && b.state.subs[x].handle >= s.nextHandle)
    && (forall i, j | 0 <= i < j < |b.added| :: b.added[i] != b.added[j])
  }

  lemma DropThenBatch(c: Config, s: State, dropped: State, gone: seq<string>, b: Batch, wanted: set<string>, stored: bool)
    requires DropsHold(c, s, dropped, gone, stored) && BatchHolds(dropped, b)
    requires forall x :: x in gone <==> x in s.subs && x !in wanted
    requires forall x | x in b.added :: x in wanted
    ensures Replaced(s, b, wanted)
  {
    hide Announces;
  }

  /** The log gains an event for each drop and then one for each addition. */
  lemma ReplaceAnnounces(c: Config, s: State, desired: Selection, graph: Graph, drops: nat -> Tick, tries: nat -> Attempt)
    requires Quiet(s.bag) && s.bag.open && c.recordSubscriptions && AllStored(drops) && AllTold(tries)
    ensures var (b, gone) := ReplaceTopics(c, s, desired, graph, drops, tries);
            Announced(Log(b.state)) == Announced(Log(s)) + Said(Unsubscribed, gone) + Said(Subscribed, b.added)
  {
    var listed, wanted := Names.Listing(s.subs.Keys), NamesIn(desired.topics);
    var (dropped, gone) := UnsubscribeFirst(c, s, listed, wanted, drops, |listed|);
    DropsAreExact(c, s, listed, wanted, drops, |listed|);
    BatchAnnounces(c, dropped, desired, graph, tries, |desired.topics|);
    hide SubscribeFirst, UnsubscribeFirst, Announced, Said, Without;
  }

  /** set_topics and set_profile: the selection becomes (old and desired) plus what could be added; kept
    * topics keep the very subscription they had; each topic dropped and each added is announced once. */
  lemma ReplaceIsExact(c: Config, s: State, desired: Selection, graph: Graph, drops: nat -> Tick, tries: nat -> Attempt)
    requires Quiet(s.bag) && s.bag.open
    ensures var (b, gone) := ReplaceTopics(c, s, desired, graph, drops, tries);
            var wanted := NamesIn(desired.topics);
            && gone == Names.Listing(s.subs.Keys - wanted)
            && Replaced(s, b, wanted) && Partitioned(b, desired.topics)
            && (c.recordSubscriptions && AllStored(drops) && AllTold(tries) ==>
                  Announced(Log(b.state)) == Announced(Log(s)) + Said(Unsubscribed, gone) + Said(Subscribed, b.added))
  {
    hide SubscribeFirst, UnsubscribeFirst, BatchHolds, Replaced, Partitioned, Announced, Said;
    var listed := Names.Listing(s.subs.Keys);
    var wanted := NamesIn(desired.topics);
    var (dropped, gone) := UnsubscribeFirst(c, s, listed, wanted, drops, |listed|);
    DropsAreExact(c, s, listed, wanted, drops, |listed|);
    assert listed[..|listed|] == listed;
    WithoutStrict(listed, wanted);
    Names.ListingIsOnly(s.subs.Keys - wanted, gone);
    BatchIsExact(c, dropped, desired, graph, tries, |desired.topics|);
    BatchPartitions(c, dropped, desired, graph, tries, |desired.topics|);
    assert desired.topics[..|desired.topics|] == desired.topics;
    AddedIsWanted(c, dropped, desired, graph, tries, |desired.topics|);
    DropThenBatch(c, s, dropped, gone, SubscribeBatch(c, dropped, desired, graph, tries), wanted, AllStored(drops));
    if c.recordSubscriptions && AllStored(drops) && AllTold(tries) {
      ReplaceAnnounces(c, s, desired, graph, drops, tries);
    }
    hide DropsHold, Without;
  }

  lemma {:induction false} AddedIsWanted(c: Config, s: State, sel: Selection, graph: Graph, tries: nat -> Attempt, n: nat)
    requires n <= |sel.topics|
    ensures forall x | x in SubscribeFirst(c, s, sel, graph, tries, n).added :: x in sel.topics
  {
    if n == 0 {
    } else {
      AddedIsWanted(c, s, sel, graph, tries, n - 1);
    }
  }
}
