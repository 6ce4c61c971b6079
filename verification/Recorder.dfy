/** The recorder object: its fields as the source updates them, each method tied to what RecorderState says
  * the operation does (packages/rosbag2_dynamic_recorder/src/dynamic_recorder.cpp, recorder_events.cpp,
  * recorder_services.cpp). */
module Recorder {
  import opened Timeline
  import opened BagStore
  import R = RecorderState
  import opened Renewal
  import L = Losses
  import Names
  import S = Scheduling

  class DynamicRecorder {
    const config: R.Config
    const bag: Bag
    const scheduler: S.Scheduler
    const losses: L.LossAccounting
    const storage: StorageOptions
    var clock: int
    var subscriptions: map<string, R.Sub>
    var nextHandle: nat
    var topicsAtStop: seq<string>
    var paused: bool
    var stoppedForLowDisk: bool
    var stoppedForMaxBagSize: bool
    var deferredSplitEvents: seq<Event>
    ghost var explainedFrom: int
    ghost var closedAt: int
    ghost var history: seq<R.Moment>

    ghost predicate Valid()
      reads this, scheduler
    {
      scheduler.Valid()
    }

    ghost function State(): R.State
      reads this, bag, scheduler, scheduler.slots
      requires Valid()
    {
      R.State(clock, bag.State(), subscriptions, nextHandle, topicsAtStop, paused, stoppedForLowDisk,
              stoppedForMaxBagSize, scheduler.Contents(), deferredSplitEvents, explainedFrom, closedAt, history)
    }

    /** With what record() changes besides. */
    ghost function Everything(): Whole
      reads this, bag, scheduler, scheduler.slots, losses, storage
      requires Valid()
    {
      Whole(State(), losses.State(), storage.uri)
    }

    constructor (config: R.Config, startPaused: bool, uri: string)
      ensures Valid() && Everything() == Whole(R.Initial(startPaused), L.EMPTY, uri) && this.config == config
      ensures fresh(bag) && fresh(scheduler) && fresh(scheduler.slots) && fresh(losses) && fresh(storage)
    {
      this.config := config;
      bag := new Bag();
      scheduler := new S.Scheduler();
      losses := new L.LossAccounting();
      storage := new StorageOptions(uri);
      clock, subscriptions, nextHandle, topicsAtStop := 0, map[], 0, [];
      paused, stoppedForLowDisk, stoppedForMaxBagSize, deferredSplitEvents := startPaused, false, false, [];
      explainedFrom, closedAt, history := 0, 0, [R.Moment(0, {}, startPaused)];
    }

    ghost method Observe()
      requires Valid()
      modifies this`history
      ensures Valid() && State() == R.Observe(old(State()))
    {
      history := history + [R.Moment(clock, subscriptions.Keys, paused)];
    }

    method RecordEvent(e: Event, fate: Fate)
      requires Valid()
      modifies bag
      ensures Valid() && State() == old(State()).(bag := R.RecordEvent(config, old(bag.State()), e, fate))
    {
      bag.WriteEvent(R.EventTopic(e.kind), R.EventType(e.kind), e, fate, config.accepts);
    }

    method EmitEvent(kind: Kind, action: Action, topic: string, record: bool, tick: R.Tick)
      requires Valid()
      modifies this`clock, bag
      ensures Valid() && State() == R.Emit(config, old(State()), kind, action, topic, record, tick)
    {
      clock := clock + tick.delay;
      if record { RecordEvent(Event(kind, action, clock, topic), tick.fate); }
    }

    method EmitSubscriptionChange(action: Action, topic: string, tick: R.Tick)
      requires Valid()
      modifies this`clock, this`history, bag
      ensures Valid() && State() == R.EmitSubscription(config, old(State()), action, topic, tick)
    {
      EmitEvent(Subscription, action, topic, config.recordSubscriptions, tick);
      Observe();
    }

    method EmitPauseEvent(action: Action, tick: R.Tick)
      requires Valid()
      modifies this`clock, this`history, bag
      ensures Valid() && State() == R.EmitPause(config, old(State()), action, tick)
    {
      EmitEvent(Pause, action, "", config.recordPauses, tick);
      Observe();
    }

    // ---- subscriptions -----------------------------------------------------------------------------------

    method SubscribeTopic(topic: string, typeName: string, a: R.Attempt) returns (r: R.SubscribeResult)
      requires Valid()
      modifies this, bag
      ensures Valid() && (State(), r) == R.SubscribeTopic(config, old(State()), topic, typeName, a)
    {
      if topic in subscriptions { return R.AlreadySubscribed; }
      if !a.nameOk { return R.Failed; }
      var ready := bag.EnsureChannel(topic, typeName, a.createOk, config.accepts);
      if !ready.Ready? { return R.Failed; }
      if !a.subscribeOk { return R.Failed; }
      subscriptions := subscriptions[topic := R.Sub(nextHandle, typeName)];
      nextHandle := nextHandle + 1;
      EmitSubscriptionChange(Subscribed, topic, a.tick);
      return R.Added;
    }

    method UnsubscribeTopic(topic: string, tick: R.Tick) returns (dropped: bool)
      requires Valid()
      modifies this, bag
      ensures Valid() && State() == R.UnsubscribeTopic(config, old(State()), topic, tick)
      ensures dropped == (topic in old(subscriptions))
    {
      if topic !in subscriptions { return false; }
      subscriptions := subscriptions - {topic};
      EmitSubscriptionChange(Unsubscribed, topic, tick);
      return true;
    }

    method SubscribedTopics() returns (topics: seq<string>)
      ensures topics == Names.Listing(subscriptions.Keys)
    {
      topics := Names.SortedKeys(subscriptions.Keys);
    }

    method SubscribeBatch(sel: R.Selection, graph: R.Graph, tries: nat -> R.Attempt)
      returns (subscribed: seq<string>, unavailable: seq<string>, added: seq<string>)
      requires Valid()
      modifies this, bag
      ensures Valid() && R.Batch(State(), subscribed, unavailable, added) == R.SubscribeBatch(config, old(State()), sel, graph, tries)
    {
      subscribed, unavailable, added := [], [], [];
      for i := 0 to |sel.topics|
        invariant Valid()
        invariant R.Batch(State(), subscribed, unavailable, added) == R.SubscribeFirst(config, old(State()), sel, graph, tries, i)
      {
        var topic := sel.topics[i];
        var typeName := if i < |sel.types| then sel.types[i] else "";
        if typeName == "" {
          var resolved := R.SingleType(graph, topic);
          if resolved.None? {
            unavailable := unavailable + [topic];
            continue;
          }
          typeName := resolved.value;
        }
        var result := SubscribeTopic(topic, typeName, tries(i));
        match result {
          case Added =>
            added := added + [topic];
            subscribed := subscribed + [topic];
          case AlreadySubscribed =>
            subscribed := subscribed + [topic];
          case Failed =>
            unavailable := unavailable + [topic];
        }
      }
    }

    method ReplaceTopics(desired: R.Selection, graph: R.Graph, drops: nat -> R.Tick, tries: nat -> R.Attempt)
      returns (subscribed: seq<string>, unavailable: seq<string>, added: seq<string>, unsubscribed: seq<string>)
      requires Valid()
      modifies this, bag
      ensures Valid() && (R.Batch(State(), subscribed, unavailable, added), unsubscribed)
                           == R.ReplaceTopics(config, old(State()), desired, graph, drops, tries)
    {
      var keep := R.NamesIn(desired.topics);
      var listed := SubscribedTopics();
      unsubscribed := [];
      for i := 0 to |listed|
        invariant Valid()
        invariant (State(), unsubscribed) == R.UnsubscribeFirst(config, old(State()), listed, keep, drops, i)
      {
        if listed[i] !in keep {
          var dropped := UnsubscribeTopic(listed[i], drops(i));
          if dropped { unsubscribed := unsubscribed + [listed[i]]; }
        }
      }
      subscribed, unavailable, added := SubscribeBatch(desired, graph, tries);
    }

    // ---- pause, split, stop, record --------------------------------------------------------------------------

    method PauseNow(tick: R.Tick)
      requires Valid()
      modifies this, bag
      ensures Valid() && State() == R.PauseNow(config, old(State()), tick)
    {
      if !paused {
        paused := true;
        EmitPauseEvent(Paused, tick);
      }
    }

    method ResumeNow(tick: R.Tick)
      requires Valid()
      modifies this, bag
      ensures Valid() && State() == R.ResumeNow(config, old(State()), tick)
    {
      if paused {
        paused := false;
        EmitPauseEvent(Resumed, tick);
      }
    }

    method OnRollover(delay: nat)
      requires Valid()
      modifies this
      ensures Valid() && State() == R.Rollover(config, old(State()), delay)
    {
      clock := clock + delay;
      if !config.recordSplits { return; }
      deferredSplitEvents := deferredSplitEvents + [Event(Split, SplitDone, clock, "")];
    }

    /** Bag::split with the rollover callback it makes on this thread. */
    method SplitNow(ok: bool, delay: nat) returns (done: bool)
      requires Valid()
      modifies this, bag
      ensures Valid() && State() == R.SplitNow(config, old(State()), ok, delay)
      ensures done == (old(bag.open) && ok)
    {
      done := bag.SplitFile(ok, config.accepts);
      if done { OnRollover(delay); }
    }

    method RecordDeferredEvents(fates: nat -> Fate)
      requires Valid()
      modifies this, bag
      ensures Valid() && State() == R.RecordDeferred(config, old(State()), fates)
    {
      hide R.RecordEvent;
      var events := deferredSplitEvents;
      deferredSplitEvents := [];
      for i := 0 to |events|
        invariant Valid()
        invariant State() == old(State()).(deferred := [], bag := R.WriteDeferred(config, old(bag.State()), events[..i], fates))
      {
        assert events[..i + 1][..i] == events[..i];
        RecordEvent(events[i], fates(i));
      }
      assert events[..|events|] == events;
    }

    /** stop() once the bag is closed: save the selection, drop every subscription and schedule. */
    method DropAll(delay: nat)
      requires Valid()
      modifies this, scheduler, scheduler.slots
      ensures Valid()
      ensures var s, now := old(State()), old(clock) + delay;
              State() == R.Observe(s.(clock := now, closedAt := now, topicsAtStop := Names.Listing(s.subs.Keys), subs := map[],
                                      scheduler := S.AfterClear(s.scheduler)))
    {
      hide S.AfterClear, Names.Listing;
      clock := clock + delay;
      topicsAtStop := SubscribedTopics();
      subscriptions := map[];
      scheduler.Clear();
      closedAt := clock;
      Observe();
    }

    method Stop(how: R.Stopping)
      requires Valid()
      modifies this, bag, scheduler, scheduler.slots
      ensures Valid() && State() == R.Stop(config, old(State()), how)
    {
      hide R.RecordDeferred, AfterFlush, S.AfterClear, Names.Listing;
      RecordDeferredEvents(how.fates);
      var closed := bag.CloseBag(config.accepts);
      if closed { DropAll(how.delay); }
    }

    method EmitInitialPauseState(tick: R.Tick)
      requires Valid()
      modifies this`clock, this`history, this`explainedFrom, bag
      ensures Valid() && State() == R.SayStart(config, old(State()), tick)
    {
      if paused { EmitEvent(Pause, Paused, "", config.recordPauses, tick); }
      explainedFrom := clock;
      Observe();
    }

    method Start(topics: seq<string>, graph: R.Graph, how: R.Opening, tries: nat -> R.Attempt)
      requires Valid()
      modifies this, bag
      ensures Valid() && State() == R.Start(config, old(State()), topics, graph, how, tries)
    {
      var ok := bag.OpenBag(config.maxCacheSize, how.writerOpens);
      if !ok { return; }
      clock := clock + how.delay;
      EmitInitialPauseState(how.tick);
      var subscribed, unavailable, added := SubscribeBatch(R.Selection(topics, []), graph, tries);
    }

    /** record() once its bag is open: restore the saved selection. */
    method Restore(graph: R.Graph, tries: nat -> R.Attempt)
      requires Valid()
      modifies this, bag
      ensures Valid()
      ensures State() == R.SubscribeBatch(config, old(State()).(topicsAtStop := []), R.Selection(old(topicsAtStop), []), graph, tries).state
    {
      var restore := topicsAtStop;
      topicsAtStop := [];
      var subscribed, unavailable, added := SubscribeBatch(R.Selection(restore, []), graph, tries);
    }

    /** record() from its open to the restored selection: a failed open changes nothing more. */
    method Reopen(how: R.Opening) returns (ok: bool)
      requires Valid()
      modifies this, bag
      ensures Valid() && ok == (!old(bag.open) && how.writerOpens)
      ensures State() == if ok then R.OpenBag(config, old(State()), how).(stoppedForLowDisk := false, stoppedForMaxBagSize := false)
                         else old(State())
    {
      ok := bag.OpenBag(config.maxCacheSize, how.writerOpens);
      if !ok { return; }
      clock := clock + how.delay;
      stoppedForLowDisk, stoppedForMaxBagSize := false, false;
      R.FlagsAside(config, old(State()), how);
      EmitInitialPauseState(how.tick);
    }

    /** record(): the path and the books change before the bag is known to open. */
    method Record(uri: string, taken: string -> bool, graph: R.Graph, how: R.Opening, tries: nat -> R.Attempt)
      returns (reply: Reply)
      requires Valid()
      modifies this, bag, losses, storage
      ensures Valid() && (Everything(), reply) == RecordAll(config, old(Everything()), uri, taken, graph, how, tries)
    {
      hide R.SubscribeBatch, FreePath;
      if bag.open { return AlreadyRecording; }
      var path := UnusedBagPath(if uri == "" then storage.uri else uri, taken);
      if path.None? { return NoFreePath; }
      storage.uri := path.value;
      losses.ResetAll();
      var ok := Reopen(how.(pathFree := true));
      if !ok { return OpenFailed; }
      Restore(graph, tries);
      return Recording;
    }

    method CheckFreeSpace(low: bool, tick: R.Tick, how: R.Stopping)
      requires Valid()
      modifies this, bag, scheduler, scheduler.slots
      ensures Valid() && State() == R.CheckFreeSpace(config, old(State()), low, tick, how)
    {
      if !bag.open { return; }
      if !low { return; }
      EmitEvent(LowDisk, Stopped, "", config.recordLowDisk, tick);
      stoppedForLowDisk := true;
      Stop(how);
    }

    method CheckBagSize(tooBig: bool, tick: R.Tick, how: R.Stopping)
      requires Valid()
      modifies this, bag, scheduler, scheduler.slots
      ensures Valid() && State() == R.CheckBagSize(config, old(State()), tooBig, tick, how)
    {
      if !bag.open { return; }
      if !tooBig { return; }
      EmitEvent(BagSizeLimit, Stopped, "", config.recordBagSize, tick);
      stoppedForMaxBagSize := true;
      Stop(how);
    }

    // ---- messages and schedules -------------------------------------------------------------------------------

    /** on_message up to the pause gate: a scheduled resume records the very message that fires it. */
    method FireDue(m: Message, tick: R.Tick, splitOk: bool, delay: nat)
      requires Valid()
      modifies this, bag, scheduler, scheduler.slots
      ensures Valid() && State() == R.FireDue(config, old(State()), m, tick, splitOk, delay)
    {
      var due := scheduler.TakeDue(R.ArrivalOf(m));
      if due.resume { ResumeNow(tick); }
      if due.split { var done := SplitNow(splitOk, delay); }
    }

    method OnMessage(m: Message, tick: R.Tick, splitOk: bool, delay: nat)
      requires Valid()
      modifies this, bag, scheduler, scheduler.slots
      ensures Valid() && State() == R.OnMessage(config, old(State()), m, tick, splitOk, delay)
    {
      FireDue(m, tick, splitOk, delay);
      if !paused { bag.Write(m, false, config.accepts); }
    }

    method JudgeRequest(atNs: int, mode: int, trackingTopic: string) returns (v: R.Verdict)
      requires Valid()
      ensures v == R.Judge(State(), atNs, mode, trackingTopic)
    {
      if atNs == 0 { return R.RunNow; }
      var parsed := S.ModeFrom(mode);
      if parsed.None? { return R.InvalidMode; }
      if trackingTopic != "" {
        var current := SubscribedTopics();
        if trackingTopic !in current { return R.InvalidTopic; }
      }
      if !parsed.value.NodeTime? { return R.AtMessage(parsed.value); }
      var delay := atNs - clock;
      return if delay <= 0 then R.RunNow else R.AtNode(delay);
    }

    /** schedule_or_run once the request is judged. */
    method Place(kind: S.Kind, atNs: int, v: R.Verdict, trackingTopic: string)
      requires Valid()
      modifies scheduler, scheduler.slots
      ensures Valid() && State() == R.Schedule(old(State()), kind, atNs, v, trackingTopic)
    {
      if v.AtMessage? { scheduler.ScheduleAtMessageTime(kind, atNs, v.mode, trackingTopic); }
      else if v.AtNode? { scheduler.ScheduleAtNodeTime(kind, clock, v.delay); }
    }

    method HandleResume(atNs: int, mode: int, trackingTopic: string, tick: R.Tick) returns (ok: bool)
      requires Valid()
      modifies this, bag, scheduler, scheduler.slots
      ensures Valid() && State() == R.Exec(config, old(State()), R.CResumeAt(atNs, mode, trackingTopic, tick))
      ensures ok <==> old(bag.open) && var v := R.Judge(old(State()), atNs, mode, trackingTopic); !v.InvalidMode? && !v.InvalidTopic?
    {
      if !bag.open { return false; }
      var v := JudgeRequest(atNs, mode, trackingTopic);
      if v.RunNow? { ResumeNow(tick); } else { Place(S.Resume, atNs, v, trackingTopic); }
      ok := !v.InvalidMode? && !v.InvalidTopic?;
    }

    method HandleSplitBagfile(atNs: int, mode: int, trackingTopic: string, splitOk: bool, delay: nat) returns (ok: bool)
      requires Valid()
      modifies this, bag, scheduler, scheduler.slots
      ensures Valid() && State() == R.Exec(config, old(State()), R.CSplitAt(atNs, mode, trackingTopic, splitOk, delay))
      ensures ok <==> old(bag.open) && var v := R.Judge(old(State()), atNs, mode, trackingTopic);
                      !v.InvalidMode? && !v.InvalidTopic? && (v.RunNow? ==> splitOk)
    {
      if !bag.open { return false; }
      var v := JudgeRequest(atNs, mode, trackingTopic);
      ok := !v.InvalidMode? && !v.InvalidTopic?;
      if v.RunNow? { ok := SplitNow(splitOk, delay); } else { Place(S.Split, atNs, v, trackingTopic); }
    }
  }
}
