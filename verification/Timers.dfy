/** The scheduler's whole operations are the uninterrupted steps of the service group, so what every run of steps
  * keeps holds of the object and of the recorder that owns it
  * (packages/rosbag2_dynamic_recorder/src/scheduler.cpp). */
module Timers {
  import opened Options
  import opened Scheduling

  /** `w` with the group idle again, the operation's happenings noted. */
  function Over(w: World, state: State, more: seq<Happening>): World {
    w.(state := state, group := Ready, history := w.history + more)
  }

  lemma {:induction false} OneMoreAct(w: World, acts: seq<Act>, a: Act)
    requires Runs(w, acts) && Enabled(Run(w, acts), a)
    ensures Runs(w, acts + [a]) && Run(w, acts + [a]) == Step(Run(w, acts), a)
    decreases |acts|
  {
    hide Step;
    var all := acts + [a];
    if acts == [] {
      assert all[1..] == [] && Runs(Step(w, a), all[1..]);
    } else {
      OneMoreAct(Step(w, acts[0]), acts[1..], a);
      assert all[0] == acts[0] && all[1..] == acts[1..] + [a];
    }
  }

  lemma StepReaches(w: World, a: Act)
    requires Reachable(w) && Enabled(w, a)
    ensures Reachable(Step(w, a))
  {
    var acts: seq<Act> :| Runs(START, acts) && Run(START, acts) == w;
    OneMoreAct(START, acts, a);
  }

  // ---- each operation, alone -----------------------------------------------------------------------------------

  /** A schedule on node time, its three steps in a row. */
  lemma NodeTimeAlone(w: World, kind: Kind, atNs: int)
    requires w.group.Ready?
    ensures var scheduled := Scheduled(kind, atNs, NodeTime, "");
            && Enabled(w, BeginSchedule(scheduled))
            && var begun := Step(w, BeginSchedule(scheduled));
               && Enabled(begun, GroupStep) && Enabled(Step(begun, GroupStep), GroupStep)
               && Step(Step(begun, GroupStep), GroupStep) == Over(w, AfterNodeTime(w.state, kind, atNs), [Set(scheduled)])
  {
  }

  /** A schedule on a message's time, its two steps in a row. */
  lemma MessageTimeAlone(w: World, kind: Kind, atNs: int, mode: Mode, topic: string)
    requires w.group.Ready? && !kind.Record? && !mode.NodeTime?
    ensures var scheduled := Scheduled(kind, atNs, mode, topic);
            && Enabled(w, BeginSchedule(scheduled))
            && var begun := Step(w, BeginSchedule(scheduled));
               && Enabled(begun, GroupStep)
               && Step(begun, GroupStep) == Over(w, AfterMessageTime(w.state, kind, atNs, mode, topic), [Set(scheduled)])
  {
  }

  lemma TimerAlone(w: World, kind: Kind)
    requires Reachable(w) && w.group.Ready? && TimerLive(w.state, kind)
    ensures SlotOf(w.state, kind).scheduled.Some?
    ensures Enabled(w, BeginTimer(kind))
    ensures var begun := Step(w, BeginTimer(kind));
            && Enabled(begun, GroupStep)
            && Step(begun, GroupStep) ==
               Over(w, AfterTimer(w.state, kind), [Fired(SlotOf(w.state, kind).scheduled.value, ByTimer)])
  {
    NodeTimeHasItsTimer(w, kind);
  }

  lemma ClearAlone(w: World)
    requires w.group.Ready?
    ensures Enabled(w, BeginClear) && Enabled(Step(w, BeginClear), GroupStep)
    ensures Step(Step(w, BeginClear), GroupStep) == Over(w, AfterClear(w.state), [Cleared])
  {
  }

  /** A message that meets no other: it reads the flag and, if that is set, takes the lock at once. */
  lemma MessageAlone(w: World, m: Arrival)
    requires w.group.Ready? && w.waiting == []
    ensures var peeked := Step(w, Peek(m));
            var (after, due) := AfterTakeDue(w.state, m);
            if w.state.messageTimePending then
              Enabled(peeked, Take(0))
              && Step(peeked, Take(0)) == Over(w, after, Fires(w.state.resume.scheduled, due.resume, m)
                                                         + Fires(w.state.split.scheduled, due.split, m))
            else peeked == Over(w, after, [])
  {
    if w.state.messageTimePending {
      var peeked := Step(w, Peek(m));
      assert peeked.waiting[..0] + peeked.waiting[1..] == [];
    }
  }

  // ---- what the object's states are --------------------------------------------------------------------------------

  /** Some run of the interleaved scheduler rests in this state with this history. */
  ghost predicate Hosted(s: State, history: seq<Happening>) { Reachable(World(s, Ready, [], history)) }

  /** Some run rests in this state. */
  ghost predicate Sound(s: State) { exists history :: Hosted(s, history) }

  lemma FreshIsSound()
    ensures Hosted(EMPTY, [])
  {
    var none: seq<Act> := [];
    assert Runs(START, none) && Run(START, none) == START;
  }

  lemma NodeTimeHosted(s: State, history: seq<Happening>, kind: Kind, atNs: int)
    requires Hosted(s, history)
    ensures Hosted(AfterNodeTime(s, kind, atNs), history + [Set(Scheduled(kind, atNs, NodeTime, ""))])
  {
    var w := World(s, Ready, [], history);
    NodeTimeAlone(w, kind, atNs);
    hide Step, Enabled, AfterNodeTime;
    var begun := Step(w, BeginSchedule(Scheduled(kind, atNs, NodeTime, "")));
    StepReaches(w, BeginSchedule(Scheduled(kind, atNs, NodeTime, "")));
    StepReaches(begun, GroupStep);
    StepReaches(Step(begun, GroupStep), GroupStep);
  }

  lemma MessageTimeHosted(s: State, history: seq<Happening>, kind: Kind, atNs: int, mode: Mode, topic: string)
    requires Hosted(s, history) && !kind.Record? && !mode.NodeTime?
    ensures Hosted(AfterMessageTime(s, kind, atNs, mode, topic), history + [Set(Scheduled(kind, atNs, mode, topic))])
  {
    var w := World(s, Ready, [], history);
    MessageTimeAlone(w, kind, atNs, mode, topic);
    hide Step, Enabled, AfterMessageTime;
    StepReaches(w, BeginSchedule(Scheduled(kind, atNs, mode, topic)));
    StepReaches(Step(w, BeginSchedule(Scheduled(kind, atNs, mode, topic))), GroupStep);
  }

  lemma TimerHosted(s: State, history: seq<Happening>, kind: Kind)
    requires Hosted(s, history) && TimerLive(s, kind)
    ensures SlotOf(s, kind).scheduled.Some?
    ensures Hosted(AfterTimer(s, kind), history + [Fired(SlotOf(s, kind).scheduled.value, ByTimer)])
  {
    var w := World(s, Ready, [], history);
    TimerAlone(w, kind);
    hide Step, Enabled, AfterTimer;
    StepReaches(w, BeginTimer(kind));
    StepReaches(Step(w, BeginTimer(kind)), GroupStep);
  }

  lemma ClearHosted(s: State, history: seq<Happening>)
    requires Hosted(s, history)
    ensures Hosted(AfterClear(s), history + [Cleared])
  {
    var w := World(s, Ready, [], history);
    ClearAlone(w);
    hide Step, Enabled, AfterClear;
    StepReaches(w, BeginClear);
    StepReaches(Step(w, BeginClear), GroupStep);
  }

  lemma MessageHosted(s: State, history: seq<Happening>, m: Arrival)
    requires Hosted(s, history)
    ensures var (after, due) := AfterTakeDue(s, m);
            Hosted(after, history + Fires(s.resume.scheduled, due.resume, m) + Fires(s.split.scheduled, due.split, m))
  {
    var w := World(s, Ready, [], history);
    var (after, due) := AfterTakeDue(s, m);
    MessageAlone(w, m);
    StepReaches(w, Peek(m));
    assert history + (Fires(s.resume.scheduled, due.resume, m) + Fires(s.split.scheduled, due.split, m))
        == history + Fires(s.resume.scheduled, due.resume, m) + Fires(s.split.scheduled, due.split, m);
    if s.messageTimePending { StepReaches(Step(w, Peek(m)), Take(0)); }
    else { assert history + [] == history; }
    hide Step, Enabled, AfterTakeDue, Fires;
  }

  // ---- so a sound state ------------------------------------------------------------------------------------------------

  /** A schedule on a message's time is due on a message of its topic, or of any if it names none, whose stamp on the
    * schedule's clock was supplied and has reached its time. */
  predicate DueOn(pending: Option<Scheduled>, m: Arrival) {
    && pending.Some?
    && (pending.value.trackingTopic == m.topic || pending.value.trackingTopic == "")
    && match pending.value.mode
       case NodeTime => false
       case PublishTime => m.sendNs != 0 && pending.value.atNs <= m.sendNs
       case ReceiveTime => m.recvNs != 0 && pending.value.atNs <= m.recvNs
  }

  /** A schedule on the node's clock. */
  predicate OnClock(pending: Option<Scheduled>) { pending.Some? && pending.value.mode == NodeTime }

  /** Between operations a kind's timer is live exactly when its slot holds a node-time schedule, and then it was made
    * for that very schedule. */
  lemma TimerIsForItsSlot(s: State, kind: Kind)
    requires Sound(s)
    ensures TimerLive(s, kind) <==> OnClock(SlotOf(s, kind).scheduled)
    ensures TimerLive(s, kind) ==> SlotOf(s, kind).scheduled == Some(s.armed[SlotOf(s, kind).timer.value])
  {
    var history :| Hosted(s, history);
    NodeTimeHasItsTimer(World(s, Ready, [], history), kind);
  }

  /** A message takes exactly the schedules due on it: those slots empty, and no other slot changes. */
  lemma TakesExactlyTheDue(s: State, m: Arrival)
    requires Sound(s)
    ensures var (after, due) := AfterTakeDue(s, m);
            && (due.resume <==> DueOn(s.resume.scheduled, m)) && (due.split <==> DueOn(s.split.scheduled, m))
            && after.resume.scheduled == (if due.resume then None else s.resume.scheduled)
            && after.split.scheduled == (if due.split then None else s.split.scheduled)
            && after.record == s.record
  {
    var history :| Hosted(s, history);
    FastPathRefinesSlow(World(s, Ready, [], history), m);
  }

  /** In every run of steps, interleaved in any way, a message that takes the lock fires exactly the live schedules
    * due on it. */
  lemma FiresExactlyTheDue(w: World, i: nat)
    requires Reachable(w) && i < |w.waiting|
    ensures var m, next := w.waiting[i], Step(w, Take(i)).history;
            && w.history <= next
            && forall p: Scheduled :: Fired(p, ByMessage(m)) in next[|w.history|..] <==>
                 (Live(w.history, Resume) == Some(p) || Live(w.history, Split) == Some(p)) && DueOn(Some(p), m)
  {
    ReachableInv(w);
    assert SlotInv(w, Resume) && SlotInv(w, Split);
    var m := w.waiting[i];
    var (after, due) := TakeLocked(w.state, m);
    var fired := Fires(w.state.resume.scheduled, due.resume, m) + Fires(w.state.split.scheduled, due.split, m);
    assert Step(w, Take(i)).history == w.history + fired;
    hide Live;
  }

  /** A schedule replaces whatever its kind had pending, on either clock, and touches no other kind's. */
  lemma SchedulesExactly(s: State, kind: Kind, k: Kind, atNs: int, mode: Mode, topic: string)
    ensures SlotOf(AfterNodeTime(s, kind, atNs), k).scheduled ==
            if k == kind then Some(Scheduled(kind, atNs, NodeTime, "")) else SlotOf(s, k).scheduled
    ensures SlotOf(AfterMessageTime(s, kind, atNs, mode, topic), k).scheduled ==
            if k == kind then Some(Scheduled(kind, atNs, mode, topic)) else SlotOf(s, k).scheduled
  {
  }
}
