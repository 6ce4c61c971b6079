/** Scheduled resumes, splits and records (packages/rosbag2_dynamic_recorder/src/scheduler.cpp). */
module Scheduling {
  import opened Options

  datatype Kind = Resume | Split | Record

  datatype Mode = NodeTime | PublishTime | ReceiveTime

  datatype Scheduled = Scheduled(kind: Kind, atNs: int, mode: Mode, trackingTopic: string)

  /** `timer` is the last timer made for the kind, live or cancelled. */
  datatype Slot = Slot(timer: Option<nat>, scheduled: Option<Scheduled>)

  /** `armed` holds the timers that are not cancelled, each with the schedule it was made for. */
  datatype State = State(resume: Slot, split: Slot, record: Slot, messageTimePending: bool,
                         armed: map<nat, Scheduled>, nextTimer: nat)

  const EMPTY: State := State(Slot(None, None), Slot(None, None), Slot(None, None), false, map[], 0)

  /** What one message brings: its topic and its two stamps. */
  datatype Arrival = Arrival(topic: string, sendNs: int, recvNs: int)

  datatype Due = Due(resume: bool, split: bool)

  function SlotOf(s: State, kind: Kind): Slot {
    match kind case Resume => s.resume case Split => s.split case Record => s.record
  }

  function WithSlot(s: State, kind: Kind, slot: Slot): State {
    match kind
    case Resume => s.(resume := slot)
    case Split => s.(split := slot)
    case Record => s.(record := slot)
  }

  function ModeFrom(value: int): Option<Mode> {
    if value == 0 then Some(NodeTime) else if value == 1 then Some(PublishTime)
    else if value == 2 then Some(ReceiveTime) else None
  }

  predicate FiresOnMessages(scheduled: Option<Scheduled>) {
    scheduled.Some? && !scheduled.value.mode.NodeTime?
  }

  predicate IsDue(scheduled: Option<Scheduled>, m: Arrival) {
    if !FiresOnMessages(scheduled) then false
    else if scheduled.value.trackingTopic != "" && scheduled.value.trackingTopic != m.topic then false
    else
      var stamp := if scheduled.value.mode.PublishTime? then m.sendNs else m.recvNs;
      stamp != 0 && stamp >= scheduled.value.atNs
  }

  // ---- single locked or unlocked actions -----------------------------------------------------------

  function Refresh(s: State): State {
    s.(messageTimePending := FiresOnMessages(s.resume.scheduled) || FiresOnMessages(s.split.scheduled))
  }

  function CancelTimer(s: State, kind: Kind): State {
    var timer := SlotOf(s, kind).timer;
    if timer.Some? then s.(armed := s.armed - {timer.value}) else s
  }

  /** The locked half of replace(). */
  function Put(s: State, kind: Kind, scheduled: Option<Scheduled>): State {
    Refresh(WithSlot(s, kind, SlotOf(s, kind).(scheduled := scheduled)))
  }

  /** schedule_at_node_time once the slot is set: make the timer. */
  function Arm(s: State, kind: Kind, scheduled: Scheduled): State {
    WithSlot(s, kind, SlotOf(s, kind).(timer := Some(s.nextTimer)))
      .(armed := s.armed[s.nextTimer := scheduled], nextTimer := s.nextTimer + 1)
  }

  /** The timer callback's locked half: the slot empties and the flag is left as it is. */
  function Empty(s: State, kind: Kind): State {
    WithSlot(s, kind, SlotOf(s, kind).(scheduled := None))
  }

  /** clear()'s locked half. */
  function Wipe(s: State): State {
    Refresh(Empty(Empty(s, Resume), Split))
  }

  /** take_due with no early return. */
  function TakeLocked(s: State, m: Arrival): (State, Due) {
    var due := Due(IsDue(s.resume.scheduled, m), IsDue(s.split.scheduled, m));
    var a := if due.resume then Empty(s, Resume) else s;
    var b := if due.split then Empty(a, Split) else a;
    (Refresh(b), due)
  }

  // ---- whole operations --------------------------------------------------------------------------------

  function AfterReplace(s: State, kind: Kind, scheduled: Scheduled): State {
    Put(CancelTimer(s, kind), kind, Some(scheduled))
  }

  function AfterNodeTime(s: State, kind: Kind, atNs: int): State {
    var scheduled := Scheduled(kind, atNs, NodeTime, "");
    Arm(AfterReplace(s, kind, scheduled), kind, scheduled)
  }

  function AfterMessageTime(s: State, kind: Kind, atNs: int, mode: Mode, topic: string): State {
    AfterReplace(s, kind, Scheduled(kind, atNs, mode, topic))
  }

  /** A timer of `kind` runs: it cancels itself and empties the slot before its action. */
  function AfterTimer(s: State, kind: Kind): State {
    Empty(CancelTimer(s, kind), kind)
  }

  predicate TimerLive(s: State, kind: Kind) {
    SlotOf(s, kind).timer.Some? && SlotOf(s, kind).timer.value in s.armed
  }

  function AfterTakeDue(s: State, m: Arrival): (State, Due) {
    if !s.messageTimePending then (s, Due(false, false)) else TakeLocked(s, m)
  }

  function AfterClear(s: State): State {
    Wipe(CancelTimer(CancelTimer(s, Resume), Split))
  }

  function OneOf(scheduled: Option<Scheduled>): seq<Scheduled> {
    if scheduled.Some? then [scheduled.value] else []
  }

  function PendingList(s: State): seq<Scheduled> {
    OneOf(s.resume.scheduled) + OneOf(s.split.scheduled) + OneOf(s.record.scheduled)
  }

  // ---- the object ----------------------------------------------------------------------------------------

  function Index(kind: Kind): nat {
    match kind case Resume => 0 case Split => 1 case Record => 2
  }

  class Scheduler {
    const slots: array<Slot>
    var messageTimePending: bool
    var armed: map<nat, Scheduled>
    var nextTimer: nat

    ghost predicate Valid()
      reads this
    {
      slots.Length == 3
    }

    ghost function Contents(): State
      reads this, slots
      requires Valid()
    {
      State(slots[0], slots[1], slots[2], messageTimePending, armed, nextTimer)
    }

    constructor ()
      ensures Valid() && Contents() == EMPTY && fresh(slots)
    {
      slots := new Slot[3](_ => Slot(None, None));
      messageTimePending, armed, nextTimer := false, map[], 0;
    }

    method UpdateMessageTimePending()
      requires Valid()
      modifies this
      ensures Valid() && Contents() == Refresh(old(Contents()))
    {
      messageTimePending := FiresOnMessages(slots[0].scheduled) || FiresOnMessages(slots[1].scheduled);
    }

    method Cancel(kind: Kind)
      requires Valid()
      modifies this
      ensures Valid() && Contents() == CancelTimer(old(Contents()), kind)
    {
      if slots[Index(kind)].timer.Some? {
        armed := armed - {slots[Index(kind)].timer.value};
      }
    }

    method Replace(kind: Kind, scheduled: Scheduled)
      requires Valid()
      modifies this, slots
      ensures Valid() && Contents() == AfterReplace(old(Contents()), kind, scheduled)
    {
      Cancel(kind);
      slots[Index(kind)] := slots[Index(kind)].(scheduled := Some(scheduled));
      UpdateMessageTimePending();
    }

    method ScheduleAtNodeTime(kind: Kind, now: int, delay: nat)
      requires Valid()
      modifies this, slots
      ensures Valid() && Contents() == AfterNodeTime(old(Contents()), kind, now + delay)
    {
      var scheduled := Scheduled(kind, now + delay, NodeTime, "");
      Replace(kind, scheduled);
      slots[Index(kind)] := slots[Index(kind)].(timer := Some(nextTimer));
      armed := armed[nextTimer := scheduled];
      nextTimer := nextTimer + 1;
    }

    method ScheduleAtMessageTime(kind: Kind, atNs: int, mode: Mode, trackingTopic: string)
      requires Valid()
      modifies this, slots
      ensures Valid() && Contents() == AfterMessageTime(old(Contents()), kind, atNs, mode, trackingTopic)
    {
      Replace(kind, Scheduled(kind, atNs, mode, trackingTopic));
    }

    method OnTimer(kind: Kind)
      requires Valid() && TimerLive(Contents(), kind)
      modifies this, slots
      ensures Valid() && Contents() == AfterTimer(old(Contents()), kind)
    {
      Cancel(kind);
      slots[Index(kind)] := slots[Index(kind)].(scheduled := None);
    }

    method Pending() returns (out: seq<Scheduled>)
      requires Valid()
      ensures out == PendingList(Contents())
    {
      out := [];
      for i := 0 to 3
        invariant out == (if i > 0 then OneOf(slots[0].scheduled) else []) + (if i > 1 then OneOf(slots[1].scheduled) else [])
                       + (if i > 2 then OneOf(slots[2].scheduled) else [])
      {
        if slots[i].scheduled.Some? { out := out + [slots[i].scheduled.value]; }
      }
    }

    method Take(kind: Kind, m: Arrival) returns (due: bool)
      requires Valid()
      modifies slots
      ensures Valid() && due == IsDue(old(SlotOf(Contents(), kind)).scheduled, m)
      ensures Contents() == if due then Empty(old(Contents()), kind) else old(Contents())
    {
      due := IsDue(slots[Index(kind)].scheduled, m);
      if due { slots[Index(kind)] := slots[Index(kind)].(scheduled := None); }
    }

    method TakeDue(m: Arrival) returns (due: Due)
      requires Valid()
      modifies this, slots
      ensures Valid() && (Contents(), due) == AfterTakeDue(old(Contents()), m)
    {
      if !messageTimePending { return Due(false, false); }
      var resume := Take(Resume, m);
      var split := Take(Split, m);
      UpdateMessageTimePending();
      due := Due(resume, split);
    }

    method Clear()
      requires Valid()
      modifies this, slots
      ensures Valid() && Contents() == AfterClear(old(Contents()))
    {
      Cancel(Resume);
      Cancel(Split);
      slots[0] := slots[0].(scheduled := None);
      slots[1] := slots[1].(scheduled := None);
      UpdateMessageTimePending();
    }
  }

  // ---- every interleaving of the service group with message callbacks ---------------------------------------

  /** Where the service group is: services and timers run one at a time, messages beside them. */
  datatype Group =
    | Ready
    | Replacing(scheduled: Scheduled, timed: bool)  // old timer cancelled, about to set the slot
    | Arming(scheduled: Scheduled)                  // slot set, about to make the timer
    | Firing(kind: Kind)                            // timer running: cancelled itself, about to empty the slot
    | Clearing                                      // timers cancelled, about to empty the slots

  datatype Cause = ByTimer | ByMessage(m: Arrival)

  datatype Happening = Set(scheduled: Scheduled) | Fired(scheduled: Scheduled, cause: Cause) | Cleared

  /** `waiting` holds the messages that saw the flag set and have yet to take the lock. */
  datatype World = World(state: State, group: Group, waiting: seq<Arrival>, history: seq<Happening>)

  const START: World := World(EMPTY, Ready, [], [])

  datatype Act =
    | BeginSchedule(scheduled: Scheduled)  // schedule_at_*: cancel the old timer
    | BeginClear
    | BeginTimer(kind: Kind)
    | GroupStep                            // the service group's next step
    | Peek(m: Arrival)                     // a message reads the flag
    | Take(i: nat)                         // a waiting message takes the lock

  predicate Enabled(w: World, a: Act) {
    match a
    // A record is only ever scheduled on node time.
    case BeginSchedule(scheduled) => w.group.Ready? && (scheduled.kind.Record? ==> scheduled.mode.NodeTime?)
    case BeginClear => w.group.Ready?
    case BeginTimer(kind) => w.group.Ready? && TimerLive(w.state, kind)
    case GroupStep => !w.group.Ready?
    case Peek(_) => true
    case Take(i) => i < |w.waiting|
  }

  function Fires(scheduled: Option<Scheduled>, due: bool, m: Arrival): seq<Happening> {
    if due && scheduled.Some? then [Fired(scheduled.value, ByMessage(m))] else []
  }

  function Step(w: World, a: Act): World
    requires Enabled(w, a)
  {
    match a
    case BeginSchedule(scheduled) =>
      w.(state := CancelTimer(w.state, scheduled.kind), group := Replacing(scheduled, scheduled.mode.NodeTime?))
    case BeginClear => w.(state := CancelTimer(CancelTimer(w.state, Resume), Split), group := Clearing)
    case BeginTimer(kind) => w.(state := CancelTimer(w.state, kind), group := Firing(kind))
    case GroupStep => AfterGroup(w)
    case Peek(m) => if w.state.messageTimePending then w.(waiting := w.waiting + [m]) else w
    case Take(i) =>
      var m := w.waiting[i];
      var (after, due) := TakeLocked(w.state, m);
      w.(state := after, waiting := w.waiting[..i] + w.waiting[i + 1..],
         history := w.history + Fires(w.state.resume.scheduled, due.resume, m) + Fires(w.state.split.scheduled, due.split, m))
  }

  function AfterGroup(w: World): World {
    match w.group
    case Ready => w
    case Replacing(scheduled, timed) =>
      w.(state := Put(w.state, scheduled.kind, Some(scheduled)), history := w.history + [Set(scheduled)],
         group := if timed then Arming(scheduled) else Ready)
    case Arming(scheduled) => w.(state := Arm(w.state, scheduled.kind, scheduled), group := Ready)
    case Firing(kind) =>
      var was := SlotOf(w.state, kind).scheduled;
      w.(state := Empty(w.state, kind), group := Ready,
         history := w.history + if was.Some? then [Fired(was.value, ByTimer)] else [])
    case Clearing => w.(state := Wipe(w.state), group := Ready, history := w.history + [Cleared])
  }

  // ---- the reference: what is live, read off the history -----------------------------------------------------

  /** The schedule of `kind` that is set and neither fired, replaced nor cleared since. */
  function Live(history: seq<Happening>, kind: Kind): Option<Scheduled> {
    if history == [] then None
    else
      var before := Live(history[..|history| - 1], kind);
      match history[|history| - 1]
      case Set(scheduled) => if scheduled.kind == kind then Some(scheduled) else before
      case Fired(scheduled, _) => if scheduled.kind == kind then None else before
      case Cleared => if kind.Record? then before else None
  }

  /** The firing at `i` is of the live schedule of its kind, and its clock really reached it. */
  ghost predicate Justified(history: seq<Happening>, i: nat)
    requires i < |history|
  {
    history[i].Fired? ==>
      var scheduled := history[i].scheduled;
      && Live(history[..i], scheduled.kind) == Some(scheduled)
      && match history[i].cause
         case ByTimer => scheduled.mode.NodeTime?
         case ByMessage(m) =>
           && !scheduled.kind.Record? && !scheduled.mode.NodeTime?
           && (scheduled.trackingTopic == "" || scheduled.trackingTopic == m.topic)
           && var stamp := if scheduled.mode.PublishTime? then m.sendNs else m.recvNs;
              stamp != 0 && stamp >= scheduled.atNs
  }

  // ---- the invariant -------------------------------------------------------------------------------------------

  predicate SlotInv(w: World, kind: Kind) {
    var slot := SlotOf(w.state, kind);
    && slot.scheduled == Live(w.history, kind)
    && (slot.scheduled.Some? ==> slot.scheduled.value.kind == kind)
    // A live timer is for the very schedule in the slot.
    && (TimerLive(w.state, kind) ==> slot.scheduled == Some(w.state.armed[slot.timer.value]) && slot.scheduled.value.mode.NodeTime?)
    // A node-time schedule has a live timer, except in the middle of an operation on it.
    && (slot.scheduled.Some? && slot.scheduled.value.mode.NodeTime? && !TimerLive(w.state, kind) ==> Touching(w.group, kind))
    && (kind.Record? && slot.scheduled.Some? ==> slot.scheduled.value.mode.NodeTime?)
  }

  predicate Touching(g: Group, kind: Kind) {
    match g
    case Ready => false
    case Replacing(scheduled, _) => scheduled.kind == kind
    case Arming(scheduled) => scheduled.kind == kind
    case Firing(k) => k == kind
    case Clearing => !kind.Record?
  }

  predicate GroupInv(w: World) {
    match w.group
    case Ready => true
    case Replacing(scheduled, timed) =>
      !TimerLive(w.state, scheduled.kind) && timed == scheduled.mode.NodeTime? && (scheduled.kind.Record? ==> timed)
    case Arming(scheduled) =>
      !TimerLive(w.state, scheduled.kind) && scheduled.mode.NodeTime? && SlotOf(w.state, scheduled.kind).scheduled == Some(scheduled)
    case Firing(kind) =>
      var slot := SlotOf(w.state, kind);
      !TimerLive(w.state, kind) && slot.scheduled.Some? && slot.scheduled.value.mode.NodeTime?
    case Clearing => !TimerLive(w.state, Resume) && !TimerLive(w.state, Split)
  }

  /** Timers belong to one slot each and are numbered as made. */
  ghost predicate TimersInv(s: State) {
    && (forall t | t in s.armed :: t < s.nextTimer)
    && (forall k: Kind :: SlotOf(s, k).timer.Some? ==> SlotOf(s, k).timer.value < s.nextTimer)
    && (forall j: Kind, k: Kind :: j != k && SlotOf(s, j).timer.Some? && SlotOf(s, k).timer.Some? ==>
          SlotOf(s, j).timer != SlotOf(s, k).timer)
    && (forall t | t in s.armed :: exists k: Kind :: SlotOf(s, k).timer == Some(t))
  }

  /** The cached flag is exactly "a resume or split waits for a message". */
  predicate FlagExact(s: State) {
    s.messageTimePending <==> FiresOnMessages(s.resume.scheduled) || FiresOnMessages(s.split.scheduled)
  }

  ghost predicate Inv(w: World) {
    && AllSlots(w) && GroupInv(w) && TimersInv(w.state) && FlagExact(w.state)
    && AllJustified(w.history)
  }

  predicate AllSlots(w: World) { SlotInv(w, Resume) && SlotInv(w, Split) && SlotInv(w, Record) }

  ghost predicate AllJustified(history: seq<Happening>) {
    forall i | 0 <= i < |history| :: Justified(history, i)
  }

  function LiveStep(before: Option<Scheduled>, h: Happening, kind: Kind): Option<Scheduled> {
    match h
    case Set(scheduled) => if scheduled.kind == kind then Some(scheduled) else before
    case Fired(scheduled, _) => if scheduled.kind == kind then None else before
    case Cleared => if kind.Record? then before else None
  }

  lemma LiveAppend(history: seq<Happening>, h: Happening, kind: Kind)
    ensures Live(history + [h], kind) == LiveStep(Live(history, kind), h, kind)
  {
    assert (history + [h])[..|history|] == history;
  }

  /** Why a firing appended to `history` is justified. */
  predicate MayFire(live: Option<Scheduled>, scheduled: Scheduled, cause: Cause) {
    live == Some(scheduled) &&
    match cause
    case ByTimer => scheduled.mode.NodeTime?
    case ByMessage(m) => !scheduled.kind.Record? && IsDue(Some(scheduled), m)
  }

  lemma JustifiedAppend(history: seq<Happening>, h: Happening)
    requires AllJustified(history)
    requires h.Fired? ==> MayFire(Live(history, h.scheduled.kind), h.scheduled, h.cause)
    ensures AllJustified(history + [h])
  {
    var after := history + [h];
    forall i | 0 <= i < |after| ensures Justified(after, i) {
      if i < |history| {
        assert Justified(history, i) && after[..i] == history[..i];
      } else {
        assert after[..i] == history;
      }
    }
  }

  lemma CancelKeepsTimers(s: State, kind: Kind)
    requires TimersInv(s)
    ensures TimersInv(CancelTimer(s, kind)) && !TimerLive(CancelTimer(s, kind), kind)
    ensures forall k: Kind | k != kind :: TimerLive(CancelTimer(s, kind), k) == TimerLive(s, k)
  {
    forall k: Kind ensures SlotOf(CancelTimer(s, kind), k) == SlotOf(s, k) {}
  }

  /** Changing which schedule a slot holds leaves the timers alone. */
  lemma PutKeepsTimers(s: State, kind: Kind, scheduled: Option<Scheduled>)
    requires TimersInv(s)
    ensures TimersInv(WithSlot(s, kind, SlotOf(s, kind).(scheduled := scheduled)))
    ensures TimersInv(Put(s, kind, scheduled))
  {
    forall k: Kind ensures SlotOf(Put(s, kind, scheduled), k).timer == SlotOf(s, k).timer {}
    forall k: Kind ensures SlotOf(WithSlot(s, kind, SlotOf(s, kind).(scheduled := scheduled)), k).timer == SlotOf(s, k).timer {}
  }

  lemma ArmKeepsTimers(s: State, kind: Kind, scheduled: Scheduled)
    requires TimersInv(s) && !TimerLive(s, kind)
    ensures TimersInv(Arm(s, kind, scheduled))
  {
    var after := Arm(s, kind, scheduled);
    forall k: Kind ensures SlotOf(after, k).timer == if k == kind then Some(s.nextTimer) else SlotOf(s, k).timer {}
    forall t | t in after.armed ensures exists k: Kind :: SlotOf(after, k).timer == Some(t) {
      if t == s.nextTimer {
        assert SlotOf(after, kind).timer == Some(t);
      } else {
        var k: Kind :| SlotOf(s, k).timer == Some(t);
        assert SlotOf(after, k).timer == Some(t);
      }
    }
  }

  lemma BeginKeepsInv(w: World, a: Act)
    requires Inv(w) && Enabled(w, a) && (a.BeginSchedule? || a.BeginTimer?)
    ensures Inv(Step(w, a))
  {
    CancelKeepsTimers(w.state, if a.BeginTimer? then a.kind else a.scheduled.kind);
  }

  lemma BeginClearKeepsInv(w: World)
    requires Inv(w) && Enabled(w, BeginClear)
    ensures Inv(Step(w, BeginClear))
  {
    CancelKeepsTimers(w.state, Resume);
    CancelKeepsTimers(CancelTimer(w.state, Resume), Split);
  }

  lemma ReplacingKeepsInv(w: World)
    requires Inv(w) && w.group.Replacing?
    ensures Inv(AfterGroup(w))
  {
    var scheduled := w.group.scheduled;
    PutKeepsTimers(w.state, scheduled.kind, Some(scheduled));
    JustifiedAppend(w.history, Set(scheduled));
    LiveAppend(w.history, Set(scheduled), Resume);
    LiveAppend(w.history, Set(scheduled), Split);
    LiveAppend(w.history, Set(scheduled), Record);
  }

  lemma ArmingKeepsInv(w: World)
    requires Inv(w) && w.group.Arming?
    ensures Inv(AfterGroup(w))
  {
    ArmKeepsTimers(w.state, w.group.scheduled.kind, w.group.scheduled);
  }

  lemma FiringKeepsInv(w: World)
    requires Inv(w) && w.group.Firing?
    ensures Inv(AfterGroup(w))
  {
    var kind := w.group.kind;
    var h := Fired(SlotOf(w.state, kind).scheduled.value, ByTimer);
    PutKeepsTimers(w.state, kind, None);
    assert SlotInv(w, kind);
    JustifiedAppend(w.history, h);
    LiveAppend(w.history, h, Resume);
    LiveAppend(w.history, h, Split);
    LiveAppend(w.history, h, Record);
  }

  lemma ClearingKeepsInv(w: World)
    requires Inv(w) && w.group.Clearing?
    ensures Inv(AfterGroup(w))
  {
    PutKeepsTimers(w.state, Resume, None);
    PutKeepsTimers(Empty(w.state, Resume), Split, None);
    JustifiedAppend(w.history, Cleared);
    LiveAppend(w.history, Cleared, Resume);
    LiveAppend(w.history, Cleared, Split);
    LiveAppend(w.history, Cleared, Record);
  }

  lemma TakeKeepsTimers(s: State, m: Arrival)
    requires TimersInv(s)
    ensures TimersInv(TakeLocked(s, m).0)
  {
    var after := TakeLocked(s, m).0;
    assert after.resume.timer == s.resume.timer && after.split.timer == s.split.timer && after.record.timer == s.record.timer;
    forall k: Kind ensures SlotOf(after, k).timer == SlotOf(s, k).timer {}
    SameTimers(s, after);
  }

  lemma SameTimers(s: State, after: State)
    requires TimersInv(s) && after.armed == s.armed && after.nextTimer == s.nextTimer
    requires forall k: Kind :: SlotOf(after, k).timer == SlotOf(s, k).timer
    ensures TimersInv(after)
  {
  }

  /** What a message fires, added to the history one kind at a time. */
  lemma FireAppend(history: seq<Happening>, live: Option<Scheduled>, due: bool, m: Arrival, kind: Kind)
    requires AllJustified(history) && Live(history, kind) == live && !kind.Record?
    requires due == IsDue(live, m) && (live.Some? ==> live.value.kind == kind)
    ensures AllJustified(history + Fires(live, due, m))
    ensures Live(history + Fires(live, due, m), kind) == if due then None else live
    ensures forall k: Kind | k != kind :: Live(history + Fires(live, due, m), k) == Live(history, k)
  {
    if due {
      var h := Fired(live.value, ByMessage(m));
      JustifiedAppend(history, h);
      forall k: Kind ensures Live(history + [h], k) == LiveStep(Live(history, k), h, k) { LiveAppend(history, h, k); }
    } else {
      assert history + Fires(live, due, m) == history;
    }
  }

  /** What the message fires is justified, and takes it out of the slots only. */
  lemma TakeHappens(w: World, i: nat)
    requires AllSlots(w) && AllJustified(w.history) && i < |w.waiting|
    ensures var next := Step(w, Take(i));
            && AllJustified(next.history) && Live(next.history, Record) == Live(w.history, Record)
            && Live(next.history, Resume) == next.state.resume.scheduled
            && Live(next.history, Split) == next.state.split.scheduled
  {
    hide Live, Justified;
    var m := w.waiting[i];
    var (after, due) := TakeLocked(w.state, m);
    FireAppend(w.history, w.state.resume.scheduled, due.resume, m, Resume);
    FireAppend(w.history + Fires(w.state.resume.scheduled, due.resume, m), w.state.split.scheduled, due.split, m, Split);
  }

  lemma TakeKeepsSlot(w: World, i: nat, kind: Kind)
    requires i < |w.waiting| && SlotInv(w, kind)
    requires Live(Step(w, Take(i)).history, kind) == SlotOf(Step(w, Take(i)).state, kind).scheduled
    ensures SlotInv(Step(w, Take(i)), kind)
  {
    hide Live;
  }

  lemma TakeKeepsGroup(w: World, i: nat)
    requires i < |w.waiting| && GroupInv(w)
    ensures GroupInv(Step(w, Take(i)))
  {
  }

  lemma TakeKeepsInv(w: World, i: nat)
    requires Inv(w) && i < |w.waiting|
    ensures Inv(Step(w, Take(i)))
  {
    var m := w.waiting[i];
    var (after, due) := TakeLocked(w.state, m);
    var next := Step(w, Take(i));
    TakeKeepsTimers(w.state, m);
    TakeHappens(w, i);
    TakeKeepsSlot(w, i, Resume);
    TakeKeepsSlot(w, i, Split);
    TakeKeepsSlot(w, i, Record);
    TakeKeepsGroup(w, i);
    hide SlotInv, GroupInv, AllJustified, TimersInv;
  }

  lemma StepKeepsInv(w: World, a: Act)
    requires Inv(w) && Enabled(w, a)
    ensures Inv(Step(w, a))
  {
    match a
    case BeginSchedule(_) => BeginKeepsInv(w, a);
    case BeginTimer(_) => BeginKeepsInv(w, a);
    case BeginClear => BeginClearKeepsInv(w);
    case Peek(_) =>
    case Take(i) => TakeKeepsInv(w, i);
    case GroupStep =>
      match w.group
      case Ready =>
      case Replacing(_, _) => ReplacingKeepsInv(w);
      case Arming(_) => ArmingKeepsInv(w);
      case Firing(_) => FiringKeepsInv(w);
      case Clearing => ClearingKeepsInv(w);
  }

  ghost predicate Runs(w: World, acts: seq<Act>)
    decreases |acts|
  {
    acts == [] || (Enabled(w, acts[0]) && Runs(Step(w, acts[0]), acts[1..]))
  }

  ghost function Run(w: World, acts: seq<Act>): World
    requires Runs(w, acts)
    decreases |acts|
  {
    if acts == [] then w else Run(Step(w, acts[0]), acts[1..])
  }

  ghost predicate Reachable(w: World) {
    exists acts: seq<Act> :: Runs(START, acts) && Run(START, acts) == w
  }

  lemma {:induction false} RunKeepsInv(w: World, acts: seq<Act>)
    requires Inv(w) && Runs(w, acts)
    ensures Inv(Run(w, acts))
    decreases |acts|
  {
    if acts == [] {
    } else {
      StepKeepsInv(w, acts[0]);
      RunKeepsInv(Step(w, acts[0]), acts[1..]);
    }
  }

  lemma ReachableInv(w: World)
    requires Reachable(w)
    ensures Inv(w)
  {
    var acts: seq<Act> :| Runs(START, acts) && Run(START, acts) == w;
    assert Inv(START) by {
      forall k: Kind ensures SlotOf(EMPTY, k) == Slot(None, None) {}
    }
    RunKeepsInv(START, acts);
  }

  // ---- what every run keeps ---------------------------------------------------------------------------------------

  /** A schedule fires only while it is the live one of its kind, and only when its own clock says so. */
  lemma OnlyLiveSchedulesFire(w: World, i: nat)
    requires Reachable(w) && i < |w.history|
    ensures Justified(w.history, i)
  {
    ReachableInv(w);
  }

  /** After a firing nothing of its kind is live until the next Set: so each schedule fires at most once. */
  lemma {:induction false} NoRefiring(history: seq<Happening>, i: nat, j: nat)
    requires AllJustified(history) && i < j < |history| && history[i].Fired? && history[j].Fired?
    requires history[i].scheduled.kind == history[j].scheduled.kind
    ensures exists k :: i < k < j && history[k] == Set(history[j].scheduled)
  {
    var kind := history[i].scheduled.kind;
    assert Justified(history, j);
    LiveSince(history[..j], i, kind);
    var k :| i < k < j && history[..j][k] == Set(history[j].scheduled);
  }

  lemma {:induction false} LiveSince(history: seq<Happening>, i: nat, kind: Kind)
    requires i < |history| && history[i].Fired? && history[i].scheduled.kind == kind
    ensures Live(history, kind).Some? ==>
              exists k :: i < k < |history| && history[k] == Set(Live(history, kind).value)
  {
    var n := |history| - 1;
    if i == n {
    } else {
      LiveSince(history[..n], i, kind);
      if Live(history, kind).Some? && history[n] != Set(Live(history, kind).value) {
        var k :| i < k < n && history[..n][k] == Set(Live(history, kind).value);
        assert history[k] == Set(Live(history, kind).value);
      }
    }
  }

  lemma EachFiresOnce(w: World, i: nat, j: nat)
    requires Reachable(w) && i < j < |w.history| && w.history[i].Fired? && w.history[j].Fired?
    requires w.history[i].scheduled.kind == w.history[j].scheduled.kind
    ensures exists k :: i < k < j && w.history[k] == Set(w.history[j].scheduled)
  {
    ReachableInv(w);
    NoRefiring(w.history, i, j);
  }

  /** pending() lists exactly the live schedules, in kind order. */
  lemma PendingIsLive(w: World)
    requires Reachable(w)
    ensures PendingList(w.state) == OneOf(Live(w.history, Resume)) + OneOf(Live(w.history, Split)) + OneOf(Live(w.history, Record))
  {
    ReachableInv(w);
  }

  /** Between operations a pending node-time schedule has a live timer, made for exactly that schedule. */
  lemma NodeTimeHasItsTimer(w: World, kind: Kind)
    requires Reachable(w) && w.group.Ready?
    ensures var slot := SlotOf(w.state, kind);
            TimerLive(w.state, kind) <==> slot.scheduled.Some? && slot.scheduled.value.mode.NodeTime?
    ensures TimerLive(w.state, kind) ==> SlotOf(w.state, kind).scheduled == Some(w.state.armed[SlotOf(w.state, kind).timer.value])
  {
    ReachableInv(w);
    assert SlotInv(w, kind);
  }

  /** The fast path is the slow path: returning early on a clear flag gives what taking the lock would. */
  lemma FastPathRefinesSlow(w: World, m: Arrival)
    requires Reachable(w)
    ensures FlagExact(w.state)
    ensures AfterTakeDue(w.state, m) == TakeLocked(w.state, m)
  {
    ReachableInv(w);
  }

  /** Nothing cleared fires: with no later Set, a cleared resume or split never fires again. */
  lemma {:induction false} ClearedStaysCleared(history: seq<Happening>, i: nat, j: nat)
    requires AllJustified(history) && i < j < |history| && history[i].Cleared? && history[j].Fired?
    requires !history[j].scheduled.kind.Record?
    ensures exists k :: i < k < j && history[k] == Set(history[j].scheduled)
  {
    assert Justified(history, j);
    LiveSinceClear(history[..j], i, history[j].scheduled.kind);
    var k :| i < k < j && history[..j][k] == Set(history[j].scheduled);
  }

  lemma {:induction false} LiveSinceClear(history: seq<Happening>, i: nat, kind: Kind)
    requires i < |history| && history[i].Cleared? && !kind.Record?
    ensures Live(history, kind).Some? ==>
              exists k :: i < k < |history| && history[k] == Set(Live(history, kind).value)
  {
    var n := |history| - 1;
    if i == n {
    } else {
      LiveSinceClear(history[..n], i, kind);
      if Live(history, kind).Some? && history[n] != Set(Live(history, kind).value) {
        var k :| i < k < n && history[..n][k] == Set(Live(history, kind).value);
        assert history[k] == Set(Live(history, kind).value);
      }
    }
  }
}
