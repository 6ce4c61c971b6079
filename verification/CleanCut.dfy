/** A message-time resume cuts the recording cleanly (packages/rosbag2_dynamic_recorder/src/dynamic_recorder.cpp). */
module CleanCut {
  import opened Options
  import opened Timeline
  import opened BagStore
  import opened RecorderState
  import opened RecorderInvariants
  import S = Scheduling

  /** One delivery: the message, and what the environment answers to the resume or split it may fire. */
  datatype Delivery = Delivery(m: Message, tick: Tick, splitOk: bool, delay: nat)

  function Deliver(c: Config, s: State, ds: seq<Delivery>): State {
    if ds == [] then s
    else
      var d := ds[|ds| - 1];
      OnMessage(c, Deliver(c, s, ds[..|ds| - 1]), d.m, d.tick, d.splitOk, d.delay)
  }

  function Messages(ds: seq<Delivery>): seq<Message> {
    seq(|ds|, i requires 0 <= i < |ds| => ds[i].m)
  }

  /** The place of the first message the schedule is due on, or the number of messages. */
  function FirstDue(scheduled: S.Scheduled, ds: seq<Delivery>): (k: nat)
    ensures k <= |ds|
    ensures forall i | 0 <= i < k :: !S.IsDue(Some(scheduled), ArrivalOf(ds[i].m))
    ensures k < |ds| ==> S.IsDue(Some(scheduled), ArrivalOf(ds[k].m))
  {
    if ds == [] then 0
    else
      var n := |ds| - 1;
      var before := FirstDue(scheduled, ds[..n]);
      if before < n then before else if S.IsDue(Some(scheduled), ArrivalOf(ds[n].m)) then n else n + 1
  }

  function HandedTo(s: State): seq<Message> { Handed(s.bag.calls) }

  /** Recording, nothing staged, and either still paused for `scheduled` or resumed for good. */
  predicate Cutting(s: State, scheduled: S.Scheduled, resumed: bool) {
    Quiet(s.bag) && s.bag.open && s.paused == !resumed
    && (resumed ==> s.scheduler.resume.scheduled.None?)
    && (!resumed ==>
          s.scheduler.resume.scheduled == Some(scheduled) && S.FiresOnMessages(Some(scheduled)) && s.scheduler.messageTimePending)
  }

  // ---- what reaches the writer as a message ----------------------------------------------------------------

  lemma EventIsNoMessage(c: Config, b: BagState, e: Event, fate: Fate)
    requires Quiet(b)
    ensures Handed(RecordEvent(c, b, e, fate).calls) == Handed(b.calls)
  {
    var topic, typeName := EventTopic(e.kind), EventType(e.kind);
    if b.open {
      LogEventWentOn(b, topic, typeName, e, fate);
      FlushQuiet(LogEvent(b, topic, typeName, e, fate), c.accepts);
      var ready := if topic in b.channels then b else CreateChannel(b, topic, typeName, !fate.ChannelFailed?);
      CalledFacts(b.calls, Created(topic, typeName, !fate.ChannelFailed?));
      CalledFacts(ready.calls, WroteEvent(e, fate.Stored?));
      assert Handed(b.calls) + [] == Handed(b.calls);
    }
  }

  lemma EmitIsNoMessage(c: Config, s: State, tick: Tick)
    requires Quiet(s.bag)
    ensures var after := EmitPause(c, s, Resumed, tick);
            && Quiet(after.bag) && after.bag.open == s.bag.open && after.paused == s.paused && after.scheduler == s.scheduler
            && HandedTo(after) == HandedTo(s)
  {
    EmitFacts(c, s, Pause, Resumed, "", c.recordPauses, tick);
    EmittedIsNoMessage(c, s, tick);
  }

  lemma EmittedIsNoMessage(c: Config, s: State, tick: Tick)
    requires Quiet(s.bag)
    ensures HandedTo(Emit(c, s, Pause, Resumed, "", c.recordPauses, tick)) == HandedTo(s)
  {
    hide RecordEvent;
    if c.recordPauses { EventIsNoMessage(c, s.bag, Event(Pause, Resumed, s.clock + tick.delay, ""), tick.fate); }
  }

  lemma ResumeIsNoMessage(c: Config, s: State, tick: Tick)
    requires Quiet(s.bag)
    ensures var after := ResumeNow(c, s, tick);
            && Quiet(after.bag) && after.bag.open == s.bag.open && !after.paused && after.scheduler == s.scheduler
            && HandedTo(after) == HandedTo(s)
  {
    if s.paused { EmitIsNoMessage(c, s.(paused := false), tick); }
  }

  lemma SplitIsNoMessage(c: Config, s: State, ok: bool, delay: nat)
    requires Quiet(s.bag)
    ensures var after := SplitNow(c, s, ok, delay);
            && Quiet(after.bag) && after.bag.open == s.bag.open && after.paused == s.paused && after.scheduler == s.scheduler
            && HandedTo(after) == HandedTo(s)
  {
    SplitWentOn(c, s.bag, ok);
    if s.bag.open {
      CalledFacts(s.bag.calls, Call.SplitFile(ok));
      FlushQuiet(Called(s.bag, Call.SplitFile(ok)), c.accepts);
      assert Handed(s.bag.calls) + [] == Handed(s.bag.calls);
    }
  }

  /** Firing what is due hands the writer no message; a due resume ends the pause. */
  lemma FiringIsNoMessage(c: Config, s: State, scheduled: S.Scheduled, resumed: bool, d: Delivery)
    requires Cutting(s, scheduled, resumed)
    ensures var after := FireDue(c, s, d.m, d.tick, d.splitOk, d.delay);
            && Cutting(after, scheduled, resumed || S.IsDue(Some(scheduled), ArrivalOf(d.m)))
            && HandedTo(after) == HandedTo(s)
  {
    hide ResumeNow, SplitNow;
    var (scheduler, due) := S.AfterTakeDue(s.scheduler, ArrivalOf(d.m));
    var taken := s.(scheduler := scheduler);
    assert !resumed ==> due.resume == S.IsDue(Some(scheduled), ArrivalOf(d.m));
    assert resumed ==> !due.resume;
    var ready := if due.resume then ResumeNow(c, taken, d.tick) else taken;
    ResumeIsNoMessage(c, taken, d.tick);
    SplitIsNoMessage(c, ready, d.splitOk, d.delay);
  }

  lemma OneDelivery(c: Config, s: State, scheduled: S.Scheduled, resumed: bool, d: Delivery)
    requires Cutting(s, scheduled, resumed)
    ensures var after := OnMessage(c, s, d.m, d.tick, d.splitOk, d.delay);
            var now := resumed || S.IsDue(Some(scheduled), ArrivalOf(d.m));
            && Cutting(after, scheduled, now)
            && HandedTo(after) == if now then HandedTo(s) + [d.m] else HandedTo(s)
  {
    var ready := FireDue(c, s, d.m, d.tick, d.splitOk, d.delay);
    FiringIsNoMessage(c, s, scheduled, resumed, d);
    if !ready.paused {
      WriteWentOn(c, ready.bag, d.m);
      CalledFacts(ready.bag.calls, Wrote(d.m, c.accepts(d.m)));
    }
  }

  /** `s` is what `ds` made of a state that had handed over `handed`: the first `k` were dropped. */
  predicate Cut(s: State, scheduled: S.Scheduled, handed: seq<Message>, ds: seq<Delivery>, k: nat)
    requires k <= |ds|
  {
    HandedTo(s) == handed + Messages(ds[k..]) && Cutting(s, scheduled, k < |ds|)
  }

  lemma MessagesGrow(ds: seq<Delivery>, d: Delivery, k: nat)
    requires k <= |ds|
    ensures Messages((ds + [d])[k..]) == Messages(ds[k..]) + [d.m]
    ensures Messages((ds + [d])[|ds| + 1..]) == []
  {
    assert (ds + [d])[k..] == ds[k..] + [d];
  }

  lemma CutOn(s: State, after: State, scheduled: S.Scheduled, handed: seq<Message>, ds: seq<Delivery>, d: Delivery, k: nat)
    requires k <= |ds| && Cut(s, scheduled, handed, ds, k)
    requires var now := k < |ds| || S.IsDue(Some(scheduled), ArrivalOf(d.m));
             Cutting(after, scheduled, now) && HandedTo(after) == if now then HandedTo(s) + [d.m] else HandedTo(s)
    ensures Cut(after, scheduled, handed, ds + [d],
                if k < |ds| || S.IsDue(Some(scheduled), ArrivalOf(d.m)) then k else k + 1)
  {
    MessagesGrow(ds, d, k);
    if k == |ds| { assert ds[k..] == []; }
    assert handed + (Messages(ds[k..]) + [d.m]) == handed + Messages(ds[k..]) + [d.m];
  }

  lemma NothingCut(s: State, scheduled: S.Scheduled)
    requires Cutting(s, scheduled, false)
    ensures Cut(s, scheduled, HandedTo(s), [], 0)
  {
    var none: seq<Delivery> := [];
    assert none[0..] == [] && HandedTo(s) + Messages([]) == HandedTo(s);
  }

  lemma CutDelivers(c: Config, s: State, scheduled: S.Scheduled, handed: seq<Message>, ds: seq<Delivery>, d: Delivery,
                    k: nat)
    requires k <= |ds| && Cut(s, scheduled, handed, ds, k)
    ensures Cut(OnMessage(c, s, d.m, d.tick, d.splitOk, d.delay), scheduled, handed, ds + [d],
                if k < |ds| || S.IsDue(Some(scheduled), ArrivalOf(d.m)) then k else k + 1)
  {
    hide OnMessage;
    OneDelivery(c, s, scheduled, k < |ds|, d);
    CutOn(s, OnMessage(c, s, d.m, d.tick, d.splitOk, d.delay), scheduled, handed, ds, d, k);
  }

  /** While paused with a message-time resume pending, the messages handed to the bag are exactly those
    * from the first due one on, that one included, whatever splits fire among them. */
  lemma {:induction false} ResumeCutsCleanly(c: Config, s: State, scheduled: S.Scheduled, ds: seq<Delivery>)
    requires Cutting(s, scheduled, false)
    ensures Cut(Deliver(c, s, ds), scheduled, HandedTo(s), ds, FirstDue(scheduled, ds))
  {
    hide OnMessage;
    if ds == [] {
      NothingCut(s, scheduled);
    } else {
      var n := |ds| - 1;
      ResumeCutsCleanly(c, s, scheduled, ds[..n]);
      CutDelivers(c, Deliver(c, s, ds[..n]), scheduled, HandedTo(s), ds[..n], ds[n], FirstDue(scheduled, ds[..n]));
      assert ds[..n] + [ds[n]] == ds;
    }
  }

  /** From the moment a paused recorder accepts a resume at a message's time: nothing before the first due
    * message is recorded, and that message and all after it are handed over in order. */
  lemma ScheduledResumeCutsCleanly(c: Config, s: State, atNs: int, mode: int, topic: string, ds: seq<Delivery>)
    requires Shape(s) && s.bag.open && s.paused && Judge(s, atNs, mode, topic).AtMessage?
    ensures var scheduled := S.Scheduled(S.Resume, atNs, Judge(s, atNs, mode, topic).mode, topic);
            var ready := Schedule(s, S.Resume, atNs, Judge(s, atNs, mode, topic), topic);
            var k := FirstDue(scheduled, ds);
            && HandedTo(Deliver(c, ready, ds)) == HandedTo(s) + Messages(ds[k..])
            && (Deliver(c, ready, ds).paused <==> k == |ds|)
  {
    var scheduled := S.Scheduled(S.Resume, atNs, Judge(s, atNs, mode, topic).mode, topic);
    ResumeCutsCleanly(c, Schedule(s, S.Resume, atNs, Judge(s, atNs, mode, topic), topic), scheduled, ds);
  }
}
