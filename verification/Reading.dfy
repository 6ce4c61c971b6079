/** What a reader finds in the bag the writer's calls made: the recorder's events among the messages, and messages
  * it cannot tell from them. */
module Reading {
  import opened Options
  import opened Timeline
  import opened BagStore
  import opened RecorderState
  import opened RecorderInvariants
  import opened Report

  /** The bag opened last, message by message; `says` is what a message on an event channel decodes to. */
  function ReadBack(calls: seq<Call>, says: Message -> Event): seq<Entry> {
    if calls == [] then []
    else
      var n := |calls| - 1;
      match calls[n]
      case Opened => []
      case Wrote(m, ok) => ReadBack(calls[..n], says) + if ok then [Entry(m.topic, m.recvNs, says(m))] else []
      case WroteEvent(e, ok) => ReadBack(calls[..n], says) + if ok then [Entry(EventTopic(e.kind), e.stamp, e)] else []
      case _ => ReadBack(calls[..n], says)
  }

  /** The messages, other than the recorder's own events, stored in the bag opened last. */
  function StoredMessages(calls: seq<Call>): seq<Message> {
    if calls == [] then []
    else
      var n := |calls| - 1;
      match calls[n]
      case Opened => []
      case Wrote(m, ok) => StoredMessages(calls[..n]) + if ok then [m] else []
      case _ => StoredMessages(calls[..n])
  }

  /** The events a reader takes from the bag opened last. */
  function Found(calls: seq<Call>, says: Message -> Event): seq<Event> { EventsOf(ReadBack(calls, says)) }

  function KindOf(g: Signal): Kind {
    match g case Subscribing(_) => Subscription case Pausing => Pause
  }

  /** The call stores a message on a channel the reader takes to carry events of this kind. */
  predicate Imitates(c: Call, kind: Kind) { c.Wrote? && c.ok && StreamOf(c.message.topic) == Some(kind) }

  /** The bag holds such a message. */
  predicate Imitated(calls: seq<Call>, kind: Kind) {
    exists m | m in StoredMessages(calls) :: StreamOf(m.topic) == Some(kind)
  }

  /** The call stores an event of the recorder's own that toggles the signal at `t`. */
  predicate Settles(c: Call, g: Signal, t: int) {
    c.WroteEvent? && c.ok && Toggles(TrackOf(g), c.event) && c.event.stamp == t
  }

  /** The bag holds a message on the signal's channel with no event of the recorder's own after it that toggles the
    * signal at `t`. */
  ghost predicate Contested(calls: seq<Call>, g: Signal, t: int) {
    exists i :: 0 <= i < |calls| && Imitates(calls[i], KindOf(g))
      && forall j | i < j < |calls| :: !calls[j].Opened? && !Settles(calls[j], g, t)
  }

  // ---- reading without imitations ---------------------------------------------------------------------------

  lemma FoundStep(calls: seq<Call>, c: Call, says: Message -> Event)
    ensures Found(calls + [c], says) ==
            match c
            case Opened => []
            case Wrote(m, ok) => Found(calls, says) + (if ok && StreamOf(m.topic).Some? then [Parsed(m.topic, says(m)).value] else [])
            case WroteEvent(e, ok) => Found(calls, says) + if ok then [e] else []
            case _ => Found(calls, says)
  {
    assert (calls + [c])[..|calls|] == calls;
    var before := ReadBack(calls, says);
    if c.Wrote? && c.ok {
      OneMore(before, Entry(c.message.topic, c.message.recvNs, says(c.message)));
    } else if c.WroteEvent? && c.ok {
      EventTopicsStream(c.event.kind);
      OneMore(before, Entry(EventTopic(c.event.kind), c.event.stamp, c.event));
    }
    assert Found(calls, says) + [] == Found(calls, says) && before + [] == before;
    hide StreamOf;
  }

  lemma OneMore(records: seq<Entry>, r: Entry)
    ensures EventsOf(records + [r]) == EventsOf(records) + if EventIn(r).Some? then [EventIn(r).value] else []
  {
    assert (records + [r])[..|records|] == records;
  }

  lemma StoredStep(calls: seq<Call>, c: Call)
    ensures StoredEvents(calls + [c]) ==
            match c
            case Opened => []
            case WroteEvent(e, ok) => StoredEvents(calls) + if ok then [e] else []
            case _ => StoredEvents(calls)
    ensures StoredMessages(calls + [c]) ==
            match c
            case Opened => []
            case Wrote(m, ok) => StoredMessages(calls) + if ok then [m] else []
            case _ => StoredMessages(calls)
  {
    assert (calls + [c])[..|calls|] == calls;
  }

  lemma NextLatest(k: Track, events: seq<Event>, e: Event, t: int)
    ensures Latest(k, events + [e], t) == Later(k, Latest(k, events, t), e, t)
  {
    assert (events + [e])[..|events|] == events;
  }

  /** An event of another stream says nothing about the signal. */
  lemma OtherStream(g: Signal, e: Event)
    requires e.kind != KindOf(g)
    ensures !Toggles(TrackOf(g), e)
  {
  }

  lemma ImitatedStep(calls: seq<Call>, c: Call, kind: Kind)
    ensures Imitated(calls + [c], kind) <==> !c.Opened? && (Imitates(c, kind) || Imitated(calls, kind))
  {
    StoredStep(calls, c);
    if Imitates(c, kind) { assert c.message in StoredMessages(calls + [c]); }
    else if Imitated(calls, kind) && !c.Opened? {
      var m :| m in StoredMessages(calls) && StreamOf(m.topic) == Some(kind);
      assert m in StoredMessages(calls + [c]);
    }
    hide StoredMessages, StreamOf;
  }

  lemma ContestedStep(calls: seq<Call>, c: Call, g: Signal, t: int)
    ensures Contested(calls + [c], g, t) <==>
            !c.Opened? && (Imitates(c, KindOf(g)) || (Contested(calls, g, t) && !Settles(c, g, t)))
  {
    assert Imitates(c, KindOf(g)) ==> !c.Opened?;
    hide Imitates, Settles;
    var all, n := calls + [c], |calls|;
    if Contested(all, g, t) {
      var i :| 0 <= i < |all| && Imitates(all[i], KindOf(g))
        && forall j | i < j < |all| :: !all[j].Opened? && !Settles(all[j], g, t);
      if i < n {
        assert all[n] == c && calls[i] == all[i];
        forall j | i < j < n ensures !calls[j].Opened? && !Settles(calls[j], g, t) { assert calls[j] == all[j]; }
      }
    }
    if Imitates(c, KindOf(g)) { assert all[n] == c; }
    else if !c.Opened? && Contested(calls, g, t) && !Settles(c, g, t) {
      var i :| 0 <= i < n && Imitates(calls[i], KindOf(g))
        && forall j | i < j < n :: !calls[j].Opened? && !Settles(calls[j], g, t);
      assert all[i] == calls[i];
      forall j | i < j < |all| ensures !all[j].Opened? && !Settles(all[j], g, t) {
        if j < n { assert all[j] == calls[j]; }
      }
    }
  }

  /** An instant is contested only if the bag holds a message on the signal's channel; and if the recorder stored no
    * event that toggles the signal just then, that is all it takes. */
  lemma {:induction false} ContestedMeans(calls: seq<Call>, g: Signal, t: int)
    ensures Contested(calls, g, t) ==> Imitated(calls, KindOf(g))
    ensures (forall e | e in StoredEvents(calls) && Toggles(TrackOf(g), e) :: e.stamp != t) ==>
              (Contested(calls, g, t) <==> Imitated(calls, KindOf(g)))
  {
    if calls == [] {
    } else {
      var n := |calls| - 1;
      var c := calls[n];
      assert calls == calls[..n] + [c];
      ContestedMeans(calls[..n], g, t);
      ContestedStep(calls[..n], c, g, t);
      ImitatedStep(calls[..n], c, KindOf(g));
      StoredStep(calls[..n], c);
      assert !c.Opened? ==> forall e | e in StoredEvents(calls[..n]) :: e in StoredEvents(calls);
      assert c.WroteEvent? && c.ok ==> c.event in StoredEvents(calls);
      hide Contested, Imitated, StoredEvents, Toggles, Imitates;
    }
  }

  lemma OwnOn(g: Signal, calls: seq<Call>, c: Call, says: Message -> Event, t: int)
    requires !Contested(calls + [c], g, t)
    requires !Contested(calls, g, t) ==> Latest(TrackOf(g), Found(calls, says), t) == Latest(TrackOf(g), StoredEvents(calls), t)
    ensures Latest(TrackOf(g), Found(calls + [c], says), t) == Latest(TrackOf(g), StoredEvents(calls + [c]), t)
  {
    FoundStep(calls, c, says);
    StoredStep(calls, c);
    ContestedStep(calls, c, g, t);
    var k := TrackOf(g);
    hide Found, StoredEvents, StreamOf, Latest, Toggles, Contested;
    if c.WroteEvent? && c.ok {
      NextLatest(k, Found(calls, says), c.event, t);
      NextLatest(k, StoredEvents(calls), c.event, t);
    } else if c.Wrote? && c.ok && StreamOf(c.message.topic).Some? {
      var e := Parsed(c.message.topic, says(c.message)).value;
      OtherStream(g, e);
      AppendNeutral(k, Found(calls, says), e, t);
    } else {
      assert Found(calls, says) + [] == Found(calls, says) && StoredEvents(calls) + [] == StoredEvents(calls);
    }
  }

  /** At an instant not contested the event that decides the signal for the reader, whatever recorded messages say,
    * is the one that decides it among the recorder's own. */
  lemma {:induction false} LatestIsOwn(g: Signal, calls: seq<Call>, says: Message -> Event, t: int)
    requires !Contested(calls, g, t)
    ensures Latest(TrackOf(g), Found(calls, says), t) == Latest(TrackOf(g), StoredEvents(calls), t)
  {
    if calls == [] {
    } else {
      var n := |calls| - 1;
      assert calls == calls[..n] + [calls[n]];
      if !Contested(calls[..n], g, t) { LatestIsOwn(g, calls[..n], says, t); }
      OwnOn(g, calls[..n], calls[n], says, t);
    }
  }

  /** With no message on the stream, every event of its kind a reader finds is one the recorder stored. */
  lemma {:induction false} FoundIsOwn(kind: Kind, calls: seq<Call>, says: Message -> Event, e: Event)
    requires !Imitated(calls, kind) && e.kind == kind
    ensures e in Found(calls, says) <==> e in StoredEvents(calls)
  {
    if calls == [] {
    } else {
      var n := |calls| - 1;
      var c := calls[n];
      assert calls == calls[..n] + [c];
      if !Imitated(calls[..n], kind) { FoundIsOwn(kind, calls[..n], says, e); }
      FoundOn(kind, calls[..n], c, says, e);
    }
  }

  lemma FoundOn(kind: Kind, calls: seq<Call>, c: Call, says: Message -> Event, e: Event)
    requires !Imitated(calls + [c], kind) && e.kind == kind
    requires !Imitated(calls, kind) ==> (e in Found(calls, says) <==> e in StoredEvents(calls))
    ensures e in Found(calls + [c], says) <==> e in StoredEvents(calls + [c])
  {
    FoundStep(calls, c, says);
    StoredStep(calls, c);
    ImitatedStep(calls, c, kind);
    hide Found, StoredEvents, StreamOf, StoredMessages, Imitated;
  }

  // ---- reading with imitations ------------------------------------------------------------------------------

  /** An event of the signal that says the opposite of `reads`. */
  function Contrary(g: Signal, truth: bool, t: int): Event {
    Event(KindOf(g), if truth then TrackOf(g).closing else TrackOf(g).opening, t,
          match g case Subscribing(topic) => topic case Pausing => "")
  }

  /** Every message says so. */
  function Lying(g: Signal, truth: bool, t: int): Message -> Event { (m: Message) => Contrary(g, truth, t) }

  lemma ContraryToggles(g: Signal, truth: bool, t: int, topic: string)
    requires StreamOf(topic) == Some(KindOf(g))
    ensures Parsed(topic, Contrary(g, truth, t)) == Some(Contrary(g, truth, t))
    ensures Toggles(TrackOf(g), Contrary(g, truth, t))
    ensures (Contrary(g, truth, t).action == TrackOf(g).opening) <==> !truth
  {
    hide StreamOf;
  }

  lemma LieOn(g: Signal, calls: seq<Call>, c: Call, truth: bool, t: int)
    requires Contested(calls + [c], g, t)
    requires Contested(calls, g, t) ==> Latest(TrackOf(g), Found(calls, Lying(g, truth, t)), t) == Some(Contrary(g, truth, t))
    ensures Latest(TrackOf(g), Found(calls + [c], Lying(g, truth, t)), t) == Some(Contrary(g, truth, t))
  {
    var says := Lying(g, truth, t);
    var k, lie := TrackOf(g), Contrary(g, truth, t);
    FoundStep(calls, c, says);
    ContestedStep(calls, c, g, t);
    hide Found, StoredEvents, StreamOf, Latest, Toggles, Contested;
    if Imitates(c, KindOf(g)) {
      ContraryToggles(g, truth, t, c.message.topic);
      NextLatest(k, Found(calls, says), lie, t);
    } else if c.WroteEvent? && c.ok {
      NextLatest(k, Found(calls, says), c.event, t);
    } else if c.Wrote? && c.ok && StreamOf(c.message.topic).Some? {
      var e := Parsed(c.message.topic, says(c.message)).value;
      OtherStream(g, e);
      AppendNeutral(k, Found(calls, says), e, t);
    } else {
      assert Found(calls, says) + [] == Found(calls, says);
    }
  }

  /** At a contested instant a message that says the opposite of the truth decides the signal for the reader. */
  lemma {:induction false} LatestIsImitation(g: Signal, calls: seq<Call>, truth: bool, t: int)
    requires Contested(calls, g, t)
    ensures Latest(TrackOf(g), Found(calls, Lying(g, truth, t)), t) == Some(Contrary(g, truth, t))
  {
    if calls == [] {
    } else {
      var n := |calls| - 1;
      assert calls == calls[..n] + [calls[n]];
      if Contested(calls[..n], g, t) { LatestIsImitation(g, calls[..n], truth, t); }
      LieOn(g, calls[..n], calls[n], truth, t);
    }
  }
}
