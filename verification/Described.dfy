/** From the recorder to the reader's report: what describe() says of a bag the recorder made. */
module Described {
  import opened Options
  import opened Windows
  import opened Timeline
  import opened BagStore
  import opened RecorderState
  import opened RecorderInvariants
  import opened Reading
  import opened Report
  import opened Explanation

  // ---- the instants of a bag, by what the recorder was doing ------------------------------------------------

  ghost function Holding(g: Signal, s: State, bagEnd: int): set<int> {
    set t | s.explainedFrom <= t < bagEnd && HoldsAt(g, s, t)
  }

  predicate HoldsAt(g: Signal, s: State, t: int) { At(s.history, t).Some? && Reads(g, At(s.history, t).value) }

  /** The instants up to `bagEnd` at which the topic was subscribed and the recorder not paused. */
  ghost function Recording(s: State, topic: string, bagEnd: int): set<int> {
    Holding(Subscribing(topic), s, bagEnd) - Holding(Pausing, s, bagEnd)
  }

  // ---- the reader's windows are those instants ----------------------------------------------------------------

  lemma {:induction false} OwnEventsAreRead(calls: seq<Call>, says: Message -> Event, e: Event)
    requires e in StoredEvents(calls)
    ensures exists r :: r in ReadBack(calls, says) && r.stamp == e.stamp
  {
    var n := |calls| - 1;
    if e in StoredEvents(calls[..n]) && !calls[n].Opened? {
      OwnEventsAreRead(calls[..n], says, e);
      var r :| r in ReadBack(calls[..n], says) && r.stamp == e.stamp;
      assert r in ReadBack(calls, says);
    } else {
      var own := Entry(EventTopic(e.kind), e.stamp, e);
      assert own in ReadBack(calls, says);
    }
  }

  /** No event of the recorder's lies past the bag's last stamp. */
  lemma OwnEventsEnd(calls: seq<Call>, says: Message -> Event, e: Event)
    requires e in StoredEvents(calls) && ReadBack(calls, says) != []
    ensures e.stamp <= LastOf(AllStamps(ReadBack(calls, says)))
  {
    OwnEventsAreRead(calls, says, e);
  }

  lemma RebuiltHolds(c: Config, g: Signal, s: State, says: Message -> Event, bagEnd: int, t: int)
    requires WellTold(c, g, s) && Records(c, g) && !Imitated(s.bag.calls, KindOf(g))
    requires (s.bag.open || bagEnd <= s.closedAt) && forall e | e in Log(s) :: e.stamp <= bagEnd
    ensures t in Points(Rebuilt(g, Found(s.bag.calls, says), bagEnd)) <==> t in Holding(g, s, bagEnd)
  {
    var windows := Rebuilt(g, Found(s.bag.calls, says), bagEnd);
    if t in Points(windows) { RebuiltInside(c, g, s, says, bagEnd, t); }
    ContestedMeans(s.bag.calls, g, t);
    if s.explainedFrom <= t < bagEnd { BagExplainsItself(c, g, s, says, bagEnd, t); }
    hide Rebuilt, Found, Points, WellTold;
  }

  /** Up to an end no earlier than the recorder's events, the windows rebuilt are exactly the instants of the bag at
    * which the signal held. */
  lemma RebuiltIsHolding(c: Config, g: Signal, s: State, says: Message -> Event, bagEnd: int)
    requires WellTold(c, g, s) && Records(c, g) && !Imitated(s.bag.calls, KindOf(g))
    requires (s.bag.open || bagEnd <= s.closedAt) && forall e | e in Log(s) :: e.stamp <= bagEnd
    ensures Points(Rebuilt(g, Found(s.bag.calls, says), bagEnd)) == Holding(g, s, bagEnd)
  {
    forall t ensures t in Points(Rebuilt(g, Found(s.bag.calls, says), bagEnd)) <==> t in Holding(g, s, bagEnd) {
      RebuiltHolds(c, g, s, says, bagEnd, t);
    }
    hide Rebuilt, Found, Points, Holding, WellTold;
  }

  lemma RebuiltInside(c: Config, g: Signal, s: State, says: Message -> Event, bagEnd: int, t: int)
    requires WellTold(c, g, s) && Records(c, g) && !Imitated(s.bag.calls, KindOf(g))
    requires forall e | e in Log(s) :: e.stamp <= bagEnd
    requires t in Points(Rebuilt(g, Found(s.bag.calls, says), bagEnd))
    ensures s.explainedFrom <= t < bagEnd
  {
    var events := Found(s.bag.calls, says);
    RebuiltExact(g, events, bagEnd, t);
    ContestedMeans(s.bag.calls, g, t);
    LatestIsOwn(g, s.bag.calls, says, t);
    WellToldIsFaithful(c, g, s);
    forall e | e in events && TrackOf(g).matches(e) ensures e.stamp <= bagEnd {
      FoundIsOwn(KindOf(g), s.bag.calls, says, e);
    }
    assert Latest(TrackOf(g), Log(s), t).Some?;
    hide Found, StoredEvents, Latest, Rebuilt;
  }

  // ---- describe on the recorder's bag -------------------------------------------------------------------------

  /** What the report says of a channel is true of its topic: measured by events exactly when the topic was
    * subscribed for at least one instant of the bag before its end, and then recorded counts the instants it was
    * being recorded, active those of them in the span its messages cover. */
  ghost predicate TimesAreTrue(s: State, topic: string, times: ChannelTimes, stamps: seq<int>, bagEnd: int)
    requires stamps != []
  {
    && times.count == |stamps| && times.first == FirstOf(stamps) && times.last == LastOf(stamps)
    && (times.basis.FromEvents? <==> Holding(Subscribing(topic), s, bagEnd) != {})
    && (times.basis.FromEvents? ==>
          && times.recorded == Some(|Recording(s, topic, bagEnd)|)
          && times.active == Some(|Recording(s, topic, bagEnd) * Span(SpanOf(stamps))|)
          && times.rate == RateOver(|stamps|, times.active))
  }

  lemma ActiveAgain(times: ChannelTimes, stamps: seq<int>, held: set<int>, out: set<int>)
    requires stamps != [] && times.basis.FromEvents? && CountsInstants(times, stamps, held, out)
    ensures times.recorded == Some(|held - out|) && times.active == Some(|(held - out) * Span(SpanOf(stamps))|)
  {
    assert held * Span(SpanOf(stamps)) - out == (held - out) * Span(SpanOf(stamps));
  }

  lemma CountedTrue(s: State, topic: string, times: ChannelTimes, stamps: seq<int>, held: set<int>, out: set<int>, bagEnd: int)
    requires stamps != [] && CountsInstants(times, stamps, held, out)
    requires held == Holding(Subscribing(topic), s, bagEnd) && out == Holding(Pausing, s, bagEnd)
    requires times.basis.FromEvents? <==> held != {}
    requires times.count == |stamps| && times.first == FirstOf(stamps) && times.last == LastOf(stamps)
    requires times.rate == RateOver(|stamps|, times.active)
    ensures TimesAreTrue(s, topic, times, stamps, bagEnd)
  {
    if times.basis.FromEvents? { ActiveAgain(times, stamps, held, out); }
    hide Holding, FirstOf, LastOf, Span, CountsInstants;
  }

  lemma MeasuredTrue(s: State, topic: string, stamps: seq<int>, windows: seq<Window>, pauses: seq<Window>, duration: int,
                     bagEnd: int)
    requires stamps != [] && Canonical(windows)
    requires Points(windows) == Holding(Subscribing(topic), s, bagEnd) && Points(pauses) == Holding(Pausing, s, bagEnd)
    ensures TimesAreTrue(s, topic, Measure(stamps, windows, pauses, duration), stamps, bagEnd)
  {
    MeasureCounts(stamps, windows, pauses, duration);
    NoWindowNoPoint(windows);
    hide Measure, Holding, FirstOf, LastOf, Points, Canonical, CountsInstants, Span, TimesAreTrue;
    CountedTrue(s, topic, Measure(stamps, windows, pauses, duration), stamps, Points(windows), Points(pauses), bagEnd);
  }

  lemma NoWindowNoPoint(windows: seq<Window>)
    requires Canonical(windows)
    ensures windows == [] <==> Points(windows) == {}
  {
    if windows == [] {
      assert Points(windows) == {};
    } else {
      assert windows[0] in windows && windows[0].start in Span(windows[0]);
      assert windows[0].start in Points(windows);
    }
  }

  lemma PausesAreTrue(c: Config, s: State, says: Message -> Event, bagEnd: int)
    requires WellTold(c, Pausing, s) && c.recordPauses && !Imitated(s.bag.calls, Pause) && (s.bag.open || bagEnd <= s.closedAt)
    requires ReadBack(s.bag.calls, says) != [] && bagEnd == LastOf(AllStamps(ReadBack(s.bag.calls, says)))
    ensures Points(PauseWindows(EventsOf(ReadBack(s.bag.calls, says)), Some(bagEnd))) == Holding(Pausing, s, bagEnd)
    ensures forall e | e in Log(s) :: e.stamp <= bagEnd
  {
    forall e | e in Log(s) ensures e.stamp <= bagEnd { OwnEventsEnd(s.bag.calls, says, e); }
    RebuiltIsHolding(c, Pausing, s, says, bagEnd);
    hide Holding, Points, EventWindows;
  }

  /** The gaps reported are those that no single stretch of true pause accounts for. */
  lemma GapsAreTrue(records: seq<Entry>, summary: Summary, s: State, w: Window)
    requires records != [] && Describes(records, summary) && Points(summary.pauses) == Holding(Pausing, s, summary.end)
    ensures w in summary.unexplained <==> LeftUnexplained(records, s, summary.end, w)
  {
    ReportedGapsExact(records, summary, w);
    hide Describes, CommonGaps, Points, Holding, MaximalRun, Overlap, StampsOf;
  }

  /** `w` is a maximal stretch inside gaps of every data channel that can have gaps, long enough, and no single
    * stretch during which the recorder was paused covers more than half of it. */
  ghost predicate LeftUnexplained(records: seq<Entry>, s: State, bagEnd: int, w: Window)
    requires records != []
  {
    && (exists c :: DataChannel(records, c) && |StampsOf(records, c)| > 1)
    && MaximalRun(CommonGaps(records), w) && w.end - w.start >= UNEXPLAINED_GAP
    && !exists p :: MaximalRun(Holding(Pausing, s, bagEnd), p) && 2 * Overlap(w, p) > w.end - w.start
  }

  /** A stop is reported exactly when the recorder wrote one into this bag, and it is one the recorder wrote. */
  lemma StopIsTrue(calls: seq<Call>, says: Message -> Event, summary: Summary, kind: Kind)
    requires ReadBack(calls, says) != [] && Describes(ReadBack(calls, says), summary) && !Imitated(calls, kind)
    ensures var stop := LastEvent(summary.events, kind);
            && (stop.Some? <==> exists e :: e in StoredEvents(calls) && e.kind == kind)
            && (stop.Some? ==> stop.value in StoredEvents(calls))
  {
    forall e: Event | e.kind == kind ensures e in summary.events <==> e in StoredEvents(calls) {
      FoundIsOwn(kind, calls, says, e);
    }
    hide Found, StoredEvents, ReadBack;
  }

  /** For any bag whose events were all stored, and in which nothing imitates them, what describe reports is what
    * the recorder was doing: its pauses are the instants of the bag at which the recorder was paused, its times are
    * true of every channel, its gaps are those no true pause accounts for, and its stops are the recorder's. */
  lemma ReportIsTrue(c: Config, s: State, says: Message -> Event, summary: Summary)
    requires c.recordSubscriptions && c.recordPauses && forall g: Signal :: WellTold(c, g, s)
    requires forall kind: Kind :: !Imitated(s.bag.calls, kind)
    requires ReadBack(s.bag.calls, says) != [] && Describes(ReadBack(s.bag.calls, says), summary)
    requires s.bag.open || summary.end <= s.closedAt
    ensures Points(summary.pauses) == Holding(Pausing, s, summary.end)
    ensures forall i | 0 <= i < |summary.channels| ::
              var (topic, times) := summary.channels[i];
              var stamps := StampsOf(ReadBack(s.bag.calls, says), topic);
              stamps != [] && TimesAreTrue(s, topic, times, stamps, summary.end)
    ensures forall w :: w in summary.unexplained <==> LeftUnexplained(ReadBack(s.bag.calls, says), s, summary.end, w)
    ensures summary.lowDiskStop.Some? <==> exists e :: e in Log(s) && e.kind.LowDisk?
    ensures summary.bagSizeLimitStop.Some? <==> exists e :: e in Log(s) && e.kind.BagSizeLimit?
  {
    var records := ReadBack(s.bag.calls, says);
    PausesAreTrue(c, s, says, summary.end);
    StopIsTrue(s.bag.calls, says, summary, LowDisk);
    StopIsTrue(s.bag.calls, says, summary, BagSizeLimit);
    hide Holding, Points, ReadBack, PauseWindows, WellTold, Imitated, LeftUnexplained, TimesAreTrue;
    forall w ensures w in summary.unexplained <==> LeftUnexplained(records, s, summary.end, w) {
      GapsAreTrue(records, summary, s, w);
    }
    ChannelsAreTrue(c, s, says, summary);
    hide *;
  }

  lemma ChannelsAreTrue(c: Config, s: State, says: Message -> Event, summary: Summary)
    requires c.recordSubscriptions && forall g: Signal :: WellTold(c, g, s)
    requires !Imitated(s.bag.calls, Subscription) && (s.bag.open || summary.end <= s.closedAt)
    requires ReadBack(s.bag.calls, says) != [] && Describes(ReadBack(s.bag.calls, says), summary)
    requires Points(summary.pauses) == Holding(Pausing, s, summary.end) && forall e | e in Log(s) :: e.stamp <= summary.end
    ensures forall i | 0 <= i < |summary.channels| ::
              var (topic, times) := summary.channels[i];
              var stamps := StampsOf(ReadBack(s.bag.calls, says), topic);
              stamps != [] && TimesAreTrue(s, topic, times, stamps, summary.end)
  {
    var records := ReadBack(s.bag.calls, says);
    hide Holding, Points, ReadBack, PauseWindows;
    var names :| Listed(records, names) && Times(records, names, summary.channels, EventsOf(records), summary.end, summary.pauses);
    forall i | 0 <= i < |summary.channels|
      ensures var (topic, times) := summary.channels[i];
              StampsOf(records, topic) != [] && TimesAreTrue(s, topic, times, StampsOf(records, topic), summary.end)
    {
      ChannelIsTrue(c, s, says, names[i], summary.end, summary.pauses);
    }
    hide *;
  }

  lemma ChannelIsTrue(c: Config, s: State, says: Message -> Event, topic: string, bagEnd: int, pauses: seq<Window>)
    requires WellTold(c, Subscribing(topic), s) && c.recordSubscriptions && !Imitated(s.bag.calls, Subscription)
    requires (s.bag.open || bagEnd <= s.closedAt) && forall e | e in Log(s) :: e.stamp <= bagEnd
    requires Points(pauses) == Holding(Pausing, s, bagEnd) && DataChannel(ReadBack(s.bag.calls, says), topic)
    ensures var records := ReadBack(s.bag.calls, says);
            StampsOf(records, topic) != []
            && TimesAreTrue(s, topic, TimesGiven(records, topic, EventsOf(records), bagEnd, pauses), StampsOf(records, topic), bagEnd)
  {
    var records := ReadBack(s.bag.calls, says);
    HasStamps(records, topic);
    RebuiltIsHolding(c, Subscribing(topic), s, says, bagEnd);
    EventWindowsExact(SubscriptionTrack(topic), Found(s.bag.calls, says), bagEnd, bagEnd);
    hide WellTold, Points, Holding, Canonical, Measure, EventWindows, ReadBack, Imitated, TimesAreTrue;
    MeasuredTrue(s, topic, StampsOf(records, topic), SubscribedWindows(EventsOf(records), topic, bagEnd), pauses,
                 Duration(records), bagEnd);
  }
}
