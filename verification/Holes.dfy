/** Messages inside the gaps the report calls unexplained (packages/dynrec/dynrec/bag.py). */
module Holes {
  import opened Options
  import opened Windows
  import opened Timeline
  import opened Report

  predicate StrictlyInside(w: Window, t: int) { w.start < t < w.end }

  /** No message of a data channel lies strictly inside `w`. */
  ghost predicate Silent(records: seq<Entry>, w: Window) {
    !exists r :: r in records && StreamOf(r.topic).None? && StrictlyInside(w, r.stamp)
  }

  /** `w` lies inside one single gap of the channel. */
  ghost predicate InOneGap(records: seq<Entry>, c: string, w: Window) {
    exists g :: g in GapsIn(StampsOf(records, c), UNEXPLAINED_GAP) && g.start <= w.start && w.end <= g.end
  }

  /** The channel does not break `w`: its messages leave `w` inside one gap, or its only message lies elsewhere. */
  ghost predicate UnbrokenBy(records: seq<Entry>, c: string, w: Window) {
    var stamps := StampsOf(records, c);
    if |stamps| == 1 then !StrictlyInside(w, stamps[0]) else InOneGap(records, c, w)
  }

  ghost predicate SilentIn(records: seq<Entry>, c: string, w: Window) {
    forall t | t in StampsOf(records, c) :: !StrictlyInside(w, t)
  }

  /** Silence, channel by channel. */
  lemma SilentChannels(records: seq<Entry>, w: Window)
    ensures Silent(records, w) <==> forall c | DataChannel(records, c) :: SilentIn(records, c, w)
  {
    hide StreamOf;
    if !Silent(records, w) {
      var r :| r in records && StreamOf(r.topic).None? && StrictlyInside(w, r.stamp);
      assert DataChannel(records, r.topic) && r.stamp in StampsOf(records, r.topic);
    }
  }

  /** A stretch inside the gaps of a channel lies in one of them exactly when none of its messages breaks it. */
  lemma OneGapIsSilent(records: seq<Entry>, c: string, w: Window)
    requires w.start < w.end && forall t | w.start <= t < w.end :: t in Points(GapsIn(StampsOf(records, c), UNEXPLAINED_GAP))
    ensures InOneGap(records, c, w) <==> forall t | t in StampsOf(records, c) :: !StrictlyInside(w, t)
  {
    var stamps := StampsOf(records, c);
    var gaps := GapsIn(stamps, UNEXPLAINED_GAP);
    hide StampsOf, GapsIn;
    if InOneGap(records, c, w) {
      var g :| g in gaps && g.start <= w.start && w.end <= g.end;
      GapsExact(stamps, UNEXPLAINED_GAP, g);
    }
    if forall t | t in stamps :: !StrictlyInside(w, t) {
      assert w.start in Points(gaps);
      var g :| g in gaps && w.start in Span(g);
      GapsExact(stamps, UNEXPLAINED_GAP, g);
      assert !StrictlyInside(w, g.end);
    }
  }

  lemma ReportedLiesInGaps(records: seq<Entry>, summary: Summary, w: Window, c: string, t: int)
    requires records != [] && Describes(records, summary) && w in summary.unexplained
    requires DataChannel(records, c) && |StampsOf(records, c)| > 1 && w.start <= t < w.end
    ensures t in Points(GapsIn(StampsOf(records, c), UNEXPLAINED_GAP))
  {
    hide Describes, StampsOf, GapsIn, Overlap, Points, DataChannel;
    assert t in CommonGaps(records) by { ReportedGapsExact(records, summary, w); }
  }

  lemma LoneIsSilent(stamps: seq<int>, w: Window)
    requires |stamps| == 1
    ensures (forall t | t in stamps :: !StrictlyInside(w, t)) <==> !StrictlyInside(w, stamps[0])
  {
  }

  lemma SilentInExactly(records: seq<Entry>, summary: Summary, w: Window, c: string)
    requires records != [] && Describes(records, summary) && w in summary.unexplained && DataChannel(records, c)
    requires w.start < w.end
    ensures SilentIn(records, c, w) <==> UnbrokenBy(records, c, w)
  {
    hide Describes, StampsOf, GapsIn, Points, InOneGap, StrictlyInside;
    if |StampsOf(records, c)| > 1 {
      forall t | w.start <= t < w.end ensures t in Points(GapsIn(StampsOf(records, c), UNEXPLAINED_GAP)) {
        ReportedLiesInGaps(records, summary, w, c, t);
      }
      OneGapIsSilent(records, c, w);
    } else {
      HasStamps(records, c);
      LoneIsSilent(StampsOf(records, c), w);
    }
    hide DataChannel;
  }

  /** No data message lies strictly inside a reported gap exactly when the gap lies inside one single gap of every
    * data channel that has gaps, and no channel with one message has it strictly inside. */
  lemma SilentExactly(records: seq<Entry>, summary: Summary, w: Window)
    requires records != [] && Describes(records, summary) && w in summary.unexplained
    ensures Silent(records, w) <==> forall c | DataChannel(records, c) :: UnbrokenBy(records, c, w)
  {
    assert w.start < w.end by { ReportedGapsExact(records, summary, w); }
    SilentChannels(records, w);
    hide Describes, Silent, SilentIn, UnbrokenBy, DataChannel;
    forall c | DataChannel(records, c) ensures SilentIn(records, c, w) <==> UnbrokenBy(records, c, w) {
      SilentInExactly(records, summary, w, c);
    }
  }

  // ---- both ways a reported gap can hold a message ---------------------------------------------------------

  lemma NoEventsNoPauses(records: seq<Entry>, summary: Summary, p: Window)
    requires records != [] && Describes(records, summary) && EventsOf(records) == []
    ensures !MaximalRun(Points(summary.pauses), p)
  {
    assert summary.pauses == [];
    hide Describes, EventsOf;
    assert Points(summary.pauses) == {} && p.start !in Points(summary.pauses);
  }

  lemma WholeBagCommon(records: seq<Entry>, w: Window)
    requires records != [] && w == Window(FirstOf(AllStamps(records)), LastOf(AllStamps(records))) && w.start < w.end
    requires forall t | w.start <= t < w.end :: InEveryGap(records, t)
    ensures MaximalRun(CommonGaps(records), w)
  {
    hide InEveryGap, AllStamps;
    forall t | w.start <= t < w.end ensures t in CommonGaps(records) { assert t in Span(w); }
  }

  /** In a bag with no events, a stretch over the whole bag that lies in the gaps of every channel is reported. */
  lemma WholeBagReported(records: seq<Entry>, summary: Summary, w: Window)
    requires records != [] && Describes(records, summary) && EventsOf(records) == []
    requires w == Window(FirstOf(AllStamps(records)), LastOf(AllStamps(records))) && w.end - w.start >= UNEXPLAINED_GAP
    requires exists c :: DataChannel(records, c) && |StampsOf(records, c)| > 1
    requires forall t | w.start <= t < w.end :: InEveryGap(records, t)
    ensures w in summary.unexplained
  {
    hide InEveryGap, CommonGaps, MaximalRun, StampsOf, Overlap, Points, AllStamps;
    WholeBagCommon(records, w);
    forall p ensures !MaximalRun(Points(summary.pauses), p) { NoEventsNoPauses(records, summary, p); }
    ReportedGapsExact(records, summary, w);
    hide Describes;
  }

  const PLAIN: Event := Event(Split, SplitDone, 0, "")

  function At(topic: string, seconds: int): Entry { Entry(topic, seconds * SECOND, PLAIN) }

  lemma PlainNames()
    ensures StreamOf("/a").None? && StreamOf("/b").None?
  {
  }

  /** Two gaps of one channel that touch at a message. */
  function Touching(): seq<Entry> { [At("/a", 0), At("/a", 2), At("/a", 4)] }

  /** One gap, and the only message of another channel inside it. */
  function Lone(): seq<Entry> { [At("/a", 0), At("/b", 2), At("/a", 4)] }

  lemma NextEntry(records: seq<Entry>, r: Entry, c: string)
    ensures StampsOf(records + [r], c) == StampsOf(records, c) + Picked(r, c)
    ensures AllStamps(records + [r]) == AllStamps(records) + [r.stamp]
    ensures EventIn(r).None? ==> EventsOf(records + [r]) == EventsOf(records)
  {
    assert (records + [r])[..|records|] == records;
  }

  function Picked(r: Entry, c: string): seq<int> { if r.topic == c then [r.stamp] else [] }

  lemma OneEntry(x: Entry, c: string)
    ensures StampsOf([x], c) == Picked(x, c) && AllStamps([x]) == [x.stamp] && (EventIn(x).None? ==> EventsOf([x]) == [])
  {
    var none: seq<Entry> := [];
    NextEntry(none, x, c);
    assert none + [x] == [x];
    hide EventIn;
  }

  lemma TwoEntries(x: Entry, y: Entry, c: string)
    ensures StampsOf([x, y], c) == Picked(x, c) + Picked(y, c) && AllStamps([x, y]) == [x.stamp, y.stamp]
    ensures EventIn(x).None? && EventIn(y).None? ==> EventsOf([x, y]) == []
  {
    hide EventIn, StampsOf, AllStamps, EventsOf;
    OneEntry(x, c);
    NextEntry([x], y, c);
    assert [x] + [y] == [x, y];
  }

  lemma ThreeEntries(x: Entry, y: Entry, z: Entry, c: string)
    ensures StampsOf([x, y, z], c) == Picked(x, c) + Picked(y, c) + Picked(z, c)
    ensures AllStamps([x, y, z]) == [x.stamp, y.stamp, z.stamp]
    ensures EventIn(x).None? && EventIn(y).None? && EventIn(z).None? ==> EventsOf([x, y, z]) == []
  {
    hide EventIn, StampsOf, AllStamps, EventsOf, Picked;
    TwoEntries(x, y, c);
    NextEntry([x, y], z, c);
    assert [x, y] + [z] == [x, y, z];
  }

  lemma InsideGap(stamps: seq<int>, g: Window, t: int)
    requires Consecutive(stamps, g) && g.end - g.start >= UNEXPLAINED_GAP && g.start <= t < g.end
    ensures t in Points(GapsIn(stamps, UNEXPLAINED_GAP))
  {
    GapsExact(stamps, UNEXPLAINED_GAP, g);
    hide GapsIn;
    assert t in Span(g);
  }

  lemma TouchingFacts()
    ensures StampsOf(Touching(), "/a") == [0, 2 * SECOND, 4 * SECOND] == AllStamps(Touching()) && EventsOf(Touching()) == []
    ensures forall c :: DataChannel(Touching(), c) <==> c == "/a"
  {
    TouchingChannel();
    PlainNames();
    ThreeEntries(At("/a", 0), At("/a", 2), At("/a", 4), "/a");
    hide StreamOf, DataChannel;
  }

  lemma TouchingChannel()
    ensures forall c :: DataChannel(Touching(), c) <==> c == "/a"
  {
    PlainNames();
    hide StreamOf, StampsOf, AllStamps, EventsOf;
    assert Touching()[0] in Touching();
  }

  lemma TouchingGaps(t: int)
    requires 0 <= t < 4 * SECOND
    ensures InEveryGap(Touching(), t)
  {
    TouchingFacts();
    hide Touching, StampsOf, AllStamps, EventsOf, GapsIn, DataChannel, Points;
    InsideGap([0, 2 * SECOND, 4 * SECOND], if t < 2 * SECOND then Window(0, 2 * SECOND) else Window(2 * SECOND, 4 * SECOND), t);
  }

  lemma HeardInTheMiddle()
    ensures !Silent(Touching(), Window(0, 4 * SECOND)) && !Silent(Lone(), Window(0, 4 * SECOND))
  {
    PlainNames();
    hide StreamOf;
    assert Touching()[1] in Touching() && Lone()[1] in Lone();
  }

  /** Merged, the two gaps are one reported gap around the message. */
  lemma TouchingGapsHideAMessage(summary: Summary)
    requires Describes(Touching(), summary)
    ensures Window(0, 4 * SECOND) in summary.unexplained && !Silent(Touching(), Window(0, 4 * SECOND))
  {
    hide Touching, StampsOf, AllStamps, EventsOf, Describes, Silent, InEveryGap, DataChannel;
    HeardInTheMiddle();
    TouchingFacts();
    forall t | 0 <= t < 4 * SECOND ensures InEveryGap(Touching(), t) { TouchingGaps(t); }
    assert DataChannel(Touching(), "/a") && |StampsOf(Touching(), "/a")| > 1;
    WholeBagReported(Touching(), summary, Window(0, 4 * SECOND));
  }

  lemma LoneFacts()
    ensures StampsOf(Lone(), "/a") == [0, 4 * SECOND] && |StampsOf(Lone(), "/b")| == 1
    ensures AllStamps(Lone()) == [0, 2 * SECOND, 4 * SECOND] && EventsOf(Lone()) == []
    ensures forall c :: DataChannel(Lone(), c) <==> c == "/a" || c == "/b"
  {
    PlainNames();
    ThreeEntries(At("/a", 0), At("/b", 2), At("/a", 4), "/a");
    ThreeEntries(At("/a", 0), At("/b", 2), At("/a", 4), "/b");
    hide StreamOf;
    assert Lone()[0] in Lone() && Lone()[1] in Lone();
  }

  lemma LoneGaps(t: int)
    requires 0 <= t < 4 * SECOND
    ensures InEveryGap(Lone(), t)
  {
    LoneFacts();
    hide Lone, StampsOf, AllStamps, EventsOf, GapsIn, DataChannel, Points;
    InsideGap([0, 4 * SECOND], Window(0, 4 * SECOND), t);
  }

  /** Nothing asks the channel with one message: the gap of the other is reported around it. */
  lemma LoneMessageIsNotAsked(summary: Summary)
    requires Describes(Lone(), summary)
    ensures Window(0, 4 * SECOND) in summary.unexplained && !Silent(Lone(), Window(0, 4 * SECOND))
  {
    hide Lone, StampsOf, AllStamps, EventsOf, Describes, Silent, InEveryGap, DataChannel;
    HeardInTheMiddle();
    LoneFacts();
    forall t | 0 <= t < 4 * SECOND ensures InEveryGap(Lone(), t) { LoneGaps(t); }
    assert DataChannel(Lone(), "/a") && |StampsOf(Lone(), "/a")| > 1;
    WholeBagReported(Lone(), summary, Window(0, 4 * SECOND));
  }
}
