/** The measuring part of describe() and gaps_in (packages/dynrec/dynrec/bag.py). */
module Report {
  import opened Options
  import opened Windows
  import opened Timeline
  import Names

  /** One message read back: its channel, its log time, and what it decodes to if its channel carries events. */
  datatype Entry = Entry(topic: string, stamp: int, content: Event)

  function EventIn(r: Entry): Option<Event> { Parsed(r.topic, r.content) }

  datatype Basis = FromEvents | FromSpan | NoEvidence

  datatype ChannelTimes = ChannelTimes(
    count: nat, first: int, last: int, basis: Basis, recorded: Option<int>, active: Option<int>,
    rate: Option<real>, averagedRate: real)

  /** What the reader of a report is warned of; the wording is left out. */
  datatype Warning = NoSubscriptionEvents | NoPauseEvents | UnexplainedHole(hole: Window) | EndedForLowDisk | EndedForBagSize

  datatype Summary = Summary(
    start: int, end: int, events: seq<Event>, pauses: seq<Window>, channels: seq<(string, ChannelTimes)>,
    unexplained: seq<Window>, lowDiskStop: Option<Event>, bagSizeLimitStop: Option<Event>, warnings: seq<Warning>)

  /** UNEXPLAINED_GAP_SECONDS, in nanoseconds. */
  const UNEXPLAINED_GAP: int := 1_000_000_000

  // ---- gaps_in -------------------------------------------------------------------------------

  predicate Ascending(s: seq<int>) {
    forall i, j | 0 <= i < j < |s| :: s[i] <= s[j]
  }

  function InsertStamp(s: seq<int>, x: int): (r: seq<int>)
    requires Ascending(s)
    ensures Ascending(r)
    ensures forall y :: y in r <==> y in s || y == x
  {
    if s == [] then [x]
    else
      var n := |s| - 1;
      if s[n] <= x then s + [x]
      else
        var rest := InsertStamp(s[..n], x);
        assert forall i | 0 <= i < |rest| :: rest[i] in rest && rest[i] <= s[n];
        rest + [s[n]]
  }

  function SortStamps(s: seq<int>): (r: seq<int>)
    ensures Ascending(r)
    ensures forall y :: y in r <==> y in s
  {
    if s == [] then [] else InsertStamp(SortStamps(s[..|s| - 1]), s[|s| - 1])
  }

  function AdjacentPairs(s: seq<int>, threshold: int): (r: seq<Window>)
    ensures forall w :: w in r <==> w.end - w.start >= threshold && NextTo(s, w)
  {
    if |s| < 2 then []
    else
      var n := |s| - 1;
      var rest := AdjacentPairs(s[..n], threshold);
      assert NextTo(s, Window(s[n - 1], s[n])) by { assert s[n - 1] == s[n - 1] && s[n - 1 + 1] == s[n]; }
      assert forall w :: NextTo(s, w) <==> NextTo(s[..n], w) || w == Window(s[n - 1], s[n]) by {
        NextToStep(s);
      }
      if s[n] - s[n - 1] >= threshold then rest + [Window(s[n - 1], s[n])] else rest
  }

  ghost predicate NextTo(s: seq<int>, w: Window) {
    exists i :: 0 <= i < |s| - 1 && s[i] == w.start && s[i + 1] == w.end
  }

  lemma NextToStep(s: seq<int>)
    requires |s| >= 2
    ensures var n := |s| - 1;
            forall w :: NextTo(s, w) <==> NextTo(s[..n], w) || w == Window(s[n - 1], s[n])
  {
    var n := |s| - 1;
    forall w ensures NextTo(s, w) <==> NextTo(s[..n], w) || w == Window(s[n - 1], s[n]) {
      if NextTo(s, w) {
        var i :| 0 <= i < |s| - 1 && s[i] == w.start && s[i + 1] == w.end;
        if i < n - 1 { assert s[..n][i] == w.start && s[..n][i + 1] == w.end; }
      }
      if NextTo(s[..n], w) {
        var i :| 0 <= i < n - 1 && s[..n][i] == w.start && s[..n][i + 1] == w.end;
        assert s[i] == w.start && s[i + 1] == w.end;
      }
      if w == Window(s[n - 1], s[n]) {
        var i := n - 1;
        assert s[i] == w.start && s[i + 1] == w.end;
      }
    }
  }

  function GapsIn(stamps: seq<int>, threshold: int): seq<Window> {
    AdjacentPairs(SortStamps(stamps), threshold)
  }

  /** `w` joins two of the stamps, with none strictly between. */
  ghost predicate Consecutive(stamps: seq<int>, w: Window) {
    w.start < w.end && w.start in stamps && w.end in stamps && forall x | x in stamps :: x <= w.start || w.end <= x
  }

  lemma NextIsConsecutive(s: seq<int>, w: Window)
    requires NextTo(s, w) && Ascending(s) && w.start < w.end
    ensures Consecutive(s, w)
  {
    var i :| 0 <= i < |s| - 1 && s[i] == w.start && s[i + 1] == w.end;
    forall x | x in s ensures x <= w.start || w.end <= x {
      var j :| 0 <= j < |s| && s[j] == x;
    }
  }

  lemma ConsecutiveIsNext(s: seq<int>, w: Window)
    requires Consecutive(s, w) && Ascending(s)
    ensures NextTo(s, w)
  {
    var i := LastIndexOf(s, w.start);
    var j :| 0 <= j < |s| && s[j] == w.end;
    assert i + 1 < |s| && s[i + 1] in s;
  }

  /** gaps_in finds exactly the message-free stretches between neighbours, whatever the order read;
    * anything else it returns is empty (two messages with one stamp). */
  lemma GapsExact(stamps: seq<int>, threshold: int, w: Window)
    ensures w.start != w.end ==>
              (w in GapsIn(stamps, threshold) <==> Consecutive(stamps, w) && w.end - w.start >= threshold)
    ensures w in GapsIn(stamps, threshold) ==> w.start <= w.end
  {
    var s := SortStamps(stamps);
    assert Consecutive(s, w) <==> Consecutive(stamps, w);
    if NextTo(s, w) && w.start < w.end { NextIsConsecutive(s, w); }
    if Consecutive(s, w) { ConsecutiveIsNext(s, w); }
  }

  lemma {:induction false} LastIndexOf(s: seq<int>, x: int) returns (i: int)
    requires x in s
    ensures 0 <= i < |s| && s[i] == x && (i + 1 < |s| ==> s[i + 1] != x)
  {
    i := |s| - 1;
    if s[i] == x {
    } else {
      assert s == s[..i] + [s[i]];
      i := LastIndexOf(s[..i], x);
    }
  }

  // ---- one channel's times -----------------------------------------------------------------------

  function FirstOf(stamps: seq<int>): (r: int)
    requires stamps != []
    ensures r in stamps && forall x | x in stamps :: r <= x
  {
    var n := |stamps| - 1;
    assert stamps == stamps[..n] + [stamps[n]];
    if n == 0 then stamps[0] else Min(FirstOf(stamps[..n]), stamps[n])
  }

  function LastOf(stamps: seq<int>): (r: int)
    requires stamps != []
    ensures r in stamps && forall x | x in stamps :: x <= r
  {
    var n := |stamps| - 1;
    assert stamps == stamps[..n] + [stamps[n]];
    if n == 0 then stamps[0] else Max(LastOf(stamps[..n]), stamps[n])
  }

  function SpanOf(stamps: seq<int>): Window
    requires stamps != []
  {
    Window(FirstOf(stamps), LastOf(stamps))
  }

  /** NANOSECONDS_PER_SECOND. */
  const SECOND: int := 1_000_000_000

  /** rate_over: messages per second. */
  function RateOver(count: nat, time: Option<int>): Option<real> {
    if time.None? || time.value <= 0 then None else Some(count as real * SECOND as real / time.value as real)
  }

  function AveragedRate(count: nat, duration: int): real {
    if duration > 0 then count as real * SECOND as real / duration as real else 0.0
  }

  /** A channel's own times; `duration` is the bag's. */
  function Measure(stamps: seq<int>, windows: seq<Window>, pauses: seq<Window>, duration: int): ChannelTimes
    requires stamps != []
  {
    var span := [SpanOf(stamps)];
    var (basis, recorded, active) :=
      if windows != [] then (FromEvents, Some(LiveSeconds(windows, pauses)), Some(LiveSeconds(Intersect(windows, span), pauses)))
      else if |stamps| > 1 then (FromSpan, Some(LiveSeconds(span, pauses)), Some(LiveSeconds(span, pauses)))
      else (NoEvidence, None, None);
    ChannelTimes(|stamps|, FirstOf(stamps), LastOf(stamps), basis, recorded, active,
                 RateOver(|stamps|, active), AveragedRate(|stamps|, duration))
  }

  ghost predicate CountsInstants(times: ChannelTimes, stamps: seq<int>, covered: set<int>, paused: set<int>)
    requires stamps != []
  {
    match times.basis
    case FromEvents =>
      times.recorded == Some(|covered - paused|) && times.active == Some(|covered * Span(SpanOf(stamps)) - paused|)
    case FromSpan =>
      times.recorded == Some(|Span(SpanOf(stamps)) - paused|) && times.active == times.recorded
    case NoEvidence => times.recorded.None? && times.active.None?
  }

  /** A channel's times count instants: those in its windows and no pause, and of these the ones in the span its
    * messages cover; without windows, those of the span in no pause; with one message and no window, nothing. */
  lemma MeasureCounts(stamps: seq<int>, windows: seq<Window>, pauses: seq<Window>, duration: int)
    requires stamps != []
    ensures var times := Measure(stamps, windows, pauses, duration);
            && CountsInstants(times, stamps, Points(windows), Points(pauses))
            && (times.basis.FromEvents? <==> windows != []) && (times.basis.NoEvidence? <==> windows == [] && |stamps| == 1)
            && times.count == |stamps| && times.first == FirstOf(stamps) && times.last == LastOf(stamps)
            && times.rate == RateOver(times.count, times.active) && times.averagedRate == AveragedRate(times.count, duration)
  {
    hide LiveSeconds, Intersect, Points, Span, FirstOf, LastOf, RateOver, AveragedRate;
    if windows != [] {
      LiveCounts(windows, pauses);
      SpanCounts(windows, SpanOf(stamps), pauses);
    } else {
      SpanAlone(SpanOf(stamps), pauses);
    }
  }

  /** So many messages a second, over so many nanoseconds, are so many messages. */
  predicate Gives(rate: real, time: int, count: nat) { rate * time as real == count as real * 1_000_000_000.0 }

  lemma QuotientTimes(amount: real, over: real)
    requires over > 0.0
    ensures amount / over * over == amount
  {
  }

  lemma RatePer(count: nat, time: Option<int>)
    ensures RateOver(count, time).Some? <==> time.Some? && time.value > 0
    ensures time.Some? && time.value > 0 ==> Gives(RateOver(count, time).value, time.value, count)
  {
    if time.Some? && time.value > 0 {
      var amount := count as real * SECOND as real;
      QuotientTimes(amount, time.value as real);
      assert RateOver(count, time).value == amount / time.value as real;
    }
  }

  lemma AveragePer(count: nat, duration: int)
    ensures duration <= 0 ==> AveragedRate(count, duration) == 0.0
    ensures duration > 0 ==> Gives(AveragedRate(count, duration), duration, count)
  {
    if duration > 0 {
      var amount := count as real * SECOND as real;
      QuotientTimes(amount, duration as real);
      assert AveragedRate(count, duration) == amount / duration as real;
    }
  }

  /** A rate times the seconds it is over gives the messages back: there is a rate exactly when there was active time, and
    * the averaged rate is zero when the bag has no duration. */
  lemma RatesCount(stamps: seq<int>, windows: seq<Window>, pauses: seq<Window>, duration: int)
    requires stamps != []
    ensures var times := Measure(stamps, windows, pauses, duration);
            && (times.rate.Some? <==> times.active.Some? && times.active.value > 0)
            && (times.rate.Some? ==> Gives(times.rate.value, times.active.value, |stamps|))
            && (duration <= 0 ==> times.averagedRate == 0.0)
            && (duration > 0 ==> Gives(times.averagedRate, duration, |stamps|))
  {
    MeasureCounts(stamps, windows, pauses, duration);
    hide Measure, CountsInstants, FirstOf, LastOf, RateOver, AveragedRate, Gives;
    RatePer(|stamps|, Measure(stamps, windows, pauses, duration).active);
    AveragePer(|stamps|, duration);
  }

  lemma SpanAlone(span: Window, pauses: seq<Window>)
    ensures LiveSeconds([span], pauses) == |Span(span) - Points(pauses)|
  {
    PointsOfOne(span);
    LiveCounts([span], pauses);
  }

  lemma LiveCounts(windows: seq<Window>, pauses: seq<Window>)
    ensures LiveSeconds(windows, pauses) == |Points(windows) - Points(pauses)|
  {
    LiveIsMeasure(windows, pauses);
  }

  lemma SpanCounts(windows: seq<Window>, span: Window, pauses: seq<Window>)
    ensures LiveSeconds(Intersect(windows, [span]), pauses) == |Points(windows) * Span(span) - Points(pauses)|
  {
    PointsOfOne(span);
    IntersectExact(windows, [span]);
    LiveCounts(Intersect(windows, [span]), pauses);
  }

  // ---- describe --------------------------------------------------------------------------------

  function AllStamps(records: seq<Entry>): (r: seq<int>)
    ensures |r| == |records|
    ensures forall x | x in records :: x.stamp in r
  {
    if records == [] then []
    else
      var n := |records| - 1;
      assert records == records[..n] + [records[n]];
      AllStamps(records[..n]) + [records[n].stamp]
  }

  function StampsOf(records: seq<Entry>, topic: string): (r: seq<int>)
    ensures forall x :: x in r <==> exists rec :: rec in records && rec.topic == topic && rec.stamp == x
  {
    if records == [] then []
    else
      var n := |records| - 1;
      assert records == records[..n] + [records[n]];
      if records[n].topic == topic then StampsOf(records[..n], topic) + [records[n].stamp]
      else StampsOf(records[..n], topic)
  }

  function EventsOf(records: seq<Entry>): (r: seq<Event>)
    ensures forall e :: e in r <==> exists rec :: rec in records && EventIn(rec) == Some(e)
  {
    if records == [] then []
    else
      var n := |records| - 1;
      assert records == records[..n] + [records[n]];
      if EventIn(records[n]).Some? then EventsOf(records[..n]) + [EventIn(records[n]).value]
      else EventsOf(records[..n])
  }

  /** The places of the records on `topic`. */
  ghost function PlacesOf(records: seq<Entry>, topic: string): set<nat> {
    set i: nat | i < |records| && records[i].topic == topic
  }

  ghost function EventPlaces(records: seq<Entry>): set<nat> {
    set i: nat | i < |records| && EventIn(records[i]).Some?
  }

  /** The stamps read are those of the records, one each, in order. */
  lemma {:induction false} StampsInOrder(records: seq<Entry>, i: nat)
    requires i < |records|
    ensures AllStamps(records)[i] == records[i].stamp
  {
    var n := |records| - 1;
    if i == n {
    } else {
      StampsInOrder(records[..n], i);
    }
  }

  /** Every record counts once for its channel, however many are alike. */
  lemma {:induction false} RecordsCountOnce(records: seq<Entry>, topic: string)
    ensures |StampsOf(records, topic)| == |PlacesOf(records, topic)|
  {
    if records == [] {
      assert PlacesOf(records, topic) == {};
    } else {
      var n := |records| - 1;
      RecordsCountOnce(records[..n], topic);
      assert PlacesOf(records, topic) == PlacesOf(records[..n], topic) + if records[n].topic == topic then {n} else {};
    }
  }

  /** So does every event. */
  lemma {:induction false} EventsCountOnce(records: seq<Entry>)
    ensures |EventsOf(records)| == |EventPlaces(records)|
  {
    hide EventIn;
    if records == [] {
      assert EventPlaces(records) == {};
    } else {
      var n := |records| - 1;
      EventsCountOnce(records[..n]);
      assert EventPlaces(records) == EventPlaces(records[..n]) + if EventIn(records[n]).Some? then {n} else {};
    }
  }

  predicate DataChannel(records: seq<Entry>, topic: string) {
    StreamOf(topic).None? && exists r | r in records :: r.topic == topic
  }

  lemma HasStamps(records: seq<Entry>, topic: string)
    requires exists r | r in records :: r.topic == topic
    ensures StampsOf(records, topic) != []
  {
    var r :| r in records && r.topic == topic;
    assert r.stamp in StampsOf(records, topic);
  }

  /** From the bag's first stamp to its last. */
  function Duration(records: seq<Entry>): int
    requires records != []
  {
    LastOf(AllStamps(records)) - FirstOf(AllStamps(records))
  }

  /** One channel's times, given the bag's events, end and pauses. */
  ghost function TimesGiven(records: seq<Entry>, topic: string, events: seq<Event>, end: int, pauses: seq<Window>): ChannelTimes
    requires DataChannel(records, topic)
  {
    HasStamps(records, topic);
    Measure(StampsOf(records, topic), SubscribedWindows(events, topic, end), pauses, Duration(records))
  }

  ghost function TimesOf(records: seq<Entry>, topic: string): ChannelTimes
    requires records != [] && DataChannel(records, topic)
  {
    var end := LastOf(AllStamps(records));
    TimesGiven(records, topic, EventsOf(records), end, PauseWindows(EventsOf(records), Some(end)))
  }

  /** Every event carries the log time it was written with, as write_event does. */
  predicate Stamped(records: seq<Entry>) {
    forall r | r in records && EventIn(r).Some? :: r.content.stamp == r.stamp
  }

  lemma WindowsInsideBag(records: seq<Entry>, k: Track, t: int)
    requires records != [] && Stamped(records) && k.opening != k.closing
    ensures t in Points(EventWindows(k, EventsOf(records), LastOf(AllStamps(records)))) ==>
              FirstOf(AllStamps(records)) <= t < LastOf(AllStamps(records))
  {
    var stamps, events := AllStamps(records), EventsOf(records);
    forall e | e in events ensures FirstOf(stamps) <= e.stamp <= LastOf(stamps) {
      var r :| r in records && EventIn(r) == Some(e);
    }
    EventWindowsExact(k, events, LastOf(stamps), t);
  }

  lemma StampsInsideBag(records: seq<Entry>, topic: string)
    requires exists r | r in records :: r.topic == topic
    ensures StampsOf(records, topic) != []
    ensures forall x | x in StampsOf(records, topic) :: FirstOf(AllStamps(records)) <= x <= LastOf(AllStamps(records))
  {
    HasStamps(records, topic);
    forall x | x in StampsOf(records, topic) ensures x in AllStamps(records) {
      var r :| r in records && r.topic == topic && r.stamp == x;
    }
  }

  /** The bag, from its first stamp to its last. */
  function BagSpan(records: seq<Entry>): Window
    requires records != []
  {
    Window(FirstOf(AllStamps(records)), LastOf(AllStamps(records)))
  }

  lemma SubscribedInsideBag(records: seq<Entry>, topic: string)
    requires records != [] && Stamped(records)
    ensures Points(SubscribedWindows(EventsOf(records), topic, BagSpan(records).end)) <= Span(BagSpan(records))
  {
    forall t | t in Points(SubscribedWindows(EventsOf(records), topic, BagSpan(records).end)) ensures t in Span(BagSpan(records)) {
      WindowsInsideBag(records, SubscriptionTrack(topic), t);
    }
    hide FirstOf, LastOf;
  }

  /** A channel is never reported active longer than recorded, nor recorded longer than the bag ran. */
  lemma TimesAreNested(records: seq<Entry>, topic: string)
    requires records != [] && Stamped(records) && DataChannel(records, topic)
    ensures var times := TimesOf(records, topic);
            times.recorded.Some? ==>
              && times.active.Some?
              && 0 <= times.active.value <= times.recorded.value <= Duration(records)
  {
    hide Measure, Points, Span, StampsOf, AllStamps, EventsOf, SubscribedWindows, PauseWindows, FirstOf, LastOf;
    StampsInsideBag(records, topic);
    SubscribedInsideBag(records, topic);
    var events, bag := EventsOf(records), BagSpan(records);
    MeasureNested(StampsOf(records, topic), SubscribedWindows(events, topic, bag.end), PauseWindows(events, Some(bag.end)), bag);
  }

  /** The rate while active is at least the rate over the whole bag. */
  lemma RatesNested(times: ChannelTimes, duration: int)
    requires times.rate == RateOver(times.count, times.active) && times.averagedRate == AveragedRate(times.count, duration)
    requires times.active.Some? ==> times.active.value <= duration
    ensures times.rate.Some? ==> times.averagedRate <= times.rate.value
  {
    if times.rate.Some? {
      Quotients(times.count as real * SECOND as real, times.active.value as real, duration as real);
    }
  }

  /** Nor is its rate while active ever reported below its rate over the whole bag. */
  lemma RateIsNotBelowAverage(records: seq<Entry>, topic: string)
    requires records != [] && Stamped(records) && DataChannel(records, topic)
    ensures var times := TimesOf(records, topic); times.rate.Some? ==> times.averagedRate <= times.rate.value
  {
    TimesAreNested(records, topic);
    var end := LastOf(AllStamps(records));
    var events := EventsOf(records);
    MeasureCounts(StampsOf(records, topic), SubscribedWindows(events, topic, end), PauseWindows(events, Some(end)), Duration(records));
    hide Measure, SubscribedWindows, PauseWindows, AllStamps, StampsOf, EventsOf, RateOver, AveragedRate, CountsInstants;
    RatesNested(TimesOf(records, topic), Duration(records));
  }

  lemma Quotients(amount: real, less: real, more: real)
    requires 0.0 <= amount && 0.0 < less <= more
    ensures amount / more <= amount / less
  {
    assert amount / less * less == amount && amount / more * more == amount;
  }

  lemma MeasureNested(mine: seq<int>, windows: seq<Window>, pauses: seq<Window>, bag: Window)
    requires mine != [] && forall x | x in mine :: bag.start <= x <= bag.end
    requires Points(windows) <= Span(bag)
    ensures var times := Measure(mine, windows, pauses, bag.end - bag.start);
            times.recorded.Some? ==>
              && times.active.Some?
              && 0 <= times.active.value <= times.recorded.value <= bag.end - bag.start
  {
    var span := Window(FirstOf(mine), LastOf(mine));
    PointsOfOne(span);
    assert bag.start <= span.start <= span.end <= bag.end;
    LiveWithin(windows, pauses, bag);
    LiveWithin([span], pauses, bag);
    IntersectExact(windows, [span]);
    LiveMonotone(Intersect(windows, [span]), windows, pauses, pauses);
    LiveIsMeasure(Intersect(windows, [span]), pauses);
  }

  lemma LiveWithin(windows: seq<Window>, pauses: seq<Window>, bag: Window)
    requires Points(windows) <= Span(bag) && bag.start <= bag.end
    ensures 0 <= LiveSeconds(windows, pauses) <= bag.end - bag.start
  {
    LiveIsMeasure(windows, pauses);
    SubsetSize(Points(windows) - Points(pauses), Span(bag));
    SpanSize(bag);
  }

  /** What the reading loop has collected: stamps by channel. */
  ghost predicate Collected(records: seq<Entry>, stamps: map<string, seq<int>>) {
    && (forall c :: c in stamps <==> exists r | r in records :: r.topic == c)
    && (forall c | c in stamps :: stamps[c] == StampsOf(records, c))
  }

  lemma CollectOne(records: seq<Entry>, stamps: map<string, seq<int>>, r: Entry)
    requires Collected(records, stamps)
    ensures var known := if r.topic in stamps then stamps[r.topic] else [];
            Collected(records + [r], stamps[r.topic := known + [r.stamp]])
  {
    var after := records + [r];
    assert after[..|records|] == records && r in after;
    if r.topic !in stamps { NoStamps(records, r.topic); }
    forall x | x in records ensures x in after {}
    forall c ensures StampsOf(after, c) == StampsOf(records, c) + if r.topic == c then [r.stamp] else [] {}
    hide StampsOf;
  }

  lemma ReadStep(records: seq<Entry>, i: nat)
    requires i < |records|
    ensures records[..i + 1] == records[..i] + [records[i]]
    ensures AllStamps(records[..i + 1]) == AllStamps(records[..i]) + [records[i].stamp]
    ensures EventsOf(records[..i + 1]) == EventsOf(records[..i]) + if EventIn(records[i]).Some? then [EventIn(records[i]).value] else []
  {
    assert records[..i + 1][..i] == records[..i];
  }

  /** describe's reading loop: the stamp dictionary and the event list fill up record by record. */
  method ReadBag(records: seq<Entry>) returns (stamps: map<string, seq<int>>, events: seq<Event>, all: seq<int>)
    ensures Collected(records, stamps)
    ensures events == EventsOf(records) && all == AllStamps(records)
  {
    stamps, events, all := map[], [], [];
    for i := 0 to |records|
      invariant Collected(records[..i], stamps)
      invariant events == EventsOf(records[..i]) && all == AllStamps(records[..i])
    {
      var record := records[i];
      ReadStep(records, i);
      CollectOne(records[..i], stamps, record);
      var known := if record.topic in stamps then stamps[record.topic] else [];
      stamps := stamps[record.topic := known + [record.stamp]];
      all := all + [record.stamp];
      var parsed := EventIn(record);
      if parsed.Some? { events := events + [parsed.value]; }
    }
    assert records[..|records|] == records;
  }

  /** One channel, from its own stamps and the bag's events. */
  method MeasureChannel(topic: string, mine: seq<int>, events: seq<Event>, end: int, pauses: seq<Window>, duration: int)
    returns (times: ChannelTimes)
    requires mine != []
    ensures times == Measure(mine, SubscribedWindows(events, topic, end), pauses, duration)
    ensures CountsInstants(times, mine, Points(SubscribedWindows(events, topic, end)), Points(pauses))
  {
    MeasureCounts(mine, SubscribedWindows(events, topic, end), pauses, duration);
    hide Measure, CountsInstants;
    var windows := ComputeEventWindows(SubscriptionTrack(topic), events, end);
    times := Measure(mine, windows, pauses, duration);
  }

  /** The gaps of those of `names` that have more than one message, in order. */
  function GapLists(records: seq<Entry>, names: seq<string>): seq<seq<Window>> {
    if names == [] then []
    else
      var mine := StampsOf(records, names[|names| - 1]);
      GapLists(records, names[..|names| - 1]) + if |mine| > 1 then [GapsIn(mine, UNEXPLAINED_GAP)] else []
  }

  /** `channels` are the times of `names`, in order. */
  ghost predicate Times(records: seq<Entry>, names: seq<string>, channels: seq<(string, ChannelTimes)>,
                        events: seq<Event>, end: int, pauses: seq<Window>)
  {
    && |channels| == |names|
    && forall i | 0 <= i < |names| ::
         DataChannel(records, names[i]) && channels[i] == (names[i], TimesGiven(records, names[i], events, end, pauses))
  }

  lemma NextChannel(records: seq<Entry>, names: seq<string>, i: nat, channels: seq<(string, ChannelTimes)>,
                    events: seq<Event>, end: int, pauses: seq<Window>)
    requires i < |names| && Times(records, names[..i], channels, events, end, pauses) && DataChannel(records, names[i])
    ensures Times(records, names[..i + 1], channels + [(names[i], TimesGiven(records, names[i], events, end, pauses))],
                  events, end, pauses)
    ensures GapLists(records, names[..i + 1]) == GapLists(records, names[..i]) +
              if |StampsOf(records, names[i])| > 1 then [GapsIn(StampsOf(records, names[i]), UNEXPLAINED_GAP)] else []
  {
    hide TimesGiven, GapsIn, StampsOf;
    assert names[..i + 1][..i] == names[..i];
  }

  /** describe's loop over the data channels, in sorted order: their times, and the gaps of those with gaps. */
  method MeasureChannels(ghost records: seq<Entry>, stamps: map<string, seq<int>>, names: seq<string>,
                         events: seq<Event>, end: int, pauses: seq<Window>, duration: int)
    returns (channels: seq<(string, ChannelTimes)>, gaps: seq<seq<Window>>)
    requires records != [] && duration == Duration(records)
    requires forall c | c in names :: DataChannel(records, c) && c in stamps && stamps[c] == StampsOf(records, c)
    ensures Times(records, names, channels, events, end, pauses) && gaps == GapLists(records, names)
  {
    hide Measure, SubscribedWindows, GapsIn, StampsOf;
    channels, gaps := [], [];
    for i := 0 to |names|
      invariant Times(records, names[..i], channels, events, end, pauses) && gaps == GapLists(records, names[..i])
    {
      var topic := names[i];
      assert topic in names;
      HasStamps(records, topic);
      NextChannel(records, names, i, channels, events, end, pauses);
      var times := MeasureChannel(topic, stamps[topic], events, end, pauses, duration);
      channels := channels + [(topic, times)];
      if |stamps[topic]| > 1 { gaps := gaps + [GapsIn(stamps[topic], UNEXPLAINED_GAP)]; }
    }
    assert names[..|names|] == names;
  }

  /** The last event of a kind in stamp order. */
  function LastEvent(events: seq<Event>, kind: Kind): (r: Option<Event>)
    ensures r.Some? <==> exists e :: e in events && e.kind == kind
    ensures r.Some? ==> r.value in events && r.value.kind == kind
    ensures r.Some? && ByStamp(events) ==> forall e | e in events && e.kind == kind :: e.stamp <= r.value.stamp
  {
    if events == [] then None
    else
      var n := |events| - 1;
      assert events == events[..n] + [events[n]];
      if events[n].kind == kind then Some(events[n]) else LastEvent(events[..n], kind)
  }

  /** Exactly these warnings are given: for a kind of event the bag has none of, for each gap, and for each stop. */
  ghost predicate Warns(warnings: seq<Warning>, events: seq<Event>, unexplained: seq<Window>, lowDisk: Option<Event>,
                        bagSize: Option<Event>)
  {
    && (NoSubscriptionEvents in warnings <==> !exists e :: e in events && e.kind.Subscription?)
    && (NoPauseEvents in warnings <==> !exists e :: e in events && e.kind.Pause?)
    && (forall w :: UnexplainedHole(w) in warnings <==> w in unexplained)
    && (EndedForLowDisk in warnings <==> lowDisk.Some?)
    && (EndedForBagSize in warnings <==> bagSize.Some?)
  }

  /** _warnings. */
  method Warn(events: seq<Event>, unexplained: seq<Window>, lowDisk: Option<Event>, bagSize: Option<Event>)
    returns (warnings: seq<Warning>)
    ensures Warns(warnings, events, unexplained, lowDisk, bagSize)
  {
    warnings := [];
    if !exists e | e in events :: e.kind.Subscription? { warnings := warnings + [NoSubscriptionEvents]; }
    if !exists e | e in events :: e.kind.Pause? { warnings := warnings + [NoPauseEvents]; }
    ghost var before := warnings;
    for i := 0 to |unexplained|
      invariant forall x :: x in warnings <==> x in before || exists w :: w in unexplained[..i] && x == UnexplainedHole(w)
    {
      assert unexplained[..i + 1] == unexplained[..i] + [unexplained[i]];
      warnings := warnings + [UnexplainedHole(unexplained[i])];
    }
    assert unexplained[..|unexplained|] == unexplained;
    if lowDisk.Some? { warnings := warnings + [EndedForLowDisk]; }
    if bagSize.Some? { warnings := warnings + [EndedForBagSize]; }
  }

  /** describe's measurements: None for an empty bag, else one entry per channel that carries no events, and
    * the gaps nothing explains. */
  method Describe(records: seq<Entry>) returns (summary: Option<Summary>)
    ensures summary.None? <==> records == []
    ensures summary.Some? ==> Describes(records, summary.value)
  {
    hide Measure, GapsIn, GapLists, TimesGiven, Unexplained, StampsOf, Warns, LastEvent, EventsOf, AllStamps, FirstOf, LastOf;
    var stamps, found, all := ReadBag(records);
    if records == [] { return None; }
    var start, end := FirstOf(all), LastOf(all);
    var events := SortByStamp(found);
    var pauses := ComputeEventWindows(PauseTrack(), events, end);
    SortedWindows(PauseTrack(), found, end);
    var names := Names.SortedKeys(set c | c in stamps && StreamOf(c).None?);
    assert Listed(records, names);
    var channels, gaps := MeasureChannels(records, stamps, names, events, end, pauses, end - start);
    SortedTimes(records, names, channels, found, end, pauses);
    var unexplained := UnexplainedGaps(gaps, pauses, UNEXPLAINED_GAP);
    var lowDisk, bagSize := LastEvent(events, LowDisk), LastEvent(events, BagSizeLimit);
    var warnings := Warn(events, unexplained, lowDisk, bagSize);
    summary := Some(Summary(start, end, events, pauses, channels, unexplained, lowDisk, bagSize, warnings));
  }

  /** Sorting the events first does not change a channel's times. */
  lemma SortedTimes(records: seq<Entry>, names: seq<string>, channels: seq<(string, ChannelTimes)>,
                    events: seq<Event>, end: int, pauses: seq<Window>)
    requires Times(records, names, channels, SortByStamp(events), end, pauses)
    ensures Times(records, names, channels, events, end, pauses)
  {
    forall i | 0 <= i < |names|
      ensures channels[i] == (names[i], TimesGiven(records, names[i], events, end, pauses))
    {
      SortedWindows(SubscriptionTrack(names[i]), events, end);
    }
    hide TimesGiven;
  }

  /** The data channels, strictly sorted. */
  ghost predicate Listed(records: seq<Entry>, names: seq<string>) {
    Names.Strict(names) && forall c :: c in names <==> DataChannel(records, c)
  }

  ghost predicate Describes(records: seq<Entry>, summary: Summary)
    requires records != []
  {
    && summary.start == FirstOf(AllStamps(records)) && summary.end == LastOf(AllStamps(records))
    && summary.events == SortByStamp(EventsOf(records))
    && summary.pauses == PauseWindows(EventsOf(records), Some(summary.end))
    && summary.lowDiskStop == LastEvent(summary.events, LowDisk)
    && summary.bagSizeLimitStop == LastEvent(summary.events, BagSizeLimit)
    && Warns(summary.warnings, summary.events, summary.unexplained, summary.lowDiskStop, summary.bagSizeLimitStop)
    && exists names ::
         && Listed(records, names)
         && Times(records, names, summary.channels, EventsOf(records), summary.end, summary.pauses)
         && summary.unexplained == Unexplained(GapLists(records, names), summary.pauses, UNEXPLAINED_GAP)
  }

  predicate HasGaps(records: seq<Entry>, c: string, l: seq<Window>) {
    |StampsOf(records, c)| > 1 && l == GapsIn(StampsOf(records, c), UNEXPLAINED_GAP)
  }

  lemma {:induction false} GapListsHold(records: seq<Entry>, names: seq<string>, l: seq<Window>)
    ensures l in GapLists(records, names) <==> exists c :: c in names && HasGaps(records, c, l)
  {
    if names == [] {
    } else {
      var n := |names| - 1;
      assert names == names[..n] + [names[n]];
      GapListsHold(records, names[..n], l);
      hide GapsIn;
      assert HasGaps(records, names[n], l) <==>
             |StampsOf(records, names[n])| > 1 && l == GapsIn(StampsOf(records, names[n]), UNEXPLAINED_GAP);
    }
  }

  /** The gaps a summary reports unexplained: `w` is one exactly when it is a maximal stretch inside some gap of
    * every data channel with more than one message, a second or longer, and no single pause covers more than
    * half of it. */
  lemma ReportedGapsExact(records: seq<Entry>, summary: Summary, w: Window)
    requires records != [] && Describes(records, summary)
    ensures w in summary.unexplained <==>
            && (exists c :: DataChannel(records, c) && |StampsOf(records, c)| > 1)
            && MaximalRun(CommonGaps(records), w) && w.end - w.start >= UNEXPLAINED_GAP
            && !exists p :: MaximalRun(Points(summary.pauses), p) && 2 * Overlap(w, p) > w.end - w.start
  {
    var names :| Listed(records, names)
      && Times(records, names, summary.channels, EventsOf(records), summary.end, summary.pauses)
      && summary.unexplained == Unexplained(GapLists(records, names), summary.pauses, UNEXPLAINED_GAP);
    hide Describes, Times, Measure, GapLists, GapsIn, Unexplained, CommonGaps, StampsOf, Overlap, AllStamps, Points, MaximalRun;
    UnexplainedFor(records, names, summary.pauses, w);
  }

  lemma UnexplainedFor(records: seq<Entry>, names: seq<string>, pauses: seq<Window>, w: Window)
    requires records != [] && Listed(records, names)
    ensures w in Unexplained(GapLists(records, names), pauses, UNEXPLAINED_GAP) <==>
            && (exists c :: DataChannel(records, c) && |StampsOf(records, c)| > 1)
            && MaximalRun(CommonGaps(records), w) && w.end - w.start >= UNEXPLAINED_GAP
            && !exists p :: MaximalRun(Points(pauses), p) && 2 * Overlap(w, p) > w.end - w.start
  {
    var lists := GapLists(records, names);
    hide GapLists, GapsIn, Unexplained, CommonGaps, StampsOf, Overlap, AllStamps, Points, MaximalRun;
    UnexplainedExact(lists, pauses, UNEXPLAINED_GAP, w);
    if exists c :: DataChannel(records, c) && |StampsOf(records, c)| > 1 {
      CommonIsShared(records, names);
    } else {
      NoGapLists(records, names);
    }
  }

  lemma NoGapLists(records: seq<Entry>, names: seq<string>)
    requires Listed(records, names) && !exists c :: DataChannel(records, c) && |StampsOf(records, c)| > 1
    ensures GapLists(records, names) == []
  {
    var lists := GapLists(records, names);
    hide GapLists, GapsIn;
    if lists != [] { GapListsHold(records, names, lists[0]); }
  }

  /** The instants that lie in a gap of every data channel with more than one message. */
  ghost function CommonGaps(records: seq<Entry>): set<int>
    requires records != []
  {
    set t | t in Span(Window(FirstOf(AllStamps(records)), LastOf(AllStamps(records)))) && InEveryGap(records, t)
  }

  /** Every data channel with more than one message has `t` in one of its gaps. */
  ghost predicate InEveryGap(records: seq<Entry>, t: int) {
    forall c | DataChannel(records, c) && |StampsOf(records, c)| > 1 ::
      t in Points(GapsIn(StampsOf(records, c), UNEXPLAINED_GAP))
  }

  lemma SomeGapList(records: seq<Entry>, names: seq<string>, c: string)
    requires Listed(records, names) && DataChannel(records, c) && |StampsOf(records, c)| > 1
    ensures GapLists(records, names) != []
  {
    hide GapsIn, GapLists;
    assert HasGaps(records, c, GapsIn(StampsOf(records, c), UNEXPLAINED_GAP));
    GapListsHold(records, names, GapsIn(StampsOf(records, c), UNEXPLAINED_GAP));
  }

  lemma CommonIsShared(records: seq<Entry>, names: seq<string>)
    requires records != [] && Listed(records, names)
    requires exists c :: DataChannel(records, c) && |StampsOf(records, c)| > 1
    ensures GapLists(records, names) != [] && SharedPoints(GapLists(records, names)) == CommonGaps(records)
  {
    hide GapsIn, GapLists, SharedPoints, Points;
    var c :| DataChannel(records, c) && |StampsOf(records, c)| > 1;
    SomeGapList(records, names, c);
    var lists := GapLists(records, names);
    forall t ensures t in SharedPoints(lists) <==> t in CommonGaps(records) {
      InEveryChannel(lists, t);
      GapListsMean(records, names, t);
      if InEveryGap(records, t) {
        assert t in Points(GapsIn(StampsOf(records, c), UNEXPLAINED_GAP));
        GapInsideBag(records, c, t);
      }
    }
  }

  lemma GapListsMean(records: seq<Entry>, names: seq<string>, t: int)
    requires Listed(records, names)
    ensures (forall l | l in GapLists(records, names) :: t in Points(l)) <==> InEveryGap(records, t)
  {
    if forall l | l in GapLists(records, names) :: t in Points(l) {
      forall c | DataChannel(records, c) && |StampsOf(records, c)| > 1
        ensures t in Points(GapsIn(StampsOf(records, c), UNEXPLAINED_GAP))
      {
        GapListsHold(records, names, GapsIn(StampsOf(records, c), UNEXPLAINED_GAP));
      }
    } else {
      var l :| l in GapLists(records, names) && t !in Points(l);
      GapListsHold(records, names, l);
    }
  }

  lemma GapInsideBag(records: seq<Entry>, c: string, t: int)
    requires records != [] && DataChannel(records, c) && t in Points(GapsIn(StampsOf(records, c), UNEXPLAINED_GAP))
    ensures FirstOf(AllStamps(records)) <= t < LastOf(AllStamps(records))
  {
    var w :| w in GapsIn(StampsOf(records, c), UNEXPLAINED_GAP) && t in Span(w);
    GapsExact(StampsOf(records, c), UNEXPLAINED_GAP, w);
    StampsInsideBag(records, c);
  }

  lemma {:induction false} NoStamps(records: seq<Entry>, topic: string)
    requires !exists r | r in records :: r.topic == topic
    ensures StampsOf(records, topic) == []
  {
    if records == [] {
    } else {
      var n := |records| - 1;
      assert records[n] in records;
      NoStamps(records[..n], topic);
    }
  }
}
