/** From recorder events to windows: _event_windows and its two callers (packages/dynrec/dynrec/bag.py). */
module Timeline {
  import opened Options
  import opened Windows

  datatype Kind = Subscription | Pause | Split | LowDisk | BagSizeLimit

  datatype Action = Subscribed | Unsubscribed | Paused | Resumed | SplitDone | Stopped | Unknown(code: int)

  /** One recorder event, as the reader sees it; `topic` is empty where the event names none. */
  datatype Event = Event(kind: Kind, action: Action, stamp: int, topic: string)

  // ---- event streams ------------------------------------------------------------------------------------

  /** EVENT_STREAMS (packages/dynrec/dynrec/results.py): how the name of an event channel ends. */
  function StreamSuffix(kind: Kind): string {
    match kind
    case Subscription => "/events/subscription_change"
    case Pause => "/events/pause"
    case Split => "/events/file_split"
    case LowDisk => "/events/low_disk"
    case BagSizeLimit => "/events/bag_size_limit"
  }

  predicate EndsWith(name: string, suffix: string) {
    |suffix| <= |name| && name[|name| - |suffix|..] == suffix
  }

  /** Whose events the reader takes a channel to carry, by its name alone. */
  function StreamOf(topic: string): Option<Kind> {
    if EndsWith(topic, StreamSuffix(Subscription)) then Some(Subscription)
    else if EndsWith(topic, StreamSuffix(Pause)) then Some(Pause)
    else if EndsWith(topic, StreamSuffix(Split)) then Some(Split)
    else if EndsWith(topic, StreamSuffix(LowDisk)) then Some(LowDisk)
    else if EndsWith(topic, StreamSuffix(BagSizeLimit)) then Some(BagSizeLimit)
    else None
  }

  /** What the reader takes from an event channel: the kind is the channel's, the rest the message's. */
  function Parsed(topic: string, content: Event): Option<Event> {
    if StreamOf(topic).Some? then Some(content.(kind := StreamOf(topic).value)) else None
  }

  lemma SuffixesDiffer(name: string, a: Kind, b: Kind)
    requires EndsWith(name, StreamSuffix(a)) && EndsWith(name, StreamSuffix(b))
    ensures a == b
  {
    var x, y := StreamSuffix(a), StreamSuffix(b);
    assert |x| >= 5 && |y| >= 5;
    assert name[|name| - 5..] == x[|x| - 5..] == y[|y| - 5..];
  }

  /** A channel belongs to the one stream whose suffix its name ends with. */
  lemma StreamIsSuffix(name: string, kind: Kind)
    ensures StreamOf(name) == Some(kind) <==> EndsWith(name, StreamSuffix(kind))
  {
    hide StreamSuffix, EndsWith;
    if EndsWith(name, StreamSuffix(kind)) && StreamOf(name).Some? { SuffixesDiffer(name, kind, StreamOf(name).value); }
  }

  // ---- tracks -------------------------------------------------------------------------------------------

  /** What _event_windows is asked to follow: which events count, and which actions open and close. */
  datatype Track = Track(matches: Event -> bool, opening: Action, closing: Action)

  function SubscriptionTrack(topic: string): Track {
    Track((e: Event) => e.kind == Subscription && e.topic == topic, Subscribed, Unsubscribed)
  }

  function PauseTrack(): Track {
    Track((e: Event) => e.kind == Pause, Paused, Resumed)
  }

  predicate Toggles(k: Track, e: Event) {
    k.matches(e) && (e.action == k.opening || e.action == k.closing)
  }

  predicate Eligible(k: Track, e: Event, t: int) { Toggles(k, e) && e.stamp <= t }

  // ---- the reference meaning: the last toggle at or before an instant --------------------------

  /** Event `i` is the last toggle at or before `t`, in stamp order with ties kept in list order. */
  ghost predicate Deciding(k: Track, events: seq<Event>, i: int, t: int) {
    && 0 <= i < |events| && Eligible(k, events[i], t)
    && forall j | 0 <= j < |events| && Eligible(k, events[j], t) ::
         events[j].stamp < events[i].stamp || (events[j].stamp == events[i].stamp && j <= i)
  }

  ghost predicate OpenAt(k: Track, events: seq<Event>, t: int) {
    exists i :: Deciding(k, events, i, t) && events[i].action == k.opening
  }

  ghost predicate ClosesAfter(k: Track, events: seq<Event>, t: int) {
    exists e :: e in events && k.matches(e) && e.action == k.closing && t < e.stamp
  }

  /** The deciding event found in one pass over the list, whatever its order. */
  function Later(k: Track, best: Option<Event>, e: Event, t: int): Option<Event> {
    if Eligible(k, e, t) && (best.None? || best.value.stamp <= e.stamp) then Some(e) else best
  }

  function Latest(k: Track, events: seq<Event>, t: int): (r: Option<Event>)
    ensures r.Some? ==> r.value in events && Eligible(k, r.value, t)
  {
    if events == [] then None
    else
      var n := |events| - 1;
      Later(k, Latest(k, events[..n], t), events[n], t)
  }

  predicate LatestOpens(k: Track, events: seq<Event>, t: int) {
    var e := Latest(k, events, t);
    e.Some? && e.value.action == k.opening
  }

  /** Appending `e` either makes it the deciding event or leaves the previous one in place. */
  lemma DecidingStep(k: Track, before: seq<Event>, e: Event, i: int, t: int)
    requires Deciding(k, before, i, t)
    ensures if Eligible(k, e, t) && before[i].stamp <= e.stamp
            then Deciding(k, before + [e], |before|, t)
            else Deciding(k, before + [e], i, t)
  {
  }

  lemma {:induction false} LatestIsDeciding(k: Track, events: seq<Event>, t: int)
    ensures Latest(k, events, t).Some? ==>
              exists i :: Deciding(k, events, i, t) && events[i] == Latest(k, events, t).value
    ensures Latest(k, events, t).None? ==> forall e | e in events :: !Eligible(k, e, t)
  {
    if events == [] {
    } else {
      var n := |events| - 1;
      var before, e := events[..n], events[n];
      assert events == before + [e];
      LatestIsDeciding(k, before, t);
      var best := Latest(k, before, t);
      if best.Some? {
        var i :| Deciding(k, before, i, t) && before[i] == best.value;
        DecidingStep(k, before, e, i, t);
      } else if Eligible(k, e, t) {
        forall j | 0 <= j < n ensures events[j] in before {}
        assert Deciding(k, events, n, t);
      }
    }
  }

  lemma OpenAtIsLatest(k: Track, events: seq<Event>, t: int)
    ensures OpenAt(k, events, t) <==> LatestOpens(k, events, t)
  {
    LatestIsDeciding(k, events, t);
    if OpenAt(k, events, t) {
      var i :| Deciding(k, events, i, t) && events[i].action == k.opening;
      assert events[i] in events;
      var j :| Deciding(k, events, j, t) && events[j] == Latest(k, events, t).value;
      assert i == j;
    }
  }

  // ---- sorted(events, key=stamp): stable ---------------------------------------------------------

  predicate ByStamp(events: seq<Event>) {
    forall i, j | 0 <= i < j < |events| :: events[i].stamp <= events[j].stamp
  }

  function InsertByStamp(events: seq<Event>, e: Event): (r: seq<Event>)
    requires ByStamp(events)
    ensures ByStamp(r)
    ensures forall x :: x in r <==> x in events || x == e
  {
    if events == [] then [e]
    else
      var n := |events| - 1;
      if events[n].stamp <= e.stamp then events + [e]
      else
        var rest := InsertByStamp(events[..n], e);
        assert forall x | x in rest :: x.stamp <= events[n].stamp;
        rest + [events[n]]
  }

  function SortByStamp(events: seq<Event>): (r: seq<Event>)
    ensures ByStamp(r)
    ensures forall x :: x in r <==> x in events
  {
    if events == [] then [] else InsertByStamp(SortByStamp(events[..|events| - 1]), events[|events| - 1])
  }

  /** An earlier and a later stamp may be looked at in either order. */
  lemma LaterCommute(k: Track, best: Option<Event>, early: Event, late: Event, t: int)
    requires early.stamp < late.stamp
    ensures Later(k, Later(k, best, early, t), late, t) == Later(k, Later(k, best, late, t), early, t)
            || (best.Some? && best.value.stamp > late.stamp)
  {
  }

  /** Stable insertion moves an event past later ones only, so it does not change who decides. */
  lemma {:induction false} InsertKeepsLatest(k: Track, events: seq<Event>, e: Event, t: int)
    requires ByStamp(events)
    ensures Latest(k, InsertByStamp(events, e), t) == Later(k, Latest(k, events, t), e, t)
  {
    var n := |events| - 1;
    if events == [] || events[n].stamp <= e.stamp {
      assert (events + [e])[..|events|] == events;
    } else {
      var rest := InsertByStamp(events[..n], e);
      InsertKeepsLatest(k, events[..n], e, t);
      assert (rest + [events[n]])[..|rest|] == rest;
      LaterCommute(k, Latest(k, events[..n], t), e, events[n], t);
      hide Later;
    }
  }

  lemma {:induction false} SortKeepsLatest(k: Track, events: seq<Event>, t: int)
    ensures Latest(k, SortByStamp(events), t) == Latest(k, events, t)
  {
    if events == [] {
    } else {
      var n := |events| - 1;
      SortKeepsLatest(k, events[..n], t);
      InsertKeepsLatest(k, SortByStamp(events[..n]), events[n], t);
    }
  }

  /** The events of one stamp, in order. */
  function AtStamp(events: seq<Event>, t: int): seq<Event> {
    if events == [] then []
    else
      var n := |events| - 1;
      AtStamp(events[..n], t) + if events[n].stamp == t then [events[n]] else []
  }

  lemma AtStampAppend(events: seq<Event>, e: Event, t: int)
    ensures AtStamp(events + [e], t) == AtStamp(events, t) + if e.stamp == t then [e] else []
  {
    assert (events + [e])[..|events|] == events;
  }

  lemma {:induction false} InsertIsStable(events: seq<Event>, e: Event, t: int)
    requires ByStamp(events)
    ensures AtStamp(InsertByStamp(events, e), t) == AtStamp(events, t) + if e.stamp == t then [e] else []
  {
    hide AtStamp;
    var n := |events| - 1;
    if events == [] || events[n].stamp <= e.stamp {
      AtStampAppend(events, e, t);
      assert InsertByStamp(events, e) == events + [e];
    } else {
      InsertIsStable(events[..n], e, t);
      AtStampAppend(InsertByStamp(events[..n], e), events[n], t);
      AtStampAppend(events[..n], events[n], t);
      assert events == events[..n] + [events[n]];
    }
  }

  /** Sorting loses, adds and repeats nothing, and leaves events of one stamp in the order they were read. */
  lemma {:induction false} SortIsStable(events: seq<Event>, t: int)
    ensures AtStamp(SortByStamp(events), t) == AtStamp(events, t)
  {
    if events == [] {
    } else {
      var n := |events| - 1;
      SortIsStable(events[..n], t);
      InsertIsStable(SortByStamp(events[..n]), events[n], t);
    }
  }

  // ---- _event_windows ----------------------------------------------------------------------------

  datatype Scan = Scan(windows: seq<Window>, since: Option<int>)

  function ScanStep(k: Track, s: Scan, e: Event): Scan {
    if !k.matches(e) then s
    else if e.action == k.opening && s.since.None? then s.(since := Some(e.stamp))
    else if e.action == k.closing && s.since.Some? then
      Scan(s.windows + [Window(s.since.value, e.stamp)], None)
    else s
  }

  function ScanAll(k: Track, events: seq<Event>): Scan {
    if events == [] then Scan([], None)
    else ScanStep(k, ScanAll(k, events[..|events| - 1]), events[|events| - 1])
  }

  function Finish(s: Scan, end: int): seq<Window> {
    if s.since.Some? then s.windows + [Window(s.since.value, end)] else s.windows
  }

  function EventWindows(k: Track, events: seq<Event>, end: int): seq<Window> {
    Merge(Finish(ScanAll(k, SortByStamp(events)), end))
  }

  lemma ScanAllStep(k: Track, events: seq<Event>, i: nat)
    requires i < |events|
    ensures ScanAll(k, events[..i + 1]) == ScanStep(k, ScanAll(k, events[..i]), events[i])
  {
    assert events[..i + 1][..i] == events[..i];
  }

  /** _event_windows as the source runs it. */
  method ComputeEventWindows(k: Track, events: seq<Event>, end: int) returns (r: seq<Window>)
    ensures r == EventWindows(k, events, end)
  {
    var sorted := SortByStamp(events);
    var windows: seq<Window>, since: Option<int> := [], None;
    for i := 0 to |sorted|
      invariant Scan(windows, since) == ScanAll(k, sorted[..i])
    {
      ScanAllStep(k, sorted, i);
      var event := sorted[i];
      if !k.matches(event) { continue; }
      if event.action == k.opening && since.None? {
        since := Some(event.stamp);
      } else if event.action == k.closing && since.Some? {
        windows := windows + [Window(since.value, event.stamp)];
        since := None;
      }
    }
    assert sorted[..|sorted|] == sorted;
    if since.Some? {
      windows := windows + [Window(since.value, end)];
    }
    r := MergeWindows(windows);
  }

  /** What the scan knows after a stamp-ordered prefix, about one instant. */
  ghost predicate ScanMeans(k: Track, s: Scan, events: seq<Event>, t: int) {
    && (t in Points(s.windows) || (s.since.Some? && s.since.value <= t) <==> LatestOpens(k, events, t))
    && (t in Points(s.windows) ==> ClosesAfter(k, events, t))
    && (s.since.Some? && s.since.value <= t ==> t !in Points(s.windows) && !ClosesAfter(k, events, t))
    && (s.since.Some? ==> exists e :: e in events && e.stamp == s.since.value)
  }

  lemma {:induction false} ScanExact(k: Track, events: seq<Event>, t: int)
    requires k.opening != k.closing && ByStamp(events)
    ensures ScanMeans(k, ScanAll(k, events), events, t)
  {
    if events == [] {
      assert Points([]) == {};
    } else {
      var n := |events| - 1;
      ScanExact(k, events[..n], t);
      ScanStepExact(k, ScanAll(k, events[..n]), events[..n], events[n], t);
      assert events == events[..n] + [events[n]];
    }
  }

  lemma ScanStepExact(k: Track, s: Scan, before: seq<Event>, e: Event, t: int)
    requires k.opening != k.closing
    requires forall x | x in before :: x.stamp <= e.stamp
    requires ScanMeans(k, s, before, t)
    ensures ScanMeans(k, ScanStep(k, s, e), before + [e], t)
  {
    assert (before + [e])[..|before|] == before;
    var best := Latest(k, before, t);
    assert Latest(k, before + [e], t) == Later(k, best, e, t);
    assert ClosesAfter(k, before + [e], t) <==>
           ClosesAfter(k, before, t) || (k.matches(e) && e.action == k.closing && t < e.stamp) by {
      assert e in before + [e];
      forall x | x in before ensures x in before + [e] {}
    }
    assert e.stamp <= t ==> !ClosesAfter(k, before, t);
    if k.matches(e) && e.action == k.closing && s.since.Some? {
      var w := Window(s.since.value, e.stamp);
      PointsOfSum(s.windows, [w]);
      PointsOfOne(w);
    } else if k.matches(e) && e.action == k.opening && s.since.None? {
      assert e in before + [e];
    } else if s.since.Some? {
      var x :| x in before && x.stamp == s.since.value;
      assert x in before + [e];
    }
  }

  /** _event_windows is exact on every event list: an instant is covered exactly when the last
    * toggle at or before it since, and either the end or a later closing event lies beyond it. */
  lemma EventWindowsExact(k: Track, events: seq<Event>, end: int, t: int)
    requires k.opening != k.closing
    ensures t in Points(EventWindows(k, events, end)) <==>
            OpenAt(k, events, t) && (t < end || ClosesAfter(k, events, t))
    ensures Canonical(EventWindows(k, events, end))
  {
    var sorted := SortByStamp(events);
    var s := ScanAll(k, sorted);
    MergeExact(Finish(s, end));
    ScanExact(k, sorted, t);
    SortKeepsLatest(k, events, t);
    OpenAtIsLatest(k, events, t);
    assert ClosesAfter(k, sorted, t) <==> ClosesAfter(k, events, t);
    if s.since.Some? {
      var w := Window(s.since.value, end);
      PointsOfSum(s.windows, [w]);
      PointsOfOne(w);
    }
  }

  lemma {:induction false} SortedStays(events: seq<Event>)
    requires ByStamp(events)
    ensures SortByStamp(events) == events
  {
    if events == [] {
    } else {
      SortedStays(events[..|events| - 1]);
    }
  }

  /** Sorting the events beforehand makes no difference. */
  lemma SortedWindows(k: Track, events: seq<Event>, end: int)
    ensures EventWindows(k, SortByStamp(events), end) == EventWindows(k, events, end)
  {
    SortedStays(SortByStamp(events));
  }

  function SubscribedWindows(events: seq<Event>, topic: string, bagEnd: int): seq<Window> {
    EventWindows(SubscriptionTrack(topic), events, bagEnd)
  }

  function LastStamp(events: seq<Event>): int {
    if events == [] then 0
    else if |events| == 1 then events[0].stamp
    else Max(LastStamp(events[..|events| - 1]), events[|events| - 1].stamp)
  }

  function PauseWindows(events: seq<Event>, bagEnd: Option<int>): seq<Window> {
    EventWindows(PauseTrack(), events, if bagEnd.Some? then bagEnd.value else LastStamp(events))
  }

  lemma {:induction false} LastStampIsMax(events: seq<Event>)
    requires events != []
    ensures exists e :: e in events && e.stamp == LastStamp(events)
    ensures forall e | e in events :: e.stamp <= LastStamp(events)
  {
    var n := |events| - 1;
    assert events == events[..n] + [events[n]];
    if n == 0 {
    } else {
      LastStampIsMax(events[..n]);
      var e :| e in events[..n] && e.stamp == LastStamp(events[..n]);
    }
    assert events[n] in events;
  }

  /** With no bag end given, a pause never resumed ends at the last event and nothing later is covered. */
  lemma PauseWindowsWithoutEnd(events: seq<Event>, t: int)
    ensures t in Points(PauseWindows(events, None)) <==>
            OpenAt(PauseTrack(), events, t) && exists e :: e in events && t < e.stamp
  {
    EventWindowsExact(PauseTrack(), events, LastStamp(events), t);
    if events != [] {
      LastStampIsMax(events);
    }
  }
}
