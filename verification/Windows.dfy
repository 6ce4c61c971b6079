/** The reader's interval arithmetic (packages/dynrec/dynrec/bag.py).
  *
  * A window is a half-open interval of integer nanoseconds, so "how long" is "how many instants"
  * and every function below can be judged against plain finite sets of instants.
  */
module Windows {
  datatype Window = Window(start: int, end: int)

  predicate Inside(w: Window, t: int) { w.start <= t < w.end }

  /** The instants one window contains; none when it is empty or reversed. */
  ghost function Span(w: Window): set<int> {
    set t | w.start <= t < w.end && Inside(w, t)
  }

  /** The instants some window of `ws` contains: what a list of windows means. */
  ghost function Points(ws: seq<Window>): set<int> {
    set w, t | w in ws && t in Span(w) :: t
  }

  /** Sorted, nonempty, and no two windows touching: one window per unbroken stretch. */
  ghost predicate Canonical(ws: seq<Window>) {
    && (forall i | 0 <= i < |ws| :: ws[i].start < ws[i].end)
    && (forall i, j | 0 <= i < j < |ws| :: ws[i].end < ws[j].start)
  }

  /** `w` is an unbroken stretch of `s` that cannot be extended either way. */
  ghost predicate MaximalRun(s: set<int>, w: Window) {
    && w.start < w.end
    && (forall t | w.start <= t < w.end :: t in s)
    && w.start - 1 !in s
    && w.end !in s
  }

  function Max(a: int, b: int): int { if a < b then b else a }

  function Min(a: int, b: int): int { if a < b then a else b }

  // ---- sorted() on pairs -------------------------------------------------------------------

  predicate Before(a: Window, b: Window) {
    a.start < b.start || (a.start == b.start && a.end <= b.end)
  }

  predicate Ordered(ws: seq<Window>) {
    forall i, j | 0 <= i < j < |ws| :: Before(ws[i], ws[j])
  }

  function Insert(ws: seq<Window>, w: Window): (r: seq<Window>)
    requires Ordered(ws)
    ensures Ordered(r)
    ensures forall x :: x in r <==> x in ws || x == w
  {
    if ws == [] then [w]
    else
      var n := |ws| - 1;
      if Before(ws[n], w) then ws + [w]
      else
        var rest := Insert(ws[..n], w);
        assert forall x | x in rest :: Before(x, ws[n]);
        rest + [ws[n]]
  }

  function Sort(ws: seq<Window>): (r: seq<Window>)
    ensures Ordered(r)
    ensures forall x :: x in r <==> x in ws
  {
    if ws == [] then [] else Insert(Sort(ws[..|ws| - 1]), ws[|ws| - 1])
  }

  function NonEmpty(ws: seq<Window>): (r: seq<Window>)
    ensures forall w :: w in r <==> w in ws && w.start < w.end
  {
    if ws == [] then []
    else
      var rest := NonEmpty(ws[..|ws| - 1]);
      var w := ws[|ws| - 1];
      assert ws == ws[..|ws| - 1] + [w];
      if w.start < w.end then rest + [w] else rest
  }

  // ---- merge_windows -----------------------------------------------------------------------

  /** One iteration of merge_windows: grow the last window, or start another. */
  function Absorb(merged: seq<Window>, w: Window): seq<Window> {
    var n := |merged|;
    if n > 0 && w.start <= merged[n - 1].end then
      merged[..n - 1] + [Window(merged[n - 1].start, Max(merged[n - 1].end, w.end))]
    else merged + [w]
  }

  function AbsorbAll(ws: seq<Window>): seq<Window> {
    if ws == [] then [] else Absorb(AbsorbAll(ws[..|ws| - 1]), ws[|ws| - 1])
  }

  function Merge(ws: seq<Window>): seq<Window> {
    AbsorbAll(Sort(NonEmpty(ws)))
  }

  /** Replacing the last window by one that also covers a touching window adds that one's instants. */
  lemma GrowLast(rest: seq<Window>, last: Window, w: Window)
    requires last.start <= w.start <= last.end
    ensures Points(rest + [Window(last.start, Max(last.end, w.end))]) == Points(rest + [last]) + Points([w])
  {
    var grown := Window(last.start, Max(last.end, w.end));
    assert Span(grown) == Span(last) + Span(w);
    PointsOfSum(rest, [grown]);
    PointsOfSum(rest, [last]);
    PointsOfOne(grown);
    PointsOfOne(last);
    PointsOfOne(w);
  }

  lemma AbsorbCanonical(merged: seq<Window>, w: Window)
    requires Canonical(merged) && w.start < w.end
    requires merged != [] ==> merged[|merged| - 1].start <= w.start
    ensures Canonical(Absorb(merged, w))
    ensures var r := Absorb(merged, w); r != [] && r[|r| - 1].start <= w.start
  {
  }

  lemma AbsorbPoints(merged: seq<Window>, w: Window)
    requires merged != [] ==> merged[|merged| - 1].start <= w.start
    ensures Points(Absorb(merged, w)) == Points(merged) + Points([w])
  {
    var n := |merged| - 1;
    if n >= 0 && w.start <= merged[n].end {
      GrowLast(merged[..n], merged[n], w);
      assert merged == merged[..n] + [merged[n]];
    } else {
      PointsOfSum(merged, [w]);
    }
  }

  lemma PointsOfOne(w: Window)
    ensures Points([w]) == Span(w)
  {
    assert w in [w];
  }

  /** `merged` is the canonical form of `ws`, and its last window starts no later than theirs. */
  ghost predicate Absorbed(merged: seq<Window>, ws: seq<Window>) {
    && Canonical(merged) && Points(merged) == Points(ws)
    && (ws == [] ==> merged == [])
    && (ws != [] && merged != [] ==> merged[|merged| - 1].start <= ws[|ws| - 1].start)
  }

  /** Absorbing one more window keeps the list canonical and adds exactly that window's instants. */
  lemma AbsorbOne(merged: seq<Window>, ws: seq<Window>, w: Window)
    requires Absorbed(merged, ws) && w.start < w.end && (ws != [] ==> ws[|ws| - 1].start <= w.start)
    ensures Absorbed(Absorb(merged, w), ws + [w])
  {
    AbsorbCanonical(merged, w);
    AbsorbPoints(merged, w);
    PointsOfSum(ws, [w]);
  }

  lemma {:induction false} AbsorbAllExact(ws: seq<Window>)
    requires Ordered(ws) && forall w | w in ws :: w.start < w.end
    ensures Absorbed(AbsorbAll(ws), ws)
  {
    if ws == [] {
    } else {
      var n := |ws| - 1;
      AbsorbAllExact(ws[..n]);
      AbsorbOne(AbsorbAll(ws[..n]), ws[..n], ws[n]);
      assert ws == ws[..n] + [ws[n]];
    }
  }

  lemma PointsOfSum(a: seq<Window>, b: seq<Window>)
    ensures Points(a + b) == Points(a) + Points(b)
  {
  }

  /** merge_windows yields the canonical form of its input's point set. */
  lemma MergeExact(ws: seq<Window>)
    ensures Canonical(Merge(ws)) && Points(Merge(ws)) == Points(ws)
  {
    AbsorbAllExact(Sort(NonEmpty(ws)));
    assert forall w | w in ws && w !in Sort(NonEmpty(ws)) :: Span(w) == {};
  }

  lemma AbsorbAllStep(ws: seq<Window>, i: nat)
    requires i < |ws|
    ensures AbsorbAll(ws[..i + 1]) == Absorb(AbsorbAll(ws[..i]), ws[i])
  {
    assert ws[..i + 1][..i] == ws[..i];
  }

  /** merge_windows as the source runs it: one list, updated in place at its last element. */
  method MergeWindows(ws: seq<Window>) returns (merged: seq<Window>)
    ensures merged == Merge(ws)
  {
    hide Sort, NonEmpty;
    var sorted := Sort(NonEmpty(ws));
    merged := [];
    for i := 0 to |sorted|
      invariant merged == AbsorbAll(sorted[..i])
    {
      AbsorbAllStep(sorted, i);
      var n, w := |merged|, sorted[i];
      if n > 0 && w.start <= merged[n - 1].end {
        var grown := Window(merged[n - 1].start, Max(merged[n - 1].end, w.end));
        merged := merged[n - 1 := grown];
      } else {
        merged := merged + [w];
      }
    }
    assert sorted[..|sorted|] == sorted;
  }

  // ---- the canonical form is unique ----------------------------------------------------------

  /** The windows of a canonical list are exactly the maximal runs of its point set. */
  lemma CanonicalIsRuns(ws: seq<Window>, w: Window)
    requires Canonical(ws)
    ensures w in ws <==> MaximalRun(Points(ws), w)
  {
    if w in ws {
      forall x | x in ws ensures w.start - 1 !in Span(x) && w.end !in Span(x) {}
      forall t | w.start <= t < w.end ensures t in Points(ws) {
        assert t in Span(w);
      }
    }
    if MaximalRun(Points(ws), w) {
      assert w.start in Points(ws);
      var x :| x in ws && w.start in Span(x);
      assert x.start <= w.start - 1 ==> w.start - 1 in Span(x);
      assert w.end < x.end ==> w.end in Span(x);
      forall y | y in ws ensures x.end !in Span(y) {}
      assert x.end !in Points(ws);
      assert x.start == w.start && x.end == w.end;
      assert x == w;
    }
  }

  /** Two canonical lists covering the same instants are the same list. */
  lemma {:induction false} CanonicalUnique(a: seq<Window>, b: seq<Window>)
    requires Canonical(a) && Canonical(b) && Points(a) == Points(b)
    ensures a == b
    decreases |a|
  {
    forall w ensures w in a <==> w in b {
      CanonicalIsRuns(a, w);
      CanonicalIsRuns(b, w);
    }
    assert b != [] ==> b[0] in a;
    if a == [] {
    } else {
      assert a[0] in b;
      SameFirst(a, b);
      TailPoints(a);
      TailPoints(b);
      CanonicalUnique(a[1..], b[1..]);
      assert a == [a[0]] + a[1..] && b == [b[0]] + b[1..];
    }
  }

  lemma SameFirst(a: seq<Window>, b: seq<Window>)
    requires Canonical(a) && Canonical(b) && a != [] && b != []
    requires a[0] in b && b[0] in a
    ensures a[0] == b[0]
  {
    var i :| 0 <= i < |a| && a[i] == b[0];
    var j :| 0 <= j < |b| && b[j] == a[0];
  }

  lemma TailPoints(ws: seq<Window>)
    requires Canonical(ws) && ws != []
    ensures Canonical(ws[1..])
    ensures Points(ws) == Span(ws[0]) + Points(ws[1..])
    ensures Span(ws[0]) !! Points(ws[1..])
  {
    assert ws == [ws[0]] + ws[1..];
    PointsOfSum([ws[0]], ws[1..]);
    PointsOfOne(ws[0]);
    forall w | w in ws[1..] ensures Span(ws[0]) !! Span(w) {}
  }

  /** What merging gives depends on the instants only: not on order, repetition or how they are cut. */
  lemma MergeDependsOnPoints(a: seq<Window>, b: seq<Window>)
    ensures Merge(a) == Merge(b) <==> Points(a) == Points(b)
  {
    MergeExact(a);
    MergeExact(b);
    if Points(a) == Points(b) { CanonicalUnique(Merge(a), Merge(b)); }
  }

  lemma MergeFixesCanonical(ws: seq<Window>)
    ensures Merge(ws) == ws <==> Canonical(ws)
  {
    MergeExact(ws);
    if Canonical(ws) { CanonicalUnique(Merge(ws), ws); }
  }

  // ---- intersect_windows ---------------------------------------------------------------------

  function Common(a: Window, b: Window): Window {
    Window(Max(a.start, b.start), Min(a.end, b.end))
  }

  function Pairs(first: seq<Window>, second: seq<Window>): seq<Window> {
    if first == [] then []
    else seq(|second|, i requires 0 <= i < |second| => Common(first[0], second[i])) + Pairs(first[1..], second)
  }

  lemma {:induction false} PairsPoints(first: seq<Window>, second: seq<Window>)
    ensures Points(Pairs(first, second)) == Points(first) * Points(second)
  {
    if first == [] {
      assert Points(first) == {};
    } else {
      var head := seq(|second|, i requires 0 <= i < |second| => Common(first[0], second[i]));
      PointsOfSum(head, Pairs(first[1..], second));
      PointsOfSum([first[0]], first[1..]);
      PointsOfOne(first[0]);
      assert first == [first[0]] + first[1..];
      PairsPoints(first[1..], second);
      CommonPoints(first[0], second, head);
    }
  }

  lemma CommonPoints(a: Window, second: seq<Window>, head: seq<Window>)
    requires |head| == |second| && forall i | 0 <= i < |second| :: head[i] == Common(a, second[i])
    ensures Points(head) == Span(a) * Points(second)
  {
    forall t | t in Span(a) * Points(second) ensures t in Points(head) {
      var w :| w in second && t in Span(w);
      var k :| 0 <= k < |second| && second[k] == w;
      assert head[k] in head && t in Span(head[k]);
    }
    forall t | t in Points(head) ensures t in Span(a) * Points(second) {
      var h :| h in head && t in Span(h);
      var k :| 0 <= k < |head| && head[k] == h;
      assert t in Span(a) && t in Span(second[k]) && second[k] in second;
    }
  }

  function Intersect(first: seq<Window>, second: seq<Window>): seq<Window> {
    Merge(Pairs(first, second))
  }

  /** intersect_windows is set intersection, in canonical form. */
  lemma IntersectExact(first: seq<Window>, second: seq<Window>)
    ensures Canonical(Intersect(first, second))
    ensures Points(Intersect(first, second)) == Points(first) * Points(second)
  {
    PairsPoints(first, second);
    MergeExact(Pairs(first, second));
  }

  lemma IntersectCommutes(a: seq<Window>, b: seq<Window>)
    ensures Intersect(a, b) == Intersect(b, a)
  {
    IntersectExact(a, b);
    IntersectExact(b, a);
    assert Points(a) * Points(b) == Points(b) * Points(a);
    CanonicalUnique(Intersect(a, b), Intersect(b, a));
  }

  lemma IntersectAssociates(a: seq<Window>, b: seq<Window>, c: seq<Window>)
    ensures Intersect(Intersect(a, b), c) == Intersect(a, Intersect(b, c))
  {
    var left, right := Intersect(Intersect(a, b), c), Intersect(a, Intersect(b, c));
    assert Canonical(left) && Points(left) == Points(a) * Points(b) * Points(c) by {
      IntersectExact(a, b);
      IntersectExact(Intersect(a, b), c);
    }
    assert Canonical(right) && Points(right) == Points(a) * Points(b) * Points(c) by {
      IntersectExact(b, c);
      IntersectExact(a, Intersect(b, c));
    }
    CanonicalUnique(left, right);
  }

  // ---- overlap and live_seconds ----------------------------------------------------------------

  function Overlap(a: Window, b: Window): int {
    Max(0, Min(a.end, b.end) - Max(a.start, b.start))
  }

  function OverlapSum(w: Window, pauses: seq<Window>): int {
    if pauses == [] then 0 else Overlap(w, pauses[0]) + OverlapSum(w, pauses[1..])
  }

  function LiveSum(windows: seq<Window>, pauses: seq<Window>): int {
    if windows == [] then 0
    else windows[0].end - windows[0].start - OverlapSum(windows[0], pauses) + LiveSum(windows[1..], pauses)
  }

  /** live_seconds before its clamp at zero. */
  function LiveTotal(windows: seq<Window>, pauses: seq<Window>): int {
    LiveSum(Merge(windows), Merge(pauses))
  }

  function LiveSeconds(windows: seq<Window>, pauses: seq<Window>): int {
    Max(0, LiveTotal(windows, pauses))
  }

  lemma {:induction false} SpanSize(w: Window)
    ensures |Span(w)| == Max(0, w.end - w.start)
    decreases w.end - w.start
  {
    if w.start < w.end {
      var shorter := Window(w.start, w.end - 1);
      SpanSize(shorter);
      assert forall t :: t in Span(w) <==> t in Span(shorter) || t == w.end - 1;
      assert Span(w) == Span(shorter) + {w.end - 1};
    } else {
      assert Span(w) == {};
    }
  }

  lemma OverlapSize(a: Window, b: Window)
    ensures Overlap(a, b) == |Span(a) * Span(b)|
  {
    SpanSize(Common(a, b));
    assert Span(Common(a, b)) == Span(a) * Span(b);
  }

  /** Sizes add over a cut of `whole` into two disjoint parts, and so does what is left outside `out`. */
  lemma CutSizes<T>(whole: set<T>, left: set<T>, right: set<T>, out: set<T>)
    requires whole == left + right && left !! right
    ensures |whole * out| == |left * out| + |right * out|
    ensures |whole - out| == |left - out| + |right - out|
    ensures |left| == |left * out| + |left - out|
  {
    assert whole * out == left * out + right * out;
    assert whole - out == (left - out) + (right - out);
    assert left == left * out + (left - out);
  }

  lemma {:induction false} OverlapSumSize(w: Window, pauses: seq<Window>)
    requires Canonical(pauses)
    ensures OverlapSum(w, pauses) == |Points(pauses) * Span(w)|
  {
    if pauses == [] {
      assert Points(pauses) == {};
    } else {
      OverlapSize(w, pauses[0]);
      assert Span(w) * Span(pauses[0]) == Span(pauses[0]) * Span(w);
      TailPoints(pauses);
      OverlapSumSize(w, pauses[1..]);
      CutSizes(Points(pauses), Span(pauses[0]), Points(pauses[1..]), Span(w));
    }
  }

  lemma {:induction false} LiveSumSize(windows: seq<Window>, pauses: seq<Window>)
    requires Canonical(windows) && Canonical(pauses)
    ensures LiveSum(windows, pauses) == |Points(windows) - Points(pauses)|
  {
    if windows == [] {
      assert Points(windows) == {};
    } else {
      SpanSize(windows[0]);
      OverlapSumSize(windows[0], pauses);
      assert Points(pauses) * Span(windows[0]) == Span(windows[0]) * Points(pauses);
      TailPoints(windows);
      LiveSumSize(windows[1..], pauses);
      CutSizes(Points(windows), Span(windows[0]), Points(windows[1..]), Points(pauses));
    }
  }

  /** live_seconds counts the instants in some window and no pause, and its clamp never acts. */
  lemma LiveIsMeasure(windows: seq<Window>, pauses: seq<Window>)
    ensures LiveTotal(windows, pauses) == |Points(windows) - Points(pauses)|
    ensures LiveSeconds(windows, pauses) == LiveTotal(windows, pauses)
  {
    MergeExact(windows);
    MergeExact(pauses);
    LiveSumSize(Merge(windows), Merge(pauses));
  }

  lemma SubsetSize<T>(a: set<T>, b: set<T>)
    requires a <= b
    ensures |a| <= |b|
  {
    assert b == a + (b - a);
  }

  lemma LiveMonotone(smaller: seq<Window>, larger: seq<Window>, pauses: seq<Window>, morePauses: seq<Window>)
    requires Points(smaller) <= Points(larger) && Points(pauses) <= Points(morePauses)
    ensures LiveSeconds(smaller, morePauses) <= LiveSeconds(larger, pauses)
  {
    LiveIsMeasure(smaller, morePauses);
    LiveIsMeasure(larger, pauses);
    SubsetSize(Points(smaller) - Points(morePauses), Points(larger) - Points(pauses));
  }

  // ---- unexplained_gaps and gaps_in --------------------------------------------------------------

  /** The instants every channel's gaps contain. */
  ghost function SharedPoints(channels: seq<seq<Window>>): set<int>
    requires channels != []
  {
    set t | t in Points(channels[0]) && forall i | 0 <= i < |channels| :: t in Points(channels[i])
  }

  function Shared(channels: seq<seq<Window>>): seq<Window>
    requires channels != []
  {
    var n := |channels| - 1;
    if n == 0 then Merge(channels[0]) else Intersect(Shared(channels[..n]), channels[n])
  }

  lemma {:induction false} SharedExact(channels: seq<seq<Window>>)
    requires channels != []
    ensures Canonical(Shared(channels)) && Points(Shared(channels)) == SharedPoints(channels)
  {
    var n := |channels| - 1;
    if n == 0 {
      MergeExact(channels[0]);
    } else {
      SharedExact(channels[..n]);
      IntersectExact(Shared(channels[..n]), channels[n]);
      SharedPointsStep(channels);
    }
  }

  lemma SharedPointsStep(channels: seq<seq<Window>>)
    requires |channels| > 1
    ensures var n := |channels| - 1;
            SharedPoints(channels) == SharedPoints(channels[..n]) * Points(channels[n])
  {
    var n := |channels| - 1;
    forall t | t in SharedPoints(channels[..n]) * Points(channels[n]) ensures t in SharedPoints(channels) {
      assert channels[..n][0] == channels[0];
      forall i | 0 <= i < |channels| ensures t in Points(channels[i]) {
        assert i < n ==> channels[..n][i] == channels[i];
      }
    }
    forall t | t in SharedPoints(channels) ensures t in SharedPoints(channels[..n]) {}
  }

  /** Whether one of the merged pauses alone covers more than half of `gap`. */
  predicate Explained(gap: Window, pauses: seq<Window>) {
    exists p | p in pauses :: 2 * Overlap(gap, p) > gap.end - gap.start
  }

  predicate Reported(gap: Window, pauses: seq<Window>, threshold: int) {
    gap.end - gap.start >= threshold && !Explained(gap, pauses)
  }

  function Select(gaps: seq<Window>, pauses: seq<Window>, threshold: int): (r: seq<Window>)
    ensures forall w :: w in r <==> w in gaps && Reported(w, pauses, threshold)
  {
    if gaps == [] then []
    else
      var n := |gaps| - 1;
      assert gaps == gaps[..n] + [gaps[n]];
      var rest := Select(gaps[..n], pauses, threshold);
      if Reported(gaps[n], pauses, threshold) then rest + [gaps[n]] else rest
  }

  lemma {:induction false} SelectCanonical(gaps: seq<Window>, pauses: seq<Window>, threshold: int)
    requires Canonical(gaps)
    ensures Canonical(Select(gaps, pauses, threshold))
  {
    if gaps == [] {
    } else {
      var n := |gaps| - 1;
      SelectCanonical(gaps[..n], pauses, threshold);
      var rest := Select(gaps[..n], pauses, threshold);
      forall i | 0 <= i < |rest| ensures rest[i].end < gaps[n].start && rest[i].start < rest[i].end {
        assert rest[i] in gaps[..n];
      }
    }
  }

  /** unexplained_gaps without its early exit. */
  function Unexplained(channels: seq<seq<Window>>, pauses: seq<Window>, threshold: int): seq<Window> {
    if channels == [] then [] else Select(Shared(channels), Merge(pauses), threshold)
  }

  /** A reported gap is a maximal stretch missing from every channel, long enough, and with no
    * maximal paused stretch over more than half of it; and every such stretch is reported. */
  lemma UnexplainedExact(channels: seq<seq<Window>>, pauses: seq<Window>, threshold: int, w: Window)
    ensures w in Unexplained(channels, pauses, threshold) <==>
            && channels != []
            && MaximalRun(SharedPoints(channels), w)
            && w.end - w.start >= threshold
            && !exists p :: MaximalRun(Points(pauses), p) && 2 * Overlap(w, p) > w.end - w.start
    ensures Canonical(Unexplained(channels, pauses, threshold))
  {
    if channels != [] {
      SharedExact(channels);
      SelectCanonical(Shared(channels), Merge(pauses), threshold);
      CanonicalIsRuns(Shared(channels), w);
      MergeExact(pauses);
      forall p ensures p in Merge(pauses) <==> MaximalRun(Points(pauses), p) {
        CanonicalIsRuns(Merge(pauses), p);
      }
    }
  }

  /** Neither the order nor the repetition of channels matters, nor how gaps and pauses are cut. */
  lemma UnexplainedIgnoresOrder(a: seq<seq<Window>>, b: seq<seq<Window>>, p: seq<Window>, q: seq<Window>, threshold: int)
    requires forall c :: c in a <==> c in b
    requires Points(p) == Points(q)
    ensures Unexplained(a, p, threshold) == Unexplained(b, q, threshold)
  {
    MergeDependsOnPoints(p, q);
    assert b != [] ==> b[0] in a;
    if a != [] {
      assert a[0] in b;
      SharedExact(a);
      SharedExact(b);
      forall t ensures t in SharedPoints(a) <==> t in SharedPoints(b) {
        InEveryChannel(a, t);
        InEveryChannel(b, t);
      }
      CanonicalUnique(Shared(a), Shared(b));
    }
  }

  lemma InEveryChannel(channels: seq<seq<Window>>, t: int)
    requires channels != []
    ensures t in SharedPoints(channels) <==> forall c | c in channels :: t in Points(c)
  {
    if t in SharedPoints(channels) {
      forall c | c in channels ensures t in Points(c) {
        var i :| 0 <= i < |channels| && channels[i] == c;
      }
    }
    if forall c | c in channels :: t in Points(c) {
      forall i | 0 <= i < |channels| ensures t in Points(channels[i]) {
        assert channels[i] in channels;
      }
    }
  }

  /** Once nothing is shared, nothing further can become shared. */
  lemma {:induction false} NothingSharedStays(channels: seq<seq<Window>>, k: nat)
    requires 0 < k <= |channels| && Shared(channels[..k]) == []
    ensures Shared(channels) == []
  {
    SharedExact(channels[..k]);
    SharedExact(channels);
    assert channels[..k][0] == channels[0];
    forall t ensures t in SharedPoints(channels) ==> t in SharedPoints(channels[..k]) {
      assert forall i | 0 <= i < k :: channels[..k][i] == channels[i];
    }
    var none: seq<Window> := [];
    assert Canonical(none) && Points(none) == {};
    CanonicalUnique(Shared(channels), none);
  }

  lemma SharedStep(channels: seq<seq<Window>>, i: nat)
    requires 0 < i < |channels|
    ensures Shared(channels[..i + 1]) == Intersect(Shared(channels[..i]), channels[i])
  {
    assert channels[..i + 1][..i] == channels[..i];
  }

  /** unexplained_gaps as the source runs it, early exit included. */
  method UnexplainedGaps(channels: seq<seq<Window>>, pauses: seq<Window>, threshold: int) returns (r: seq<Window>)
    ensures r == Unexplained(channels, pauses, threshold)
  {
    if channels == [] { return []; }
    var shared := MergeWindows(channels[0]);
    for i := 1 to |channels|
      invariant shared == Shared(channels[..i])
    {
      SharedStep(channels, i);
      shared := Intersect(shared, channels[i]);
      if shared == [] {
        NothingSharedStays(channels, i + 1);
        return [];
      }
    }
    assert channels[..|channels|] == channels;
    var merged := MergeWindows(pauses);
    r := Select(shared, merged, threshold);
  }
}
