/** Topic names in the order std::sort puts strings, and why a sorted list identifies a set. */
module Names {
  predicate Leq(a: string, b: string) {
    a == "" || (b != "" && (a[0] < b[0] || (a[0] == b[0] && Leq(a[1..], b[1..]))))
  }

  lemma {:induction false} LeqTotal(a: string, b: string)
    ensures Leq(a, b) || Leq(b, a)
    ensures Leq(a, b) && Leq(b, a) ==> a == b
  {
    if a == "" || b == "" || a[0] != b[0] {
    } else {
      LeqTotal(a[1..], b[1..]);
      assert a == [a[0]] + a[1..] && b == [b[0]] + b[1..];
    }
  }

  lemma {:induction false} LeqTransitive(a: string, b: string, c: string)
    requires Leq(a, b) && Leq(b, c)
    ensures Leq(a, c)
  {
    if a == "" || a[0] != b[0] || b[0] != c[0] {
    } else {
      LeqTransitive(a[1..], b[1..], c[1..]);
    }
  }

  /** At place `k` the strings first differ, and `a` has the smaller character. */
  predicate SmallerAt(a: string, b: string, k: nat) { k < |a| && k < |b| && a[..k] == b[..k] && a[k] < b[k] }

  lemma SmallerLater(a: string, b: string, k: nat)
    requires a != "" && b != "" && a[0] == b[0]
    ensures SmallerAt(a, b, k + 1) <==> SmallerAt(a[1..], b[1..], k)
    ensures !SmallerAt(a, b, 0)
  {
    if k < |a| - 1 && k < |b| - 1 {
      assert a[..k + 1] == [a[0]] + a[1..][..k] && b[..k + 1] == [b[0]] + b[1..][..k];
      assert a[1..][..k] == a[..k + 1][1..] && b[1..][..k] == b[..k + 1][1..];
    }
  }

  lemma PrefixLater(a: string, b: string)
    requires a != "" && b != "" && a[0] == b[0]
    ensures a <= b <==> a[1..] <= b[1..]
  {
    assert a == [a[0]] + a[1..] && b == [b[0]] + b[1..];
    if a <= b { assert b[1..][..|a| - 1] == b[..|a|][1..]; }
    if a[1..] <= b[1..] { assert b[..|a|] == [b[0]] + b[1..][..|a| - 1]; }
  }

  lemma SmallerAtOnce(a: string, b: string)
    requires a != "" && b != "" && a[0] != b[0]
    ensures (exists k: nat :: SmallerAt(a, b, k)) <==> a[0] < b[0]
  {
    if a[0] < b[0] { assert SmallerAt(a, b, 0); }
    forall k: nat | 0 < k < |a| && k < |b| ensures a[..k] != b[..k] { assert a[..k][0] == a[0] && b[..k][0] == b[0]; }
  }

  /** Strings are ordered as a dictionary orders them: at the first place they differ, or the shorter first. */
  lemma {:induction false} LeqIsLexicographic(a: string, b: string)
    ensures Leq(a, b) <==> a <= b || exists k: nat :: SmallerAt(a, b, k)
  {
    if a == "" || b == "" {
    } else if a[0] != b[0] {
      SmallerAtOnce(a, b);
    } else {
      LeqIsLexicographic(a[1..], b[1..]);
      PrefixLater(a, b);
      hide SmallerAt;
      SmallerLater(a, b, 0);
      if k: nat :| SmallerAt(a[1..], b[1..], k) { SmallerLater(a, b, k); }
      if k: nat :| SmallerAt(a, b, k) { SmallerLater(a, b, k - 1); }
    }
  }

  ghost predicate Sorted(s: seq<string>) {
    forall i, j | 0 <= i < j < |s| :: Leq(s[i], s[j])
  }

  ghost predicate Strict(s: seq<string>) {
    Sorted(s) && forall i, j | 0 <= i < j < |s| :: s[i] != s[j]
  }

  function Insert(s: seq<string>, x: string): (r: seq<string>)
    ensures forall y :: y in r <==> y in s || y == x
    ensures |r| == |s| + 1
  {
    if s == [] then [x]
    else
      var n := |s| - 1;
      assert s == s[..n] + [s[n]];
      if Leq(s[n], x) then s + [x] else Insert(s[..n], x) + [s[n]]
  }

  function Sort(s: seq<string>): (r: seq<string>)
    ensures forall y :: y in r <==> y in s
    ensures |r| == |s|
  {
    if s == [] then []
    else
      assert s == s[..|s| - 1] + [s[|s| - 1]];
      Insert(Sort(s[..|s| - 1]), s[|s| - 1])
  }

  lemma NotAbove(s: seq<string>, x: string, y: string)
    requires Sorted(s) && s != [] && Leq(x, s[|s| - 1]) && (y == x || y in s[..|s| - 1])
    ensures Leq(y, s[|s| - 1]) && (Strict(s) && x !in s ==> y != s[|s| - 1])
  {
  }

  lemma {:induction false} InsertSorted(s: seq<string>, x: string)
    requires Sorted(s)
    ensures Sorted(Insert(s, x))
    ensures Strict(s) && x !in s ==> Strict(Insert(s, x))
  {
    if s == [] {
    } else {
      var n := |s| - 1;
      if Leq(s[n], x) {
        forall i | 0 <= i < n ensures Leq(s[i], x) { LeqTransitive(s[i], s[n], x); }
      } else {
        LeqTotal(s[n], x);
        InsertSorted(s[..n], x);
        var rest := Insert(s[..n], x);
        forall y | y in rest ensures Leq(y, s[n]) && (Strict(s) && x !in s ==> y != s[n]) { NotAbove(s, x, y); }
      }
    }
  }

  lemma {:induction false} SortSorted(s: seq<string>)
    ensures Sorted(Sort(s))
    ensures (forall i, j | 0 <= i < j < |s| :: s[i] != s[j]) ==> Strict(Sort(s))
  {
    if s == [] {
    } else {
      var n := |s| - 1;
      SortSorted(s[..n]);
      InsertSorted(Sort(s[..n]), s[n]);
      assert (forall i, j | 0 <= i < j < |s| :: s[i] != s[j]) ==> s[n] !in s[..n];
    }
  }

  /** Two strictly sorted lists are equal exactly when they name the same set. */
  lemma {:induction false} StrictIsSet(a: seq<string>, b: seq<string>)
    requires Strict(a) && Strict(b)
    ensures a == b <==> forall x :: x in a <==> x in b
    decreases |a|
  {
    if forall x :: x in a <==> x in b {
      assert b != [] ==> b[0] in a;
      if a == [] {
      } else {
        assert a[0] in b;
        SameHead(a, b);
        assert a == [a[0]] + a[1..] && b == [b[0]] + b[1..];
        forall x ensures x in a[1..] <==> x in b[1..] {
          assert a[0] !in a[1..] && b[0] !in b[1..];
          assert x in a <==> x == a[0] || x in a[1..];
          assert x in b <==> x == b[0] || x in b[1..];
        }
        StrictIsSet(a[1..], b[1..]);
      }
    }
  }

  lemma SameHead(a: seq<string>, b: seq<string>)
    requires Strict(a) && Strict(b) && a != [] && b != [] && a[0] in b && b[0] in a
    ensures a[0] == b[0]
  {
    var i :| 0 <= i < |a| && a[i] == b[0];
    var j :| 0 <= j < |b| && b[j] == a[0];
    if i != 0 && j != 0 { LeqTotal(a[0], b[0]); }
  }

  /** std::unique on a sorted range: drop each element equal to the one before it. */
  function Unique(s: seq<string>): (r: seq<string>)
    ensures forall x :: x in r <==> x in s
    ensures s != [] ==> r != [] && r[|r| - 1] == s[|s| - 1]
  {
    if s == [] then []
    else
      var n := |s| - 1;
      assert s == s[..n] + [s[n]];
      var rest := Unique(s[..n]);
      if n > 0 && s[n - 1] == s[n] then rest else rest + [s[n]]
  }

  lemma BelowLast(s: seq<string>, x: string)
    requires Sorted(s) && |s| > 1 && s[|s| - 2] != s[|s| - 1] && x in s[..|s| - 1]
    ensures Leq(x, s[|s| - 1]) && x != s[|s| - 1]
  {
    var n := |s| - 1;
    var k :| 0 <= k < n && s[k] == x;
    if k < n - 1 { LeqTotal(s[n - 1], s[n]); }
  }

  lemma {:induction false} UniqueStrict(s: seq<string>)
    requires Sorted(s)
    ensures Strict(Unique(s))
  {
    if s == [] {
    } else {
      var n := |s| - 1;
      UniqueStrict(s[..n]);
      if !(n > 0 && s[n - 1] == s[n]) {
        var rest := Unique(s[..n]);
        forall i | 0 <= i < |rest| ensures Leq(rest[i], s[n]) && rest[i] != s[n] {
          BelowLast(s, rest[i]);
        }
      }
    }
  }

  ghost function Enumerate(s: set<string>): (r: seq<string>)
    ensures forall x :: x in r <==> x in s
    ensures forall i, j | 0 <= i < j < |r| :: r[i] != r[j]
  {
    if s == {} then []
    else
      var x :| x in s;
      [x] + Enumerate(s - {x})
  }

  /** The one strictly sorted list of a set of names: what a sorted dump of an unordered_map's keys is. */
  ghost function Listing(s: set<string>): (r: seq<string>)
    ensures Strict(r)
    ensures forall x :: x in r <==> x in s
  {
    SortSorted(Enumerate(s));
    Sort(Enumerate(s))
  }

  lemma ListingIsOnly(s: set<string>, r: seq<string>)
    requires Strict(r)
    ensures r == Listing(s) <==> forall x :: x in r <==> x in s
  {
    StrictIsSet(r, Listing(s));
  }

  /** Dump the keys in whatever order the container yields them, then sort. */
  method SortedKeys(keys: set<string>) returns (r: seq<string>)
    ensures r == Listing(keys)
  {
    var left, names: seq<string> := keys, [];
    while left != {}
      invariant left <= keys && forall x :: x in names <==> x in keys && x !in left
      invariant forall i, j | 0 <= i < j < |names| :: names[i] != names[j]
      decreases |left|
    {
      var x :| x in left;
      names := names + [x];
      left := left - {x};
    }
    r := Sort(names);
    SortSorted(names);
    ListingIsOnly(keys, r);
  }
}
