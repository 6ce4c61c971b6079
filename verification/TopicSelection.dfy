/** Which topics a request asks for (packages/rosbag2_dynamic_recorder/src/topic_selection.cpp). */
module TopicSelection {
  import opened RecorderState
  import Names

  /** A pattern of a request: not given, refused by the regular-expression compiler, or a search. */
  datatype Pattern = Absent | Malformed | Search(finds: string -> bool)

  datatype Selected = Chosen(selection: Selection) | TypesMismatch | BadPattern

  /** The names a search adds: candidates not already named, in order. */
  function Found(candidates: seq<string>, named: set<string>, matching: string -> bool): (r: seq<string>)
    ensures forall x :: x in r <==> x in candidates && x !in named && matching(x)
    ensures |r| <= |candidates|
  {
    if candidates == [] then []
    else
      var n := |candidates| - 1;
      assert candidates == candidates[..n] + [candidates[n]];
      Found(candidates[..n], named, matching)
        + if candidates[n] !in named && matching(candidates[n]) then [candidates[n]] else []
  }

  function Blanks(n: nat): seq<string> { seq(n, _ => "") }

  /** The selection without what the search finds, names and types dropped together. */
  function Keep(sel: Selection, barring: string -> bool): (r: Selection)
    requires |sel.types| == |sel.topics|
    ensures |r.types| == |r.topics|
    decreases |sel.topics|
  {
    if sel.topics == [] then Selection([], [])
    else
      var n := |sel.topics| - 1;
      var rest := Keep(Selection(sel.topics[..n], sel.types[..n]), barring);
      if barring(sel.topics[n]) then rest
      else Selection(rest.topics + [sel.topics[n]], rest.types + [sel.types[n]])
  }

  function Included(topics: seq<string>, types: seq<string>, matching: Pattern, candidates: seq<string>): (r: Selection)
    requires types == [] || |types| == |topics|
    ensures |r.types| == |r.topics|
  {
    var padded := if types == [] then Blanks(|topics|) else types;
    if matching.Search? then
      var found := Found(candidates, NamesIn(topics), matching.finds);
      Selection(topics + found, padded + Blanks(|found|))
    else Selection(topics, padded)
  }

  function Choose(topics: seq<string>, types: seq<string>, matching: Pattern, barring: Pattern, candidates: seq<string>): Selected {
    if types != [] && |types| != |topics| then TypesMismatch
    else if matching.Malformed? || barring.Malformed? then BadPattern
    else
      var sel := Included(topics, types, matching, candidates);
      Chosen(if barring.Search? then Keep(sel, barring.finds) else sel)
  }

  // ---- what is chosen ------------------------------------------------------------------------------------

  /** `x` is asked for, by name or by the include pattern, and not excluded. */
  predicate Wanted(topics: seq<string>, matching: Pattern, barring: Pattern, candidates: seq<string>, x: string) {
    && (x in topics || (matching.Search? && x in candidates && matching.finds(x)))
    && !(barring.Search? && barring.finds(x))
  }

  lemma {:induction false} KeepExact(sel: Selection, barring: string -> bool, x: string, t: string)
    requires |sel.types| == |sel.topics|
    ensures var kept := Keep(sel, barring);
            && (x in kept.topics <==> x in sel.topics && !barring(x))
            && (Pairs(kept, x, t) <==> Pairs(sel, x, t) && !barring(x))
    decreases |sel.topics|
  {
    if sel.topics == [] {
    } else {
      var n := |sel.topics| - 1;
      var front := Selection(sel.topics[..n], sel.types[..n]);
      KeepExact(front, barring, x, t);
      assert sel.topics == front.topics + [sel.topics[n]] && sel.types == front.types + [sel.types[n]];
      PairsMore(front, sel.topics[n], sel.types[n], x, t);
      PairsMore(Keep(front, barring), sel.topics[n], sel.types[n], x, t);
    }
  }

  /** Somewhere in the selection `x` stands with type `t`. */
  predicate Pairs(sel: Selection, x: string, t: string)
    requires |sel.types| == |sel.topics|
  {
    exists i :: 0 <= i < |sel.topics| && sel.topics[i] == x && sel.types[i] == t
  }

  lemma PairsMore(sel: Selection, y: string, u: string, x: string, t: string)
    requires |sel.types| == |sel.topics|
    ensures Pairs(Selection(sel.topics + [y], sel.types + [u]), x, t) <==> Pairs(sel, x, t) || (x == y && t == u)
  {
    var more := Selection(sel.topics + [y], sel.types + [u]);
    if Pairs(sel, x, t) {
      var i :| 0 <= i < |sel.topics| && sel.topics[i] == x && sel.types[i] == t;
      assert more.topics[i] == x && more.types[i] == t;
    }
    if x == y && t == u {
      assert more.topics[|sel.topics|] == x && more.types[|sel.topics|] == t;
    }
  }

  /** The selection holds exactly the wanted topics, each with the type it was given with: a named topic its
    * own or none, a found one none. */
  lemma ChoiceIsExact(topics: seq<string>, types: seq<string>, matching: Pattern, barring: Pattern, candidates: seq<string>,
                      x: string, t: string)
    requires Choose(topics, types, matching, barring, candidates).Chosen?
    ensures var sel := Choose(topics, types, matching, barring, candidates).selection;
            && |sel.types| == |sel.topics|
            && (x in sel.topics <==> Wanted(topics, matching, barring, candidates, x))
            && (Pairs(sel, x, t) <==>
                && !(barring.Search? && barring.finds(x))
                && ((exists i :: 0 <= i < |topics| && topics[i] == x && t == if types == [] then "" else types[i])
                    || (matching.Search? && x in candidates && x !in topics && matching.finds(x) && t == "")))
  {
    var sel := Included(topics, types, matching, candidates);
    IncludedPairs(topics, types, matching, candidates, x, t);
    if barring.Search? { KeepExact(sel, barring.finds, x, t); }
  }

  lemma IncludedPairs(topics: seq<string>, types: seq<string>, matching: Pattern, candidates: seq<string>, x: string, t: string)
    requires types == [] || |types| == |topics|
    ensures Pairs(Included(topics, types, matching, candidates), x, t) <==>
            || (exists i :: 0 <= i < |topics| && topics[i] == x && t == if types == [] then "" else types[i])
            || (matching.Search? && x in candidates && x !in topics && matching.finds(x) && t == "")
  {
    var sel := Included(topics, types, matching, candidates);
    forall i | 0 <= i < |topics| ensures sel.topics[i] == topics[i] && sel.types[i] == if types == [] then "" else types[i] {}
    if matching.Search? {
      var found := Found(candidates, NamesIn(topics), matching.finds);
      forall i | |topics| <= i < |sel.topics| ensures sel.topics[i] == found[i - |topics|] && sel.types[i] == "" {}
      if x in found {
        var k :| 0 <= k < |found| && found[k] == x;
        assert sel.topics[|topics| + k] == x && sel.types[|topics| + k] == "";
      }
    }
  }

  // ---- in which order ------------------------------------------------------------------------------------

  /** The names that satisfy `wanted`, in the order given, as often as given. */
  function Pick(names: seq<string>, wanted: string -> bool): seq<string> {
    if names == [] then []
    else
      var n := |names| - 1;
      Pick(names[..n], wanted) + if wanted(names[n]) then [names[n]] else []
  }

  function Admits(barring: Pattern): string -> bool { (x: string) => !(barring.Search? && barring.finds(x)) }

  /** Found by the include pattern, not named already, and not excluded. */
  function Seeks(topics: seq<string>, matching: Pattern, barring: Pattern): string -> bool {
    (x: string) => matching.Search? && matching.finds(x) && x !in topics && Admits(barring)(x)
  }

  lemma PickNone(wanted: string -> bool)
    ensures Pick([], wanted) == []
  {
  }

  lemma PickAppend(names: seq<string>, x: string, wanted: string -> bool)
    ensures Pick(names + [x], wanted) == Pick(names, wanted) + if wanted(x) then [x] else []
  {
    assert (names + [x])[..|names|] == names;
  }

  lemma {:induction false} PickBoth(front: seq<string>, back: seq<string>, wanted: string -> bool)
    ensures Pick(front + back, wanted) == Pick(front, wanted) + Pick(back, wanted)
  {
    hide Pick;
    if back == [] {
      assert front + back == front;
      PickNone(wanted);
    } else {
      var n := |back| - 1;
      PickBoth(front, back[..n], wanted);
      PickAppend(front + back[..n], back[n], wanted);
      PickAppend(back[..n], back[n], wanted);
      assert front + back == front + back[..n] + [back[n]] && back == back[..n] + [back[n]];
    }
  }

  lemma {:induction false} KeepPicks(sel: Selection, barring: Pattern)
    requires |sel.types| == |sel.topics| && barring.Search?
    ensures Keep(sel, barring.finds).topics == Pick(sel.topics, Admits(barring))
    decreases |sel.topics|
  {
    if sel.topics == [] {
    } else {
      var n := |sel.topics| - 1;
      KeepPicks(Selection(sel.topics[..n], sel.types[..n]), barring);
    }
  }

  lemma {:induction false} FoundPicks(topics: seq<string>, matching: Pattern, barring: Pattern, candidates: seq<string>)
    requires matching.Search?
    ensures Pick(Found(candidates, NamesIn(topics), matching.finds), Admits(barring))
         == Pick(candidates, Seeks(topics, matching, barring))
  {
    if candidates == [] {
    } else {
      var n := |candidates| - 1;
      FoundPicks(topics, matching, barring, candidates[..n]);
      var more := if candidates[n] !in NamesIn(topics) && matching.finds(candidates[n]) then [candidates[n]] else [];
      PickBoth(Found(candidates[..n], NamesIn(topics), matching.finds), more, Admits(barring));
      assert more != [] ==> more[..0] == [];
    }
  }

  lemma {:induction false} SeeksNothing(topics: seq<string>, matching: Pattern, barring: Pattern, candidates: seq<string>)
    requires !matching.Search?
    ensures Pick(candidates, Seeks(topics, matching, barring)) == []
  {
    if candidates == [] {
    } else {
      SeeksNothing(topics, matching, barring, candidates[..|candidates| - 1]);
    }
  }

  /** The selection is the named topics not excluded, in the order named and as often, and then the candidates found that
    * were not named and are not excluded, in theirs. */
  lemma ChoiceInOrder(topics: seq<string>, types: seq<string>, matching: Pattern, barring: Pattern, candidates: seq<string>)
    requires Choose(topics, types, matching, barring, candidates).Chosen?
    ensures Choose(topics, types, matching, barring, candidates).selection.topics ==
            Pick(topics, Admits(barring)) + Pick(candidates, Seeks(topics, matching, barring))
  {
    var sel := Included(topics, types, matching, candidates);
    var found := if matching.Search? then Found(candidates, NamesIn(topics), matching.finds) else [];
    assert sel.topics == topics + found;
    if barring.Search? { KeepPicks(sel, barring); }
    else { SamePick(sel.topics, barring); }
    PickBoth(topics, found, Admits(barring));
    if matching.Search? { FoundPicks(topics, matching, barring, candidates); }
    else { SeeksNothing(topics, matching, barring, candidates); }
  }

  lemma {:induction false} SamePick(names: seq<string>, barring: Pattern)
    requires !barring.Search?
    ensures Pick(names, Admits(barring)) == names
  {
    if names == [] {
    } else {
      SamePick(names[..|names| - 1], barring);
      assert names == names[..|names| - 1] + [names[|names| - 1]];
    }
  }

  /** The names with those found after them, and a blank type for each of these. */
  function Grown(topics: seq<string>, padded: seq<string>, found: seq<string>): (seq<string>, seq<string>) {
    (topics + found, padded + Blanks(|found|))
  }

  lemma GrownOneMore(topics: seq<string>, padded: seq<string>, matching: string -> bool, candidates: seq<string>, i: nat)
    requires i < |candidates|
    ensures var (names, types) := Grown(topics, padded, Found(candidates[..i], NamesIn(topics), matching));
            Grown(topics, padded, Found(candidates[..i + 1], NamesIn(topics), matching)) ==
            if candidates[i] !in topics && matching(candidates[i]) then (names + [candidates[i]], types + [""]) else (names, types)
  {
    assert candidates[..i + 1][..i] == candidates[..i];
    var found := Found(candidates[..i], NamesIn(topics), matching);
    assert found + [] == found && |found + [candidates[i]]| == |found| + 1;
    assert topics + found + [candidates[i]] == topics + (found + [candidates[i]]);
    assert padded + Blanks(|found|) + [""] == padded + Blanks(|found| + 1);
  }

  // ---- as the source runs it -------------------------------------------------------------------------------

  method AddMatching(topics: seq<string>, padded: seq<string>, matching: string -> bool, candidates: seq<string>)
    returns (names: seq<string>, types: seq<string>)
    ensures (names, types) == Grown(topics, padded, Found(candidates, NamesIn(topics), matching))
  {
    names, types := topics, padded;
    assert topics + [] == topics && padded + Blanks(0) == padded;
    assert Grown(topics, padded, Found(candidates[..0], NamesIn(topics), matching)) == (names, types);
    hide Found, Grown;
    for i := 0 to |candidates|
      invariant (names, types) == Grown(topics, padded, Found(candidates[..i], NamesIn(topics), matching))
    {
      GrownOneMore(topics, padded, matching, candidates, i);
      if candidates[i] !in topics && matching(candidates[i]) {
        names, types := names + [candidates[i]], types + [""];
      }
    }
    assert candidates[..|candidates|] == candidates;
  }

  method DropBarred(names: seq<string>, types: seq<string>, barring: string -> bool) returns (r: Selection)
    requires |types| == |names|
    ensures r == Keep(Selection(names, types), barring)
  {
    r := Selection([], []);
    for i := 0 to |names|
      invariant r == Keep(Selection(names[..i], types[..i]), barring)
    {
      assert names[..i + 1][..i] == names[..i] && types[..i + 1][..i] == types[..i];
      if !barring(names[i]) {
        r := Selection(r.topics + [names[i]], r.types + [types[i]]);
      }
    }
    assert names[..|names|] == names && types[..|names|] == types;
  }

  method SelectTopics(topics: seq<string>, types: seq<string>, matching: Pattern, barring: Pattern, candidates: seq<string>)
    returns (r: Selected)
    ensures r == Choose(topics, types, matching, barring, candidates)
    ensures r.Chosen? <==> (types == [] || |types| == |topics|) && !matching.Malformed? && !barring.Malformed?
  {
    if types != [] && |types| != |topics| { return TypesMismatch; }
    var names, kinds := topics, if types == [] then Blanks(|topics|) else types;
    if matching.Malformed? { return BadPattern; }
    if matching.Search? {
      names, kinds := AddMatching(names, kinds, matching.finds, candidates);
    }
    if barring.Malformed? { return BadPattern; }
    var sel := Selection(names, kinds);
    if barring.Search? {
      sel := DropBarred(names, kinds, barring.finds);
    }
    return Chosen(sel);
  }

  // ---- what a pattern may find -------------------------------------------------------------------------------

  predicate StartsWith(name: string, prefix: string) {
    |prefix| <= |name| && name[..|prefix|] == prefix
  }

  /** A name token starting with an underscore hides a topic. */
  predicate Hidden(name: string) {
    exists i :: 0 <= i < |name| - 1 && name[i] == '/' && name[i + 1] == '_'
  }

  predicate Eligible(name: string, node: string) { !StartsWith(name, node + "/") && !Hidden(name) }

  /** The graph's names in its own sorted order, less the recorder's own topics and hidden ones; a sorted graph
    * gives sorted candidates, so a pattern adds each topic once. */
  method PatternCandidates(names: seq<string>, node: string) returns (r: seq<string>)
    requires Names.Strict(names)
    ensures Names.Strict(r)
    ensures forall x :: x in r <==> x in names && Eligible(x, node)
  {
    r := [];
    for i := 0 to |names|
      invariant Names.Strict(r)
      invariant forall x :: x in r <==> x in names[..i] && Eligible(x, node)
    {
      assert names[..i + 1] == names[..i] + [names[i]];
      forall x | x in r ensures Names.Leq(x, names[i]) && x != names[i] {
        var k :| 0 <= k < i && names[k] == x;
      }
      if Eligible(names[i], node) { r := r + [names[i]]; }
    }
    assert names[..|names|] == names;
  }

  /** A search never adds a topic twice, nor one the request already names. */
  lemma {:induction false} FoundOnce(candidates: seq<string>, named: set<string>, matching: string -> bool)
    requires Names.Strict(candidates)
    ensures Names.Strict(Found(candidates, named, matching))
  {
    if candidates == [] {
    } else {
      var n := |candidates| - 1;
      FoundOnce(candidates[..n], named, matching);
      forall x | x in candidates[..n] ensures Names.Leq(x, candidates[n]) && x != candidates[n] {}
    }
  }
}
