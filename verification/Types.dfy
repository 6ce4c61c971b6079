/** Which type a requested topic is subscribed with, and which requests are turned down
  * (packages/rosbag2_dynamic_recorder/src/dynamic_recorder.cpp, topic_selection.cpp). */
module Types {
  import opened Options
  import opened RecorderState
  import opened RecorderInvariants
  import opened Selections

  /** Request `i` names a type. */
  predicate Given(sel: Selection, i: nat) { i < |sel.types| && |sel.types[i]| > 0 }

  /** `t` is the type request `i` names or, if it names none, the one type its topic has on the graph. */
  predicate TypeOf(sel: Selection, graph: Graph, i: nat, t: string)
    requires i < |sel.topics|
  {
    if Given(sel, i) then t == sel.types[i] else sel.topics[i] in graph && graph[sel.topics[i]] == [t]
  }

  /** Request `i` names no type, and its topic is not on the graph with exactly one. */
  predicate Untyped(sel: Selection, graph: Graph, i: nat)
    requires i < |sel.topics|
  {
    !Given(sel, i) && !(sel.topics[i] in graph && |graph[sel.topics[i]]| == 1)
  }

  lemma TypeForIsTypeOf(sel: Selection, graph: Graph, i: nat, t: string)
    requires i < |sel.topics|
    ensures TypeFor(sel, graph, i) == Some(t) <==> TypeOf(sel, graph, i, t)
    ensures TypeFor(sel, graph, i).None? <==> Untyped(sel, graph, i)
  {
  }

  /** One of the first `n` requests added `x`, and it was for this type. */
  ghost predicate AddedAs(c: Config, s: State, sel: Selection, graph: Graph, tries: nat -> Attempt, n: nat, x: string, t: string)
    requires n <= |sel.topics|
  {
    exists i :: 0 <= i < n && sel.topics[i] == x && Adds(c, s, sel, graph, tries, i) && TypeOf(sel, graph, i, t)
  }

  lemma AddedOn(c: Config, s: State, b: Batch, next: Batch, sel: Selection, graph: Graph, tries: nat -> Attempt, n: nat,
                x: string)
    requires n < |sel.topics| && StepsTo(c, b, next, sel.topics[n], TypeFor(sel, graph, n), tries(n))
    requires Foreseen(c, s, b.state, sel, graph, tries, n, sel.topics[n])
    requires x in b.state.subs && x !in s.subs ==> AddedAs(c, s, sel, graph, tries, n, x, b.state.subs[x].typeName)
    ensures x in next.state.subs && x !in s.subs ==>
              AddedAs(c, s, sel, graph, tries, n + 1, x, next.state.subs[x].typeName)
  {
    hide Gets, ChannelBefore, CanSubscribe, TypeOf, TypeFor;
    if x in next.state.subs && x !in s.subs {
      if x in b.state.subs {
        assert next.state.subs[x] == b.state.subs[x];
        var i :| 0 <= i < n && sel.topics[i] == x && Adds(c, s, sel, graph, tries, i)
                 && TypeOf(sel, graph, i, b.state.subs[x].typeName);
        assert 0 <= i < n + 1;
      } else {
        GetsIsCan(c, s, b, sel, graph, tries, n);
        GotStep(c, s, sel, graph, tries, n, sel.topics[n]);
        TypeForIsTypeOf(sel, graph, n, next.state.subs[x].typeName);
        assert sel.topics[n] == x && Adds(c, s, sel, graph, tries, n);
      }
    }
  }

  /** Every topic a batch adds was added by a request that got it, and carries the very type that request named or, if it
    * named none, the one type the topic has on the graph. */
  lemma {:induction false} AddedWithItsType(c: Config, s: State, sel: Selection, graph: Graph, tries: nat -> Attempt, n: nat,
                                            x: string)
    requires Quiet(s.bag) && s.bag.open && n <= |sel.topics|
    ensures var after := SubscribeFirst(c, s, sel, graph, tries, n).state;
            x in after.subs && x !in s.subs ==> AddedAs(c, s, sel, graph, tries, n, x, after.subs[x].typeName)
  {
    hide SubscribeFirst, BatchStep, AddedAs, Foreseen, StepsTo;
    if n == 0 {
      NoneYet(c, s, sel, graph, tries);
    } else {
      AddedWithItsType(c, s, sel, graph, tries, n - 1, x);
      BatchForeseen(c, s, sel, graph, tries, n - 1, sel.topics[n - 1]);
      LastStep(c, s, sel, graph, tries, n);
      AddedOn(c, s, SubscribeFirst(c, s, sel, graph, tries, n - 1), SubscribeFirst(c, s, sel, graph, tries, n),
        sel, graph, tries, n - 1, x);
    }
  }

  /** Request `i` is turned down: it has no type, or its topic is not subscribed and neither it nor a request for the same
    * topic before it gets it. */
  ghost predicate TurnedDown(c: Config, s: State, sel: Selection, graph: Graph, tries: nat -> Attempt, i: nat)
    requires i < |sel.topics|
  {
    || Untyped(sel, graph, i)
    || (sel.topics[i] !in s.subs
        && forall j | 0 <= j <= i && sel.topics[j] == sel.topics[i] :: !Gets(c, s, sel, graph, tries, j))
  }

  lemma ReplyStep(c: Config, s: State, b: Batch, next: Batch, sel: Selection, graph: Graph, tries: nat -> Attempt, n: nat)
    requires n < |sel.topics| && StepsTo(c, b, next, sel.topics[n], TypeFor(sel, graph, n), tries(n))
    requires Foreseen(c, s, b.state, sel, graph, tries, n, sel.topics[n])
    ensures var down, one := TurnedDown(c, s, sel, graph, tries, n), [sel.topics[n]];
            && next.unavailable == b.unavailable + (if down then one else [])
            && next.subscribed == b.subscribed + (if down then [] else one)
            && next.added == b.added + (if Adds(c, s, sel, graph, tries, n) then one else [])
  {
    hide Gets, ChannelBefore, CanSubscribe, Outcome;
    TypeForIsTypeOf(sel, graph, n, "");
    GotStep(c, s, sel, graph, tries, n, sel.topics[n]);
    if sel.topics[n] !in b.state.subs { GetsIsCan(c, s, b, sel, graph, tries, n); }
    GetsTyped(c, s, sel, graph, tries, n);
  }

  lemma GetsTyped(c: Config, s: State, sel: Selection, graph: Graph, tries: nat -> Attempt, n: nat)
    requires n < |sel.topics|
    ensures Gets(c, s, sel, graph, tries, n) ==> TypeFor(sel, graph, n).Some?
  {
    hide ChannelBefore;
  }

  /** Of the first `n` requests, those turned down, or those not, in order. */
  ghost function Sorted(c: Config, s: State, sel: Selection, graph: Graph, tries: nat -> Attempt, n: nat, down: bool): seq<string>
    requires n <= |sel.topics|
  {
    if n == 0 then []
    else
      Sorted(c, s, sel, graph, tries, n - 1, down)
        + if TurnedDown(c, s, sel, graph, tries, n - 1) == down then [sel.topics[n - 1]] else []
  }

  /** Of the first `n` requests, those that add their topic, in order. */
  ghost function Additions(c: Config, s: State, sel: Selection, graph: Graph, tries: nat -> Attempt, n: nat): seq<string>
    requires n <= |sel.topics|
  {
    if n == 0 then []
    else
      Additions(c, s, sel, graph, tries, n - 1) + if Adds(c, s, sel, graph, tries, n - 1) then [sel.topics[n - 1]] else []
  }

  /** A batch lists unavailable exactly the requests turned down, subscribed the others and added those that add their
    * topic, each in the order asked, judged from the state before it, the graph and the attempts: so a request that names
    * a type never fails for want of one, and one that names none is served only if its topic is on the graph with
    * exactly one. */
  lemma {:induction false} ReplyIsExact(c: Config, s: State, sel: Selection, graph: Graph, tries: nat -> Attempt, n: nat)
    requires Quiet(s.bag) && s.bag.open && n <= |sel.topics|
    ensures var b := SubscribeFirst(c, s, sel, graph, tries, n);
            && b.unavailable == Sorted(c, s, sel, graph, tries, n, true)
            && b.subscribed == Sorted(c, s, sel, graph, tries, n, false)
            && b.added == Additions(c, s, sel, graph, tries, n)
  {
    hide SubscribeFirst, BatchStep, Foreseen, StepsTo, TurnedDown, Adds;
    if n == 0 {
      NoneYet(c, s, sel, graph, tries);
    } else {
      ReplyIsExact(c, s, sel, graph, tries, n - 1);
      BatchForeseen(c, s, sel, graph, tries, n - 1, sel.topics[n - 1]);
      LastStep(c, s, sel, graph, tries, n);
      ReplyStep(c, s, SubscribeFirst(c, s, sel, graph, tries, n - 1), SubscribeFirst(c, s, sel, graph, tries, n),
        sel, graph, tries, n - 1);
    }
  }
}
