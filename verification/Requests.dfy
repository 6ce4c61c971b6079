/** set_topics and subscribe_topics end to end: from a request to the selection and the reply's verdict
  * (packages/rosbag2_dynamic_recorder/src/recorder_services.cpp). */
module Requests {
  import opened Options
  import opened BagStore
  import opened RecorderState
  import opened RecorderInvariants
  import opened Selections
  import T = TopicSelection
  import Names

  /** set_subscribe_result: the reply is an error when nothing was subscribed and something was unavailable. */
  predicate AllFailed(b: Batch) { b.subscribed == [] && b.unavailable != [] }

  /** Request `i` is served: its type is found, and its topic is subscribed already or gets subscribed. */
  predicate Served(c: Config, s: State, sel: Selection, graph: Graph, tries: nat -> Attempt, i: nat)
    requires i < |sel.topics|
  {
    TypeFor(sel, graph, i).Some? && (sel.topics[i] in s.subs || Gets(c, s, sel, graph, tries, i))
  }

  ghost predicate AnyServed(c: Config, s: State, sel: Selection, graph: Graph, tries: nat -> Attempt, n: nat)
    requires n <= |sel.topics|
  {
    exists i :: 0 <= i < n && Served(c, s, sel, graph, tries, i)
  }

  lemma AnyServedStep(c: Config, s: State, sel: Selection, graph: Graph, tries: nat -> Attempt, n: nat)
    requires n < |sel.topics|
    ensures AnyServed(c, s, sel, graph, tries, n + 1) <==>
            AnyServed(c, s, sel, graph, tries, n) || Served(c, s, sel, graph, tries, n)
  {
    hide Served;
  }

  lemma GotIsServed(c: Config, s: State, sel: Selection, graph: Graph, tries: nat -> Attempt, n: nat, x: string)
    requires n <= |sel.topics| && Got(c, s, sel, graph, tries, n, x)
    ensures AnyServed(c, s, sel, graph, tries, n)
  {
    var i :| 0 <= i < n && sel.topics[i] == x && Gets(c, s, sel, graph, tries, i);
    hide ChannelBefore;
    assert Served(c, s, sel, graph, tries, i);
  }

  /** The next request after some of which none was served. */
  lemma ServedOn(c: Config, s: State, b: Batch, next: Batch, sel: Selection, graph: Graph, tries: nat -> Attempt, n: nat)
    requires n < |sel.topics| && StepsTo(c, b, next, sel.topics[n], TypeFor(sel, graph, n), tries(n))
    requires Foreseen(c, s, b.state, sel, graph, tries, n, sel.topics[n]) && !AnyServed(c, s, sel, graph, tries, n)
    requires b.subscribed == []
    ensures next.subscribed != [] <==> Served(c, s, sel, graph, tries, n)
  {
    var x := sel.topics[n];
    if Got(c, s, sel, graph, tries, n, x) { GotIsServed(c, s, sel, graph, tries, n, x); }
    if x !in b.state.subs { GetsIsCan(c, s, b, sel, graph, tries, n); }
    hide Gets, ChannelBefore, Got, AnyServed, CanSubscribe;
  }

  /** Something is subscribed by the first `n` requests exactly when one of them is served. */
  lemma {:induction false} SomeServed(c: Config, s: State, sel: Selection, graph: Graph, tries: nat -> Attempt, n: nat)
    requires Quiet(s.bag) && s.bag.open && n <= |sel.topics|
    ensures SubscribeFirst(c, s, sel, graph, tries, n).subscribed != [] <==> AnyServed(c, s, sel, graph, tries, n)
  {
    hide SubscribeFirst, BatchStep, Served, Foreseen;
    if n == 0 {
      NoneYet(c, s, sel, graph, tries);
    } else {
      SomeServed(c, s, sel, graph, tries, n - 1);
      LastStep(c, s, sel, graph, tries, n);
      AnyServedStep(c, s, sel, graph, tries, n - 1);
      hide AnyServed;
      if !AnyServed(c, s, sel, graph, tries, n - 1) {
        BatchForeseen(c, s, sel, graph, tries, n - 1, sel.topics[n - 1]);
        ServedOn(c, s, SubscribeFirst(c, s, sel, graph, tries, n - 1), SubscribeFirst(c, s, sel, graph, tries, n),
          sel, graph, tries, n - 1);
      }
    }
  }

  /** The reply to a batch is an error exactly when it asked for something and none of what it asked for can be
    * served, judged from the state before the call, the graph and the attempts alone. */
  lemma FailsExactly(c: Config, s: State, sel: Selection, graph: Graph, tries: nat -> Attempt)
    requires Quiet(s.bag) && s.bag.open
    ensures AllFailed(SubscribeBatch(c, s, sel, graph, tries)) <==>
            sel.topics != [] && forall i | 0 <= i < |sel.topics| :: !Served(c, s, sel, graph, tries, i)
  {
    hide SubscribeFirst;
    var b := SubscribeBatch(c, s, sel, graph, tries);
    SomeServed(c, s, sel, graph, tries, |sel.topics|);
    BatchPartitions(c, s, sel, graph, tries, |sel.topics|);
    assert sel.topics[..|sel.topics|] == sel.topics;
    assert |multiset(sel.topics)| == |b.subscribed| + |b.unavailable|;
  }

  /** A request that only keeps topics is answered with an error exactly when no type can be found for any of
    * them: the type is looked up before the subscription is. */
  lemma KeptFailsExactly(c: Config, s: State, sel: Selection, graph: Graph, tries: nat -> Attempt)
    requires Quiet(s.bag) && s.bag.open && forall x | x in sel.topics :: x in s.subs
    ensures AllFailed(SubscribeBatch(c, s, sel, graph, tries)) <==>
            sel.topics != [] && forall i | 0 <= i < |sel.topics| :: TypeFor(sel, graph, i).None?
  {
    FailsExactly(c, s, sel, graph, tries);
    hide SubscribeBatch;
    forall i | 0 <= i < |sel.topics| ensures Served(c, s, sel, graph, tries, i) <==> TypeFor(sel, graph, i).Some? {
      assert sel.topics[i] in sel.topics;
    }
  }

  /** So is a replacement that only keeps topics; and whatever the answer, each of them stays recorded, by the
    * subscription it had. */
  lemma RefusedYetKept(c: Config, s: State, sel: Selection, graph: Graph, drops: nat -> Tick, tries: nat -> Attempt)
    requires Quiet(s.bag) && s.bag.open && forall x | x in sel.topics :: x in s.subs
    ensures var b := ReplaceTopics(c, s, sel, graph, drops, tries).0;
            && (AllFailed(b) <==> sel.topics != [] && forall i | 0 <= i < |sel.topics| :: TypeFor(sel, graph, i).None?)
            && forall x | x in sel.topics :: x in b.state.subs && b.state.subs[x] == s.subs[x]
  {
    var listed := Names.Listing(s.subs.Keys);
    var (dropped, gone) := UnsubscribeFirst(c, s, listed, NamesIn(sel.topics), drops, |listed|);
    DropsAreExact(c, s, listed, NamesIn(sel.topics), drops, |listed|);
    assert listed[..|listed|] == listed;
    ReplaceIsExact(c, s, sel, graph, drops, tries);
    hide SubscribeBatch, UnsubscribeFirst;
    KeptFailsExactly(c, dropped, sel, graph, tries);
  }

  /** What a set_topics request leaves recorded, topic by topic. */
  lemma SetTopicsIsExact(c: Config, s: State, topics: seq<string>, types: seq<string>, matching: T.Pattern, barring: T.Pattern,
                         candidates: seq<string>, graph: Graph, drops: nat -> Tick, tries: nat -> Attempt, x: string)
    requires Quiet(s.bag) && s.bag.open
    requires T.Choose(topics, types, matching, barring, candidates).Chosen?
    ensures var sel := T.Choose(topics, types, matching, barring, candidates).selection;
            var (b, gone) := ReplaceTopics(c, s, sel, graph, drops, tries);
            var wanted := T.Wanted(topics, matching, barring, candidates, x);
            && (x in s.subs && wanted ==> x in b.state.subs && b.state.subs[x] == s.subs[x])
            && (x in b.state.subs ==> wanted)
            && (x in gone <==> x in s.subs && !wanted)
            && (wanted && x !in b.state.subs ==> x in b.unavailable)
  {
    var sel := T.Choose(topics, types, matching, barring, candidates).selection;
    var (b, gone) := ReplaceTopics(c, s, sel, graph, drops, tries);
    T.ChoiceIsExact(topics, types, matching, barring, candidates, x, "");
    ReplaceIsExact(c, s, sel, graph, drops, tries);
    SubscribedStays(c, s, sel, graph, drops, tries);
    if x in sel.topics {
      assert multiset(sel.topics)[x] > 0;
      assert multiset(b.subscribed)[x] + multiset(b.unavailable)[x] > 0;
    }
  }

  lemma SubscribedStays(c: Config, s: State, sel: Selection, graph: Graph, drops: nat -> Tick, tries: nat -> Attempt)
    requires Quiet(s.bag) && s.bag.open
    ensures var b := ReplaceTopics(c, s, sel, graph, drops, tries).0; forall x | x in b.subscribed :: x in b.state.subs
  {
    var listed := Names.Listing(s.subs.Keys);
    DropsAreExact(c, s, listed, NamesIn(sel.topics), drops, |listed|);
    var dropped := UnsubscribeFirst(c, s, listed, NamesIn(sel.topics), drops, |listed|).0;
    BatchIsExact(c, dropped, sel, graph, tries, |sel.topics|);
  }
}
