/** Recording profiles: how they are declared (packages/rosbag2_dynamic_recorder/src/recorder_config.cpp) and
  * how the active one is told from what is subscribed (recorder_services.cpp). */
module Profiles {
  import opened RecorderState
  import Names

  /** declare_profiles: empty names are dropped, each topic list sorted and stripped of repeats. */
  function Declare(given: seq<(string, seq<string>)>): seq<(string, seq<string>)> {
    if given == [] then []
    else if given[0].0 == "" then Declare(given[1..])
    else [(given[0].0, Names.Unique(Names.Sort(given[0].1)))] + Declare(given[1..])
  }

  /** The `i`th profile given is the first usable one that asks for exactly `topics`. */
  ghost predicate FirstWanting(given: seq<(string, seq<string>)>, topics: set<string>, i: int) {
    && 0 <= i < |given| && given[i].0 != "" && NamesIn(given[i].1) == topics
    && forall j | 0 <= j < i :: given[j].0 == "" || NamesIn(given[j].1) != topics
  }

  lemma DeclaredIsSet(wanted: seq<string>, topics: set<string>)
    ensures Names.Unique(Names.Sort(wanted)) == Names.Listing(topics) <==> NamesIn(wanted) == topics
  {
    Names.SortSorted(wanted);
    Names.UniqueStrict(Names.Sort(wanted));
    Names.ListingIsOnly(topics, Names.Unique(Names.Sort(wanted)));
  }

  /** The active profile reported is the first one given whose topics are, as a set, those subscribed; and
    * none is reported exactly when there is no such profile. */
  lemma {:induction false} ActiveProfileIsTrue(given: seq<(string, seq<string>)>, topics: set<string>)
    ensures var active := ActiveProfile(Declare(given), Names.Listing(topics));
            && (active.Some? ==> exists i :: FirstWanting(given, topics, i) && active.value == given[i].0)
            && (active.None? ==> forall i :: !FirstWanting(given, topics, i))
  {
    if given == [] {
    } else {
      DeclaredIsSet(given[0].1, topics);
      ActiveProfileIsTrue(given[1..], topics);
      var active := ActiveProfile(Declare(given[1..]), Names.Listing(topics));
      assert Declare(given) != [] && given[0].0 != "" ==> Declare(given)[1..] == Declare(given[1..]);
      if given[0].0 != "" && NamesIn(given[0].1) == topics {
        assert FirstWanting(given, topics, 0);
      } else {
        forall i ensures FirstWanting(given, topics, i) <==> FirstWanting(given[1..], topics, i - 1) {
          if FirstWanting(given[1..], topics, i - 1) {
            forall j | 0 <= j < i ensures given[j].0 == "" || NamesIn(given[j].1) != topics {
              if j > 0 { assert given[1..][j - 1] == given[j]; }
            }
          }
          if FirstWanting(given, topics, i) && i > 0 {
            forall j | 0 <= j < i - 1 ensures given[1..][j].0 == "" || NamesIn(given[1..][j].1) != topics {
              assert given[1..][j] == given[j + 1];
            }
          }
        }
        if active.Some? {
          var i :| FirstWanting(given[1..], topics, i) && active.value == given[1..][i].0;
          assert FirstWanting(given, topics, i + 1);
        }
      }
    }
  }
}
