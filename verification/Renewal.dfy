/** record() in full: besides the recorder's state it touches the storage path and the loss books, and does so before
  * it knows whether the bag opens (packages/rosbag2_dynamic_recorder/src/dynamic_recorder.cpp and bag.cpp). */
module Renewal {
  import opened Options
  import opened RecorderState
  import opened BagStore
  import L = Losses

  // ---- the free path -----------------------------------------------------------------------------------

  /** kMaxBagPathSuffix. */
  const MAX_SUFFIX: nat := 10000

  function Digits(n: nat): string {
    if n < 10 then ["0123456789"[n]] else Digits(n / 10) + ["0123456789"[n % 10]]
  }

  /** What a string of digits says. */
  function Reads(s: string): int {
    if s == "" then 0 else Reads(s[..|s| - 1]) * 10 + (s[|s| - 1] as int - '0' as int)
  }

  /** The digits of a number say that number. */
  lemma {:induction false} DigitsRead(n: nat)
    ensures Reads(Digits(n)) == n && Digits(n) != "" && forall i | 0 <= i < |Digits(n)| :: '0' <= Digits(n)[i] <= '9'
  {
    var last := "0123456789"[n % 10];
    assert last as int - '0' as int == n % 10;
    if n < 10 {
      assert Digits(n)[..0] == "";
    } else {
      DigitsRead(n / 10);
      assert Digits(n) == Digits(n / 10) + [last] && Digits(n)[..|Digits(n)| - 1] == Digits(n / 10);
    }
  }

  function Suffixed(uri: string, i: nat): string { uri + "(" + Digits(i) + ")" }

  /** The first of the suffixes from `i` on that names nothing that exists. */
  function FreeFrom(uri: string, taken: string -> bool, i: nat): (r: Option<string>)
    ensures r.None? <==> forall j | i <= j < MAX_SUFFIX :: taken(Suffixed(uri, j))
    ensures r.Some? ==> exists j :: i <= j < MAX_SUFFIX && r.value == Suffixed(uri, j) && !taken(r.value)
                                    && forall k | i <= k < j :: taken(Suffixed(uri, k))
    decreases MAX_SUFFIX - i
  {
    if i >= MAX_SUFFIX then None
    else if !taken(Suffixed(uri, i)) then Some(Suffixed(uri, i))
    else FreeFrom(uri, taken, i + 1)
  }

  function FreePath(uri: string, taken: string -> bool): Option<string> {
    if !taken(uri) then Some(uri) else FreeFrom(uri, taken, 1)
  }

  /** unused_bag_path: the name itself if it is free, else the first free one with a number after it. */
  method UnusedBagPath(uri: string, taken: string -> bool) returns (r: Option<string>)
    ensures r == FreePath(uri, taken)
  {
    if !taken(uri) { return Some(uri); }
    for i := 1 to MAX_SUFFIX
      invariant FreeFrom(uri, taken, 1) == FreeFrom(uri, taken, i)
    {
      var candidate := Suffixed(uri, i);
      if !taken(candidate) { return Some(candidate); }
    }
    return None;
  }

  // ---- record() ------------------------------------------------------------------------------------------

  /** What record() can change. */
  datatype Whole = Whole(recorder: State, books: L.Books, path: string)

  datatype Reply = Recording | AlreadyRecording | NoFreePath | OpenFailed

  /** An empty request means the path in use. */
  function Requested(w: Whole, uri: string): string { if uri == "" then w.path else uri }

  function RecordAll(c: Config, w: Whole, uri: string, taken: string -> bool, graph: Graph, how: Opening,
                     tries: nat -> Attempt): (Whole, Reply)
  {
    if w.recorder.bag.open then (w, AlreadyRecording)
    else
      var path := FreePath(Requested(w, uri), taken);
      if path.None? then (w, NoFreePath)
      else
        var cleared := w.(path := path.value, books := L.Reset(w.books));
        if !how.writerOpens then (cleared, OpenFailed)
        else (cleared.(recorder := Record(c, w.recorder, graph, how.(pathFree := true), tries)), Recording)
  }

  /** To the recorder's state it is the `Record` of every run, with a free path if one was found. */
  lemma RecordAllIsRecord(c: Config, w: Whole, uri: string, taken: string -> bool, graph: Graph, how: Opening,
                          tries: nat -> Attempt)
    ensures var opening := how.(pathFree := FreePath(Requested(w, uri), taken).Some?);
            var (after, reply) := RecordAll(c, w, uri, taken, graph, how, tries);
            && after.recorder == Record(c, w.recorder, graph, opening, tries)
            && (reply.Recording? <==> Reopens(w.recorder, opening))
  {
    hide FreePath;
  }

  /** No loss has been counted since the last reset. */
  predicate NothingLost(b: L.Books) {
    b.missed == 0 && b.lostInTransport == 0 && b.lostInRecorder == 0 && b.pending == map[] && b.perTopic == map[]
  }

  /** A record() that is refused leaves the recorder as it was; and the books and the path too exactly when it was
    * refused before it got to them, or they had nothing to lose: no loss counted, and the same path found. */
  lemma RefusedKeepsExactly(c: Config, w: Whole, uri: string, taken: string -> bool, graph: Graph, how: Opening,
                            tries: nat -> Attempt)
    requires !RecordAll(c, w, uri, taken, graph, how, tries).1.Recording?
    ensures var after := RecordAll(c, w, uri, taken, graph, how, tries).0;
            && after.recorder == w.recorder
            && (after == w <==>
                || w.recorder.bag.open
                || FreePath(Requested(w, uri), taken).None?
                || (NothingLost(w.books) && FreePath(Requested(w, uri), taken) == Some(w.path)))
  {
    hide FreePath;
  }

  /** A record() that gets as far as the writer has begun afresh: no loss is counted, and the path is the one asked for, or
    * the one in use if none was, when it is free, and else the first free one of those with a number after it. */
  lemma BegunAfresh(c: Config, w: Whole, uri: string, taken: string -> bool, graph: Graph, how: Opening,
                    tries: nat -> Attempt)
    requires var reply := RecordAll(c, w, uri, taken, graph, how, tries).1; reply.Recording? || reply.OpenFailed?
    ensures var after := RecordAll(c, w, uri, taken, graph, how, tries).0;
            var asked := if |uri| == 0 then w.path else uri;
            && NothingLost(after.books) && !taken(after.path)
            && if !taken(asked) then after.path == asked
               else exists i :: 1 <= i < 10000 && after.path == asked + "(" + Digits(i) + ")"
                                && forall k | 1 <= k < i :: taken(Suffixed(asked, k))
  {
    var asked := if |uri| == 0 then w.path else uri;
    assert asked == Requested(w, uri);
    if taken(asked) {
      var j :| 1 <= j < MAX_SUFFIX && FreeFrom(asked, taken, 1) == Some(Suffixed(asked, j))
        && forall k | 1 <= k < j :: taken(Suffixed(asked, k));
    }
    hide FreeFrom;
  }

  /** A record() that fails at the writer leaves no loss counted, for any topic, and the path it went for. */
  lemma FailedOpenForgets(c: Config, w: Whole, uri: string, taken: string -> bool, graph: Graph, how: Opening,
                          tries: nat -> Attempt, topic: string)
    requires RecordAll(c, w, uri, taken, graph, how, tries).1.OpenFailed?
    ensures var after := RecordAll(c, w, uri, taken, graph, how, tries).0;
            && NothingLost(after.books) && L.TotalsOf(after.books, topic) == L.TopicLoss(0, 0, 0)
            && FreePath(Requested(w, uri), taken) == Some(after.path) && !taken(after.path)
  {
    if taken(Requested(w, uri)) {
      var j :| 1 <= j < MAX_SUFFIX && FreeFrom(Requested(w, uri), taken, 1) == Some(Suffixed(Requested(w, uri), j))
        && !taken(Suffixed(Requested(w, uri), j));
    }
    hide FreeFrom;
  }

  /** Three messages missed, and the next record() fails at the writer: the status then says none were. */
  lemma TotalsAreForgotten(c: Config, graph: Graph, tries: nat -> Attempt) returns (w: Whole, after: Whole)
    ensures w.recorder == Initial(false) && w.books == L.Run([L.Saw(0, "p", 1, "/scan"), L.Saw(0, "p", 5, "/scan")]).books
    ensures (after, OpenFailed) ==
            RecordAll(c, w, "again", (name: string) => name == "first", graph, Opening(true, false, 0, Tick(0, Stored)), tries)
    ensures L.TotalsOf(w.books, "/scan").missed == 3 && L.TotalsOf(after.books, "/scan").missed == 0
    ensures w.path == "first" && after.path == "again"
  {
    var ops := [L.Saw(0, "p", 1, "/scan"), L.Saw(0, "p", 5, "/scan")];
    assert ops[..1] == [ops[0]] && ops[..1][..0] == [];
    w := Whole(Initial(false), L.Run(ops).books, "first");
    after := RecordAll(c, w, "again", (name: string) => name == "first", graph, Opening(true, false, 0, Tick(0, Stored)), tries).0;
  }

  /** storage_options_, of which only the path matters here. */
  class StorageOptions {
    var uri: string

    constructor (uri: string)
      ensures this.uri == uri
    {
      this.uri := uri;
    }
  }
}
