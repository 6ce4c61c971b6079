/** Loss accounting (packages/rosbag2_dynamic_recorder/src/loss_accounting.cpp). */
module Losses {
  import opened Options
  import opened Sums

  const WRAP: int := 0x1_0000_0000_0000_0000
  /** RMW_MESSAGE_INFO_SEQUENCE_NUMBER_UNSUPPORTED: on_message never passes it on. */
  const UNSUPPORTED: int := WRAP - 1

  type Count = x: int | 0 <= x < WRAP witness 0

  /** uint64_t addition. */
  function Add(a: Count, b: Count): Count { (a + b) % WRAP }

  datatype Pending = Pending(inTransport: Count, inRecorder: Count)

  datatype TopicLoss = TopicLoss(inTransport: Count, inRecorder: Count, missed: Count)

  datatype Books = Books(
    missed: Count, sequenceNumbersAvailable: bool, lostInTransport: Count, lostInRecorder: Count,
    pending: map<string, Pending>, perTopic: map<string, TopicLoss>)

  const EMPTY: Books := Books(0, false, 0, 0, map[], map[])

  function PendingOf(b: Books, topic: string): Pending {
    if topic in b.pending then b.pending[topic] else Pending(0, 0)
  }

  function TotalsOf(b: Books, topic: string): TopicLoss {
    if topic in b.perTopic then b.perTopic[topic] else TopicLoss(0, 0, 0)
  }

  // ---- the operations, as values ---------------------------------------------------------------

  /** The gap note_sequence counts, in uint64_t arithmetic; 0 when it counts none. */
  function CountedGap(previous: Option<Count>, sequence: Count): Count {
    if previous.Some? && sequence > Add(previous.value, 1) then (sequence - previous.value - 1) % WRAP else 0
  }

  function NoteSequence(b: Books, previous: Option<Count>, sequence: Count, topic: string): Books {
    var gap := CountedGap(previous, sequence);
    if gap == 0 then b.(sequenceNumbersAvailable := true)
    else
      var entry := TotalsOf(b, topic);
      b.(sequenceNumbersAvailable := true,
         missed := Add(b.missed, gap),
         perTopic := b.perTopic[topic := entry.(missed := Add(entry.missed, gap))])
  }

  function NoteTransportLoss(b: Books, topic: string, count: Count): Books {
    var due, entry := PendingOf(b, topic), TotalsOf(b, topic);
    b.(lostInTransport := Add(b.lostInTransport, count),
       pending := b.pending[topic := due.(inTransport := Add(due.inTransport, count))],
       perTopic := b.perTopic[topic := entry.(inTransport := Add(entry.inTransport, count))])
  }

  function NoteRecorderLoss(b: Books, topic: string, count: Count): Books {
    var due, entry := PendingOf(b, topic), TotalsOf(b, topic);
    b.(lostInRecorder := Add(b.lostInRecorder, count),
       pending := b.pending[topic := due.(inRecorder := Add(due.inRecorder, count))],
       perTopic := b.perTopic[topic := entry.(inRecorder := Add(entry.inRecorder, count))])
  }

  function Reset(b: Books): Books {
    EMPTY.(sequenceNumbersAvailable := b.sequenceNumbersAvailable)
  }

  // ---- the object --------------------------------------------------------------------------------

  /** Last sequence seen per publisher, owned by one subscription. */
  class SequenceMap {
    var last: map<string, Count>

    constructor ()
      ensures last == map[]
    {
      last := map[];
    }

    function Previous(publisher: string): Option<Count>
      reads this
    {
      if publisher in last then Some(last[publisher]) else None
    }
  }

  class LossAccounting {
    var missed: Count
    var sequenceNumbersAvailable: bool
    var lostInTransport: Count
    var lostInRecorder: Count
    var pending: map<string, Pending>
    var perTopic: map<string, TopicLoss>

    ghost function State(): Books
      reads this
    {
      Books(missed, sequenceNumbersAvailable, lostInTransport, lostInRecorder, pending, perTopic)
    }

    constructor ()
      ensures State() == EMPTY
    {
      missed, sequenceNumbersAvailable, lostInTransport, lostInRecorder := 0, false, 0, 0;
      pending, perTopic := map[], map[];
    }

    method Note(seen: SequenceMap, publisher: string, sequence: Count, topic: string)
      modifies this, seen
      ensures State() == NoteSequence(old(State()), old(seen.Previous(publisher)), sequence, topic)
      ensures seen.last == old(seen.last)[publisher := sequence]
    {
      sequenceNumbersAvailable := true;
      if publisher in seen.last && sequence > Add(seen.last[publisher], 1) {
        var gap := (sequence - seen.last[publisher] - 1) % WRAP;
        missed := Add(missed, gap);
        var entry := if topic in perTopic then perTopic[topic] else TopicLoss(0, 0, 0);
        perTopic := perTopic[topic := entry.(missed := Add(entry.missed, gap))];
      }
      seen.last := seen.last[publisher := sequence];
    }

    method NoteTransport(topic: string, count: Count)
      modifies this
      ensures State() == NoteTransportLoss(old(State()), topic, count)
    {
      lostInTransport := Add(lostInTransport, count);
      var due := if topic in pending then pending[topic] else Pending(0, 0);
      pending := pending[topic := due.(inTransport := Add(due.inTransport, count))];
      var entry := if topic in perTopic then perTopic[topic] else TopicLoss(0, 0, 0);
      perTopic := perTopic[topic := entry.(inTransport := Add(entry.inTransport, count))];
    }

    method NoteRecorder(topic: string, count: Count)
      modifies this
      ensures State() == NoteRecorderLoss(old(State()), topic, count)
    {
      lostInRecorder := Add(lostInRecorder, count);
      var due := if topic in pending then pending[topic] else Pending(0, 0);
      pending := pending[topic := due.(inRecorder := Add(due.inRecorder, count))];
      var entry := if topic in perTopic then perTopic[topic] else TopicLoss(0, 0, 0);
      perTopic := perTopic[topic := entry.(inRecorder := Add(entry.inRecorder, count))];
    }

    method Drain() returns (losses: map<string, Pending>)
      modifies this
      ensures losses == old(pending)
      ensures State() == old(State()).(pending := map[])
    {
      losses := pending;
      pending := map[];
    }

    method ResetAll()
      modifies this
      ensures State() == Reset(old(State()))
    {
      missed, lostInTransport, lostInRecorder := 0, 0, 0;
      pending, perTopic := map[], map[];
    }
  }

  // ---- every run -----------------------------------------------------------------------------------

  datatype Op =
    | Saw(subscription: nat, publisher: string, sequence: Count, topic: string)
    | LostInTransport(topic: string, count: Count)
    | LostInRecorder(topic: string, count: Count)
    | Drained
    | WasReset

  type Key = (nat, string)

  /** The books, each subscription's sequence map, and everything drained so far (not wrapped). */
  datatype Ledger = Ledger(books: Books, seen: map<Key, Count>, transportOut: map<string, int>, recorderOut: map<string, int>)

  function OutOf(m: map<string, int>, topic: string): int { if topic in m then m[topic] else 0 }

  function PreviousOf(seen: map<Key, Count>, k: Key): Option<Count> { if k in seen then Some(seen[k]) else None }

  function Step(l: Ledger, op: Op): Ledger {
    match op
    case Saw(sub, publisher, sequence, topic) =>
      l.(books := NoteSequence(l.books, PreviousOf(l.seen, (sub, publisher)), sequence, topic),
         seen := l.seen[(sub, publisher) := sequence])
    case LostInTransport(topic, count) => l.(books := NoteTransportLoss(l.books, topic, count))
    case LostInRecorder(topic, count) => l.(books := NoteRecorderLoss(l.books, topic, count))
    case Drained =>
      var p := l.books.pending;
      Ledger(l.books.(pending := map[]), l.seen,
             map t | t in p.Keys + l.transportOut.Keys :: OutOf(l.transportOut, t) + PendingOf(l.books, t).inTransport,
             map t | t in p.Keys + l.recorderOut.Keys :: OutOf(l.recorderOut, t) + PendingOf(l.books, t).inRecorder)
    case WasReset => Ledger(Reset(l.books), l.seen, map[], map[])
  }

  function Run(ops: seq<Op>): Ledger {
    if ops == [] then Ledger(EMPTY, map[], map[], map[])
    else Step(Run(ops[..|ops| - 1]), ops[|ops| - 1])
  }

  /** What was reported lost on `topic` since the last reset, counted without wrap-around. */
  function ReportedStep(was: (int, int), op: Op, topic: string): (int, int) {
    match op
    case LostInTransport(t, count) => if t == topic then (was.0 + count, was.1) else was
    case LostInRecorder(t, count) => if t == topic then (was.0, was.1 + count) else was
    case WasReset => (0, 0)
    case Saw(_, _, _, _) => was
    case Drained => was
  }

  function Reported(ops: seq<Op>, topic: string): (int, int) {
    if ops == [] then (0, 0) else ReportedStep(Reported(ops[..|ops| - 1], topic), ops[|ops| - 1], topic)
  }

  lemma WrapAdd(a: int, b: int)
    ensures (a + b % WRAP) % WRAP == (a + b) % WRAP
  {
    assert b == WRAP * (b / WRAP) + b % WRAP;
    assert a + b % WRAP == a + b - WRAP * (b / WRAP);
    WrapShift(a + b % WRAP, b / WRAP);
  }

  lemma {:induction false} WrapShift(a: int, n: int)
    ensures (a + WRAP * n) % WRAP == a % WRAP
    decreases if n < 0 then -n else n
  {
    if n == 0 {
    } else if n > 0 {
      WrapShift(a, n - 1);
      assert (a + WRAP * (n - 1) + WRAP) % WRAP == (a + WRAP * (n - 1)) % WRAP;
    } else {
      WrapShift(a, n + 1);
      assert (a + WRAP * (n + 1) - WRAP) % WRAP == (a + WRAP * (n + 1)) % WRAP;
    }
  }

  /** Per topic, what was drained plus what is pending is the running total, and both are what was reported. */
  ghost predicate TopicBalanced(l: Ledger, topic: string, reported: (int, int)) {
    && TotalsOf(l.books, topic).inTransport == reported.0 % WRAP
    && TotalsOf(l.books, topic).inRecorder == reported.1 % WRAP
    && (OutOf(l.transportOut, topic) + PendingOf(l.books, topic).inTransport) % WRAP == reported.0 % WRAP
    && (OutOf(l.recorderOut, topic) + PendingOf(l.books, topic).inRecorder) % WRAP == reported.1 % WRAP
  }

  /** One more loss of `count`, on a total and on what is drained plus due. */
  lemma AddOne(total: Count, drained: int, due: Count, reported: int, count: Count)
    requires total == reported % WRAP && (drained + due) % WRAP == reported % WRAP
    ensures Add(total, count) == (reported + count) % WRAP
    ensures (drained + Add(due, count)) % WRAP == (reported + count) % WRAP
  {
    WrapAdd(count, reported);
    WrapAdd(drained, due + count);
    WrapAdd(count, drained + due);
  }

  lemma TransportKeepsTopic(l: Ledger, t: string, count: Count, topic: string, was: (int, int))
    requires TopicBalanced(l, topic, was)
    ensures TopicBalanced(Step(l, LostInTransport(t, count)), topic, ReportedStep(was, LostInTransport(t, count), topic))
  {
    AddOne(TotalsOf(l.books, topic).inTransport, OutOf(l.transportOut, topic), PendingOf(l.books, topic).inTransport, was.0, count);
  }

  lemma RecorderKeepsTopic(l: Ledger, t: string, count: Count, topic: string, was: (int, int))
    requires TopicBalanced(l, topic, was)
    ensures TopicBalanced(Step(l, LostInRecorder(t, count)), topic, ReportedStep(was, LostInRecorder(t, count), topic))
  {
    AddOne(TotalsOf(l.books, topic).inRecorder, OutOf(l.recorderOut, topic), PendingOf(l.books, topic).inRecorder, was.1, count);
  }

  lemma DrainKeepsTopic(l: Ledger, topic: string, was: (int, int))
    requires TopicBalanced(l, topic, was)
    ensures TopicBalanced(Step(l, Drained), topic, was)
  {
    var after := Step(l, Drained);
    assert PendingOf(after.books, topic) == Pending(0, 0);
    assert OutOf(after.transportOut, topic) == OutOf(l.transportOut, topic) + PendingOf(l.books, topic).inTransport;
    assert OutOf(after.recorderOut, topic) == OutOf(l.recorderOut, topic) + PendingOf(l.books, topic).inRecorder;
  }

  lemma SawKeepsTopic(l: Ledger, op: Op, topic: string, was: (int, int))
    requires TopicBalanced(l, topic, was) && op.Saw?
    ensures TopicBalanced(Step(l, op), topic, was)
  {
    hide CountedGap;
    assert TotalsOf(Step(l, op).books, topic).(missed := 0) == TotalsOf(l.books, topic).(missed := 0);
  }

  lemma StepKeepsTopic(l: Ledger, op: Op, topic: string, was: (int, int))
    requires TopicBalanced(l, topic, was)
    ensures TopicBalanced(Step(l, op), topic, ReportedStep(was, op, topic))
  {
    if op.LostInTransport? { hide Step; TransportKeepsTopic(l, op.topic, op.count, topic, was); }
    else if op.LostInRecorder? { hide Step; RecorderKeepsTopic(l, op.topic, op.count, topic, was); }
    else if op.Drained? { hide Step; DrainKeepsTopic(l, topic, was); }
    else if op.Saw? { hide Step; SawKeepsTopic(l, op, topic, was); }
    else { ResetKeepsTopic(l, topic, was); }
    hide Step;
  }

  lemma ResetKeepsTopic(l: Ledger, topic: string, was: (int, int))
    ensures TopicBalanced(Step(l, WasReset), topic, (0, 0))
  {
  }

  lemma {:induction false} TopicBooksBalance(ops: seq<Op>, topic: string)
    ensures TopicBalanced(Run(ops), topic, Reported(ops, topic))
  {
    if ops == [] {
    } else {
      var n := |ops| - 1;
      TopicBooksBalance(ops[..n], topic);
      StepKeepsTopic(Run(ops[..n]), ops[n], topic, Reported(ops[..n], topic));
    }
  }

  ghost function Transport(m: map<string, TopicLoss>): map<string, int> { map t | t in m :: m[t].inTransport as int }
  ghost function Recorder(m: map<string, TopicLoss>): map<string, int> { map t | t in m :: m[t].inRecorder as int }
  ghost function Missed(m: map<string, TopicLoss>): map<string, int> { map t | t in m :: m[t].missed as int }

  /** The topics add up to the global totals. */
  ghost predicate GlobalBalanced(b: Books) {
    && Total(Transport(b.perTopic)) % WRAP == b.lostInTransport
    && Total(Recorder(b.perTopic)) % WRAP == b.lostInRecorder
    && Total(Missed(b.perTopic)) % WRAP == b.missed
  }

  lemma SetTopic(b: Books, topic: string, loss: TopicLoss)
    ensures var m := b.perTopic[topic := loss];
            var was := TotalsOf(b, topic);
            && Total(Transport(m)) == Total(Transport(b.perTopic)) + loss.inTransport - was.inTransport
            && Total(Recorder(m)) == Total(Recorder(b.perTopic)) + loss.inRecorder - was.inRecorder
            && Total(Missed(m)) == Total(Missed(b.perTopic)) + loss.missed - was.missed
  {
    hide Total;
    var m := b.perTopic[topic := loss];
    TotalSet(Transport(b.perTopic), topic, loss.inTransport);
    TotalSet(Recorder(b.perTopic), topic, loss.inRecorder);
    TotalSet(Missed(b.perTopic), topic, loss.missed);
    assert Transport(m) == Transport(b.perTopic)[topic := loss.inTransport as int];
    assert Recorder(m) == Recorder(b.perTopic)[topic := loss.inRecorder as int];
    assert Missed(m) == Missed(b.perTopic)[topic := loss.missed as int];
  }

  /** Adding `count` to one wrapped entry and to the wrapped total keeps the total right. */
  lemma AddKeepsTotal(sum: int, total: Count, entry: Count, count: Count)
    requires sum % WRAP == total
    ensures (sum + Add(entry, count) - entry) % WRAP == Add(total, count)
  {
    WrapAdd(sum - entry, entry + count);
    WrapAdd(count, sum);
  }

  lemma {:induction false} GlobalBooksBalance(ops: seq<Op>)
    ensures GlobalBalanced(Run(ops).books)
  {
    if ops == [] {
      assert Transport(map[]) == map[] && Recorder(map[]) == map[] && Missed(map[]) == map[];
    } else {
      var n := |ops| - 1;
      GlobalBooksBalance(ops[..n]);
      StepKeepsGlobal(Run(ops[..n]), ops[n]);
    }
  }

  lemma MissedKeepsGlobal(b: Books, previous: Option<Count>, sequence: Count, topic: string)
    requires GlobalBalanced(b)
    ensures GlobalBalanced(NoteSequence(b, previous, sequence, topic))
  {
    var gap, entry := CountedGap(previous, sequence), TotalsOf(b, topic);
    SetTopic(b, topic, entry.(missed := Add(entry.missed, gap)));
    AddKeepsTotal(Total(Missed(b.perTopic)), b.missed, entry.missed, gap);
  }

  lemma TransportKeepsGlobal(b: Books, topic: string, count: Count)
    requires GlobalBalanced(b)
    ensures GlobalBalanced(NoteTransportLoss(b, topic, count))
  {
    var entry := TotalsOf(b, topic);
    SetTopic(b, topic, entry.(inTransport := Add(entry.inTransport, count)));
    AddKeepsTotal(Total(Transport(b.perTopic)), b.lostInTransport, entry.inTransport, count);
  }

  lemma RecorderKeepsGlobal(b: Books, topic: string, count: Count)
    requires GlobalBalanced(b)
    ensures GlobalBalanced(NoteRecorderLoss(b, topic, count))
  {
    var entry := TotalsOf(b, topic);
    SetTopic(b, topic, entry.(inRecorder := Add(entry.inRecorder, count)));
    AddKeepsTotal(Total(Recorder(b.perTopic)), b.lostInRecorder, entry.inRecorder, count);
  }

  lemma StepKeepsGlobal(l: Ledger, op: Op)
    requires GlobalBalanced(l.books)
    ensures GlobalBalanced(Step(l, op).books)
  {
    match op
    case Saw(sub, publisher, sequence, topic) =>
      MissedKeepsGlobal(l.books, PreviousOf(l.seen, (sub, publisher)), sequence, topic);
    case LostInTransport(topic, count) => TransportKeepsGlobal(l.books, topic, count);
    case LostInRecorder(topic, count) => RecorderKeepsGlobal(l.books, topic, count);
    case Drained =>
    case WasReset =>
      assert Transport(map[]) == map[] && Recorder(map[]) == map[] && Missed(map[]) == map[];
  }

  // ---- missed messages in closed form ------------------------------------------------------------

  /** The messages really skipped between two numbers of one publisher. */
  function Skipped(previous: int, sequence: int): int {
    if sequence > previous + 1 then sequence - previous - 1 else 0
  }

  /** note_sequence counts the skip exactly, except after the reserved maximum, where it reads any
    * following number but 0 as a gap; on_message filters that value out before it gets here. */
  lemma GapIsSkip(previous: Count, sequence: Count)
    ensures CountedGap(Some(previous), sequence) == Skipped(previous, sequence) <==> previous != UNSUPPORTED || sequence == 0
  {
    if previous == UNSUPPORTED { WrapShift(sequence, -1); }
  }

  datatype Sightings = Sightings(first: int, last: int, received: int)

  /** Per publisher and subscription: first and last number and how many arrived; and, over all, by how
    * much numbers failed to increase. */
  datatype Seen = Seen(per: map<Key, Sightings>, slack: int)

  function Sight(s: Seen, k: Key, sequence: int): Seen {
    if k !in s.per then s.(per := s.per[k := Sightings(sequence, sequence, 1)])
    else
      var was := s.per[k];
      Seen(s.per[k := Sightings(was.first, sequence, was.received + 1)],
           s.slack + if sequence <= was.last then was.last + 1 - sequence else 0)
  }

  function Watch(ops: seq<Op>): Seen {
    if ops == [] then Seen(map[], 0)
    else
      var before := Watch(ops[..|ops| - 1]);
      var op := ops[|ops| - 1];
      if op.Saw? then Sight(before, (op.subscription, op.publisher), op.sequence)
      else if op.WasReset? then Afresh(before)
      else before
  }

  /** A reset forgets the counts but not the numbers: each publisher is expected to go on from its last. */
  function Afresh(s: Seen): Seen {
    Seen(map k | k in s.per :: Sightings(s.per[k].last + 1, s.per[k].last, 0), 0)
  }

  /** last - first + 1 - received, per publisher and subscription. */
  ghost function Deficits(per: map<Key, Sightings>): map<Key, int> {
    map k | k in per :: per[k].last - per[k].first + 1 - per[k].received
  }

  /** on_message passes on no sequence number that means "unsupported". */
  predicate Supported(op: Op) { op.Saw? ==> op.sequence != UNSUPPORTED }

  lemma {:induction false} SightKeepsForm(s: Seen, k: Key, sequence: int)
    ensures Total(Deficits(Sight(s, k, sequence).per)) + Sight(s, k, sequence).slack
         == Total(Deficits(s.per)) + s.slack + if k in s.per then Skipped(s.per[k].last, sequence) else 0
  {
    var v := Sight(s, k, sequence).per[k];
    TotalSet(Deficits(s.per), k, v.last - v.first + 1 - v.received);
    assert Deficits(Sight(s, k, sequence).per) == Deficits(s.per)[k := v.last - v.first + 1 - v.received];
  }

  ghost predicate ClosedForm(l: Ledger, s: Seen) {
    && l.books.missed == (Total(Deficits(s.per)) + s.slack) % WRAP
    && l.seen.Keys == s.per.Keys
    && forall k | k in l.seen :: l.seen[k] == s.per[k].last != UNSUPPORTED
  }

  lemma SawKeepsClosedForm(l: Ledger, s: Seen, op: Op)
    requires ClosedForm(l, s) && op.Saw? && op.sequence != UNSUPPORTED
    ensures ClosedForm(Step(l, op), Sight(s, (op.subscription, op.publisher), op.sequence))
  {
    hide Total, Deficits;
    var k := (op.subscription, op.publisher);
    SightKeepsForm(s, k, op.sequence);
    if k in s.per { GapIsSkip(l.seen[k], op.sequence); }
    var gap := CountedGap(PreviousOf(l.seen, k), op.sequence);
    assert gap == if k in s.per then Skipped(s.per[k].last, op.sequence) else 0;
    WrapAdd(gap, Total(Deficits(s.per)) + s.slack);
    assert Step(l, op).books.missed == Add(l.books.missed, gap);
  }

  lemma {:induction false} ZeroTotal(m: map<Key, int>)
    requires forall k | k in m :: m[k] == 0
    ensures Total(m) == 0
    decreases |m|
  {
    if m == map[] {
    } else {
      var k :| k in m;
      TotalWithout(m, k);
      ZeroTotal(m - {k});
    }
  }

  lemma AfreshIsZero(s: Seen)
    ensures Total(Deficits(Afresh(s).per)) == 0 && Afresh(s).slack == 0
  {
    ZeroTotal(Deficits(Afresh(s).per));
  }

  /** In every run, for publishers interleaved in any way, missed is the sum over them of
    * last - first + 1 - received since the last reset, plus the slack of numbers that did not increase; after a
    * reset a publisher's first is the number after its last. */
  lemma {:induction false} MissedClosedForm(ops: seq<Op>)
    requires forall op | op in ops :: Supported(op)
    ensures ClosedForm(Run(ops), Watch(ops))
  {
    if ops == [] {
      assert Deficits(map[]) == map[];
    } else {
      var n := |ops| - 1;
      MissedClosedForm(ops[..n]);
      assert Supported(ops[n]);
      if ops[n].Saw? { SawKeepsClosedForm(Run(ops[..n]), Watch(ops[..n]), ops[n]); }
      else if ops[n].WasReset? { AfreshIsZero(Watch(ops[..n])); }
    }
  }

  /** The numbers skipped on `topic` since the last reset, counted without wrap-around. */
  function SkippedOn(ops: seq<Op>, topic: string): int {
    if ops == [] then 0
    else
      var before, op := ops[..|ops| - 1], ops[|ops| - 1];
      if op.WasReset? then 0
      else
        var k := if op.Saw? then (op.subscription, op.publisher) else (0, "");
        var seen := Watch(before).per;
        SkippedOn(before, topic) + if op.Saw? && op.topic == topic && k in seen then Skipped(seen[k].last, op.sequence) else 0
  }

  lemma SawChargesTopic(l: Ledger, s: Seen, op: Op, topic: string, skipped: int)
    requires ClosedForm(l, s) && op.Saw? && op.sequence != UNSUPPORTED
    requires TotalsOf(l.books, topic).missed == skipped % WRAP
    ensures var k := (op.subscription, op.publisher);
            TotalsOf(Step(l, op).books, topic).missed ==
            (skipped + if op.topic == topic && k in s.per then Skipped(s.per[k].last, op.sequence) else 0) % WRAP
  {
    hide Total, Deficits, CountedGap;
    var k := (op.subscription, op.publisher);
    var gap := CountedGap(PreviousOf(l.seen, k), op.sequence);
    if k in s.per { GapIsSkip(l.seen[k], op.sequence); } else { NoGap(op.sequence); }
    WrapAdd(gap, skipped);
  }

  lemma NoGap(sequence: Count)
    ensures CountedGap(None, sequence) == 0
  {
  }

  lemma OthersChargeNothing(l: Ledger, op: Op, topic: string)
    requires !op.Saw?
    ensures TotalsOf(Step(l, op).books, topic).missed == if op.WasReset? then 0 else TotalsOf(l.books, topic).missed
  {
  }

  /** In every run each topic is charged exactly the numbers skipped on it since the last reset, whichever publishers
    * skipped them. */
  lemma {:induction false} TopicMissedExactly(ops: seq<Op>, topic: string)
    requires forall op | op in ops :: Supported(op)
    ensures TotalsOf(Run(ops).books, topic).missed == SkippedOn(ops, topic) % WRAP
  {
    hide ClosedForm, Step, TotalsOf, Watch;
    if ops == [] {
      assert Run(ops).books == EMPTY;
      NothingCharged(topic);
    } else {
      var n := |ops| - 1;
      assert ops == ops[..n] + [ops[n]];
      TopicMissedExactly(ops[..n], topic);
      MissedClosedForm(ops[..n]);
      assert Supported(ops[n]);
      if ops[n].Saw? { SawChargesTopic(Run(ops[..n]), Watch(ops[..n]), ops[n], topic, SkippedOn(ops[..n], topic)); }
      else { OthersChargeNothing(Run(ops[..n]), ops[n], topic); }
    }
  }

  lemma NothingCharged(topic: string)
    ensures TotalsOf(EMPTY, topic).missed == 0
  {
  }

  lemma SeenIsAvailable(l: Ledger, op: Op)
    ensures Step(l, op).books.sequenceNumbersAvailable <==> l.books.sequenceNumbersAvailable || op.Saw?
  {
    hide CountedGap;
  }

  /** Sequence numbers are reported available exactly when one was ever seen, resets notwithstanding. */
  lemma {:induction false} AvailableOnceSeen(ops: seq<Op>)
    ensures Run(ops).books.sequenceNumbersAvailable <==> exists i :: 0 <= i < |ops| && ops[i].Saw?
  {
    hide Step;
    if ops == [] {
    } else {
      var n := |ops| - 1;
      AvailableOnceSeen(ops[..n]);
      SeenIsAvailable(Run(ops[..n]), ops[n]);
    }
  }

  predicate SawKey(op: Op, k: Key) { op.Saw? && (op.subscription, op.publisher) == k }

  /** `i` is the last time `k` was seen. */
  ghost predicate LastSeen(ops: seq<Op>, k: Key, i: nat) {
    i < |ops| && SawKey(ops[i], k) && forall j | i < j < |ops| :: !SawKey(ops[j], k)
  }

  /** Since the last reset each number of a publisher on a subscription is above the one before it, the last one
    * before the reset included. */
  ghost predicate Increasing(ops: seq<Op>) {
    forall j | 0 <= j < |ops| && ops[j].Saw? && !ResetAfter(ops, j) ::
      forall i: nat | LastSeen(ops[..j], (ops[j].subscription, ops[j].publisher), i) :: ops[i].sequence < ops[j].sequence
  }

  ghost predicate ResetAfter(ops: seq<Op>, j: nat) { exists k :: j < k < |ops| && ops[k].WasReset? }

  lemma {:induction false} LastSighting(ops: seq<Op>, k: Key) returns (i: nat)
    ensures k !in Watch(ops).per ==> forall j | 0 <= j < |ops| :: !SawKey(ops[j], k)
    ensures k in Watch(ops).per ==> LastSeen(ops, k, i) && ops[i].sequence == Watch(ops).per[k].last
  {
    if ops == [] {
      i := 0;
    } else {
      var n := |ops| - 1;
      i := LastSighting(ops[..n], k);
      forall j | 0 <= j < n ensures ops[..n][j] == ops[j] {}
      if SawKey(ops[n], k) { i := n; }
    }
  }

  lemma ResetAfterOn(before: seq<Op>, op: Op, j: nat)
    requires j < |before|
    ensures ResetAfter(before + [op], j) <==> ResetAfter(before, j) || op.WasReset?
  {
    var ops := before + [op];
    if op.WasReset? { assert ops[|before|].WasReset?; }
    if ResetAfter(before, j) {
      var k :| j < k < |before| && before[k].WasReset?;
      assert ops[k].WasReset?;
    }
  }

  lemma IncreasingOn(before: seq<Op>, op: Op)
    ensures Increasing(before + [op]) <==>
            op.WasReset? || (Increasing(before) && (op.Saw? ==>
              forall i: nat | LastSeen(before, (op.subscription, op.publisher), i) :: before[i].sequence < op.sequence))
  {
    var ops, n := before + [op], |before|;
    forall j | 0 <= j < n ensures ops[..j] == before[..j] && (ResetAfter(ops, j) <==> ResetAfter(before, j) || op.WasReset?) {
      ResetAfterOn(before, op, j);
    }
    assert ops[..n] == before;
    assert !ResetAfter(ops, n);
    hide ResetAfter, LastSeen;
    if Increasing(ops) && !op.WasReset? {
      forall j | 0 <= j < n && before[j].Saw? && !ResetAfter(before, j)
        ensures forall i: nat | LastSeen(before[..j], (before[j].subscription, before[j].publisher), i) :: before[i].sequence < before[j].sequence
      {
        assert ops[j] == before[j];
      }
      assert ops[n] == op;
    }
  }

  /** The slack is never negative, and vanishes exactly when every publisher's numbers increase: so the
    * plain closed form holds for those runs and no others. */
  lemma {:induction false} SlackIsDisorder(ops: seq<Op>)
    ensures Watch(ops).slack >= 0
    ensures Watch(ops).slack == 0 <==> Increasing(ops)
  {
    if ops == [] {
    } else {
      var n := |ops| - 1;
      var before, op := ops[..n], ops[n];
      assert ops == before + [op];
      SlackIsDisorder(before);
      IncreasingOn(before, op);
      if op.Saw? {
        var k := (op.subscription, op.publisher);
        var i := LastSighting(before, k);
        OnlyLast(before, k, i);
      }
      hide Increasing, LastSeen;
    }
  }

  lemma OnlyLast(ops: seq<Op>, k: Key, i: nat)
    ensures LastSeen(ops, k, i) ==> forall j: nat | LastSeen(ops, k, j) :: j == i
    ensures (forall j | 0 <= j < |ops| :: !SawKey(ops[j], k)) ==> forall j: nat :: !LastSeen(ops, k, j)
  {
  }
}
