/** The bag: rosbag2's writer behind one lock, its channels, and the stage for messages that arrive
  * while a slow operation holds the writer (packages/rosbag2_dynamic_recorder/src/bag.cpp). */
module BagStore {
  import opened Timeline

  /** A message handed to Bag::write; `turn` is its place among the calls of the thread `producer`. */
  datatype Message = Message(producer: nat, turn: nat, topic: string, recvNs: int, sendNs: int, bytes: nat)

  /** What reaches rosbag2's writer, in order; `ok` is false when the writer threw. */
  datatype Call =
    | Opened
    | Created(topic: string, typeName: string, ok: bool)
    | Wrote(message: Message, ok: bool)
    | WroteEvent(event: Event, ok: bool)
    | SplitFile(ok: bool)
    | TookSnapshot(ok: bool)
    | Closed

  datatype BagState = BagState(
    open: bool, channels: map<string, string>,
    staged: seq<Message>, stagedBytes: nat, stagedCount: nat, maxStagedBytes: nat,
    messagesWritten: nat, writeErrors: nat,
    calls: seq<Call>, lost: seq<Message>, discarded: seq<Message>)

  const EMPTY: BagState := BagState(false, map[], [], 0, 0, 0, 0, 0, [], [], [])

  const DEFAULT_MAX_STAGED_BYTES: nat := 64 * 1024 * 1024

  // ---- single actions, shared by the object below and by the interleaving model ------------------

  function Called(b: BagState, c: Call): BagState { b.(calls := b.calls + [c]) }

  function Counted(b: BagState, ok: bool): BagState {
    if ok then b.(messagesWritten := b.messagesWritten + 1) else b.(writeErrors := b.writeErrors + 1)
  }

  /** write_locked on a message. */
  function AfterWriteLocked(b: BagState, m: Message, ok: bool): BagState {
    Counted(Called(b, Wrote(m, ok)), ok)
  }

  function Fits(b: BagState, m: Message): bool { b.stagedBytes + m.bytes <= b.maxStagedBytes }

  /** stage(): keep the message if the stage has room, else report it lost. */
  function AfterStage(b: BagState, m: Message): BagState {
    if Fits(b, m) then
      b.(staged := b.staged + [m], stagedBytes := b.stagedBytes + m.bytes, stagedCount := b.stagedCount + 1)
    else b.(lost := b.lost + [m])
  }

  /** The batch.swap(staged_) of flush_staged_locked. */
  function Unstaged(b: BagState): BagState {
    b.(staged := [], stagedBytes := 0, stagedCount := 0)
  }

  function Discard(b: BagState, ms: seq<Message>): BagState { b.(discarded := b.discarded + ms) }

  function AfterOpen(b: BagState, maxCacheSize: nat): BagState {
    Called(b, Opened).(open := true, channels := map[], messagesWritten := 0, writeErrors := 0,
      maxStagedBytes := if maxCacheSize > 0 then maxCacheSize else DEFAULT_MAX_STAGED_BYTES)
  }

  /** create_channel_locked; a channel the bag already has keeps its type. */
  function CreateChannel(b: BagState, topic: string, typeName: string, ok: bool): BagState {
    var after := Called(b, Created(topic, typeName, ok));
    if ok && topic !in after.channels then after.(channels := after.channels[topic := typeName]) else after
  }

  /** What becomes of an event: its channel cannot be created, its write throws, or it is stored. */
  datatype Fate = ChannelFailed | WriteFailed | Stored

  /** write_event between setting and clearing busy_. */
  function LogEvent(b: BagState, topic: string, typeName: string, e: Event, fate: Fate): BagState {
    var ready := if topic in b.channels then b else CreateChannel(b, topic, typeName, !fate.ChannelFailed?);
    if topic !in ready.channels then ready
    else Counted(Called(ready, WroteEvent(e, fate.Stored?)), fate.Stored?)
  }

  // ---- whole operations, run without interference -------------------------------------------------

  function WriteAll(b: BagState, batch: seq<Message>, accepts: Message -> bool): BagState
    decreases |batch|
  {
    if batch == [] then b
    else WriteAll(AfterWriteLocked(b, batch[0], accepts(batch[0])), batch[1..], accepts)
  }

  function AfterFlush(b: BagState, accepts: Message -> bool): BagState {
    if b.open then WriteAll(Unstaged(b), b.staged, accepts) else Discard(Unstaged(b), b.staged)
  }

  /** write(): `sawBusy` when the lock was held and a slow operation was seen holding it. */
  function AfterWrite(b: BagState, m: Message, sawBusy: bool, accepts: Message -> bool): BagState {
    if sawBusy then AfterStage(b, m)
    else if !b.open then Discard(b, [m])
    else
      var ready := if b.stagedCount > 0 then AfterFlush(b, accepts) else b;
      AfterWriteLocked(ready, m, accepts(m))
  }

  function AfterClose(b: BagState, accepts: Message -> bool): BagState {
    if !b.open then b else AfterFlush(Called(AfterFlush(b, accepts).(open := false), Closed), accepts)
  }

  datatype ChannelResult = Ready | NotRecording | WrongType | CreateFailed

  function AfterEnsureChannel(b: BagState, topic: string, typeName: string, ok: bool, accepts: Message -> bool): (BagState, ChannelResult) {
    if !b.open then (b, NotRecording)
    else if topic in b.channels then (b, if b.channels[topic] == typeName then Ready else WrongType)
    else (AfterFlush(CreateChannel(b, topic, typeName, ok), accepts), if ok then Ready else CreateFailed)
  }

  function AfterWriteEvent(b: BagState, topic: string, typeName: string, e: Event, fate: Fate, accepts: Message -> bool): BagState {
    if !b.open then b else AfterFlush(LogEvent(b, topic, typeName, e, fate), accepts)
  }

  function AfterSplit(b: BagState, ok: bool, accepts: Message -> bool): BagState {
    if !b.open then b else AfterFlush(Called(b, SplitFile(ok)), accepts)
  }

  function AfterSnapshot(b: BagState, ok: bool, accepts: Message -> bool): BagState {
    if !b.open then b else AfterFlush(Called(b, TookSnapshot(ok)), accepts)
  }

  // ---- the object ----------------------------------------------------------------------------------

  class Bag {
    var open: bool
    var busy: bool
    var channels: map<string, string>
    var staged: seq<Message>
    var stagedBytes: nat
    var stagedCount: nat
    var maxStagedBytes: nat
    var messagesWritten: nat
    var writeErrors: nat
    /** What the writer, the loss callback and a closed bag have been given. */
    ghost var calls: seq<Call>
    ghost var lost: seq<Message>
    ghost var discarded: seq<Message>

    ghost function State(): BagState
      reads this
    {
      BagState(open, channels, staged, stagedBytes, stagedCount, maxStagedBytes,
               messagesWritten, writeErrors, calls, lost, discarded)
    }

    constructor ()
      ensures State() == EMPTY && !busy
    {
      open, busy, channels, staged := false, false, map[], [];
      stagedBytes, stagedCount, maxStagedBytes, messagesWritten, writeErrors := 0, 0, 0, 0, 0;
      calls, lost, discarded := [], [], [];
    }

    method WriteLocked(m: Message, ok: bool)
      modifies this
      ensures State() == AfterWriteLocked(old(State()), m, ok) && busy == old(busy)
    {
      calls := calls + [Wrote(m, ok)];
      if ok { messagesWritten := messagesWritten + 1; } else { writeErrors := writeErrors + 1; }
    }

    method Stage(m: Message)
      modifies this
      ensures State() == AfterStage(old(State()), m) && busy == old(busy)
      ensures var room := old(stagedBytes) + m.bytes <= maxStagedBytes;
              && staged == (if room then old(staged) + [m] else old(staged))
              && lost == (if room then old(lost) else old(lost) + [m])
    {
      if stagedBytes + m.bytes <= maxStagedBytes {
        stagedBytes := stagedBytes + m.bytes;
        staged := staged + [m];
        stagedCount := stagedCount + 1;
        return;
      }
      lost := lost + [m];
    }

    method FlushStagedLocked(accepts: Message -> bool)
      modifies this
      ensures State() == AfterFlush(old(State()), accepts) && busy == old(busy)
    {
      var batch := staged;
      staged, stagedBytes, stagedCount := [], 0, 0;
      if !open {
        discarded := discarded + batch;
        return;
      }
      ghost var start := State();
      ghost var whole := WriteAll(start, batch, accepts);
      for i := 0 to |batch|
        invariant busy == old(busy)
        invariant WriteAll(State(), batch[i..], accepts) == whole
      {
        assert batch[i..][0] == batch[i] && batch[i..][1..] == batch[i + 1..];
        WriteLocked(batch[i], accepts(batch[i]));
      }
    }

    method Write(m: Message, sawBusy: bool, accepts: Message -> bool)
      modifies this
      ensures State() == AfterWrite(old(State()), m, sawBusy, accepts) && busy == old(busy)
    {
      if sawBusy { Stage(m); return; }
      if !open { discarded := discarded + [m]; return; }
      if stagedCount > 0 { FlushStagedLocked(accepts); }
      WriteLocked(m, accepts(m));
    }

    /** `writerOpens` is whether rosbag2 could open the path; the result is whether this bag is now open anew. */
    method OpenBag(maxCacheSize: nat, writerOpens: bool) returns (ok: bool)
      modifies this
      ensures ok == (!old(open) && writerOpens) && busy == old(busy)
      ensures State() == if ok then AfterOpen(old(State()), maxCacheSize) else old(State())
    {
      if open || !writerOpens { return false; }
      calls := calls + [Opened];
      open, channels := true, map[];
      maxStagedBytes := if maxCacheSize > 0 then maxCacheSize else DEFAULT_MAX_STAGED_BYTES;
      messagesWritten, writeErrors := 0, 0;
      return true;
    }

    method CloseBag(accepts: Message -> bool) returns (closed: bool)
      modifies this
      ensures closed == old(open)
      ensures State() == AfterClose(old(State()), accepts) && (closed ==> !busy)
    {
      if !open { return false; }
      busy := true;
      FlushStagedLocked(accepts);
      open := false;
      calls := calls + [Closed];
      busy := false;
      FlushStagedLocked(accepts);
      return true;
    }

    method CreateChannelLocked(topic: string, typeName: string, ok: bool) returns (created: bool)
      modifies this
      ensures State() == CreateChannel(old(State()), topic, typeName, ok) && created == ok && busy == old(busy)
    {
      calls := calls + [Created(topic, typeName, ok)];
      if !ok { return false; }
      if topic !in channels { channels := channels[topic := typeName]; }
      return true;
    }

    method EnsureChannel(topic: string, typeName: string, ok: bool, accepts: Message -> bool) returns (r: ChannelResult)
      modifies this
      ensures (State(), r) == AfterEnsureChannel(old(State()), topic, typeName, ok, accepts)
    {
      if !open { return NotRecording; }
      if topic in channels {
        return if channels[topic] == typeName then Ready else WrongType;
      }
      busy := true;
      var created := CreateChannelLocked(topic, typeName, ok);
      busy := false;
      FlushStagedLocked(accepts);
      return if created then Ready else CreateFailed;
    }

    /** write_event under the lock with the writer marked busy. */
    method LogEventLocked(topic: string, typeName: string, e: Event, fate: Fate)
      modifies this
      ensures State() == LogEvent(old(State()), topic, typeName, e, fate) && busy == old(busy)
    {
      if topic !in channels {
        var created := CreateChannelLocked(topic, typeName, !fate.ChannelFailed?);
        if !created { return; }
      }
      calls := calls + [WroteEvent(e, fate.Stored?)];
      if fate.Stored? { messagesWritten := messagesWritten + 1; } else { writeErrors := writeErrors + 1; }
    }

    method WriteEvent(topic: string, typeName: string, e: Event, fate: Fate, accepts: Message -> bool)
      modifies this
      ensures State() == AfterWriteEvent(old(State()), topic, typeName, e, fate, accepts)
    {
      if !open { return; }
      busy := true;
      LogEventLocked(topic, typeName, e, fate);
      busy := false;
      FlushStagedLocked(accepts);
    }

    method SplitFile(ok: bool, accepts: Message -> bool) returns (split: bool)
      modifies this
      ensures split == (old(open) && ok)
      ensures State() == AfterSplit(old(State()), ok, accepts)
    {
      if !open { return false; }
      busy := true;
      calls := calls + [Call.SplitFile(ok)];
      busy := false;
      FlushStagedLocked(accepts);
      return ok;
    }

    method TakeSnapshot(ok: bool, accepts: Message -> bool) returns (taken: bool)
      modifies this
      ensures taken == (old(open) && ok)
      ensures State() == AfterSnapshot(old(State()), ok, accepts)
    {
      if !open { return false; }
      busy := true;
      calls := calls + [TookSnapshot(ok)];
      busy := false;
      FlushStagedLocked(accepts);
      return ok;
    }
  }

  // ---- reading the call log -------------------------------------------------------------------------

  /** The messages the writer was handed, oldest first. */
  function Handed(calls: seq<Call>): seq<Message> {
    if calls == [] then []
    else
      var n := |calls| - 1;
      Handed(calls[..n]) + if calls[n].Wrote? then [calls[n].message] else []
  }

  /** The events stored in the bag opened last: what the reader will find there. */
  function StoredEvents(calls: seq<Call>): seq<Event> {
    if calls == [] then []
    else
      var n := |calls| - 1;
      match calls[n]
      case Opened => []
      case WroteEvent(e, ok) => StoredEvents(calls[..n]) + if ok then [e] else []
      case _ => StoredEvents(calls[..n])
  }

  datatype Phase = Shut | Live | Broken

  function PhaseStep(before: Phase, c: Call): Phase {
    match c
    case Opened => if before.Shut? then Live else Broken
    case Closed => if before.Live? then Shut else Broken
    case _ => if before.Live? then Live else Broken
  }

  /** Whether the writer was only ever used between an open and its close; Live inside, Shut outside. */
  function PhaseOf(calls: seq<Call>): Phase {
    if calls == [] then Shut else PhaseStep(PhaseOf(calls[..|calls| - 1]), calls[|calls| - 1])
  }

  /** Writes the writer took, and refused, since the last open. */
  function WritesSince(calls: seq<Call>, ok: bool): nat {
    if calls == [] then 0
    else
      var n := |calls| - 1;
      match calls[n]
      case Opened => 0
      case Wrote(_, stored) => WritesSince(calls[..n], ok) + if stored == ok then 1 else 0
      case WroteEvent(_, stored) => WritesSince(calls[..n], ok) + if stored == ok then 1 else 0
      case _ => WritesSince(calls[..n], ok)
  }

  lemma CalledFacts(calls: seq<Call>, c: Call)
    ensures Handed(calls + [c]) == Handed(calls) + if c.Wrote? then [c.message] else []
    ensures (calls + [c])[..|calls|] == calls
  {
    assert (calls + [c])[..|calls|] == calls;
  }
}
