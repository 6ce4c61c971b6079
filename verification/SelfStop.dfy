/** Why a bag ended: the storage guards' stops, in the recorder's flags, in the bag and in the report
  * (packages/rosbag2_dynamic_recorder/src/recorder_events.cpp, packages/dynrec/dynrec/bag.py). */
module SelfStop {
  import opened Timeline
  import opened BagStore
  import opened RecorderState
  import opened RecorderInvariants
  import opened RecorderRuns
  import opened Report
  import opened Reading
  import opened Described
  import S = Scheduling

  predicate Guards(kind: Kind) { kind.LowDisk? || kind.BagSizeLimit? }

  predicate RecordsStop(c: Config, kind: Kind) {
    if kind.LowDisk? then c.recordLowDisk else c.recordBagSize
  }

  /** If the command is a check of this guard, the event it emits is stored. */
  predicate GuardStored(kind: Kind, cmd: Command) {
    && (kind.LowDisk? && cmd.CCheckFreeSpace? ==> cmd.tick.fate.Stored?)
    && (kind.BagSizeLimit? && cmd.CCheckBagSize? ==> cmd.tick.fate.Stored?)
  }

  /** A recorder stopped for this reason has said so in the bag. */
  predicate Logged(s: State, kind: Kind) { StoppedFor(s, kind) ==> kind in SelfStops(Log(s)) }

  lemma StopLogs(c: Config, s: State, kind: Kind, how: Stopping)
    requires Shape(s) && Logged(s, kind)
    ensures Logged(Stop(c, s, how), kind)
  {
    StopKeeps(c, Pausing, s, how);
    hide Stop, SelfStops;
  }

  /** A guard that trips has its event in the bag before it stops the recorder. */
  lemma TripLogs(c: Config, s: State, kind: Kind, marked: State, tripped: Kind, tick: Tick, how: Stopping)
    requires Shape(s) && s.bag.open && Guards(kind) && Guards(tripped) && Logged(s, kind)
    requires marked == Emit(c, s, tripped, Stopped, "", RecordsStop(c, tripped), tick).(
                         stoppedForLowDisk := marked.stoppedForLowDisk, stoppedForMaxBagSize := marked.stoppedForMaxBagSize)
    requires StoppedFor(marked, kind) ==> StoppedFor(s, kind) || kind == tripped
    requires kind == tripped ==> RecordsStop(c, kind) && tick.fate.Stored?
    ensures Logged(Stop(c, marked, how), kind)
  {
    hide Emit, Stop, SelfStops;
    EmitFacts(c, s, tripped, Stopped, "", RecordsStop(c, tripped), tick);
    GuardEventKeeps(c, Pausing, s, tripped, RecordsStop(c, tripped), tick);
    SelfStopsAppend(Log(s), Event(tripped, Stopped, marked.clock, ""));
    StopLogs(c, marked, kind, how);
  }

  lemma GuardLogs(c: Config, s: State, kind: Kind, cmd: Command)
    requires Shape(s) && Guards(kind) && RecordsStop(c, kind) && Logged(s, kind) && GuardStored(kind, cmd)
    requires cmd.CCheckFreeSpace? || cmd.CCheckBagSize?
    ensures Logged(Exec(c, s, cmd), kind)
  {
    hide Stop, SelfStops;
    if s.bag.open && cmd.verdict {
      var tripped := if cmd.CCheckFreeSpace? then LowDisk else BagSizeLimit;
      var told := Emit(c, s, tripped, Stopped, "", RecordsStop(c, tripped), cmd.tick);
      var marked := if cmd.CCheckFreeSpace? then told.(stoppedForLowDisk := true) else told.(stoppedForMaxBagSize := true);
      TripLogs(c, s, kind, marked, tripped, cmd.tick, cmd.stopping);
    }
    hide Emit;
  }

  lemma RecordLogs(c: Config, s: State, kind: Kind, graph: Graph, how: Opening, tries: nat -> Attempt)
    requires Shape(s) && Logged(s, kind)
    ensures Logged(Record(c, s, graph, how, tries), kind)
  {
    if Reopens(s, how) { OpenedKeeps(c, Pausing, s, graph, how, Selection(s.topicsAtStop, []), tries); }
    hide OpenBag, SubscribeBatch, SelfStops;
  }

  lemma CommandLogs(c: Config, s: State, kind: Kind, cmd: Command)
    requires Shape(s) && Guards(kind) && RecordsStop(c, kind) && Logged(s, kind) && GuardStored(kind, cmd)
    ensures Logged(Exec(c, s, cmd), kind)
  {
    if cmd.CCheckFreeSpace? || cmd.CCheckBagSize? {
      GuardLogs(c, s, kind, cmd);
    } else if cmd.CStop? {
      StopLogs(c, s, kind, cmd.stopping);
    } else if cmd.CRecord? {
      RecordLogs(c, s, kind, cmd.graph, cmd.opening, cmd.tries);
    } else if cmd.CRecordAt? {
      ScheduleKeeps(c, Pausing, s, S.Record, s.clock + cmd.delay, AtNode(cmd.delay), "");
    } else if cmd.CRecordTimer? {
      TimerKeeps(c, Pausing, s, S.Record);
      RecordLogs(c, s.(scheduler := S.AfterTimer(s.scheduler, S.Record)), kind, cmd.graph, cmd.opening, cmd.tries);
    } else {
      QuietCommand(c, Pausing, s, cmd);
    }
    hide SelfStops, Stop, Record, Schedule, S.AfterTimer;
  }

  /** In every run that stores what its guards say, the recorder is stopped for a reason exactly when the bag ends
    * with an event that says so. */
  lemma {:induction false} StopsAreLogged(c: Config, s: State, kind: Kind, cmds: seq<Command>)
    requires Shape(s) && SelfStopped(s) && Guards(kind) && RecordsStop(c, kind) && Logged(s, kind)
    requires forall i | 0 <= i < |cmds| :: GuardStored(kind, cmds[i])
    ensures var after := ExecAll(c, s, cmds);
            Shape(after) && SelfStopped(after) && (StoppedFor(after, kind) <==> kind in SelfStops(Log(after)))
  {
    RunAdvances(c, Pausing, s, cmds);
    if cmds == [] {
    } else {
      var n := |cmds| - 1;
      StopsAreLogged(c, s, kind, cmds[..n]);
      CommandLogs(c, ExecAll(c, s, cmds[..n]), kind, cmds[n]);
    }
    hide SelfStops, Shape, Exec;
  }

  lemma LaunchLogs(c: Config, startPaused: bool, topics: seq<string>, graph: Graph, how: Opening, tries: nat -> Attempt, kind: Kind)
    ensures Logged(Launch(c, startPaused, topics, graph, how, tries), kind)
  {
    LaunchShape(c, Pausing, startPaused, topics, graph, how, tries);
    if how.writerOpens { OpenedKeeps(c, Pausing, Initial(startPaused), graph, how, Selection(topics, []), tries); }
    hide OpenBag, SubscribeBatch, SelfStops, Shape;
  }

  lemma ReportedStop(calls: seq<Call>, kind: Kind, says: Message -> Event, summary: Summary)
    requires Guards(kind) && !Imitated(calls, kind) && ReadBack(calls, says) != [] && Describes(ReadBack(calls, says), summary)
    ensures (if kind.LowDisk? then summary.lowDiskStop else summary.bagSizeLimitStop).Some? <==>
            kind in SelfStops(StoredEvents(calls))
  {
    StopIsTrue(calls, says, summary, kind);
    SelfStopsHold(StoredEvents(calls), kind);
    hide SelfStops, StoredEvents, ReadBack, Imitated;
  }

  /** So the report of the bag gives a low-disk stop, or one for the bag's size, exactly when that is why the recorder
    * stopped. */
  lemma ReportedStopIsTheReason(c: Config, startPaused: bool, topics: seq<string>, graph: Graph, how: Opening, tries: nat -> Attempt,
                                cmds: seq<Command>, kind: Kind, says: Message -> Event, summary: Summary)
    requires Guards(kind) && RecordsStop(c, kind) && forall i | 0 <= i < |cmds| :: GuardStored(kind, cmds[i])
    requires var calls := ExecAll(c, Launch(c, startPaused, topics, graph, how, tries), cmds).bag.calls;
             !Imitated(calls, kind) && ReadBack(calls, says) != [] && Describes(ReadBack(calls, says), summary)
    ensures var s := ExecAll(c, Launch(c, startPaused, topics, graph, how, tries), cmds);
            (if kind.LowDisk? then summary.lowDiskStop else summary.bagSizeLimitStop).Some? <==> StoppedFor(s, kind)
  {
    hide Launch, ExecAll, Describes, ReadBack, Imitated, SelfStops, Logged;
    var begun := Launch(c, startPaused, topics, graph, how, tries);
    LaunchShape(c, Pausing, startPaused, topics, graph, how, tries);
    LaunchLogs(c, startPaused, topics, graph, how, tries, kind);
    StopsAreLogged(c, begun, kind, cmds);
    ReportedStop(ExecAll(c, begun, cmds).bag.calls, kind, says, summary);
  }
}
