/** A recorder asked to record one of its own event topics can mislead the reader: the case that the condition of
  * Explanation.BagExplainsItself shuts out does happen. */
module Misled {
  import opened Options
  import opened Windows
  import opened Timeline
  import opened BagStore
  import opened RecorderState
  import opened RecorderInvariants
  import opened RecorderRuns
  import opened Reading
  import opened Explanation
  import opened Selections
  import opened Lifecycle
  import S = Scheduling

  /** A message recorded on a signal's channel contests every instant, until the recorder next speaks of the signal. */
  lemma MessageContests(c: Config, g: Signal, s: State, cmd: Command, t: int)
    requires Shape(s) && s.bag.open && cmd.CMessage? && cmd.m.topic in s.subs
    requires !FireDue(c, s, cmd.m, cmd.tick, cmd.splitOk, cmd.delay).paused && c.accepts(cmd.m)
    requires StreamOf(cmd.m.topic) == Some(KindOf(g))
    ensures Contested(Exec(c, s, cmd).bag.calls, g, t)
  {
    hide FireDue, StreamOf;
    var ready := FireDue(c, s, cmd.m, cmd.tick, cmd.splitOk, cmd.delay);
    FireDueKeeps(c, g, s, cmd.m, cmd.tick, cmd.splitOk, cmd.delay);
    ContestedStep(ready.bag.calls, Wrote(cmd.m, true), g, t);
    hide Contested;
  }

  /** Where an instant is contested some answer of the messages makes the reader wrong. */
  lemma ContestedMisleads(c: Config, g: Signal, s: State, t: int) returns (says: Message -> Event)
    requires WellTold(c, g, s) && Records(c, g) && InBag(s, t) && Contested(s.bag.calls, g, t)
    ensures At(s.history, t).Some?
    ensures !(t in Points(Rebuilt(g, Found(s.bag.calls, says), t + 1)) <==> Reads(g, At(s.history, t).value))
  {
    OwnEventsTell(c, g, s, t);
    var truth := Reads(g, At(s.history, t).value);
    says := Lying(g, truth, t);
    LieIsBelieved(g, s.bag.calls, truth, t + 1, t);
    hide *;
  }

  const GOOD: Tick := Tick(0, Stored)
  const CONFIG: Config := Config(true, true, true, true, true, 0, (m: Message) => true)
  const OWN: string := EventTopic(Pause)

  function Good(): nat -> Attempt { (i: nat) => Attempt(true, true, true, GOOD) }

  /** Launched to record its own pause events, with good answers to every question. */
  function Launched(): State {
    Launch(CONFIG, false, [OWN], map[OWN := ["PauseEvent"]], Opening(true, true, 0, GOOD), Good())
  }

  const REPLAY: Command := CMessage(Message(0, 0, OWN, 0, 0, 1), GOOD, true, 0)

  function Begun(): State { OpenBag(CONFIG, Initial(false), Opening(true, true, 0, GOOD)) }

  lemma BegunIsOpen()
    ensures Quiet(Begun().bag) && Begun().bag.open && Begun().bag.channels == map[] && Begun().subs == map[]
    ensures !Begun().paused && Begun().scheduler == S.EMPTY
  {
  }

  lemma LaunchedSubscribes()
    ensures Launched().bag.open && !Launched().paused && OWN in Launched().subs && Launched().scheduler == S.EMPTY
  {
    var sel, graph := Selection([OWN], []), map[OWN := ["PauseEvent"]];
    BegunIsOpen();
    assert Launched() == SubscribeBatch(CONFIG, Begun(), sel, graph, Good()).state;
    NoneYet(CONFIG, Begun(), sel, graph, Good());
    hide Launched, Begun, SubscribeFirst;
    LastStep(CONFIG, Begun(), sel, graph, Good(), 1);
  }

  lemma LaunchedRecordsItself()
    ensures JustOpened(CONFIG, Pausing, Launched()) && Shape(Launched())
  {
    var topics, graph, how := [OWN], map[OWN := ["PauseEvent"]], Opening(true, true, 0, GOOD);
    assert BatchTold(Pausing, topics, Good());
    LaunchShape(CONFIG, Pausing, false, topics, graph, how, Good());
    hide Launch, Shape;
  }

  lemma OneCommandTold(c: Config, g: Signal, begun: State, cmd: Command)
    requires JustOpened(c, g, begun) && SignalStored(g, begun, cmd)
    ensures WellTold(c, g, Exec(c, begun, cmd))
  {
    hide JustOpened, Exec, SignalStored;
    assert [cmd][..0] == [];
    assert ExecAll(c, begun, []) == begun && ExecAll(c, begun, [cmd]) == Exec(c, begun, cmd);
    hide ExecAll;
    assert Explains(c, g, begun, [cmd]);
  }

  lemma ReplayKeepsOpen()
    ensures Exec(CONFIG, Launched(), REPLAY).bag.open
  {
    hide Launched, Exec;
    LaunchedRecordsItself();
    LaunchedSubscribes();
    StaysOpen(CONFIG, Launched(), REPLAY);
  }

  /** So a recorder can reach a bag, with every event of the signal stored, that a reader gets wrong. */
  lemma ReaderIsMisled() returns (s: State, says: Message -> Event, t: int)
    ensures WellTold(CONFIG, Pausing, s) && Records(CONFIG, Pausing) && InBag(s, t) && Imitated(s.bag.calls, Pause)
    ensures At(s.history, t).Some?
    ensures !(t in Points(Rebuilt(Pausing, Found(s.bag.calls, says), t + 1)) <==> Reads(Pausing, At(s.history, t).value))
  {
    hide Launched, Launch, Explains, Contested, WellTold, Found, Rebuilt, Points;
    LaunchedRecordsItself();
    LaunchedSubscribes();
    s := Exec(CONFIG, Launched(), REPLAY);
    t := s.clock;
    EventTopicsStream(Pause);
    OneCommandTold(CONFIG, Pausing, Launched(), REPLAY);
    ReplayKeepsOpen();
    MessageContests(CONFIG, Pausing, Launched(), REPLAY, t);
    ContestedMeans(s.bag.calls, Pausing, t);
    WellToldIsFaithful(CONFIG, Pausing, s);
    says := ContestedMisleads(CONFIG, Pausing, s, t);
  }
}
