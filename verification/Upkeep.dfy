/**
 A socket that is lost is dialled again: over every run, what the transport has been told
 to do agrees with what the connection waits for.
 */
module Upkeep {
  import opened Protocol
  import opened ConnectionModel
  import opened Driver
  import opened Delivery
  import Speech = Viewing

  // ---------------------------------------------------------------------
  // The transport

  /**
   What the driver's requests leave running: a socket asked for and not closed since, the
   retry timer with its delay, and the newest ping that nothing has followed yet.
   */
  datatype Transport = Transport(socket: bool, retry: Option<nat>, ping: Option<nat>)

  function Carry(t: Transport, io: Io): Transport {
    match io
    case OpenSocket => t.(socket := true, ping := None)
    case CloseSocket => t.(socket := false)
    case StartRetry(delay) => t.(retry := Some(delay))
    case ForgetRetry => t.(retry := None)
    case StartPong(ping, _) => t.(ping := Some(ping))
    case _ => t
  }

  function CarryAll(t: Transport, ios: seq<Io>): Transport {
    if ios == [] then t else Carry(CarryAll(t, ios[..|ios| - 1]), ios[|ios| - 1])
  }

  /** What an input means to the transport: its socket closed, its timer ran out, something came. */
  function Notice(t: Transport, input: Input): Transport {
    match input
    case Closed(_) => t.(socket := false)
    case RetryDue => t.(retry := None)
    case Frame(_) => t.(ping := None)
    case Unreadable => t.(ping := None)
    case _ => t
  }

  function IosOf(d: DriverState, input: Input): seq<Io> {
    Ios(d.connection.Handle(input).commands)
  }

  /** The transport after a run of inputs. */
  function TransportAfter(inputs: seq<Input>): Transport {
    if inputs == [] then Transport(false, None, None)
    else
      var before, input := inputs[..|inputs| - 1], inputs[|inputs| - 1];
      CarryAll(Notice(TransportAfter(before), input), IosOf(After(before), input))
  }

  // ---------------------------------------------------------------------
  // What a run amounts to

  /** A socket was asked for and its end would be heard. */
  predicate Dialled(phase: Phase) { phase.Connecting? || phase.Listening() }

  /**
   Since the connection was last live: the sockets lost, and those refused for breaking the
   protocol. The frames that could not be read since the last event, and the pings sent.
   */
  datatype Tally = Tally(lost: nat, refused: nat, unreadable: nat, pings: nat)

  predicate AnyEvent(updates: seq<SocketUpdate>) {
    exists i :: 0 <= i < |updates| && updates[i].EventUpdate?
  }

  predicate PassesOnAnEvent(d: DriverState, input: Input) {
    AnyEvent(d.Posts(input))
  }

  function One(happened: bool): nat { if happened then 1 else 0 }

  function Count(tally: Tally, d: DriverState, input: Input): Tally {
    var before, after := d.connection.phase, d.Handle(input).connection.phase;
    Tally(if after.LivePhase? then 0 else tally.lost + One(after.BackingOff? && !before.BackingOff?),
          if after.LivePhase? then 0 else tally.refused + One(Dialled(before) && input == Closed(Some(4000))),
          if PassesOnAnEvent(d, input) then 0 else tally.unreadable + One(before.Listening() && input.Unreadable?),
          tally.pings + One(before.LivePhase? && input.Visible?))
  }

  function TallyOf(inputs: seq<Input>): Tally {
    if inputs == [] then Tally(0, 0, 0, 0)
    else
      var before, input := inputs[..|inputs| - 1], inputs[|inputs| - 1];
      Count(TallyOf(before), After(before), input)
  }

  /** How long the n-th loss in a row is waited out: 250 ms, twice as long each time, 8 s at most. */
  function Wait(n: nat): nat {
    if n <= 1 then 250 else Min(2 * Wait(n - 1), 8_000)
  }

  lemma PowersDouble()
    ensures Power2(0) == 1 && Power2(1) == 2 && Power2(2) == 4 && Power2(3) == 8
    ensures Power2(4) == 16 && Power2(5) == 32 && Power2(6) == 64
  {
    assert Power2(3) == 2 * Power2(2);
    assert Power2(5) == 2 * Power2(4);
  }

  lemma {:induction false} DelayIsWait(n: nat)
    requires n > 0
    ensures Delay(n) == Wait(n)
  {
    PowersDouble();
    if n > 1 {
      DelayIsWait(n - 1);
    }
  }

  // ---------------------------------------------------------------------
  // Commands carried out

  /** Requests that touch neither the socket nor the timers. */
  predicate Idle(commands: seq<Command>) {
    forall i :: 0 <= i < |commands| ==>
      match commands[i]
      case Send(_) => true
      case RenewViewing(_, _) => true
      case Apply(_) => true
      case Reload => true
      case CheckSession => true
      case EndSession => true
      case AskForReloadedPage => true
      case _ => false
  }

  lemma {:induction false} IdleChangesNothing(t: Transport, commands: seq<Command>)
    requires Idle(commands)
    ensures CarryAll(t, Ios(commands)) == t
  {
    hide CarryAll, Ios;
    NoneCarried(t);
    if commands != [] {
      var front, last := commands[..|commands| - 1], commands[|commands| - 1];
      IdleChangesNothing(t, front);
      OneCarried(t, front, last);
      assert commands == front + [last] && commands[|commands| - 1] == last;
    }
  }

  lemma {:induction false} CarriedThen(t: Transport, a: seq<Io>, b: seq<Io>)
    ensures CarryAll(t, a + b) == CarryAll(CarryAll(t, a), b)
    decreases |b|
  {
    if b == [] {
      assert a + b == a;
    } else {
      assert (a + b)[..|a + b| - 1] == a + b[..|b| - 1];
      CarriedThen(t, a, b[..|b| - 1]);
    }
  }

  lemma {:induction false} IosThen(a: seq<Command>, b: seq<Command>)
    ensures Ios(a + b) == Ios(a) + Ios(b)
    decreases |b|
  {
    if b == [] {
      assert a + b == a;
    } else {
      var front, last := b[..|b| - 1], b[|b| - 1];
      IosThen(a, front);
      assert a + b != [] && (a + b)[..|a + b| - 1] == a + front && (a + b)[|a + b| - 1] == last;
      assert Ios(a + b) == Ios(a) + Ios(front) + IoOf(last);
    }
  }

  /** The commands of one reaction: what the transport must do, and idle ones after it. */
  lemma CarriedWithIdle(t: Transport, commands: seq<Command>, idle: seq<Command>)
    requires Idle(idle)
    ensures CarryAll(t, Ios(commands + idle)) == CarryAll(t, Ios(commands))
  {
    IosThen(commands, idle);
    CarriedThen(t, Ios(commands), Ios(idle));
    IdleChangesNothing(CarryAll(t, Ios(commands)), idle);
  }

  function CarryOne(t: Transport, command: Command): Transport {
    if IoOf(command) == [] then t else Carry(t, IoOf(command)[0])
  }

  lemma OneCarried(t: Transport, commands: seq<Command>, command: Command)
    ensures CarryAll(t, Ios(commands + [command])) == CarryOne(CarryAll(t, Ios(commands)), command)
  {
    IosThen(commands, [command]);
    assert [command][..0] == [];
    CarriedThen(t, Ios(commands), IoOf(command));
    assert IoOf(command) == [] || IoOf(command)[..0] == [];
  }

  lemma NoneCarried(t: Transport)
    ensures CarryAll(t, Ios([])) == t
  {
  }

  /** A few commands, one by one. */
  lemma FewCarried(t: Transport, commands: seq<Command>)
    requires |commands| <= 3
    ensures CarryAll(t, Ios(commands)) == CarryFew(t, commands)
  {
    hide CarryAll, Ios, CarryOne;
    NoneCarried(t);
    if |commands| > 0 {
      OneCarried(t, [], commands[0]);
      assert commands[..1] == [] + [commands[0]];
    }
    if |commands| > 1 {
      OneCarried(t, commands[..1], commands[1]);
      assert commands[..2] == commands[..1] + [commands[1]];
    }
    if |commands| > 2 {
      OneCarried(t, commands[..2], commands[2]);
      assert commands == commands[..2] + [commands[2]];
    }
    assert commands[..|commands|] == commands;
  }

  function CarryFew(t: Transport, commands: seq<Command>): Transport
    requires |commands| <= 3
  {
    var one := if |commands| > 0 then CarryOne(t, commands[0]) else t;
    var two := if |commands| > 1 then CarryOne(one, commands[1]) else one;
    if |commands| > 2 then CarryOne(two, commands[2]) else two
  }

  // ---------------------------------------------------------------------
  // One input

  /** The counters of the tally, as the connection keeps them. */
  predicate Counted(c: ConnectionState, tally: Tally) {
    && c.failures == tally.lost && c.refusals == tally.refused
    && c.unreadable == tally.unreadable && c.pings == tally.pings
  }

  /** The transport has been told what the phase is. */
  predicate Told(c: ConnectionState, t: Transport) {
    && (t.socket <==> Dialled(c.phase))
    && t.retry == (if c.phase.BackingOff? then Some(c.phase.delay) else None)
    && (c.phase.LivePhase? ==> c.awaiting == t.ping)
  }

  lemma FrameTells(c: ConnectionState, t: Transport, frame: ServerFrame)
    requires c.phase.Listening() && Told(c, t)
    ensures var after := c.(awaiting := None).HandleFrame(frame);
            Told(after.state, CarryAll(Notice(t, Frame(frame)), Ios(after.commands)))
  {
    hide CarryAll, Ios, Power2;
    var after := c.(awaiting := None).HandleFrame(frame);
    if frame.Live? && after.state.phase.LivePhase? {
      IdleChangesNothing(Notice(t, Frame(frame)), after.commands);
    } else {
      FewCarried(Notice(t, Frame(frame)), after.commands);
    }
  }

  lemma ClosedTells(c: ConnectionState, t: Transport, code: Option<int>)
    requires Dialled(c.phase) && Told(c, t)
    ensures var after := c.Transition(Closed(code));
            Told(after.state, CarryAll(Notice(t, Closed(code)), Ios(after.commands)))
  {
    hide CarryAll, Ios, Delay;
    var closed := c.HandleClosed(code);
    FewCarried(Notice(t, Closed(code)), closed.commands);
    CarriedWithIdle(Notice(t, Closed(code)), closed.commands, [CheckSession]);
  }

  lemma GivingUpTells(c: ConnectionState, t: Transport, input: Input)
    requires c.phase.Listening() && Told(c, t) && (input.Unreadable? || input.PongOverdue?)
    ensures var after := c.Transition(input);
            Told(after.state, CarryAll(Notice(t, input), Ios(after.commands)))
  {
    hide CarryAll, Ios, Delay;
    FewCarried(Notice(t, input), c.Transition(input).commands);
  }

  lemma OthersTell(c: ConnectionState, t: Transport, input: Input)
    requires Told(c, t) && !input.Frame? && !input.Closed? && !input.Unreadable? && !input.PongOverdue?
    ensures var after := c.Transition(input);
            Told(after.state, CarryAll(Notice(t, input), Ios(after.commands)))
  {
    hide CarryAll, Ios, Delay;
    FewCarried(Notice(t, input), c.Transition(input).commands);
  }

  lemma TransitionTells(c: ConnectionState, t: Transport, input: Input)
    requires Told(c, t)
    ensures var after := c.Transition(input);
            Told(after.state, CarryAll(Notice(t, input), Ios(after.commands)))
  {
    if input.Frame? && c.phase.Listening() {
      FrameTells(c, t, input.frame);
    } else if input.Closed? && Dialled(c.phase) {
      ClosedTells(c, t, input.code);
    } else if (input.Unreadable? || input.PongOverdue?) && c.phase.Listening() {
      GivingUpTells(c, t, input);
    } else if !input.Frame? && !input.Closed? && !input.Unreadable? && !input.PongOverdue? {
      OthersTell(c, t, input);
    }
  }

  lemma InputTells(c: ConnectionState, t: Transport, input: Input)
    requires Told(c, t)
    ensures var after := c.Handle(input);
            Told(after.state, CarryAll(Notice(t, input), Ios(after.commands)))
  {
    var noted := c.Note(input).Transition(input);
    TransitionTells(c.Note(input), t, input);
    if input.ChangesView() {
      CarriedWithIdle(Notice(t, input), noted.commands, noted.state.SayViewing().commands);
    }
  }

  // ---------------------------------------------------------------------
  // What an input does, told of where the connection stood

  /** The input is an event that follows where the connection stands, on a socket that listens. */
  predicate TakesAnEvent(c: ConnectionState, input: Input) {
    && c.phase.Listening() && input.Frame? && input.frame.EventFrame?
    && (c.last.Some? ==> input.frame.envelope.number == c.last.value + 1)
  }

  /** A frame that shows a gap: an event beyond the next, or a live position ahead of what was replayed. */
  predicate ShowsAGap(c: ConnectionState, frame: ServerFrame) {
    && c.last.Some?
    && match frame
       case EventFrame(envelope) => c.last.value + 1 < envelope.number
       case Live(latest) => !c.phase.LivePhase? && c.last.value < latest
       case _ => false
  }

  /** What makes a connection give up its socket and wait: it closed, erred or fell silent. */
  predicate LosesIt(c: ConnectionState, ping: Option<nat>, refused: nat, unreadable: nat, input: Input) {
    match input
    case Closed(code) => code != Some(4002) && (code != Some(4000) || refused + 1 < 3)
    case Frame(frame) => c.phase.Listening() && ShowsAGap(c, frame)
    case Unreadable => c.phase.Listening() && unreadable + 1 < 3
    case PongOverdue(overdue) => c.phase.LivePhase? && ping == Some(overdue)
    case _ => false
  }

  predicate MakesItOutdated(c: ConnectionState, refused: nat, unreadable: nat, input: Input) {
    || (input == Closed(Some(4000)) && refused + 1 >= 3)
    || (c.phase.Listening() && input.Unreadable? && unreadable + 1 >= 3)
  }

  /** Where a socket being dialled or open goes from here, and when one is dialled. */
  predicate Moves(c: ConnectionState, input: Input, after: Phase) {
    if Dialled(c.phase) then
      && (after.BackingOff? <==> LosesIt(c, c.awaiting, c.refusals, c.unreadable, input))
      && (after.Outdated? <==> MakesItOutdated(c, c.refusals, c.unreadable, input))
      && (after.SignedOut? <==> input == Closed(Some(4002)) || input.Unauthenticated?)
      && (after.Stopped? <==> input.Stop?)
    else if Dials(c.phase, input) then after.Connecting?
    else if input.Unauthenticated? && !c.phase.Outdated? then after.SignedOut?
    else if input.Stop? && !c.phase.SignedOut? then after.Stopped?
    else after == c.phase
  }

  /** Without a socket, one is dialled when the connection starts, its retry is due or the page shows again. */
  predicate Dials(phase: Phase, input: Input) {
    || (phase.Stopped? && input.Start?)
    || (phase.BackingOff? && (input.RetryDue? || input.Visible?))
  }

  /** What is counted of it. */
  predicate Counts(c: ConnectionState, input: Input, after: ConnectionState) {
    var live := after.phase.LivePhase? && !c.phase.LivePhase?;
    && after.failures == (if live then 0 else c.failures + One(after.phase.BackingOff? && !c.phase.BackingOff?))
    && after.refusals == (if live then 0 else c.refusals + One(Dialled(c.phase) && input == Closed(Some(4000))))
    && after.unreadable == (if TakesAnEvent(c, input) then 0
                            else c.unreadable + One(c.phase.Listening() && input.Unreadable?))
    && after.pings == c.pings + One(c.phase.LivePhase? && input.Visible?)
    && (after.phase.BackingOff? && !c.phase.BackingOff? ==>
          0 < after.failures && after.phase.delay == Delay(after.failures))
    && (after.phase.LivePhase? ==> input != Closed(Some(4000)) || !Dialled(c.phase))
  }

  /** What it says of the session. */
  predicate Speaks(c: ConnectionState, input: Input, after: Reaction) {
    && (EndSession in after.commands <==> after.state.phase.SignedOut? && !c.phase.SignedOut?)
    && (CheckSession in after.commands <==> c.phase.Connecting? && input.Closed? && !after.state.phase.SignedOut?)
  }

  predicate Steps(c: ConnectionState, input: Input, after: Reaction) {
    Moves(c, input, after.state.phase) && Counts(c, input, after.state) && Speaks(c, input, after)
  }

  /** Saying what is shown changes none of this. */
  lemma SayingCountsNothing(c: ConnectionState)
    ensures var said := c.SayViewing();
            && said.state == c.(told := said.state.told, renewals := said.state.renewals)
            && EndSession !in said.commands && CheckSession !in said.commands && Idle(said.commands)
  {
  }

  lemma LiveSteps(c: ConnectionState, latest: Seq)
    requires c.phase.Listening()
    ensures Steps(c, Frame(Live(latest)), c.Transition(Frame(Live(latest))))
  {
    hide Power2, Delay, ConnectionState.SayViewing;
    SayingCountsNothing(c.(awaiting := None, last := Some(latest), phase := LivePhase, failures := 0,
                           refusals := 0, synced := true, told := None));
  }

  lemma FrameSteps(c: ConnectionState, frame: ServerFrame)
    requires c.phase.Listening()
    ensures Steps(c, Frame(frame), c.Transition(Frame(frame)))
  {
    if frame.Live? {
      LiveSteps(c, frame.latest);
    } else {
      hide Power2, Delay, ConnectionState.SayViewing;
    }
  }

  lemma ClosedSteps(c: ConnectionState, code: Option<int>)
    requires Dialled(c.phase)
    ensures Steps(c, Closed(code), c.Transition(Closed(code)))
  {
    hide Power2, Delay, ConnectionState.SayViewing, ConnectionState.HandleFrame;
  }

  lemma GivingUpSteps(c: ConnectionState, input: Input)
    requires c.phase.Listening() && (input.Unreadable? || input.PongOverdue?)
    ensures Steps(c, input, c.Transition(input))
  {
    hide Power2, Delay, ConnectionState.SayViewing, ConnectionState.HandleFrame;
  }

  /** Whether or not there is a socket, what none of these inputs brings about. */
  predicate IsOther(c: ConnectionState, input: Input) {
    && (input.Frame? || input.Unreadable? || input.PongOverdue? ==> !c.phase.Listening())
    && (input.Closed? ==> !Dialled(c.phase))
  }

  lemma DialledSteps(c: ConnectionState, input: Input)
    requires IsOther(c, input) && Dialled(c.phase)
    ensures Steps(c, input, c.Transition(input))
  {
    hide Power2, Delay, ConnectionState.SayViewing, ConnectionState.HandleFrame, ConnectionState.HandleClosed;
  }

  lemma IdleSteps(c: ConnectionState, input: Input)
    requires !Dialled(c.phase)
    ensures Steps(c, input, c.Transition(input))
  {
    hide Power2, Delay, ConnectionState.SayViewing, ConnectionState.HandleFrame, ConnectionState.HandleClosed;
  }

  lemma TransitionSteps(c: ConnectionState, input: Input)
    ensures Steps(c, input, c.Transition(input))
  {
    hide Steps, ConnectionState.Transition;
    if input.Frame? && c.phase.Listening() {
      FrameSteps(c, input.frame);
    } else if input.Closed? && Dialled(c.phase) {
      ClosedSteps(c, input.code);
    } else if (input.Unreadable? || input.PongOverdue?) && c.phase.Listening() {
      GivingUpSteps(c, input);
    } else if Dialled(c.phase) {
      DialledSteps(c, input);
    } else {
      IdleSteps(c, input);
    }
  }

  lemma InputSteps(c: ConnectionState, input: Input)
    ensures Steps(c, input, c.Handle(input))
  {
    hide ConnectionState.Transition, ConnectionState.SayViewing, Delay;
    TransitionSteps(c.Note(input), input);
    SayingCountsNothing(c.Note(input).Transition(input).state);
  }

  // ---------------------------------------------------------------------
  // Counting

  /** Only an event taken moves the connection to its number while nothing is announced. */
  lemma TakenMoves(c: ConnectionState, input: Input)
    requires input.Frame? && input.frame.EventFrame?
    ensures TakesAnEvent(c, input) ==> c.Handle(input).state.last == Some(input.frame.envelope.number) != c.last
    ensures !TakesAnEvent(c, input) ==> c.Handle(input).state.last == c.last
  {
    hide Delay;
  }

  lemma TakenIsPosted(c: ConnectionState, input: Input)
    requires Valid(c)
    ensures AnyEvent(Updates(c.Handle(input).commands)) <==> TakesAnEvent(c, input)
  {
    hide Updates, Power2, ConnectionState.Handle;
    OneInputDelivers(c, input);
    var updates := Updates(c.Handle(input).commands);
    if input.Frame? && input.frame.EventFrame? {
      TakenMoves(c, input);
    }
    if TakesAnEvent(c, input) {
      assert updates[0].EventUpdate?;
    } else {
      assert Minor(updates) || updates == [ReloadUpdate];
    }
  }

  lemma TakenIsPassedOn(d: DriverState, input: Input)
    requires Valid(d.connection)
    ensures PassesOnAnEvent(d, input) <==> TakesAnEvent(d.connection, input)
  {
    hide Updates, ConnectionState.Handle, TakesAnEvent;
    TakenIsPosted(d.connection, input);
    var updates := Updates(d.connection.Handle(input).commands);
    var posts := d.Posts(input);
    assert forall i :: 0 <= i < |updates| ==> posts[i] == updates[i];
    assert forall i :: |updates| <= i < |posts| ==> posts[i].LinkUpdate?;
    if PassesOnAnEvent(d, input) {
      var i :| 0 <= i < |posts| && posts[i].EventUpdate?;
      assert i < |updates| && updates[i].EventUpdate?;
    }
  }

  /** An input counts as the connection counts it. */
  lemma InputCounts(d: DriverState, tally: Tally, input: Input)
    requires Valid(d.connection) && Counted(d.connection, tally)
    requires d.connection.phase.LivePhase? ==> tally.lost == 0 && tally.refused == 0
    ensures Counted(d.Handle(input).connection, Count(tally, d, input))
  {
    hide PassesOnAnEvent, TakesAnEvent, ConnectionState.Handle, Delay;
    TakenIsPassedOn(d, input);
    InputSteps(d.connection, input);
  }

  // ---------------------------------------------------------------------
  // Every run

  lemma AfterOneMore(inputs: seq<Input>, input: Input)
    ensures After(inputs + [input]) == After(inputs).Handle(input)
    ensures TallyOf(inputs + [input]) == Count(TallyOf(inputs), After(inputs), input)
    ensures TransportAfter(inputs + [input])
         == CarryAll(Notice(TransportAfter(inputs), input), IosOf(After(inputs), input))
  {
    assert (inputs + [input])[..|inputs|] == inputs;
  }

  /** What every run keeps. */
  predicate KeptUp(c: ConnectionState, t: Transport, tally: Tally) {
    && Told(c, t) && Counted(c, tally) && Valid(c)
    && (c.phase.LivePhase? ==> tally.lost == 0 && tally.refused == 0)
    && (c.phase.BackingOff? ==> 0 < tally.lost && c.phase.delay == Delay(tally.lost))
  }

  lemma InputKeepsUp(d: DriverState, t: Transport, tally: Tally, input: Input)
    requires KeptUp(d.connection, t, tally)
    ensures KeptUp(d.Handle(input).connection, CarryAll(Notice(t, input), IosOf(d, input)), Count(tally, d, input))
  {
    hide Ios, CarryAll, Delay, PassesOnAnEvent, ConnectionState.Handle, TakesAnEvent, LosesIt, MakesItOutdated, Told;
    InputTells(d.connection, t, input);
    InputCounts(d, tally, input);
    InputSteps(d.connection, input);
    StaysValid(d.connection, input);
  }

  lemma StaysValid(c: ConnectionState, input: Input)
    requires Valid(c)
    ensures Valid(c.Handle(input).state)
  {
    OneInputDelivers(c, input);
  }

  lemma {:induction false} EveryRunIsKeptUp(inputs: seq<Input>)
    ensures KeptUp(After(inputs).connection, TransportAfter(inputs), TallyOf(inputs))
    decreases |inputs|
  {
    if inputs != [] {
      hide KeptUp, Ios, CarryAll, Count, ConnectionState.Handle;
      var before, input := inputs[..|inputs| - 1], inputs[|inputs| - 1];
      EveryRunIsKeptUp(before);
      InputKeepsUp(After(before), TransportAfter(before), TallyOf(before), input);
    }
  }

  /**
   Over every run: a connection that backs off has one retry timer running, which no one has
   taken back, for 250 ms doubled with each socket lost in a row, up to 8 s; no timer runs
   otherwise. A socket is being dialled or open exactly while the connection wants one.
   */
  lemma ARetryIsAlwaysDue(inputs: seq<Input>)
    ensures var c, t := After(inputs).connection, TransportAfter(inputs);
            && (t.socket <==> Dialled(c.phase))
            && (c.phase.BackingOff? ==> t.retry == Some(Wait(TallyOf(inputs).lost)) && 0 < TallyOf(inputs).lost)
            && (!c.phase.BackingOff? ==> t.retry == None)
  {
    hide After, TransportAfter, TallyOf, Delay, Wait;
    EveryRunIsKeptUp(inputs);
    if After(inputs).connection.phase.BackingOff? {
      DelayIsWait(TallyOf(inputs).lost);
    }
  }

  /**
   In every run, a socket being dialled or open is given up, to be dialled again, exactly if
   it closed, showed a gap, sent what cannot be read, or let the newest ping's deadline pass
   with nothing heard since. Three refusals since it was last live, or three frames in a
   row that cannot be read, end it for an outdated page.
   */
  lemma WhenASocketIsLost(inputs: seq<Input>, input: Input)
    requires Dialled(After(inputs).connection.phase)
    ensures var d, ping, tally := After(inputs), TransportAfter(inputs).ping, TallyOf(inputs);
            var phase := d.Handle(input).connection.phase;
            && (phase.BackingOff? <==> LosesIt(d.connection, ping, tally.refused, tally.unreadable, input))
            && (phase.Outdated? <==> MakesItOutdated(d.connection, tally.refused, tally.unreadable, input))
            && (phase.SignedOut? <==> input == Closed(Some(4002)) || input.Unauthenticated?)
            && (phase.Stopped? <==> input.Stop?)
  {
    hide After, TransportAfter, TallyOf, Delay, ConnectionState.Handle, TakesAnEvent, Speaks, ShowsAGap;
    EveryRunIsKeptUp(inputs);
    InputSteps(After(inputs).connection, input);
  }

  /**
   Without a socket, one is dialled when the connection starts, its retry is due or the page
   shows again, and only then. A session that ended stays so, and an outdated page can only
   be stopped.
   */
  lemma WhenItDials(c: ConnectionState, input: Input)
    requires !Dialled(c.phase)
    ensures var after := c.Handle(input).state.phase;
            && (Dials(c.phase, input) ==> after.Connecting?)
            && (!Dials(c.phase, input) ==> !Dialled(after))
            && (c.phase.SignedOut? ==> after.SignedOut?)
            && (c.phase.Outdated? ==> if input.Stop? then after.Stopped? else after.Outdated?)
            && (c.phase.Stopped? || c.phase.BackingOff? ==>
                  && (after.SignedOut? <==> input.Unauthenticated?)
                  && (input.Stop? ==> after.Stopped?)
                  && (!Dials(c.phase, input) && !input.Unauthenticated? && !input.Stop? ==> after == c.phase))
  {
    hide ConnectionState.Handle, Counts, Speaks;
    InputSteps(c, input);
  }

  lemma PingIos(ping: nat, after: nat)
    ensures Ios([Send(Ping), AwaitPong(ping, after)]) == [SendText(Ping), StartPong(ping, after)]
  {
    assert [Send(Ping), AwaitPong(ping, after)] == [Send(Ping)] + [AwaitPong(ping, after)];
    IosThen([Send(Ping)], [AwaitPong(ping, after)]);
    assert [Send(Ping)][..0] == [] && [AwaitPong(ping, after)][..0] == [];
  }

  lemma ShowingPings(c: ConnectionState)
    requires c.phase.LivePhase?
    ensures var ios := Ios(c.Handle(Visible).commands);
            |ios| >= 2 && ios[0] == SendText(Ping) && ios[1] == StartPong(c.pings + 1, 5_000)
    ensures c.Handle(Visible).state.phase.LivePhase? && c.Handle(Visible).state.awaiting == Some(c.pings + 1)
  {
    hide Ios, ConnectionState.SayViewing;
    var asked := c.Note(Visible).Transition(Visible);
    PingIos(c.pings + 1, 5_000);
    IosThen(asked.commands, asked.state.SayViewing().commands);
    SayingCountsNothing(asked.state);
  }

  /** A live page shown again sends a ping of a new number, with five seconds to be answered. */
  lemma ShownAgainPings(inputs: seq<Input>)
    requires After(inputs).connection.phase.LivePhase?
    ensures var ios := IosOf(After(inputs), Visible);
            && |ios| >= 2 && ios[0] == SendText(Ping) && ios[1] == StartPong(TallyOf(inputs).pings + 1, 5_000)
            && TransportAfter(inputs + [Visible]).ping == Some(TallyOf(inputs).pings + 1)
  {
    hide After, TransportAfter, TallyOf, Ios, CarryAll, Count, Delay, ConnectionState.Handle;
    EveryRunIsKeptUp(inputs);
    EveryRunIsKeptUp(inputs + [Visible]);
    AfterOneMore(inputs, Visible);
    ShowingPings(After(inputs).connection);
  }

  // ---------------------------------------------------------------------
  // What the application hears of it

  predicate Hears(d: DriverState, input: Input, update: SocketUpdate) {
    update in d.Posts(input)
  }

  lemma {:induction false} UpdatesAreOfCommands(commands: seq<Command>)
    ensures CheckSessionUpdate in Updates(commands) <==> CheckSession in commands
    ensures SignedOutUpdate in Updates(commands) <==> EndSession in commands
    ensures forall i :: 0 <= i < |Updates(commands)| ==> !Updates(commands)[i].LinkUpdate?
  {
    if commands != [] {
      var front, last := commands[..|commands| - 1], commands[|commands| - 1];
      UpdatesAreOfCommands(front);
      assert forall c :: c in commands <==> c in front || c == last;
      assert forall u :: u in Updates(commands) <==> u in Updates(front) || u in UpdateOf(last);
    }
  }

  /**
   The application hears that the session ended exactly when the connection learns it, and
   is asked to check it exactly when a socket fails before it opened.
   */
  lemma SessionIsHeardOf(d: DriverState, input: Input)
    ensures var after := d.Handle(input).connection.phase;
            && (Hears(d, input, SignedOutUpdate) <==> after.SignedOut? && !d.connection.phase.SignedOut?)
            && (Hears(d, input, CheckSessionUpdate)
                <==> d.connection.phase.Connecting? && input.Closed? && !after.SignedOut?)
  {
    hide ConnectionState.Handle, Updates, Moves, Counts;
    UpdatesAreOfCommands(d.connection.Handle(input).commands);
    InputSteps(d.connection, input);
  }

  /** Whether the connection has ever been live. */
  predicate EverLive(inputs: seq<Input>) {
    inputs != [] && (After(inputs).connection.phase.LivePhase? || EverLive(inputs[..|inputs| - 1]))
  }

  /** The link's state as the application last heard it. */
  function LastLink(posts: seq<Posted>): Link {
    if posts == [] then LinkStopped
    else
      var last := posts[|posts| - 1].update;
      if last.LinkUpdate? then last.link else LastLink(posts[..|posts| - 1])
  }

  lemma {:induction false} NoNewsOfTheLink(a: seq<Posted>, b: seq<Posted>)
    requires forall i :: 0 <= i < |b| ==> !b[i].update.LinkUpdate?
    ensures LastLink(a + b) == LastLink(a)
    decreases |b|
  {
    if b == [] {
      assert a + b == a;
    } else {
      assert (a + b)[..|a + b| - 1] == a + b[..|b| - 1];
      NoNewsOfTheLink(a, b[..|b| - 1]);
    }
  }

  lemma LinkAfter(posts: seq<Posted>, d: DriverState, input: Input)
    requires LastLink(posts) == d.link
    ensures LastLink(posts + Stamped(d, input)) == d.Handle(input).link
  {
    var updates, stamped := Updates(d.connection.Handle(input).commands), Stamped(d, input);
    UpdatesAreOfCommands(d.connection.Handle(input).commands);
    if d.Handle(input).link == d.link {
      NoNewsOfTheLink(posts, stamped);
    } else {
      assert (posts + stamped)[|posts + stamped| - 1] == stamped[|stamped| - 1];
      assert stamped[|stamped| - 1].update == LinkUpdate(d.Handle(input).link);
    }
  }

  /** The link an input leaves: as the phase says, and whether the connection was live before. */
  lemma LinkOfInput(d: DriverState, input: Input)
    ensures var after := d.Handle(input);
            && after.link == LinkOf(after.connection.phase, d.wasLive)
            && (after.wasLive <==> d.wasLive || after.connection.phase.LivePhase?)
  {
    hide ConnectionState.Handle;
  }

  lemma {:induction false} EveryRunTellsTheLink(inputs: seq<Input>)
    ensures LastLink(Posts(inputs)) == After(inputs).link
    ensures After(inputs).wasLive <==> EverLive(inputs)
    ensures inputs == [] ==> After(inputs).link == LinkStopped
    ensures inputs != [] ==>
              After(inputs).link == LinkOf(After(inputs).connection.phase, After(inputs[..|inputs| - 1]).wasLive)
    decreases |inputs|
  {
    if inputs != [] {
      hide ConnectionState.Handle, Updates, LastLink, DriverState.Posts, DriverState.Handle, Stamped, LinkOf;
      var before, input := inputs[..|inputs| - 1], inputs[|inputs| - 1];
      EveryRunTellsTheLink(before);
      LinkOfInput(After(before), input);
      LinkAfter(Posts(before), After(before), input);
    }
  }

  /** In every run, the link's state last told is the connection's own. */
  lemma LinkIsAsTold(inputs: seq<Input>)
    ensures var phase, link := After(inputs).connection.phase, LastLink(Posts(inputs));
            && (link.LinkLive? <==> phase.LivePhase?) && (link.LinkStopped? <==> phase.Stopped?)
            && (link.LinkSignedOut? <==> phase.SignedOut?) && (link.LinkOutdated? <==> phase.Outdated?)
            && (link.LinkReconnecting?
                <==> EverLive(inputs) && !phase.LivePhase? && (Dialled(phase) || phase.BackingOff?))
  {
    EveryRunTellsTheLink(inputs);
    if inputs != [] {
      hide After, Posts, LastLink, ConnectionState.Handle;
      EveryRunTellsTheLink(inputs[..|inputs| - 1]);
    }
  }

  // ---------------------------------------------------------------------
  // What the transport is asked for

  lemma {:induction false} IosAreOfCommands(commands: seq<Command>)
    ensures forall frame :: SendText(frame) in Ios(commands) <==> Send(frame) in commands
    ensures forall renewal, after ::
              StartRenewal(renewal, after) in Ios(commands) <==> RenewViewing(renewal, after) in commands
  {
    if commands != [] {
      var front, last := commands[..|commands| - 1], commands[|commands| - 1];
      IosAreOfCommands(front);
      assert forall c :: c in commands <==> c in front || c == last;
      assert forall io :: io in Ios(commands) <==> io in Ios(front) || io in IoOf(last);
    }
  }

  /**
   Each time a live connection says which Bot it shows, the transport sends it; and it is
   asked for a timer of half a minute exactly when a renewal is counted, of that number.
   */
  lemma SayingIsSent(c: ConnectionState, input: Input)
    requires c.phase.LivePhase? ==> c.told == c.Shown()
    ensures var after, ios := c.Handle(input).state, Ios(c.Handle(input).commands);
            && (after.phase.LivePhase? && after.told != (if c.phase.LivePhase? then c.told else None) ==>
                  SendText(Viewing(after.told)) in ios)
            && (after.renewals != c.renewals ==>
                  StartRenewal(c.renewals + 1, 30_000) in ios && SendText(Viewing(after.told)) in ios)
            && (forall renewal, delay :: StartRenewal(renewal, delay) in ios ==>
                                           renewal == c.renewals + 1 == after.renewals && delay == 30_000)
  {
    hide ConnectionState.Handle, Ios, ConnectionState.Shown;
    Speech.InputSays(c, input);
    IosAreOfCommands(c.Handle(input).commands);
    SpokenCommands(c, input, c.Handle(input));
  }

  lemma SpokenCommands(c: ConnectionState, input: Input, after: Reaction)
    requires Speech.Silent(c, input, after) || Speech.Speaks(c, after)
    ensures after.state.phase.LivePhase? && after.state.told != (if c.phase.LivePhase? then c.told else None) ==>
              Send(Viewing(after.state.told)) in after.commands
    ensures after.state.renewals != c.renewals ==>
              && RenewViewing(c.renewals + 1, 30_000) in after.commands
              && Send(Viewing(after.state.told)) in after.commands
    ensures forall renewal, delay :: RenewViewing(renewal, delay) in after.commands ==>
                                       renewal == c.renewals + 1 == after.state.renewals && delay == 30_000
  {
    hide Speech.SaysOnce, Speech.SaysNothing;
    if Speech.Silent(c, input, after) {
      NothingIsRenewed(after.commands);
    } else {
      OneIsRenewed(after.commands, after.state);
    }
  }

  lemma NothingIsRenewed(commands: seq<Command>)
    requires Speech.SaysNothing(commands)
    ensures forall renewal, delay :: RenewViewing(renewal, delay) !in commands
  {
    assert forall i :: 0 <= i < |commands| ==> !commands[i].RenewViewing?;
  }

  lemma OneIsRenewed(commands: seq<Command>, after: ConnectionState)
    requires Speech.SaysOnce(commands, after)
    ensures Send(Viewing(after.told)) in commands
    ensures forall renewal, delay :: RenewViewing(renewal, delay) in commands
                                     <==> after.told.Some? && renewal == after.renewals && delay == 30_000
  {
    var i :| 0 <= i < |commands| && commands[i] == Send(Viewing(after.told)) && Speech.SaysNothing(commands[..i])
             && commands[i + 1..] == if after.told.Some? then [RenewViewing(after.renewals, 30_000)] else [];
    hide Speech.SaysOnce, Speech.SaysNothing;
    NothingIsRenewed(commands[..i]);
    assert commands == commands[..i] + [commands[i]] + commands[i + 1..];
    forall command
      ensures command in commands
         <==> command in commands[..i] || command == commands[i] || command in commands[i + 1..]
    {
    }
  }
}
