/**
 The event socket's connection policy as a function of its state: what each input
 makes it do. `Connection` carries the same policy out in place.
 */
module ConnectionModel {
  import opened Protocol

  const FIRST_RETRY: nat := 250
  const LAST_RETRY: nat := 8_000
  const CLOSE_SIGNED_OUT: int := 4002
  const CLOSE_PROTOCOL: int := 4000
  const PONG_DEADLINE: nat := 5_000
  const UNREADABLE_LIMIT: nat := 3
  const VIEWING_RENEW: nat := 30_000

  datatype Phase =
    | Stopped
    | Connecting
    | Resuming
    | Replaying
    | LivePhase
    | BackingOff(attempt: nat, delay: nat)
    | SignedOut
    | Outdated
  {
    /** The socket is open and its frames count. */
    predicate Listening() { Resuming? || Replaying? || LivePhase? }
  }

  datatype Input =
    | Start
    | Opened
    | Frame(frame: ServerFrame)
    | Unreadable
    | Closed(code: Option<int>)
    | RetryDue
    | Visible
    | Hidden
    | View(bot: Option<BotId>)
    | ViewingDue(renewal: nat)
    | PongOverdue(ping: nat)
    | Unauthenticated
    | Stop
  {
    /** The input may change which Bot the page shows. */
    predicate ChangesView() { Visible? || Hidden? || View? }
  }

  datatype Command =
    | Connect
    | Send(frame: ClientFrame)
    | Close
    | RetryAfter(delay: nat)
    | CancelRetry
    | AwaitPong(ping: nat, after: nat)
    | RenewViewing(renewal: nat, after: nat)
    | Apply(envelope: Envelope)
    | Reload
    | CheckSession
    | EndSession
    | AskForReloadedPage

  /** The delay before an attempt, 1 for the first retry: 250 ms, doubling to 8 s. */
  function Delay(attempt: nat): nat {
    var doublings := if attempt == 0 then 0 else if attempt - 1 < 6 then attempt - 1 else 6;
    var delay := FIRST_RETRY * Power2(doublings);
    if delay < LAST_RETRY then delay else LAST_RETRY
  }

  function Power2(n: nat): nat {
    if n == 0 then 1 else 2 * Power2(n - 1)
  }

  /** The state after an input, and what to do, in order. */
  datatype Reaction = Reaction(state: ConnectionState, commands: seq<Command>) {
    function Then(next: Reaction): Reaction {
      Reaction(next.state, commands + next.commands)
    }
  }

  datatype ConnectionState = ConnectionState(
    phase: Phase,
    failures: nat,
    last: Option<Seq>,
    synced: bool,
    pings: nat,
    awaiting: Option<nat>,
    unreadable: nat,
    refusals: nat,
    viewing: Option<BotId>,
    hidden: bool,
    told: Option<BotId>,
    renewals: nat)
  {
    /** The Bot the page shows: the application's, unless the page is hidden. */
    function Shown(): Option<BotId> {
      if hidden then None else viewing
    }

    function Quietly(): Reaction { Reaction(this, []) }

    function Handle(input: Input): Reaction {
      var noted := Note(input).Transition(input);
      if input.ChangesView() then noted.Then(noted.state.SayViewing()) else noted
    }

    function Note(input: Input): ConnectionState {
      match input
      case Visible => this.(hidden := false)
      case Hidden => this.(hidden := true)
      case View(bot) => this.(viewing := bot)
      case _ => this
    }

    function SayViewing(): Reaction {
      if phase != LivePhase || told == Shown() then Quietly()
      else
        Reaction(this.(told := Shown()), [Send(Viewing(Shown()))]).Then(this.(told := Shown()).RenewLater())
    }

    function RenewLater(): Reaction {
      if told.None? then Quietly()
      else Reaction(this.(renewals := renewals + 1), [RenewViewing(renewals + 1, VIEWING_RENEW)])
    }

    function Transition(input: Input): Reaction {
      if phase.SignedOut? then Quietly()
      else if phase.Outdated? then
        if input.Stop? then Reaction(this.(phase := Stopped), []) else Quietly()
      else
        match input
        case Unauthenticated => Reaction(this.(phase := SignedOut), [Close, CancelRetry, EndSession])
        case Stop => Reaction(this.(phase := Stopped), [Close, CancelRetry])
        case Start => if phase.Stopped? then ToConnect() else Quietly()
        case RetryDue => if phase.BackingOff? then ToConnect() else Quietly()
        case Visible =>
          if phase.BackingOff? then Reaction(this, [CancelRetry]).Then(ToConnect())
          else if phase.LivePhase? then
            Reaction(this.(pings := pings + 1, awaiting := Some(pings + 1)),
                     [Send(Ping), AwaitPong(pings + 1, PONG_DEADLINE)])
          else Quietly()
        case PongOverdue(ping) =>
          if phase.LivePhase? && awaiting == Some(ping) then this.(awaiting := None).Resync() else Quietly()
        case ViewingDue(renewal) =>
          if phase.LivePhase? && renewal == renewals && told.Some?
          then Reaction(this, [Send(Viewing(told))]).Then(RenewLater())
          else Quietly()
        case Opened =>
          if phase.Connecting? then Reaction(this.(phase := Resuming), [Send(Resume(last))]) else Quietly()
        case Closed(code) =>
          if phase.Connecting? then
            var closed := HandleClosed(code);
            if closed.state.phase.SignedOut? then closed
            else closed.Then(Reaction(closed.state, [CheckSession]))
          else if phase.Listening() then HandleClosed(code)
          else Quietly()
        case Frame(frame) =>
          if phase.Listening() then this.(awaiting := None).HandleFrame(frame) else Quietly()
        case Unreadable =>
          if !phase.Listening() then Quietly()
          else if unreadable + 1 >= UNREADABLE_LIMIT then
            Reaction(this.(awaiting := None, unreadable := unreadable + 1, phase := Outdated),
                     [Close, AskForReloadedPage])
          else this.(awaiting := None, unreadable := unreadable + 1).Resync()
        case _ => Quietly()
    }

    function ToConnect(): Reaction {
      Reaction(this.(phase := Connecting, awaiting := None), [Connect])
    }

    function HandleClosed(code: Option<int>): Reaction {
      if code == Some(CLOSE_SIGNED_OUT) then Reaction(this.(phase := SignedOut), [EndSession])
      else
        var refused := this.(refusals := refusals + if code == Some(CLOSE_PROTOCOL) then 1 else 0);
        if code == Some(CLOSE_PROTOCOL) && refused.refusals >= UNREADABLE_LIMIT
        then Reaction(refused.(phase := Outdated), [AskForReloadedPage])
        else
          var delay := Delay(failures + 1);
          Reaction(refused.(failures := failures + 1, phase := BackingOff(failures + 1, delay)),
                   [RetryAfter(delay)])
    }

    /** Gives up on this socket and backs off, as if it had closed. */
    function Resync(): Reaction {
      Reaction(this, [Close]).Then(HandleClosed(None))
    }

    /** An event or a reset while resuming shows that the replay has begun. */
    function Begun(): Phase {
      if phase.Resuming? then Replaying else phase
    }

    function HandleFrame(frame: ServerFrame): Reaction {
      match frame
      case EventFrame(envelope) =>
        if last.Some? && envelope.number <= last.value then Quietly()
        else if last.Some? && envelope.number != last.value + 1 then Resync()
        else Reaction(this.(last := Some(envelope.number), unreadable := 0, phase := Begun()), [Apply(envelope)])
      case Live(latest) =>
        if phase.LivePhase? then Quietly()
        else if last.Some? && last.value < latest then Resync()
        else
          var replaced := last.Some? && latest < last.value;
          var live := this.(last := Some(latest), phase := LivePhase, failures := 0, refusals := 0,
                            synced := true, told := None);
          Reaction(live, if !synced || replaced then [Reload] else []).Then(live.SayViewing())
      case Reset(after) =>
        Reaction(this.(last := Some(after), synced := true, phase := Begun()), [Reload])
      case Pong => Quietly()
    }
  }

  /** A connection that has never been live, for a newly signed-in user. */
  const NEW: ConnectionState :=
    ConnectionState(Stopped, 0, None, false, 0, None, 0, 0, None, false, None, 0)
}
