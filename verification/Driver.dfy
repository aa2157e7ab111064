/**
 The event socket's driver: the connection's commands, split between the transport
 and what the application hears, each in order.
 */
module Driver {
  import opened Protocol
  import opened ConnectionModel
  import opened ClientConnection

  /** The link's state as the application shows it. */
  datatype Link = LinkStopped | LinkConnecting | LinkLive | LinkReconnecting | LinkSignedOut | LinkOutdated

  datatype SocketUpdate =
    | EventUpdate(envelope: Envelope)
    | ReloadUpdate
    | CheckSessionUpdate
    | SignedOutUpdate
    | LinkUpdate(link: Link)

  datatype Io =
    | OpenSocket
    | SendText(frame: ClientFrame)
    | CloseSocket
    | StartRetry(delay: nat)
    | ForgetRetry
    | StartPong(ping: nat, after: nat)
    | StartRenewal(renewal: nat, after: nat)

  /** What the transport does for a command, if anything. */
  function IoOf(command: Command): seq<Io> {
    match command
    case Connect => [OpenSocket]
    case Send(frame) => [SendText(frame)]
    case Close => [CloseSocket]
    case RetryAfter(delay) => [StartRetry(delay)]
    case CancelRetry => [ForgetRetry]
    case AwaitPong(ping, after) => [StartPong(ping, after)]
    case RenewViewing(renewal, after) => [StartRenewal(renewal, after)]
    case _ => []
  }

  /** What the application hears of a command, if anything. */
  function UpdateOf(command: Command): seq<SocketUpdate> {
    match command
    case Apply(envelope) => [EventUpdate(envelope)]
    case Reload => [ReloadUpdate]
    case CheckSession => [CheckSessionUpdate]
    case EndSession => [SignedOutUpdate]
    case _ => []
  }

  function Ios(commands: seq<Command>): seq<Io> {
    if commands == [] then [] else Ios(commands[..|commands| - 1]) + IoOf(commands[|commands| - 1])
  }

  function Updates(commands: seq<Command>): seq<SocketUpdate> {
    if commands == [] then [] else Updates(commands[..|commands| - 1]) + UpdateOf(commands[|commands| - 1])
  }

  function LinkOf(phase: Phase, wasLive: bool): Link {
    match phase
    case Stopped => LinkStopped
    case LivePhase => LinkLive
    case SignedOut => LinkSignedOut
    case Outdated => LinkOutdated
    case _ => if wasLive then LinkReconnecting else LinkConnecting
  }

  datatype DriverState = DriverState(connection: ConnectionState, link: Link, wasLive: bool) {
    function Handle(input: Input): DriverState {
      var after := connection.Handle(input).state;
      var link' := LinkOf(after.phase, wasLive);
      DriverState(after, link', wasLive || link' == LinkLive)
    }

    /** The updates of an input: its events and reloads in order, then the link's change. */
    function Posts(input: Input): seq<SocketUpdate> {
      var link' := Handle(input).link;
      Updates(connection.Handle(input).commands) + if link' == link then [] else [LinkUpdate(link')]
    }
  }

  const NEW_DRIVER: DriverState := DriverState(NEW, LinkStopped, false)

  class EventDriver {
    const connection: Connection
    var link: Link
    var wasLive: bool

    function State(): DriverState
      reads this, connection
    {
      DriverState(connection.State(), link, wasLive)
    }

    constructor ()
      ensures State() == NEW_DRIVER && fresh(connection)
    {
      connection := new Connection();
      link, wasLive := LinkStopped, false;
    }

    method Handle(input: Input) returns (io: seq<Io>, updates: seq<SocketUpdate>)
      modifies this, connection
      ensures State() == old(State()).Handle(input)
      ensures io == Ios(old(connection.State()).Handle(input).commands)
      ensures updates == old(State()).Posts(input)
    {
      io, updates := [], [];
      var commands := connection.Handle(input);
      for i := 0 to |commands|
        invariant io == Ios(commands[..i]) && updates == Updates(commands[..i])
      {
        assert commands[..i + 1][..i] == commands[..i];
        match commands[i] {
          case Connect => io := io + [OpenSocket];
          case Send(frame) => io := io + [SendText(frame)];
          case Close => io := io + [CloseSocket];
          case RetryAfter(delay) => io := io + [StartRetry(delay)];
          case CancelRetry => io := io + [ForgetRetry];
          case AwaitPong(ping, after) => io := io + [StartPong(ping, after)];
          case RenewViewing(renewal, after) => io := io + [StartRenewal(renewal, after)];
          case Apply(envelope) => updates := updates + [EventUpdate(envelope)];
          case Reload => updates := updates + [ReloadUpdate];
          case CheckSession => updates := updates + [CheckSessionUpdate];
          case EndSession => updates := updates + [SignedOutUpdate];
          case AskForReloadedPage =>
        }
      }
      assert commands[..|commands|] == commands;
      var next := LinkOf(connection.phase, wasLive);
      wasLive := wasLive || next == LinkLive;
      if next != link {
        link := next;
        updates := updates + [LinkUpdate(next)];
      }
    }
  }
}
