/**
 The reconnecting event connection, in place. Each method follows the policy of
 `ConnectionModel`, field by field.
 */
module ClientConnection {
  import opened Protocol
  import opened ConnectionModel

  class Connection {
    var phase: Phase
    var failures: nat
    var last: Option<Seq>
    var synced: bool
    var pings: nat
    var awaiting: Option<nat>
    var unreadable: nat
    var refusals: nat
    var viewing: Option<BotId>
    var hidden: bool
    var told: Option<BotId>
    var renewals: nat

    function State(): ConnectionState
      reads this
    {
      ConnectionState(phase, failures, last, synced, pings, awaiting, unreadable, refusals,
                      viewing, hidden, told, renewals)
    }

    constructor ()
      ensures State() == NEW
    {
      phase, failures, last, synced, pings, awaiting := Stopped, 0, None, false, 0, None;
      unreadable, refusals, viewing, hidden, told, renewals := 0, 0, None, false, None, 0;
    }

    method Handle(input: Input) returns (commands: seq<Command>)
      modifies this
      ensures Reaction(State(), commands) == old(State()).Handle(input)
    {
      match input {
        case Visible => hidden := false;
        case Hidden => hidden := true;
        case View(bot) => viewing := bot;
        case _ =>
      }
      commands := Transition(input);
      if input.ChangesView() {
        var said := SayViewing();
        commands := commands + said;
      }
    }

    method SayViewing() returns (commands: seq<Command>)
      modifies this
      ensures Reaction(State(), commands) == old(State()).SayViewing()
    {
      var shown := if hidden then None else viewing;
      if phase != LivePhase || told == shown {
        return [];
      }
      told := shown;
      var renewal := RenewLater();
      commands := [Send(Viewing(shown))] + renewal;
    }

    method RenewLater() returns (commands: seq<Command>)
      modifies this
      ensures Reaction(State(), commands) == old(State()).RenewLater()
    {
      if told.None? {
        return [];
      }
      renewals := renewals + 1;
      commands := [RenewViewing(renewals, VIEWING_RENEW)];
    }

    method Transition(input: Input) returns (commands: seq<Command>)
      modifies this
      ensures Reaction(State(), commands) == old(State()).Transition(input)
    {
      commands := [];
      if phase.SignedOut? {
        return;
      }
      if phase.Outdated? {
        if input.Stop? {
          phase := Stopped;
        }
        return;
      }
      match input {
        case Unauthenticated =>
          phase := SignedOut;
          commands := [Close, CancelRetry, EndSession];
        case Stop =>
          phase := Stopped;
          commands := [Close, CancelRetry];
        case Start =>
          if phase.Stopped? {
            commands := ToConnect();
          }
        case RetryDue =>
          if phase.BackingOff? {
            commands := ToConnect();
          }
        case Visible =>
          if phase.BackingOff? {
            var connect := ToConnect();
            commands := [CancelRetry] + connect;
          } else if phase.LivePhase? {
            pings := pings + 1;
            awaiting := Some(pings);
            commands := [Send(Ping), AwaitPong(pings, PONG_DEADLINE)];
          }
        case PongOverdue(ping) =>
          if phase.LivePhase? && awaiting == Some(ping) {
            awaiting := None;
            commands := Resync();
          }
        case ViewingDue(renewal) =>
          if phase.LivePhase? && renewal == renewals && told.Some? {
            var later := RenewLater();
            commands := [Send(Viewing(told))] + later;
          }
        case Opened =>
          if phase.Connecting? {
            phase := Resuming;
            commands := [Send(Resume(last))];
          }
        case Closed(code) =>
          if phase.Connecting? {
            commands := HandleClosed(code);
            if !phase.SignedOut? {
              commands := commands + [CheckSession];
            }
          } else if phase.Listening() {
            commands := HandleClosed(code);
          }
        case Frame(frame) =>
          if phase.Listening() {
            awaiting := None;
            commands := HandleFrame(frame);
          }
        case Unreadable =>
          if phase.Listening() {
            awaiting := None;
            unreadable := unreadable + 1;
            if unreadable >= UNREADABLE_LIMIT {
              phase := Outdated;
              commands := [Close, AskForReloadedPage];
            } else {
              commands := Resync();
            }
          }
        case _ =>
      }
    }

    method ToConnect() returns (commands: seq<Command>)
      modifies this
      ensures Reaction(State(), commands) == old(State()).ToConnect()
    {
      phase := Connecting;
      awaiting := None;
      commands := [Connect];
    }

    method HandleClosed(code: Option<int>) returns (commands: seq<Command>)
      modifies this
      ensures Reaction(State(), commands) == old(State()).HandleClosed(code)
    {
      if code == Some(CLOSE_SIGNED_OUT) {
        phase := SignedOut;
        return [EndSession];
      }
      if code == Some(CLOSE_PROTOCOL) {
        refusals := refusals + 1;
        if refusals >= UNREADABLE_LIMIT {
          phase := Outdated;
          return [AskForReloadedPage];
        }
      }
      failures := failures + 1;
      var delay := Delay(failures);
      phase := BackingOff(failures, delay);
      commands := [RetryAfter(delay)];
    }

    method Resync() returns (commands: seq<Command>)
      modifies this
      ensures Reaction(State(), commands) == old(State()).Resync()
    {
      var closed := HandleClosed(None);
      commands := [Close] + closed;
    }

    method HandleFrame(frame: ServerFrame) returns (commands: seq<Command>)
      modifies this
      ensures Reaction(State(), commands) == old(State()).HandleFrame(frame)
    {
      commands := [];
      match frame {
        case EventFrame(envelope) =>
          if last.Some? && envelope.number <= last.value {
            return;
          }
          if last.Some? && envelope.number != last.value + 1 {
            commands := Resync();
            return;
          }
          last := Some(envelope.number);
          unreadable := 0;
          if phase.Resuming? {
            phase := Replaying;
          }
          commands := [Apply(envelope)];
        case Live(latest) =>
          if phase.LivePhase? {
            return;
          }
          if last.Some? && last.value < latest {
            commands := Resync();
            return;
          }
          var replaced := last.Some? && last.value > latest;
          last := Some(latest);
          phase := LivePhase;
          failures := 0;
          refusals := 0;
          if !synced || replaced {
            synced := true;
            commands := [Reload];
          }
          told := None;
          var said := SayViewing();
          commands := commands + said;
        case Reset(after) =>
          last := Some(after);
          synced := true;
          if phase.Resuming? {
            phase := Replaying;
          }
          commands := [Reload];
        case Pong =>
      }
    }
  }
}
