/**
 What the event connection passes on, against any server: after a position is known,
 every event exactly once and in order, or else a reload that announces a new one.
 */
module Delivery {
  import opened Protocol
  import opened ConnectionModel
  import opened Driver

  /** What every state reached from `NEW` keeps. */
  predicate Valid(c: ConnectionState) {
    && (c.synced ==> c.last.Some?)
    && (c.phase.LivePhase? ==> c.synced)
  }

  /** An update, with the connection's position once it was posted. */
  datatype Posted = Posted(update: SocketUpdate, position: Option<Seq>)

  /** The updates one input posts. Each event names its own position; a reload announces one. */
  function Stamped(d: DriverState, input: Input): seq<Posted> {
    var updates := d.Posts(input);
    seq(|updates|, i requires 0 <= i < |updates| => Posted(updates[i], d.Handle(input).connection.last))
  }

  /** Updates that lead from one position to another without losing or repeating an event. */
  predicate InOrder(from: Option<Seq>, posts: seq<Posted>, to: Option<Seq>)
    decreases |posts|
  {
    if posts == [] then from == to
    else
      && (match posts[0].update
          case EventUpdate(envelope) =>
            && (from.Some? ==> envelope.number == from.value + 1)
            && posts[0].position == Some(envelope.number)
          case ReloadUpdate => posts[0].position.Some?
          case _ => posts[0].position == from)
      && InOrder(posts[0].position, posts[1..], to)
  }

  lemma {:induction false} InOrderThen(a: Option<Seq>, x: seq<Posted>, b: Option<Seq>, y: seq<Posted>, c: Option<Seq>)
    requires InOrder(a, x, b) && InOrder(b, y, c)
    ensures InOrder(a, x + y, c)
    decreases |x|
  {
    if x == [] {
      assert x + y == y;
    } else {
      assert (x + y)[1..] == x[1..] + y;
      InOrderThen(x[0].position, x[1..], b, y, c);
    }
  }

  lemma {:induction false} UpdatesThen(a: seq<Command>, b: seq<Command>)
    ensures Updates(a + b) == Updates(a) + Updates(b)
    decreases |b|
  {
    if b == [] {
      assert a + b == a;
    } else {
      var prefix, last := b[..|b| - 1], b[|b| - 1];
      assert a + b != [] && (a + b)[..|a + b| - 1] == a + prefix && (a + b)[|a + b| - 1] == last;
      UpdatesThen(a, prefix);
      assert Updates(a + b) == Updates(a) + Updates(prefix) + UpdateOf(last);
    }
  }

  /** Commands that pass on no event and ask for no reload. */
  predicate Mute(commands: seq<Command>) {
    forall i :: 0 <= i < |commands| ==> !commands[i].Apply? && !commands[i].Reload?
  }

  predicate Minor(updates: seq<SocketUpdate>) {
    forall i :: 0 <= i < |updates| ==> updates[i].CheckSessionUpdate? || updates[i].SignedOutUpdate?
  }

  lemma {:induction false} MuteCommandsPostMinorUpdates(commands: seq<Command>)
    requires Mute(commands)
    ensures Minor(Updates(commands))
    decreases |commands|
  {
    if commands != [] {
      MuteCommandsPostMinorUpdates(commands[..|commands| - 1]);
    }
  }

  lemma OneThenViewing(command: Command, said: seq<Command>)
    requires |said| <= 2 && forall i :: 0 <= i < |said| ==> said[i].Send? || said[i].RenewViewing?
    ensures Updates([command] + said) == UpdateOf(command)
    ensures Updates(said) == []
  {
    assert [command][..0] == [];
    UpdatesThen([command], said);
    if said != [] {
      assert said[..1][..0] == [];
      assert |said| == 2 ==> said[..|said| - 1] == said[..1];
    }
  }

  /** The position a frame announces with a reload. */
  function Announced(frame: ServerFrame): Option<Seq> {
    match frame
    case Live(latest) => Some(latest)
    case Reset(after) => Some(after)
    case _ => None
  }

  /**
   One reaction passes on at most one event, the next one, or asks for one reload at a
   position the server announced, and moves the position only so. Only with the reload
   does the connection come to count as synced.
   */
  predicate Delivers(c: ConnectionState, input: Input, after: Reaction) {
    var updates := Updates(after.commands);
    || (after.state.last == c.last && after.state.synced == c.synced && Minor(updates))
    || (&& input.Frame? && input.frame.EventFrame?
        && updates == [EventUpdate(input.frame.envelope)]
        && after.state.last == Some(input.frame.envelope.number)
        && after.state.synced == c.synced
        && (c.last.Some? ==> input.frame.envelope.number == c.last.value + 1))
    || (&& input.Frame? && Announced(input.frame).Some?
        && updates == [ReloadUpdate]
        && after.state.last == Announced(input.frame) && after.state.synced)
  }

  lemma LiveDelivers(c: ConnectionState, latest: Seq)
    requires Valid(c)
    ensures Valid(c.HandleFrame(Live(latest)).state)
    ensures Delivers(c, Frame(Live(latest)), c.HandleFrame(Live(latest)))
  {
    var after := c.HandleFrame(Live(latest));
    if after.commands != [] && after.commands[0].Reload? {
      var said := after.commands[1..];
      assert after.commands == [Reload] + said;
      OneThenViewing(Reload, said);
    } else {
      assert Mute(after.commands);
      MuteCommandsPostMinorUpdates(after.commands);
    }
  }

  lemma FrameDelivers(c: ConnectionState, frame: ServerFrame)
    requires Valid(c)
    ensures Valid(c.HandleFrame(frame).state) && Delivers(c, Frame(frame), c.HandleFrame(frame))
  {
    var after := c.HandleFrame(frame);
    match frame {
      case EventFrame(envelope) =>
        OneThenViewing(Apply(envelope), []);
        if after.commands == [Apply(envelope)] {
          assert after.commands == [Apply(envelope)] + [];
        } else {
          MuteCommandsPostMinorUpdates(after.commands);
        }
      case Live(latest) =>
        LiveDelivers(c, latest);
      case Reset(_) =>
        OneThenViewing(Reload, []);
        assert after.commands == [Reload] + [];
      case Pong =>
    }
  }

  lemma OtherInputsDeliverNothing(c: ConnectionState, input: Input)
    requires Valid(c) && !input.Frame?
    ensures var after := c.Transition(input);
            Valid(after.state) && after.state.last == c.last && after.state.synced == c.synced && Mute(after.commands)
  {
  }

  lemma OneInputDelivers(c: ConnectionState, input: Input)
    requires Valid(c)
    ensures Valid(c.Handle(input).state) && Delivers(c, input, c.Handle(input))
  {
    var noted := c.Note(input);
    if input.Frame? {
      if noted.phase.Listening() {
        FrameDelivers(noted.(awaiting := None), input.frame);
      } else {
        MuteCommandsPostMinorUpdates([]);
      }
    } else {
      OtherInputsDeliverNothing(noted, input);
      MuteCommandsPostMinorUpdates(c.Handle(input).commands);
    }
  }

  // ---------------------------------------------------------------------
  // Whole runs

  lemma {:induction false} MinorPostsAreInOrder(posts: seq<Posted>, at: Option<Seq>)
    requires forall i :: 0 <= i < |posts| ==>
               !posts[i].update.EventUpdate? && !posts[i].update.ReloadUpdate? && posts[i].position == at
    ensures InOrder(at, posts, at)
    decreases |posts|
  {
    if posts != [] {
      MinorPostsAreInOrder(posts[1..], at);
    }
  }

  /** The updates of one input continue from where the connection stood. */
  lemma StampedInOrder(d: DriverState, input: Input)
    requires Valid(d.connection)
    ensures Valid(d.Handle(input).connection)
    ensures InOrder(d.connection.last, Stamped(d, input), d.Handle(input).connection.last)
  {
    OneInputDelivers(d.connection, input);
    var posts, at := Stamped(d, input), d.Handle(input).connection.last;
    var updates := Updates(d.connection.Handle(input).commands);
    if d.connection.last == at && Minor(updates) {
      forall i | 0 <= i < |posts|
        ensures !posts[i].update.EventUpdate? && !posts[i].update.ReloadUpdate?
      {
        assert i < |updates| ==> posts[i].update == updates[i];
      }
      MinorPostsAreInOrder(posts, at);
    } else {
      assert posts[0].update == updates[0];
      MinorPostsAreInOrder(posts[1..], at);
    }
  }

  /** The driver after a run of inputs, from a new sign-in on. */
  function After(inputs: seq<Input>): DriverState {
    if inputs == [] then NEW_DRIVER else After(inputs[..|inputs| - 1]).Handle(inputs[|inputs| - 1])
  }

  /** All the updates a run of inputs posts. */
  function Posts(inputs: seq<Input>): seq<Posted> {
    if inputs == [] then []
    else Posts(inputs[..|inputs| - 1]) + Stamped(After(inputs[..|inputs| - 1]), inputs[|inputs| - 1])
  }

  /** The application was asked to load its snapshots. */
  ghost predicate AsksForSnapshots(posts: seq<Posted>) {
    exists i :: 0 <= i < |posts| && posts[i].update.ReloadUpdate?
  }

  lemma SyncingAsks(d: DriverState, input: Input)
    requires Valid(d.connection) && !d.connection.synced && d.Handle(input).connection.synced
    ensures AsksForSnapshots(Stamped(d, input))
  {
    OneInputDelivers(d.connection, input);
    assert Updates(d.connection.Handle(input).commands) == [ReloadUpdate];
    assert d.Posts(input)[0] == ReloadUpdate;
    assert Stamped(d, input)[0].update.ReloadUpdate?;
  }

  lemma AsksThen(x: seq<Posted>, y: seq<Posted>)
    requires AsksForSnapshots(x) || AsksForSnapshots(y)
    ensures AsksForSnapshots(x + y)
  {
    if AsksForSnapshots(x) {
      var i :| 0 <= i < |x| && x[i].update.ReloadUpdate?;
      assert (x + y)[i].update.ReloadUpdate?;
    } else {
      var i :| 0 <= i < |y| && y[i].update.ReloadUpdate?;
      assert (x + y)[|x| + i].update.ReloadUpdate?;
    }
  }

  /**
   Against any server: over every run of inputs, the application hears each event after
   a known position exactly once and in order, unless a reload announces a new position;
   and a live connection has asked it to load its snapshots.
   */
  lemma {:induction false} EveryRunDeliversInOrder(inputs: seq<Input>)
    ensures Valid(After(inputs).connection)
    ensures InOrder(None, Posts(inputs), After(inputs).connection.last)
    ensures After(inputs).connection.synced ==> AsksForSnapshots(Posts(inputs))
    ensures After(inputs).connection.phase.LivePhase? ==> AsksForSnapshots(Posts(inputs))
    decreases |inputs|
  {
    if inputs != [] {
      var before, input := inputs[..|inputs| - 1], inputs[|inputs| - 1];
      EveryRunDeliversInOrder(before);
      StampedInOrder(After(before), input);
      InOrderThen(None, Posts(before), After(before).connection.last,
                  Stamped(After(before), input), After(inputs).connection.last);
      if After(inputs).connection.synced {
        if !After(before).connection.synced {
          SyncingAsks(After(before), input);
        }
        AsksThen(Posts(before), Stamped(After(before), input));
      }
    }
  }

  /** Every request to resume names the connection's position, so nothing is skipped or replayed twice. */
  lemma ResumesFromItsPosition(c: ConnectionState, input: Input, i: nat)
    requires i < |c.Handle(input).commands| && c.Handle(input).commands[i].Send?
    requires c.Handle(input).commands[i].frame.Resume?
    ensures c.Handle(input).commands[i] == Send(Resume(c.last)) && c.phase.Connecting? && input.Opened?
  {
    var noted := c.Note(input).Transition(input);
    if !input.Opened? || !c.phase.Connecting? {
      OthersNeverResume(c.Note(input), input);
      SayingNeverResumes(noted.state);
    }
  }

  predicate NeverResumes(commands: seq<Command>) {
    forall i :: 0 <= i < |commands| ==> !(commands[i].Send? && commands[i].frame.Resume?)
  }

  lemma SayingNeverResumes(c: ConnectionState)
    ensures NeverResumes(c.SayViewing().commands)
  {
  }

  lemma FramesNeverResume(c: ConnectionState, frame: ServerFrame)
    ensures NeverResumes(c.HandleFrame(frame).commands)
  {
    match frame {
      case Live(latest) => SayingNeverResumes(c.(last := Some(latest), phase := LivePhase, failures := 0,
                                                 refusals := 0, synced := true, told := None));
      case _ =>
    }
  }

  lemma OthersNeverResume(c: ConnectionState, input: Input)
    requires !input.Opened? || !c.phase.Connecting?
    ensures NeverResumes(c.Transition(input).commands)
  {
    if input.Frame? {
      FramesNeverResume(c.(awaiting := None), input.frame);
    }
  }

  // ---------------------------------------------------------------------
  // A truthful server

  /**
   The server sends anything, but an event frame numbered n carries event n of the log,
   and a position it names is one the log has reached.
   */
  predicate Truthful(log: seq<Event>, input: Input) {
    input.Frame? ==>
      match input.frame
      case EventFrame(envelope) => 0 < envelope.number <= |log| && envelope.event == log[envelope.number - 1]
      case Live(latest) => latest <= |log|
      case Reset(after) => after <= |log|
      case Pong => true
  }

  /** Every post names an event of the log, or a position within it. */
  predicate PostsOfLog(log: seq<Event>, posts: seq<Posted>) {
    forall i :: 0 <= i < |posts| ==>
                  && (posts[i].position.Some? ==> posts[i].position.value <= |log|)
                  && (posts[i].update.EventUpdate? ==>
                        var envelope := posts[i].update.envelope;
                        0 < envelope.number <= |log| && envelope.event == log[envelope.number - 1])
  }

  lemma TruthfulInputPosts(log: seq<Event>, d: DriverState, input: Input)
    requires Valid(d.connection) && Truthful(log, input)
    requires d.connection.last.Some? ==> d.connection.last.value <= |log|
    ensures PostsOfLog(log, Stamped(d, input))
    ensures d.Handle(input).connection.last.Some? ==> d.Handle(input).connection.last.value <= |log|
  {
    OneInputDelivers(d.connection, input);
    var updates := Updates(d.connection.Handle(input).commands);
    forall i | 0 <= i < |d.Posts(input)| && d.Posts(input)[i].EventUpdate?
      ensures input.Frame? && input.frame.EventFrame? && d.Posts(input)[i].envelope == input.frame.envelope
    {
      assert i < |updates| ==> d.Posts(input)[i] == updates[i];
    }
  }
}
