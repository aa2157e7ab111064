/**
 The viewing renewals against the gateway's presence table, in time: a live page's Bot
 is shown for as long as the page shows it, and no longer than its statements hold.
 */
module Viewing {
  import opened Protocol
  import opened ConnectionModel
  import opened PresenceModel

  // ---------------------------------------------------------------------
  // The client tells what it shows

  /** The numbers of the renewal timers running. */
  type Timers = map<nat, int>

  /** The timer's renewal would be sent if it ran out now. */
  predicate Counts(c: ConnectionState, renewal: nat) {
    c.phase.LivePhase? && renewal == c.renewals && c.told.Some?
  }

  /** A live connection has told exactly what it shows; only its newest timer counts, and runs. */
  predicate ToldInv(c: ConnectionState, timers: Timers) {
    && (c.phase.LivePhase? ==> c.told == c.Shown())
    && (forall renewal :: renewal in timers ==> renewal <= c.renewals)
    && (c.phase.LivePhase? && c.told.Some? ==> c.renewals in timers)
  }

  /** The timers running after an input's commands, set at this time. */
  function SetTimers(timers: Timers, commands: seq<Command>, now: int): Timers {
    if commands == [] then timers
    else
      var before, last := SetTimers(timers, commands[..|commands| - 1], now), commands[|commands| - 1];
      if last.RenewViewing? then before[last.renewal := now + last.after] else before
  }

  /** A timer that runs out is no longer running. */
  function RunOut(timers: Timers, input: Input): Timers {
    if input.ViewingDue? then timers - {input.renewal} else timers
  }

  // ---------------------------------------------------------------------
  // One input's commands

  predicate SaysNothing(commands: seq<Command>) {
    forall i :: 0 <= i < |commands| ==>
      !commands[i].RenewViewing? && !(commands[i].Send? && commands[i].frame.Viewing?)
  }

  /** One statement among commands that say nothing else; it is renewed unless it is of nothing. */
  predicate SaysOnce(commands: seq<Command>, after: ConnectionState) {
    exists i :: 0 <= i < |commands|
                && commands[i] == Send(Viewing(after.told))
                && SaysNothing(commands[..i])
                && commands[i + 1..]
                   == if after.told.Some? then [RenewViewing(after.renewals, VIEWING_RENEW)] else []
  }

  /** The input says nothing, and what was told stays told, or is forgotten with the socket. */
  predicate Silent(c: ConnectionState, input: Input, after: Reaction) {
    && SaysNothing(after.commands) && after.state.renewals == c.renewals
    && (after.state.phase.LivePhase? && after.state.told.Some? ==>
          c.phase.LivePhase? && input != ViewingDue(c.renewals))
    && (c.phase.LivePhase? && after.state.phase.LivePhase? ==> after.state.told == c.told)
  }

  /** The input says what is shown, once. */
  predicate Speaks(c: ConnectionState, after: Reaction) {
    && SaysOnce(after.commands, after.state) && after.state.phase.LivePhase?
    && after.state.renewals == c.renewals + if after.state.told.Some? then 1 else 0
  }

  /** Every input says what is shown, or leaves it as told; and a live connection has told it. */
  lemma InputSays(c: ConnectionState, input: Input)
    requires c.phase.LivePhase? ==> c.told == c.Shown()
    ensures var after := c.Handle(input);
            && (after.state.phase.LivePhase? ==> after.state.told == after.state.Shown())
            && (Silent(c, input, after) || Speaks(c, after))
  {
    match input {
      case Visible => ViewChangeSays(c, input);
      case Hidden => ViewChangeSays(c, input);
      case View(_) => ViewChangeSays(c, input);
      case Frame(frame) => FrameSays(c, frame);
      case ViewingDue(renewal) => RenewalSays(c, renewal);
      case _ => OthersSayNothing(c, input);
    }
  }

  lemma ViewChangeSays(c: ConnectionState, input: Input)
    requires input.ChangesView()
    ensures var after := c.Handle(input);
            && (after.state.phase.LivePhase? ==> after.state.told == after.state.Shown())
            && (Silent(c, input, after) || Speaks(c, after))
  {
    var noted := c.Note(input).Transition(input);
    ViewChangeNoted(c, input);
    SayingSays(noted.state, noted.commands);
    var said := noted.state.SayViewing();
    assert c.Handle(input) == Reaction(said.state, noted.commands + said.commands);
  }

  lemma ViewChangeNoted(c: ConnectionState, input: Input)
    requires input.ChangesView()
    ensures var noted := c.Note(input).Transition(input);
            && SaysNothing(noted.commands)
            && noted.state.told == c.told && noted.state.renewals == c.renewals
            && (noted.state.phase.LivePhase? ==> c.phase.LivePhase?)
  {
  }

  lemma FrameSays(c: ConnectionState, frame: ServerFrame)
    requires c.phase.LivePhase? ==> c.told == c.Shown()
    ensures var after := c.Handle(Frame(frame));
            && (after.state.phase.LivePhase? ==> after.state.told == after.state.Shown())
            && (Silent(c, Frame(frame), after) || Speaks(c, after))
  {
    if c.phase.Listening() && !c.phase.LivePhase? && frame.Live? {
      LiveSays(c.(awaiting := None), frame.latest);
    }
  }

  lemma RenewalSays(c: ConnectionState, renewal: nat)
    requires c.phase.LivePhase? ==> c.told == c.Shown()
    ensures var after := c.Handle(ViewingDue(renewal));
            && (after.state.phase.LivePhase? ==> after.state.told == after.state.Shown())
            && (Silent(c, ViewingDue(renewal), after) || Speaks(c, after))
  {
    var after := c.Handle(ViewingDue(renewal));
    if after.commands != [] {
      assert after.commands == [Send(Viewing(c.told)), RenewViewing(c.renewals + 1, VIEWING_RENEW)];
      assert after.commands[0] == Send(Viewing(after.state.told)) && after.commands[..0] == [];
      assert after.commands[1..] == [RenewViewing(after.state.renewals, VIEWING_RENEW)];
    }
  }

  lemma OthersSayNothing(c: ConnectionState, input: Input)
    requires c.phase.LivePhase? ==> c.told == c.Shown()
    requires !input.ChangesView() && !input.Frame? && !input.ViewingDue?
    ensures var after := c.Handle(input);
            && (after.state.phase.LivePhase? ==> after.state.told == after.state.Shown())
            && Silent(c, input, after)
  {
    hide Power2, Delay, ConnectionState.HandleFrame, ConnectionState.SayViewing;
  }

  lemma SayingSays(c: ConnectionState, before: seq<Command>)
    requires SaysNothing(before)
    ensures var said := c.SayViewing();
            var commands := before + said.commands;
            && (said.commands == [] ==> commands == before && said.state == c)
            && (said.commands != [] ==>
                  && SaysOnce(commands, said.state)
                  && said.state.renewals == c.renewals + if said.state.told.Some? then 1 else 0)
  {
    var said := c.SayViewing();
    var commands := before + said.commands;
    if said.commands != [] {
      var i := |before|;
      assert commands[i] == Send(Viewing(said.state.told)) && commands[..i] == before;
      assert commands[i + 1..] == said.commands[1..];
    }
  }

  lemma LiveSays(c: ConnectionState, latest: Seq)
    requires !c.phase.LivePhase?
    ensures var after := c.HandleFrame(Live(latest));
            || (SaysNothing(after.commands) && after.state.renewals == c.renewals
                && (after.state.phase.LivePhase? ==> after.state.told.None?))
            || (SaysOnce(after.commands, after.state) && after.state.phase.LivePhase?
                && after.state.renewals == c.renewals + if after.state.told.Some? then 1 else 0)
  {
    if !(c.last.Some? && c.last.value < latest) {
      var live := c.(last := Some(latest), phase := LivePhase, failures := 0, refusals := 0, synced := true,
                    told := None);
      var replaced := c.last.Some? && latest < c.last.value;
      SayingSays(live, if !c.synced || replaced then [Reload] else []);
    }
  }

  // ---------------------------------------------------------------------
  // The client and the table, in time

  /**
   A user's page with its socket, in time. `viewer` is the connection's number at the
   gateway while the socket is live at both ends; `open` holds the connections the gateway
   serves, by number, and whose they are; `own` the user's Bots. The gateway may notice
   the end of the page's socket only later, and hear a frame of it until then.
   */
  datatype Timed = Timed(now: int, c: ConnectionState, timers: Timers, table: Table, viewer: Option<nat>, next: nat,
                         open: map<nat, int>, own: set<BotId>)

  datatype TimedStep =
    | Hear(input: Input)
    | OtherConnects(user: int)
    | OtherSays(id: nat, bot: Option<BotId>)
    | OtherEnds(id: nat)
    | Pass(time: nat)

  /** What the route passes on of a statement: a Bot that is not the user's is none. */
  function Owned(own: set<BotId>, bot: Option<BotId>): Option<BotId> {
    if bot.Some? && bot.value in own then bot else None
  }

  /** The table after the viewing frames among these commands. */
  function Said(table: Table, own: set<BotId>, user: int, id: nat, commands: seq<Command>, now: int): Table {
    if commands == [] then table
    else
      var before, last := Said(table, own, user, id, commands[..|commands| - 1], now), commands[|commands| - 1];
      if last.Send? && last.frame.Viewing? then SetShown(before, user, id, Owned(own, last.frame.bot), now) else before
  }

  /** The connection's number at the gateway: a new one each time it goes live. */
  function ViewerAfter(s: Timed, after: ConnectionState): Option<nat> {
    if !after.phase.LivePhase? then None else if s.c.phase.LivePhase? then s.viewer else Some(s.next)
  }

  /** What a reaction of the page leaves, with these timers running before its own. */
  function Reacted(s: Timed, user: int, after: Reaction, timers: Timers): Timed {
    var viewer := ViewerAfter(s, after.state);
    var connects := viewer.Some? && viewer != s.viewer;
    s.(c := after.state, timers := SetTimers(timers, after.commands, s.now),
       table := if viewer.Some? then Said(s.table, s.own, user, viewer.value, after.commands, s.now) else s.table,
       viewer := viewer, next := if connects then s.next + 1 else s.next,
       open := if connects then s.open[s.next := user] else s.open)
  }

  function Do(s: Timed, user: int, step: TimedStep): Timed {
    match step
    case Hear(input) => Reacted(s, user, s.c.Handle(input), RunOut(s.timers, input))
    case OtherConnects(other) => s.(next := s.next + 1, open := s.open[s.next := other])
    case OtherSays(id, bot) =>
      if id in s.open then s.(table := SetShown(s.table, s.open[id], id, bot, s.now)) else s
    case OtherEnds(id) =>
      if id in s.open then s.(table := SetShown(s.table, s.open[id], id, None, s.now), open := s.open - {id}) else s
    case Pass(time) => s.(now := s.now + time)
  }

  /** Timers run out at their time at the earliest, and at most `slack` late. */
  predicate Allowed(s: Timed, user: int, slack: nat, step: TimedStep) {
    match step
    case Hear(input) => input.ViewingDue? ==> input.renewal in s.timers && s.timers[input.renewal] <= s.now
    case OtherSays(id, _) => id in s.open && s.viewer != Some(id)
    case OtherEnds(id) => id in s.open && s.viewer != Some(id)
    case Pass(time) => forall renewal :: renewal in s.timers ==> s.now + time <= s.timers[renewal] + slack
    case _ => true
  }

  ghost predicate Leads(s: Timed, user: int, slack: nat, steps: seq<TimedStep>, t: Timed)
    decreases |steps|
  {
    if steps == [] then s == t
    else Allowed(s, user, slack, steps[0]) && Leads(Do(s, user, steps[0]), user, slack, steps[1..], t)
  }

  function Begins(now: int, own: set<BotId>): Timed {
    Timed(now, NEW, map[], map[], None, 1, map[], own)
  }

  // ---------------------------------------------------------------------
  // The invariant

  /** What the gateway holds of the live connection is what it told, until after its renewal is due. */
  predicate EntryInv(s: Timed, user: int) {
    s.viewer.Some? ==>
      && (Owned(s.own, s.c.told).None? ==> Entry(s.table, user, s.viewer.value) == None)
      && (Owned(s.own, s.c.told).Some? ==>
            && s.c.renewals in s.timers
            && Entry(s.table, user, s.viewer.value)
               == Some(Shown(s.c.told.value, s.timers[s.c.renewals] - VIEWING_RENEW + VIEWING_EXPIRES)))
  }

  /** Only a connection that is open has said anything. */
  ghost predicate OpenInv(s: Timed, user: int) {
    && (s.viewer.Some? ==> s.viewer.value in s.open && s.open[s.viewer.value] == user)
    && (forall id :: id in s.open ==> id < s.next)
    && (forall id: nat :: Entry(s.table, user, id).Some? ==> id in s.open && s.open[id] == user)
  }

  ghost predicate ViewingInv(s: Timed, user: int, slack: nat) {
    && ToldInv(s.c, s.timers)
    && (s.viewer.Some? <==> s.c.phase.LivePhase?)
    && (forall renewal :: renewal in s.timers ==> s.now <= s.timers[renewal] + slack)
    && EntryInv(s, user) && OpenInv(s, user)
  }

  lemma {:induction false} NothingSaid(table: Table, own: set<BotId>, user: int, id: nat, timers: Timers,
                                       commands: seq<Command>, now: int)
    requires SaysNothing(commands)
    ensures Said(table, own, user, id, commands, now) == table && SetTimers(timers, commands, now) == timers
  {
    if commands != [] {
      NothingSaid(table, own, user, id, timers, commands[..|commands| - 1], now);
    }
  }

  lemma OnceSaid(table: Table, own: set<BotId>, user: int, id: nat, timers: Timers, commands: seq<Command>,
                 after: ConnectionState, now: int)
    requires SaysOnce(commands, after)
    ensures Said(table, own, user, id, commands, now) == SetShown(table, user, id, Owned(own, after.told), now)
    ensures SetTimers(timers, commands, now)
         == if after.told.Some? then timers[after.renewals := now + VIEWING_RENEW] else timers
  {
    var i :| 0 <= i < |commands| && commands[i] == Send(Viewing(after.told)) && SaysNothing(commands[..i])
             && commands[i + 1..] == if after.told.Some? then [RenewViewing(after.renewals, VIEWING_RENEW)] else [];
    hide SetShown, Owned, SaysNothing, SaysOnce;
    var first := commands[..i + 1];
    NothingSaid(table, own, user, id, timers, commands[..i], now);
    assert first[..i] == commands[..i] && first[i] == commands[i];
    if after.told.Some? {
      assert commands[..|commands| - 1] == first;
      assert commands[|commands| - 1] == commands[i + 1..][0];
    } else {
      assert commands == first;
    }
  }

  lemma HearKeepsViewing(s: Timed, user: int, slack: nat, input: Input)
    requires ViewingInv(s, user, slack) && Allowed(s, user, slack, Hear(input))
    ensures ViewingInv(Do(s, user, Hear(input)), user, slack)
  {
    var after := s.c.Handle(input);
    var viewer := ViewerAfter(s, after.state);
    InputSays(s.c, input);
    if Speaks(s.c, after) {
      SpeakingKeepsViewing(s, user, slack, after, RunOut(s.timers, input));
    } else {
      NothingSaid(s.table, s.own, user, if viewer.Some? then viewer.value else 0, RunOut(s.timers, input),
                  after.commands, s.now);
    }
  }

  lemma SpeakingKeepsViewing(s: Timed, user: int, slack: nat, after: Reaction, timers: Timers)
    requires ViewingInv(s, user, slack) && Speaks(s.c, after) && after.state.told == after.state.Shown()
    requires forall renewal :: renewal in timers ==> renewal in s.timers && timers[renewal] == s.timers[renewal]
    ensures ViewingInv(Reacted(s, user, after, timers), user, slack)
  {
    LiveHasViewer(s, user, slack, after.state);
    hide ViewingInv, SaysOnce, Said, SetTimers, SetShown;
    OnceSaid(s.table, s.own, user, ViewerAfter(s, after.state).value, timers, after.commands, after.state, s.now);
    SpokenKeepsViewing(s, user, slack, after.state, timers);
  }

  lemma LiveHasViewer(s: Timed, user: int, slack: nat, after: ConnectionState)
    requires ViewingInv(s, user, slack) && after.phase.LivePhase?
    ensures ViewerAfter(s, after).Some?
  {
  }

  /** The page after it said what it shows. */
  function Spoken(s: Timed, user: int, c: ConnectionState, timers: Timers): Timed
    requires c.phase.LivePhase? && ViewerAfter(s, c).Some?
  {
    var viewer := ViewerAfter(s, c);
    s.(c := c, timers := if c.told.Some? then timers[c.renewals := s.now + VIEWING_RENEW] else timers,
       table := SetShown(s.table, user, viewer.value, Owned(s.own, c.told), s.now), viewer := viewer,
       next := if viewer != s.viewer then s.next + 1 else s.next,
       open := if viewer != s.viewer then s.open[s.next := user] else s.open)
  }

  lemma SpokenKeepsViewing(s: Timed, user: int, slack: nat, c: ConnectionState, timers: Timers)
    requires ViewingInv(s, user, slack) && c.phase.LivePhase? && c.told == c.Shown()
    requires c.renewals == s.c.renewals + if c.told.Some? then 1 else 0
    requires forall renewal :: renewal in timers ==> renewal in s.timers && timers[renewal] == s.timers[renewal]
    ensures ViewingInv(Spoken(s, user, c, timers), user, slack)
  {
    forall key: nat {
      SetShownSets(s.table, user, ViewerAfter(s, c).value, Owned(s.own, c.told), s.now, user, key);
    }
  }

  lemma StepKeepsViewing(s: Timed, user: int, slack: nat, step: TimedStep)
    requires ViewingInv(s, user, slack) && Allowed(s, user, slack, step)
    ensures ViewingInv(Do(s, user, step), user, slack)
  {
    match step {
      case Hear(input) => HearKeepsViewing(s, user, slack, input);
      case OtherSays(id, bot) =>
        forall key: nat {
          SetShownSets(s.table, s.open[id], id, bot, s.now, user, key);
        }
      case OtherEnds(id) =>
        forall key: nat {
          SetShownSets(s.table, s.open[id], id, None, s.now, user, key);
        }
      case _ =>
    }
  }

  lemma {:induction false} EveryRunKeepsViewing(s: Timed, user: int, slack: nat, steps: seq<TimedStep>, t: Timed)
    requires ViewingInv(s, user, slack) && Leads(s, user, slack, steps, t)
    ensures ViewingInv(t, user, slack)
    decreases |steps|
  {
    if steps != [] {
      StepKeepsViewing(s, user, slack, steps[0]);
      EveryRunKeepsViewing(Do(s, user, steps[0]), user, slack, steps[1..], t);
    }
  }

  // ---------------------------------------------------------------------
  // What every run guarantees

  /** No other of the user's connections that are open last said it shows the Bot. */
  ghost predicate NoOtherShows(t: Timed, user: int, bot: BotId) {
    forall id :: id in t.open && t.open[id] == user && t.viewer != Some(id) ==>
        Entry(t.table, user, id).None? || Entry(t.table, user, id).value.bot != bot
  }

  /**
   With renewals late by less than what the expiry leaves, the gateway knows a live page's
   Bot as shown at every moment. Unless another of the user's connections still open said
   so, it knows no other, and none once the page is not live and its socket has ended.
   */
  lemma ShownExactlyWhileShowing(start: int, own: set<BotId>, user: int, slack: nat, steps: seq<TimedStep>, t: Timed,
                                 bot: BotId)
    requires 30_000 + slack < 75_000 && Leads(Begins(start, own), user, slack, steps, t)
    ensures t.c.phase.LivePhase? && t.c.Shown() == Some(bot) && bot in t.own ==> IsShown(t.table, user, bot, t.now)
    ensures NoOtherShows(t, user, bot) ==>
              (IsShown(t.table, user, bot, t.now)
               <==> t.c.phase.LivePhase? && t.c.Shown() == Some(bot) && bot in t.own)
  {
    EveryRunKeepsViewing(Begins(start, own), user, slack, steps, t);
    if t.viewer.Some? && Owned(t.own, t.c.told).Some? {
      assert t.table[user][t.viewer.value].until > t.now;
    }
    if user in t.table {
      forall id | id in t.table[user]
        ensures Entry(t.table, user, id) == Some(t.table[user][id]) && id in t.open && t.open[id] == user
      {
        EntriesAreOpen(t, user, id);
      }
    }
  }

  /** Once every connection of the user's has ended, none of the user's Bots is shown. */
  lemma EndedShowsNothing(start: int, own: set<BotId>, user: int, slack: nat, steps: seq<TimedStep>, t: Timed,
                          bot: BotId)
    requires Leads(Begins(start, own), user, slack, steps, t)
    requires forall id :: id in t.open ==> t.open[id] != user
    ensures !IsShown(t.table, user, bot, t.now)
  {
    EveryRunKeepsViewing(Begins(start, own), user, slack, steps, t);
    if IsShown(t.table, user, bot, t.now) {
      var id :| id in t.table[user] && t.table[user][id].bot == bot;
      EntriesAreOpen(t, user, id);
    }
  }

  lemma EntriesAreOpen(t: Timed, user: int, id: nat)
    requires OpenInv(t, user) && user in t.table && id in t.table[user]
    ensures Entry(t.table, user, id) == Some(t.table[user][id]) && id in t.open && t.open[id] == user
  {
    assert Entry(t.table, user, id).Some?;
  }

  /** In every run, exactly one running timer counts while a live page shows a Bot, and none otherwise. */
  lemma OneRenewalCounts(start: int, own: set<BotId>, user: int, slack: nat, steps: seq<TimedStep>, t: Timed,
                         renewal: nat)
    requires Leads(Begins(start, own), user, slack, steps, t)
    ensures renewal in t.timers && Counts(t.c, renewal)
            <==> t.c.phase.LivePhase? && t.c.Shown().Some? && renewal == t.c.renewals
  {
    EveryRunKeepsViewing(Begins(start, own), user, slack, steps, t);
  }

  // ---------------------------------------------------------------------
  // Lapsing

  /** The step says the user shows the Bot. */
  predicate SaysBot(s: Timed, user: int, step: TimedStep, bot: BotId) {
    match step
    case Hear(input) => Send(Viewing(Some(bot))) in s.c.Handle(input).commands
    case OtherSays(id, said) => id in s.open && s.open[id] == user && said == Some(bot)
    case _ => false
  }

  ghost predicate NeverSaysBot(s: Timed, user: int, steps: seq<TimedStep>, bot: BotId)
    decreases |steps|
  {
    steps == [] || (!SaysBot(s, user, steps[0], bot) && NeverSaysBot(Do(s, user, steps[0]), user, steps[1..], bot))
  }

  ghost predicate HoldsUntil(table: Table, user: int, bot: BotId, end: int) {
    forall id: nat :: var entry := Entry(table, user, id); entry.Some? && entry.value.bot == bot ==>
        entry.value.until <= end
  }

  lemma {:induction false} SayingOthersHolds(table: Table, own: set<BotId>, user: int, id: nat,
                                             commands: seq<Command>, now: int, bot: BotId, end: int)
    requires HoldsUntil(table, user, bot, end) && Send(Viewing(Some(bot))) !in commands
    ensures HoldsUntil(Said(table, own, user, id, commands, now), user, bot, end)
  {
    if commands != [] {
      SayingOthersHolds(table, own, user, id, commands[..|commands| - 1], now, bot, end);
      var last := commands[|commands| - 1];
      assert last in commands;
      if last.Send? && last.frame.Viewing? {
        forall key: nat {
          SetShownSets(Said(table, own, user, id, commands[..|commands| - 1], now), user, id,
                       Owned(own, last.frame.bot), now, user, key);
        }
      }
    }
  }

  lemma {:induction false} SilenceHolds(s: Timed, user: int, slack: nat, steps: seq<TimedStep>, t: Timed, bot: BotId,
                                        end: int)
    requires HoldsUntil(s.table, user, bot, end)
    requires Leads(s, user, slack, steps, t) && NeverSaysBot(s, user, steps, bot)
    ensures HoldsUntil(t.table, user, bot, end)
    decreases |steps|
  {
    if steps != [] {
      if steps[0].Hear? {
        var after := s.c.Handle(steps[0].input);
        var viewer := ViewerAfter(s, after.state);
        if viewer.Some? {
          SayingOthersHolds(s.table, s.own, user, viewer.value, after.commands, s.now, bot, end);
        }
      } else if steps[0].OtherSays? || steps[0].OtherEnds? {
        var id, said := steps[0].id, if steps[0].OtherSays? then steps[0].bot else None;
        forall key: nat {
          SetShownSets(s.table, s.open[id], id, said, s.now, user, key);
        }
      }
      SilenceHolds(Do(s, user, steps[0]), user, slack, steps[1..], t, bot, end);
    }
  }

  /** No statement holds for longer than the expiry from when it is made. */
  ghost predicate Timely(table: Table, user: int, now: int) {
    forall id: nat :: Entry(table, user, id).Some? ==> Entry(table, user, id).value.until <= now + VIEWING_EXPIRES
  }

  lemma {:induction false} SayingIsTimely(table: Table, own: set<BotId>, user: int, id: nat, commands: seq<Command>,
                                          now: int)
    requires Timely(table, user, now)
    ensures Timely(Said(table, own, user, id, commands, now), user, now)
  {
    if commands != [] {
      var before, last := Said(table, own, user, id, commands[..|commands| - 1], now), commands[|commands| - 1];
      SayingIsTimely(table, own, user, id, commands[..|commands| - 1], now);
      if last.Send? && last.frame.Viewing? {
        forall key: nat {
          SetShownSets(before, user, id, Owned(own, last.frame.bot), now, user, key);
        }
      }
    }
  }

  lemma {:induction false} EveryRunIsTimely(s: Timed, user: int, slack: nat, steps: seq<TimedStep>, t: Timed)
    requires Timely(s.table, user, s.now) && Leads(s, user, slack, steps, t)
    ensures Timely(t.table, user, t.now)
    decreases |steps|
  {
    if steps != [] {
      if steps[0].Hear? {
        var after := s.c.Handle(steps[0].input);
        var viewer := ViewerAfter(s, after.state);
        if viewer.Some? {
          SayingIsTimely(s.table, s.own, user, viewer.value, after.commands, s.now);
        }
      } else if steps[0].OtherSays? || steps[0].OtherEnds? {
        var id, said := steps[0].id, if steps[0].OtherSays? then steps[0].bot else None;
        forall key: nat {
          SetShownSets(s.table, s.open[id], id, said, s.now, user, key);
        }
      }
      EveryRunIsTimely(Do(s, user, steps[0]), user, slack, steps[1..], t);
    }
  }

  /** Once no connection has said it shows the Bot for as long as the expiry, it is not shown. */
  lemma SilenceLapses(start: int, own: set<BotId>, user: int, slack: nat, before: seq<TimedStep>, s: Timed,
                      steps: seq<TimedStep>, t: Timed, bot: BotId)
    requires Leads(Begins(start, own), user, slack, before, s) && Leads(s, user, slack, steps, t)
    requires NeverSaysBot(s, user, steps, bot) && s.now + 75_000 <= t.now
    ensures !IsShown(t.table, user, bot, t.now)
  {
    EveryRunIsTimely(Begins(start, own), user, slack, before, s);
    SilenceHolds(s, user, slack, steps, t, bot, s.now + VIEWING_EXPIRES);
    assert forall id :: user in t.table && id in t.table[user] ==> Entry(t.table, user, id) == Some(t.table[user][id]);
  }
}
