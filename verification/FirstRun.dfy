/**
 A whole run: sign in, connect, load the Bot list, open a conversation, and hear a
 message while its page is on its way. It ends settled and caught up, so the convergence
 theorems speak of runs that happen; and it shows, in the whole system, how another Bot's
 message gets into a conversation.
 */
module FirstRun {
  import opened Protocol
  import opened ServerLog
  import opened StoreModel
  import opened Copies
  import opened BotLog
  import opened ConnectionModel
  import opened Driver
  import opened Delivery
  import opened AppModel
  import opened System
  import BotListConvergence
  import LiveClient

  const SOUS: Bot := Bot(7, "Sous-chef", Idle, None, false, None)
  const NOOR: Bot := Bot(8, "Noor", Idle, None, false, None)
  const BOTS: map<BotId, Bot> := map[7 := SOUS, 8 := NOOR]
  const LOG: seq<Event> := [BotCreated(SOUS), BotCreated(NOOR)]

  function Said(speaker: BotId): Message {
    Message(1, speaker, ByBot, "Dinner is at seven", Complete, 0)
  }

  function Extended(speaker: BotId): seq<Event> {
    LOG + [MessageCreated(Said(speaker))]
  }

  ghost predicate Reached(s: SystemState) {
    exists steps :: IsRun(steps) && StateAfter(steps) == s
  }

  lemma StepReaches(s: SystemState, step: Step)
    requires Reached(s) && Allowed(s, step)
    ensures Reached(Do(s, step))
  {
    var steps :| IsRun(steps) && StateAfter(steps) == s;
    assert (steps + [step])[..|steps|] == steps;
    assert IsRun(steps + [step]);
  }

  // ---------------------------------------------------------------------
  // The log

  lemma TwoBots(log: seq<Event>)
    requires LOG <= log
    ensures log[0] == BotCreated(SOUS) && log[1] == BotCreated(NOOR)
    ensures Fold(log, 0) == Fold(log, 1) == Fold(log, 2) == map[]
    ensures FoldList(log, 0) == map[] && FoldList(log, 2) == EntriesOf(BOTS)
  {
    assert log[0] == LOG[0] && log[1] == LOG[1];
    assert FoldList(log, 1) == AdvanceList(map[], log[0]) == map[7 := EntryOf(SOUS)];
    assert FoldList(log, 2) == AdvanceList(FoldList(log, 1), log[1]);
    assert EntriesOf(BOTS) == map[7 := EntryOf(SOUS), 8 := EntryOf(NOOR)];
  }

  lemma BotsFollow(log: seq<Event>)
    requires LOG <= log
    ensures FollowsAt(log, 0) && FollowsAt(log, 1) && ListFollowsAt(log, 0) && ListFollowsAt(log, 1)
  {
    TwoBots(log);
  }

  lemma LogIsWellFormed(speaker: BotId)
    requires speaker in {7, 8}
    ensures WellFormed(LOG) && ListWellFormed(LOG)
    ensures WellFormed(Extended(speaker)) && ListWellFormed(Extended(speaker))
    ensures FoldList(LOG, 2) == EntriesOf(BOTS) && Fold(LOG, 2) == map[]
  {
    var log := Extended(speaker);
    TwoBots(LOG);
    TwoBots(log);
    BotsFollow(LOG);
    BotsFollow(log);
    assert FollowsAt(log, 2) && ListFollowsAt(log, 2);
  }

  // ---------------------------------------------------------------------
  // The states, in order

  const CONNECTED: DriverState := NEW_DRIVER.Handle(Start).Handle(Opened).Handle(Frame(Live(2)))

  /** Signed in, with the list on its way. */
  const SIGNED_IN: SystemState :=
    SystemState(LOG, NEW_DRIVER, [], AppState(true, 1, EMPTY.Request(Bots), {Bots}, {}, None, false),
                None, false, {Sent(1, ListBots, 0)}, 0, false, 0, 0, 0)

  /** Live, with the reload still to be heard. */
  const LIVE: SystemState :=
    SIGNED_IN.(driver := CONNECTED,
               queue := [Posted(LinkUpdate(LinkConnecting), None), Posted(ReloadUpdate, Some(2)),
                         Posted(LinkUpdate(LinkLive), Some(2))])

  /** The reload heard: the list is to be loaded again. */
  const SYNCED: SystemState :=
    LIVE.(queue := [], app := SIGNED_IN.app.(again := {Bots}), position := Some(2), synced := true)

  const LISTED: StoreState := EMPTY.(bots := BOTS, botsUpTo := Some(2))

  /** The list loaded, and loading again. */
  const LISTED_ONCE: SystemState :=
    SYNCED.(app := SYNCED.app.(store := LISTED.Request(Bots), again := {}), wire := {Sent(1, ListBots, 2)},
            listShown := 2)

  const LISTED_TWICE: SystemState :=
    LISTED_ONCE.(app := LISTED_ONCE.app.(store := LISTED, inFlight := {}), wire := {})

  /** Bot 7's conversation on screen, its page on its way. */
  const OPENED: SystemState :=
    LISTED_TWICE.(app := AppState(true, 1, LISTED.Request(Messages(7)), {Messages(7)}, {},
                                  Some(Open(7, false, false, None, 0)), false),
                  wire := {Sent(1, LoadNewest(7), 2)})

  /** Loading one snapshot sends its request, unless it is in flight. */
  lemma LoadingOne(a: AppState, snapshot: Snapshot)
    requires !snapshot.Older?
    ensures a.LoadWhole(snapshot).sent == if snapshot in a.inFlight then {} else {RequestFor(snapshot)}
  {
    if snapshot !in a.inFlight {
      assert {snapshot} - a.inFlight == {snapshot};
    }
  }

  lemma NothingSent(app: AppState, at: nat)
    ensures OnWire(Outcome(app, {}), at) == {}
  {
  }

  lemma OneSent(app: AppState, at: nat, request: Request)
    ensures OnWire(Outcome(app, {request}), at) == {Sent(app.generation, request, Standing(app, at, request))}
  {
  }

  lemma SigningIn()
    ensures Reached(SIGNED_IN)
  {
    LogIsWellFormed(7);
    assert IsRun([]) && StateAfter([]) == START;
    StepReaches(START, EnterSession(LOG));
    var outcome := START.app.SignIn();
    LoadingOne(START.app.NextGeneration(true), Bots);
    assert outcome.app == SIGNED_IN.app;
    OneSent(outcome.app, 0, ListBots);
    assert Do(START, EnterSession(LOG)) == SIGNED_IN;
  }

  // ---------------------------------------------------------------------
  // The socket

  const STARTED: DriverState := NEW_DRIVER.Handle(Start)
  const RESUMING: DriverState := STARTED.Handle(Opened)

  lemma OneCommand(command: Command)
    ensures Updates([command]) == UpdateOf(command)
  {
    assert [command][..0] == [];
  }

  lemma StartPosts()
    ensures Stamped(NEW_DRIVER, Start) == [Posted(LinkUpdate(LinkConnecting), None)]
    ensures STARTED.connection == NEW.(phase := Connecting) && STARTED.link == LinkConnecting && !STARTED.wasLive
  {
    OneCommand(Connect);
  }

  lemma OpenedPosts()
    ensures Stamped(STARTED, Opened) == []
    ensures RESUMING.connection == NEW.(phase := Resuming) && RESUMING.link == LinkConnecting && !RESUMING.wasLive
  {
    StartPosts();
    OneCommand(Send(Resume(None)));
  }

  lemma LivePosts()
    ensures Stamped(RESUMING, Frame(Live(2)))
         == [Posted(ReloadUpdate, Some(2)), Posted(LinkUpdate(LinkLive), Some(2))]
    ensures CONNECTED.connection.phase.LivePhase? && CONNECTED.connection.last == Some(2)
    ensures CONNECTED.link == LinkLive && CONNECTED.wasLive
  {
    OpenedPosts();
    Lives(NEW.(phase := Resuming));
    OneCommand(Reload);
  }

  lemma Lives(c: ConnectionState)
    requires c == NEW.(phase := Resuming)
    ensures c.Handle(Frame(Live(2))) == Reaction(c.(phase := LivePhase, last := Some(2), synced := true), [Reload])
  {
    var live := c.(phase := LivePhase, last := Some(2), synced := true);
    assert live.SayViewing() == live.Quietly();
    assert [Reload] + [] == [Reload];
  }

  const DIALLING: SystemState :=
    SIGNED_IN.(driver := STARTED, queue := [Posted(LinkUpdate(LinkConnecting), None)])
  const ASKING: SystemState := DIALLING.(driver := RESUMING)

  lemma Dialling()
    ensures Reached(DIALLING)
  {
    SigningIn();
    StartPosts();
    Posting(SIGNED_IN, Start, DIALLING);
  }

  lemma Asking()
    ensures Reached(ASKING)
  {
    Dialling();
    OpenedPosts();
    Posting(DIALLING, Opened, ASKING);
  }

  lemma GoingLive()
    ensures Reached(LIVE)
  {
    Asking();
    LivePosts();
    Posting(ASKING, Frame(Live(2)), LIVE);
  }

  lemma Posting(s: SystemState, input: Input, t: SystemState)
    requires Reached(s) && Truthful(s.log, input)
    requires t == s.(driver := s.driver.Handle(input), queue := s.queue + Stamped(s.driver, input))
    ensures Reached(t)
  {
    StepReaches(s, SocketInput(input));
  }

  // ---------------------------------------------------------------------
  // What the application does

  lemma LoadingNone(a: AppState)
    ensures a.LoadAll({}) == a.Quietly()
  {
    var loaded := a.LoadAll({});
    assert a.store.loading + {} == a.store.loading && a.inFlight + {} == a.inFlight;
    assert a.again + {} * a.inFlight == a.again;
    assert loaded.sent == {};
  }

  lemma ActingQuietly(s: SystemState)
    ensures Act(s, s.app.Quietly()) == s
  {
    NothingSent(s.app, At(s.position));
    assert s.wire + {} == s.wire;
  }

  /** An update that changes no snapshot is heard. */
  lemma HearingQuietly(s: SystemState, t: SystemState)
    requires Reached(s) && s.queue != [] && s.app.HearSocket(s.queue[0].update) == s.app.Quietly()
    requires t == Heard(s)
    ensures Reached(t)
  {
    StepReaches(s, HearUpdate);
    ActingQuietly(Heard(s));
  }

  lemma ReloadingList(a: AppState)
    requires a == SIGNED_IN.app
    ensures a.ReloadEverything() == Outcome(a.(again := {Bots}), {})
  {
    assert a.Everything() == {Bots};
    LoadingOne(a, Bots);
    assert a.again + {Bots} * a.inFlight == {Bots};
    assert a.inFlight + {Bots} == a.inFlight && a.store.loading + {Bots} == a.store.loading;
  }

  lemma Syncing()
    ensures Reached(SYNCED)
  {
    hide IsRun, StateAfter;
    GoingLive();
    var s1 := LIVE.(queue := LIVE.queue[1..]);
    HearingQuietly(LIVE, s1);
    StepReaches(s1, HearUpdate);
    ReloadingList(s1.app);
    var s2 := SYNCED.(queue := [Posted(LinkUpdate(LinkLive), Some(2))]);
    NothingSent(s2.app, 2);
    assert s1.queue[1..] == s2.queue;
    assert s1.wire + {} == s2.wire;
    assert Do(s1, HearUpdate) == s2;
    LoadingNone(s2.app);
    assert s2.app.FailedLoads() == {};
    HearingQuietly(s2, SYNCED);
  }

  /** The list comes while nothing is held. */
  lemma TakingList(store: StoreState)
    requires store in {EMPTY.Request(Bots), LISTED.Request(Bots)}
    ensures store.LoadBots(BotList(BOTS, 2)) == Applied(LISTED, {})
  {
    var listing := Listing(BOTS, map[], false);
    assert (map bot | bot in store.newest && bot in BOTS :: store.newest[bot]) == map[];
    assert ReplayBots(store.conversations, listing, 2, []) == listing;
    assert store.loading - {Bots} == {} && store.stale - {Bots} == {};
  }

  lemma ListComes()
    ensures Reached(LISTED_ONCE)
  {
    hide IsRun, StateAfter, WellFormed, ListWellFormed;
    Syncing();
    LogIsWellFormed(7);
    var sent, list := Sent(1, ListBots, 0), BotList(BOTS, 2);
    var step := AnswerBots(sent, Loaded(list), 2);
    StepReaches(SYNCED, step);
    TakingList(SYNCED.app.store);
    var loaded := SYNCED.app.Answered(Bots).(store := LISTED);
    LoadingNone(loaded);
    LoadingOne(loaded, Bots);
    OneSent(LISTED_ONCE.app, 2, ListBots);
    assert SYNCED.app.ReplyBots(Loaded(list)) == Outcome(LISTED_ONCE.app, {ListBots});
    assert Do(SYNCED, step) == LISTED_ONCE;
  }

  lemma ListComesAgain()
    ensures Reached(LISTED_TWICE)
  {
    ListComes();
    LogIsWellFormed(7);
    var sent, list := Sent(1, ListBots, 2), BotList(BOTS, 2);
    var step := AnswerBots(sent, Loaded(list), 2);
    StepReaches(LISTED_ONCE, step);
    TakingList(LISTED_ONCE.app.store);
    LoadingNone(LISTED_TWICE.app);
    assert LISTED_ONCE.app.ReplyBots(Loaded(list)) == LISTED_TWICE.app.Quietly();
    NothingSent(LISTED_TWICE.app, 2);
    assert Do(LISTED_ONCE, step) == LISTED_TWICE;
  }

  lemma OpeningConversation()
    ensures Reached(OPENED)
  {
    hide IsRun, StateAfter;
    ListComesAgain();
    StepReaches(LISTED_TWICE, OpenABot(7));
    LoadingOne(LISTED_TWICE.app.WithOpen(Open(7, false, false, None, 0)), Messages(7));
    OneSent(OPENED.app, 2, LoadNewest(7));
    assert LISTED_TWICE.app.OpenConversation(7) == Outcome(OPENED.app, {LoadNewest(7)});
    assert Do(LISTED_TWICE, OpenABot(7)) == OPENED;
  }

  // ---------------------------------------------------------------------
  // A message while the page is on its way

  function Spoken(speaker: BotId): Envelope {
    Envelope(3, MessageCreated(Said(speaker)))
  }

  function HeldStore(speaker: BotId): StoreState {
    OPENED.app.store.Apply(Spoken(speaker)).store
  }

  function MessageHeard(speaker: BotId): SystemState {
    OPENED.(log := Extended(speaker), driver := CONNECTED.Handle(Frame(EventFrame(Spoken(speaker)))),
            app := OPENED.app.(store := HeldStore(speaker)), position := Some(3), shown := 3, listShown := 3)
  }

  lemma HoldingMessage(speaker: BotId)
    requires speaker in {7, 8}
    ensures var applied := OPENED.app.store.Apply(Spoken(speaker));
            && applied.reload == {} && applied.store.held == [Spoken(speaker)]
            && applied.store.loading == {Messages(7)} && applied.store.stale == {}
            && applied.store.conversations == map[] && applied.store.botsUpTo == Some(2)
  {
    var held := OPENED.app.store.Hold(Spoken(speaker));
    assert held.held == [Spoken(speaker)];
    assert held.ApplyToConversation(Spoken(speaker)) == Applied(held, {});
    assert held.ApplyToBots(Spoken(speaker)).reload == {};
  }

  lemma SpeakingPosts(speaker: BotId)
    ensures Stamped(CONNECTED, Frame(EventFrame(Spoken(speaker)))) == [Posted(EventUpdate(Spoken(speaker)), Some(3))]
    ensures var connection := CONNECTED.Handle(Frame(EventFrame(Spoken(speaker)))).connection;
            connection.phase.LivePhase? && connection.last == Some(3)
  {
    LivePosts();
    OneCommand(Apply(Spoken(speaker)));
  }

  /** The message is committed, and its event waits to be heard. */
  function SpokenTo(speaker: BotId): SystemState {
    OPENED.(log := Extended(speaker), driver := CONNECTED.Handle(Frame(EventFrame(Spoken(speaker)))),
            queue := [Posted(EventUpdate(Spoken(speaker)), Some(3))])
  }

  lemma Speaking(speaker: BotId)
    requires speaker in {7, 8}
    ensures Reached(SpokenTo(speaker))
  {
    hide IsRun, StateAfter, WellFormed, ListWellFormed;
    OpeningConversation();
    LogIsWellFormed(speaker);
    StepReaches(OPENED, Commit([MessageCreated(Said(speaker))]));
    SpeakingPosts(speaker);
    Posting(OPENED.(log := Extended(speaker)), Frame(EventFrame(Spoken(speaker))), SpokenTo(speaker));
  }

  lemma HearingMessage(speaker: BotId)
    requires speaker in {7, 8}
    ensures Reached(MessageHeard(speaker))
  {
    Speaking(speaker);
    StepReaches(SpokenTo(speaker), HearUpdate);
    HoldingMessage(speaker);
    LoadingNone(MessageHeard(speaker).app);
    ActingQuietly(MessageHeard(speaker));
    assert SpokenTo(speaker).app.HearSocket(EventUpdate(Spoken(speaker))) == MessageHeard(speaker).app.Quietly();
    assert Act(Heard(SpokenTo(speaker)), MessageHeard(speaker).app.Quietly())
        == Act(MessageHeard(speaker), MessageHeard(speaker).app.Quietly());
  }

  /** Bot 7's conversation is on screen, settled and caught up like the list, and holds that one message. */
  ghost predicate EndsWith(s: SystemState, speaker: BotId) {
    && IsSettled(s) && s.app.open.value.bot == 7 && BotListConvergence.IsListSettled(s)
    && LiveClient.IsUpToDate(s) && s.driver.connection.last == Some(|s.log|)
    && s.log == Extended(speaker) && At(s.position) == s.pageAt == s.pageTo == |s.log|
    && 7 in s.app.store.conversations
    && s.app.store.conversations[7] == Conversation(2, map[1 := Said(speaker)], None, None)
    && (s.mixed <==> speaker != 7)
  }

  /** Bot 7's page, read before the message was committed. */
  const PAGE: MessagePage := MessagePage(map[], None, 2)
  const PAGE_COMES: Step := AnswerNewest(Sent(1, LoadNewest(7), 2), Loaded(PAGE), 2)

  lemma PageIsAllowed(speaker: BotId)
    requires speaker in {7, 8}
    ensures Allowed(MessageHeard(speaker), PAGE_COMES)
  {
    LogIsWellFormed(speaker);
    FoldOfPrefix(LOG, [MessageCreated(Said(speaker))], 2);
  }

  lemma TakingPage(speaker: BotId, a: AppState)
    requires speaker in {7, 8} && a == MessageHeard(speaker).app
    ensures var replied := a.ReplyMessages(7, Loaded(PAGE)).app;
            && replied.generation == 1 && replied.signedIn && replied.inFlight == {} && !replied.botsError
            && replied.open == Some(Open(7, false, false, None, 0))
            && replied.store.conversations == map[7 := Conversation(2, map[1 := Said(speaker)], None, None)]
  {
    HoldingMessage(speaker);
    assert [Spoken(speaker)][..0] == [];
    assert Replay(map[], 2, [Spoken(speaker)]) == Received(map[1 := Said(speaker)], false);
    var applied := a.store.LoadMessages(7, PAGE);
    assert applied.reload == {};
    var loaded := a.Answered(Messages(7)).(store := applied.store, open := Some(Open(7, false, false, None, 0)));
    LoadingNone(loaded);
    assert loaded.SeekGoto() == loaded.Quietly();
  }

  lemma PageSettles(speaker: BotId)
    requires speaker in {7, 8} && Allowed(MessageHeard(speaker), PAGE_COMES)
    ensures EndsWith(Do(MessageHeard(speaker), PAGE_COMES), speaker)
  {
    hide AnyBringsAnother, Furthest;
    SpeakingPosts(speaker);
    TakingPage(speaker, MessageHeard(speaker).app);
    PageActs(MessageHeard(speaker));
    HoldingMessage(speaker);
    BringsAnother(speaker);
    assert At(Some(3)) == |Extended(speaker)|;
  }

  lemma BringsAnother(speaker: BotId)
    ensures AnyBringsAnother(7, 2, [Spoken(speaker)]) <==> speaker != 7
    ensures Furthest(2, 2, [Spoken(speaker)]) == 3
  {
    assert [Spoken(speaker)][..0] == [];
  }

  /** The page's reply changes the application, and says whether its copy is mixed. */
  lemma PageActs(s: SystemState)
    requires Allowed(s, PAGE_COMES) && s.app.generation == 1 && s.app.OpenBot() == Some(7)
    requires s.app.ReplyMessages(7, Loaded(PAGE)).app.generation == 1
    ensures var t := Do(s, PAGE_COMES);
            && t.app == s.app.ReplyMessages(7, Loaded(PAGE)).app
            && t.log == s.log && t.position == s.position && t.synced == s.synced
            && t.driver == s.driver && t.queue == s.queue
            && t.mixed == AnyBringsAnother(7, 2, s.app.store.held)
            && t.pageAt == Max(At(s.position), 2)
            && t.pageTo == Max(t.pageAt, Furthest(2, 2, s.app.store.held))
  {
  }

  /**
   The run ends so whether Bot 7 or Bot 8 speaks while Bot 7's page is on its way; Bot 8's
   message is then in Bot 7's conversation, and stays when everything has been heard.
   */
  lemma ARunSettles(speaker: BotId)
    requires speaker in {7, 8}
    ensures exists s :: Reached(s) && EndsWith(s, speaker)
  {
    HearingMessage(speaker);
    PageIsAllowed(speaker);
    StepReaches(MessageHeard(speaker), PAGE_COMES);
    PageSettles(speaker);
  }
}
