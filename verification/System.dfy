/**
 The gateway's log, the socket that follows it, the application and the requests
 between them, as one state machine. Every interleaving is a run: events are committed,
 the socket opens, drops, repeats or skips frames and is reset, updates wait to be
 heard, requests are answered late, fail or are answered after a sign-out, and the user
 opens, closes and refreshes conversations.
 */
module System {
  import opened Protocol
  import opened ServerLog
  import opened StoreModel
  import opened Copies
  import opened BotLog
  import opened BotCopies
  import opened ConnectionModel
  import opened Driver
  import opened Delivery
  import opened AppModel

  /** A request on its way, with the position its sender stood at. */
  datatype Sent = Sent(generation: nat, request: Request, floor: nat)

  /**
   `position` is the last event the application heard, or the one its last reload
   announced; `synced` says it has heard a reload since it signed in. `shown` is the
   furthest position the open conversation's pages and events showed it, and `mixed`
   says that its newest page was loaded with another Bot's message events held after it.
   The events held then had told it everything up to `pageAt`, and nothing after `pageTo`.
   `listShown` is the furthest position the Bot list has been shown.
   */
  datatype SystemState = SystemState(
    log: seq<Event>,
    driver: DriverState,
    queue: seq<Posted>,
    app: AppState,
    position: Option<Seq>,
    synced: bool,
    wire: set<Sent>,
    shown: nat,
    mixed: bool,
    pageAt: nat,
    pageTo: nat,
    listShown: nat)

  datatype Step =
    | Commit(events: seq<Event>)
    | SocketInput(input: Input)
    | HearUpdate
    | AnswerBots(sent: Sent, bots: Result<BotList>, p: nat)
    | AnswerNewest(sent: Sent, page: Result<MessagePage>, p: nat)
    | AnswerOlder(sent: Sent, page: Result<MessagePage>, p: nat)
    | OpenABot(bot: BotId)
    | GoBack
    | RefreshOpen
    | RefreshList
    | LoadMore
    | Seek(message: MessageId)
    | LeaveSession
    | EnterSession(log: seq<Event>)

  const START: SystemState := SystemState([], NEW_DRIVER, [], NEW_APP, None, false, {}, 0, false, 0, 0, 0)

  function At(position: Option<Seq>): nat {
    if position.Some? then position.value else 0
  }

  /** Where the client stands when it sends a request: its position, or its copy's page if further. */
  function Standing(app: AppState, at: nat, request: Request): nat {
    match request
    case LoadBefore(bot, _) =>
      if bot in app.store.conversations then Max(at, app.store.conversations[bot].upTo) else at
    case _ => at
  }

  function OnWire(outcome: Outcome, at: nat): set<Sent> {
    set request | request in outcome.sent ::
      Sent(outcome.app.generation, request, Standing(outcome.app, at, request))
  }

  /**
   The application acts. A new session or the end of one starts over: its updates still
   to come belong to another generation, and it opens a socket of its own.
   */
  function Act(s: SystemState, outcome: Outcome): SystemState {
    if outcome.app.generation == s.app.generation
    then s.(app := outcome.app, wire := s.wire + OnWire(outcome, At(s.position)))
    else s.(app := outcome.app, wire := s.wire + OnWire(outcome, 0),
            driver := NEW_DRIVER, queue := [], position := None, synced := false)
  }

  /**
   What may happen. A page is read after its request was sent, so it reflects at least
   where its sender stood; it may show the log at any position from its number on.
   */
  ghost predicate Allowed(s: SystemState, step: Step) {
    match step
    case Commit(events) => WellFormed(s.log + events) && ListWellFormed(s.log + events)
    case SocketInput(input) => Truthful(s.log, input)
    case HearUpdate => s.queue != []
    case AnswerBots(sent, page, p) =>
      && sent in s.wire && sent.request.ListBots?
      && (page.Loaded? && sent.generation == s.app.generation ==>
            sent.floor <= page.page.upTo <= p && ListShows(s.log, page.page, p))
    case AnswerNewest(sent, page, p) =>
      && sent in s.wire && sent.request.LoadNewest?
      && (page.Loaded? && sent.generation == s.app.generation ==>
            && sent.floor <= page.page.upTo <= p
            && ShowsLog(s.log, sent.request.bot, None, page.page, p))
    case AnswerOlder(sent, page, p) =>
      && sent in s.wire && sent.request.LoadBefore?
      && (page.Loaded? && sent.generation == s.app.generation ==>
            && sent.floor <= page.page.upTo <= p
            && ShowsLog(s.log, sent.request.bot, Some(sent.request.before), page.page, p))
    case EnterSession(log) => WellFormed(log) && ListWellFormed(log)
    case _ => s.app.signedIn
  }

  function Heard(s: SystemState): SystemState
    requires s.queue != []
  {
    var post := s.queue[0];
    s.(queue := s.queue[1..],
       position := post.position,
       synced := s.synced || post.update.ReloadUpdate?,
       shown := if post.update.EventUpdate? then Max(s.shown, post.update.envelope.number) else s.shown,
       listShown := if post.update.EventUpdate? then Max(s.listShown, post.update.envelope.number) else s.listShown)
  }

  /** A page that the open conversation takes in sets what its copy has been shown. */
  function Paged(s: SystemState, bot: BotId, page: Result<MessagePage>, p: nat): SystemState {
    if page.Loaded?
    then s.(shown := Furthest(p, page.page.upTo, s.app.store.held),
            mixed := AnyBringsAnother(bot, page.page.upTo, s.app.store.held),
            pageAt := Max(At(s.position), page.page.upTo),
            pageTo := Max(Max(At(s.position), page.page.upTo),
                          Furthest(page.page.upTo, page.page.upTo, s.app.store.held)))
    else s
  }

  function PagedList(s: SystemState, page: Result<BotList>, p: nat): SystemState {
    if page.Loaded? then s.(listShown := Furthest(p, page.page.upTo, s.app.store.held)) else s
  }

  function PagedOlder(s: SystemState, page: Result<MessagePage>, p: nat): SystemState {
    if page.Loaded? then s.(shown := Max(s.shown, Furthest(p, page.page.upTo, s.app.store.held))) else s
  }

  ghost function Do(s: SystemState, step: Step): SystemState
    requires Allowed(s, step)
  {
    match step
    case Commit(events) => s.(log := s.log + events)
    case SocketInput(input) => s.(driver := s.driver.Handle(input), queue := s.queue + Stamped(s.driver, input))
    case HearUpdate => Act(Heard(s), s.app.HearSocket(s.queue[0].update))
    case AnswerBots(sent, bots, p) =>
      var answered := s.(wire := s.wire - {sent});
      if sent.generation == s.app.generation then Act(PagedList(answered, bots, p), s.app.ReplyBots(bots)) else answered
    case AnswerNewest(sent, page, p) =>
      var answered := s.(wire := s.wire - {sent});
      if sent.generation != s.app.generation then answered
      else if s.app.OpenBot() != Some(sent.request.bot) then Act(answered, s.app.ReplyMessages(sent.request.bot, page))
      else Act(Paged(answered, sent.request.bot, page, p), s.app.ReplyMessages(sent.request.bot, page))
    case AnswerOlder(sent, page, p) =>
      var answered := s.(wire := s.wire - {sent});
      if sent.generation != s.app.generation then answered
      else if s.app.OpenBot() != Some(sent.request.bot)
      then Act(answered, s.app.ReplyOlder(sent.request.bot, sent.request.before, page))
      else Act(PagedOlder(answered, page, p), s.app.ReplyOlder(sent.request.bot, sent.request.before, page))
    case OpenABot(bot) => Act(s, s.app.OpenConversation(bot))
    case GoBack => Act(s, s.app.Back())
    case RefreshOpen => Act(s, s.app.Refresh())
    case RefreshList => Act(s, s.app.RefreshBots())
    case LoadMore => Act(s, s.app.LoadOlderAction())
    case Seek(message) => Act(s, s.app.GoTo(message))
    case LeaveSession => Act(s, s.app.SignOut())
    case EnterSession(log) => Act(s.(log := log), s.app.SignIn())
  }

  /** Every step of a run is allowed where it is taken. */
  ghost predicate IsRun(steps: seq<Step>)
    decreases |steps|, 0
  {
    steps == []
    || (IsRun(steps[..|steps| - 1])
        && Allowed(StateAfter(steps[..|steps| - 1]), steps[|steps| - 1]))
  }

  /** The state a run leads to. */
  ghost function StateAfter(steps: seq<Step>): SystemState
    requires IsRun(steps)
    decreases |steps|, 1
  {
    if steps == [] then START else Do(StateAfter(steps[..|steps| - 1]), steps[|steps| - 1])
  }

  // ---------------------------------------------------------------------
  // The invariant

  /** Exactly one request of this generation is on its way for each snapshot in flight. */
  ghost predicate WireInv(wire: set<Sent>, generation: nat, inFlight: set<Snapshot>) {
    && (forall sent :: sent in wire ==> sent.generation <= generation)
    && (forall sent :: sent in wire && sent.generation == generation ==> SnapshotOf(sent.request) in inFlight)
    && (forall snapshot :: snapshot in inFlight ==>
                             exists sent :: sent in wire && sent.generation == generation
                                         && SnapshotOf(sent.request) == snapshot)
    && (forall x, y :: x in wire && y in wire && x.generation == y.generation == generation ==>
                         SnapshotOf(x.request) == SnapshotOf(y.request) ==> x == y)
  }

  /** The conversation on screen is neither loading nor failed, in a session that has been synced. */
  predicate IsSettled(s: SystemState) {
    && s.app.signedIn && s.synced && s.app.open.Some? && !s.app.open.value.error
    && Messages(s.app.open.value.bot) !in s.app.inFlight
  }

  /** A copy is faithful to the log, and holds the Bot's messages alone unless it was mixed. */
  ghost predicate CopyRight(log: seq<Event>, bot: BotId, c: Conversation, shown: nat, mixed: bool, at: nat) {
    && Faithful(log, Scope(bot, c.upTo, c.older, shown), c.messages, Max(at, c.upTo))
    && (OnlyOf(c.messages, bot) <==> !mixed)
  }

  /** The events held are enough for the newest page on its way, unless it will be loaded again. */
  ghost predicate NewestPending(s: SystemState) {
    forall sent :: sent in s.wire && sent.generation == s.app.generation && s.synced
                   && sent.request.LoadNewest? && s.app.OpenBot() == Some(sent.request.bot)
                   && Messages(sent.request.bot) !in s.app.again
                   && Messages(sent.request.bot) !in s.app.store.stale ==>
                     HeldSince(s.app.store.held, sent.floor, At(s.position))
  }

  /** A settled conversation's copy is faithful where the client stands. */
  ghost predicate CopyInv(s: SystemState) {
    IsSettled(s) ==>
      var bot := s.app.open.value.bot;
      && bot in s.app.store.conversations
      && CopyRight(s.log, bot, s.app.store.conversations[bot], s.shown, s.mixed, At(s.position))
  }

  /** An older page on its way answers the copy that asked for it, or none. */
  ghost predicate OlderAnswers(s: SystemState) {
    forall sent :: sent in s.wire && sent.generation == s.app.generation && sent.request.LoadBefore?
                   && sent.request.bot in s.app.store.conversations ==>
                     s.app.store.conversations[sent.request.bot].requestedOlder in {None, Some(sent.request.before)}
  }

  /** The events held are enough for the older page a settled copy waits for. */
  ghost predicate OlderPending(s: SystemState) {
    IsSettled(s) ==>
      forall sent :: sent in s.wire && sent.generation == s.app.generation
                     && sent.request.LoadBefore? && sent.request.bot == s.app.open.value.bot
                     && sent.request.bot in s.app.store.conversations
                     && s.app.store.conversations[sent.request.bot].requestedOlder.Some? ==>
                       && s.app.store.conversations[sent.request.bot].upTo <= sent.floor
                       && (Older(sent.request.bot) !in s.app.store.stale ==>
                             HeldSince(s.app.store.held, sent.floor, At(s.position)))
  }
}
