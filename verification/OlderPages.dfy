/**
 Pages of older messages: what one changes, and that it meets only the copy and cursor
 it was requested for.
 */
module OlderPages {
  import opened Protocol
  import opened ServerLog
  import opened StoreModel
  import opened Copies
  import opened Driver
  import opened Delivery
  import opened AppModel
  import opened AppProofs
  import opened System
  import opened Convergence

  /**
   An older page changes no message held and no other conversation. It is dropped unless
   the copy waits for it, and asked for again if it cannot be brought up to date; else it
   adds only earlier messages, of that Bot and on the page.
   */
  lemma OlderPageOnlyAddsEarlier(s: StoreState, bot: BotId, before: MessageId, page: MessagePage, id: MessageId)
    ensures var applied := s.LoadOlder(bot, before, page);
            var after := applied.store.conversations;
            && after.Keys == s.conversations.Keys
            && (forall other :: other in s.conversations && other != bot ==> after[other] == s.conversations[other])
            && (!WaitsFor(s, bot, before) ==> after == s.conversations && applied.reload == {})
            && (WaitsFor(s, bot, before) ==>
                  var c, d := s.conversations[bot], after[bot];
                  && d.upTo == c.upTo && d.requestedOlder == None
                  && (id in c.messages ==> id in d.messages && d.messages[id] == c.messages[id])
                  && (id in d.messages && id !in c.messages ==>
                        id < before && id in page.messages && page.messages[id].bot == bot && d.older == page.older)
                  && (Older(bot) in applied.reload ==> d == c.(requestedOlder := None))
                  && (Older(bot) !in applied.reload ==>
                        && d.older == page.older
                        && (id in page.messages && page.messages[id].bot == bot && id < before ==> id in d.messages)))
            && (Older(bot) in s.stale && WaitsFor(s, bot, before) ==> Older(bot) in applied.reload)
  {
    if WaitsFor(s, bot, before) {
      ReplayOlderKeepsIds(s.Earlier(bot, before, page), page.upTo, s.held);
    }
  }

  /** An event already due finds the message of an older page that it is about as far along. */
  lemma DueEventIsPlacedOlder(log: seq<Event>, earlier: MessageMap, k: nat, top: nat, j: nat)
    requires WellFormed(log) && AllShown(log, earlier, k, top) && 0 < j <= |log| && j <= k + 1
    ensures !ReceiveOlder(earlier, log[j - 1]).incomplete
  {
    var event := log[j - 1];
    if event.MessageDelta? && event.messageId in earlier {
      var id := event.messageId;
      var q :| k <= q <= top && ShownAt(log, q, earlier[id]);
      var q' := HeldMessageAfter(log, earlier, id, q, j);
    }
  }

  lemma {:induction false} OlderReplayIsComplete(log: seq<Event>, earlier: MessageMap, upTo: nat, p: nat,
                                                 events: seq<Envelope>)
    requires WellFormed(log) && FromLog(log, events) && Gapless(upTo, events)
    requires upTo <= p && AllShown(log, earlier, p, p)
    ensures !ReplayOlder(earlier, upTo, events).incomplete
    decreases |events|
  {
    hide AllShown, WellFormed, ReceiveOlder;
    if events != [] {
      var before, last := events[..|events| - 1], events[|events| - 1];
      OlderReplayIsComplete(log, earlier, upTo, p, before);
      if upTo < last.number {
        ReplayOlderKeepsShown(log, earlier, upTo, p, before);
        DueEventIsPlacedOlder(log, ReplayOlder(earlier, upTo, before).messages, Reached(upTo, before),
                              Furthest(p, upTo, before), last.number);
      }
    }
  }

  /**
   An older page of the log that the copy waits for, with gapless events held, joins it and
   is not asked for again.
   */
  lemma AwaitedPageJoins(log: seq<Event>, s: StoreState, bot: BotId, before: MessageId, page: MessagePage, p: nat)
    requires WellFormed(log) && ShowsLog(log, bot, Some(before), page, p) && page.upTo <= p
    requires FromLog(log, s.held) && Gapless(page.upTo, s.held)
    requires WaitsFor(s, bot, before) && Older(bot) !in s.stale
    ensures var applied := s.LoadOlder(bot, before, page);
            && applied.reload == {} && bot in applied.store.conversations
            && var c := applied.store.conversations[bot];
               c.older == page.older && c.messages.Keys == s.conversations[bot].messages.Keys + page.messages.Keys
  {
    var earlier := s.Earlier(bot, before, page);
    forall id | id in page.messages
      ensures page.messages[id].bot == bot && id < before
    {
      assert ShownAt(log, p, page.messages[id]);
    }
    assert AllShown(log, earlier, p, p);
    OlderReplayIsComplete(log, earlier, page.upTo, p, s.held);
    ReplayOlderKeepsIds(earlier, page.upTo, s.held);
  }

  // ---------------------------------------------------------------------
  // Only the copy that asked

  /** If the copy still waits, it is the one that waited before: the same page, cursor and wait. */
  ghost predicate SameWait(s: StoreState, t: StoreState, bot: BotId) {
    bot in t.conversations && t.conversations[bot].requestedOlder.Some? ==>
      && bot in s.conversations
      && t.conversations[bot].requestedOlder == s.conversations[bot].requestedOlder
      && t.conversations[bot].older == s.conversations[bot].older
      && t.conversations[bot].upTo == s.conversations[bot].upTo
      && s.conversations[bot].messages.Keys <= t.conversations[bot].messages.Keys
  }

  lemma LoadingKeepsWait(a: AppState, outcome: Outcome, bot: BotId)
    requires LoadsMore(a, outcome) && Older(bot) in a.inFlight
    ensures SameWait(a.store, outcome.app.store, bot)
  {
  }

  lemma SameWaitThen(s: StoreState, t: StoreState, u: StoreState, bot: BotId)
    requires SameWait(s, t, bot) && SameWait(t, u, bot)
    ensures SameWait(s, u, bot)
  {
  }

  lemma EventKeepsWait(a: AppState, envelope: Envelope, bot: BotId)
    requires AppInv(a) && a.signedIn && Older(bot) in a.inFlight
    ensures SameWait(a.store, a.HearSocket(EventUpdate(envelope)).app.store, bot)
  {
    var applied := a.(store := EventIn(a.store, envelope));
    var heard := a.HearSocket(EventUpdate(envelope));
    assert LoadsMore(applied, heard) by {
      var reload := EventReloads(a, envelope);
    }
    LoadingKeepsWait(applied, heard, bot);
    EventKeepsKeys(a.store, envelope, bot);
    SameWaitThen(a.store, applied.store, heard.app.store, bot);
  }

  lemma EventKeepsKeys(s: StoreState, envelope: Envelope, bot: BotId)
    ensures SameWait(s, EventIn(s, envelope), bot)
  {
    EventInStore(s, envelope);
    if bot in s.conversations {
      var c := s.conversations[bot];
      assert c.messages.Keys <= Receive(c.messages, envelope.event).messages.Keys;
    }
  }

  lemma HearingKeepsWait(a: AppState, update: SocketUpdate, bot: BotId)
    requires AppInv(a) && a.signedIn && Older(bot) in a.inFlight && !update.SignedOutUpdate?
    ensures SameWait(a.store, a.HearSocket(update).app.store, bot)
  {
    match update {
      case EventUpdate(envelope) => EventKeepsWait(a, envelope, bot);
      case ReloadUpdate =>
        LoadAllLoadsMore(a, a.Everything());
        LoadingKeepsWait(a, a.ReloadEverything(), bot);
      case LinkUpdate(link) =>
        LoadAllLoadsMore(a, a.FailedLoads());
        LoadingKeepsWait(a, a.LoadAll(a.FailedLoads()), bot);
      case _ =>
    }
  }

  lemma ListKeepsWait(a: AppState, bots: Result<BotList>, bot: BotId)
    requires AppInv(a) && a.signedIn && Bots in a.inFlight && Older(bot) in a.inFlight && !bots.Unauthenticated?
    ensures SameWait(a.store, a.ReplyBots(bots).app.store, bot)
  {
    match bots {
      case Loaded(page) =>
        var shown := ListShown(a, page);
        ListLoadsMore(a, page);
        ListShownKeepsWait(a, page, bot);
        LoadingKeepsWait(shown, a.ReplyBots(bots), bot);
        SameWaitThen(a.store, shown.store, a.ReplyBots(bots).app.store, bot);
      case NotLoaded => FailedListKeepsWait(a, bot);
    }
  }

  lemma ListLoadsMore(a: AppState, page: BotList)
    requires AppInv(a) && a.signedIn && Bots in a.inFlight
    ensures LoadsMore(ListShown(a, page), a.ReplyBots(Loaded(page)))
  {
    var shown := ListShown(a, page);
    ListSteps(a, page);
    LoadAllLoadsMore(shown, ReloadsOfList(a.store, page));
    ThenAgainLoadsMore(shown, shown.LoadAll(ReloadsOfList(a.store, page)), Bots in a.again, Bots);
  }

  lemma ListShownKeepsWait(a: AppState, page: BotList, bot: BotId)
    ensures SameWait(a.store, ListShown(a, page).store, bot) && ListShown(a, page).inFlight == a.inFlight - {Bots}
  {
  }

  lemma FailedListKeepsWait(a: AppState, bot: BotId)
    ensures SameWait(a.store, a.ReplyBots(NotLoaded).app.store, bot)
  {
  }

  lemma NewestKeepsWait(a: AppState, other: BotId, page: Result<MessagePage>, bot: BotId)
    requires AppInv(a) && a.signedIn && Messages(other) in a.inFlight && Older(bot) in a.inFlight
    requires a.ReplyMessages(other, page).app.generation == a.generation
    ensures SameWait(a.store, a.ReplyMessages(other, page).app.store, bot)
  {
    if a.OpenBot() == Some(other) && page.Loaded? {
      NewestReplyLoadsMore(a, other, page.page);
      var shown := PageShown(a, other, page.page);
      LoadingKeepsWait(shown, a.ReplyMessages(other, page), bot);
      assert SameWait(a.store, shown.store, bot);
    }
  }

  /** An older page of another conversation cannot be one that is open. */
  lemma OtherOlderKeepsWait(a: AppState, other: BotId, before: MessageId, page: Result<MessagePage>, bot: BotId)
    requires AppInv(a) && a.signedIn && Older(other) in a.inFlight && Older(bot) in a.inFlight && other != bot
    requires AnswersCopy(a.store, other, before)
    requires a.ReplyOlder(other, before, page).app.generation == a.generation
    ensures SameWait(a.store, a.ReplyOlder(other, before, page).app.store, bot)
  {
    if a.OpenBot() == Some(other) {
      if page.Loaded? {
        OlderReplyLoadsMore(a, other, before, page.page);
      }
      assert forall b :: b in a.ReplyOlder(other, before, page).app.store.conversations ==> b == other;
    }
  }

  lemma ActionsKeepWait(a: AppState, other: BotId, bot: BotId)
    requires AppInv(a) && a.signedIn && Older(bot) in a.inFlight
    ensures SameWait(a.store, a.OpenConversation(other).app.store, bot)
    ensures SameWait(a.store, a.Back().app.store, bot)
    ensures SameWait(a.store, a.Refresh().app.store, bot)
    ensures SameWait(a.store, a.RefreshBots().app.store, bot)
  {
  }

  lemma LoadingMoreKeepsWait(a: AppState, message: MessageId, bot: BotId)
    requires AppInv(a) && a.signedIn && Older(bot) in a.inFlight
    ensures SameWait(a.store, a.LoadOlderAction().app.store, bot)
    ensures SameWait(a.store, a.GoTo(message).app.store, bot)
  {
    if a.open.Some? {
      var cleared := a.WithOpen(a.open.value.(olderError := false));
      assert AppInv(cleared);
      LoadOlderLoadsMore(cleared, a.open.value.bot);
      LoadingKeepsWait(cleared, a.LoadOlderAction(), bot);
      var sought := a.WithOpen(a.open.value.(goto := Some(message), gotoPages := 0));
      assert AppInv(sought);
      SeekLoadsMore(sought);
      LoadingKeepsWait(sought, a.GoTo(message), bot);
    }
  }

  predicate AnswersIt(step: Step, sent: Sent) {
    step.AnswerOlder? && step.sent == sent
  }

  // ---------------------------------------------------------------------
  // Requests on their way, and sessions

  lemma ActKeepsWire(s: SystemState, outcome: Outcome)
    ensures s.wire <= Act(s, outcome).wire
  {
  }

  /** A request for an older page stays on its way until it is answered. */
  lemma SentStays(s: SystemState, step: Step, sent: Sent)
    requires Allowed(s, step) && sent in s.wire && sent.request.LoadBefore? && !AnswersIt(step, sent)
    ensures sent in Do(s, step).wire
  {
    match step {
      case HearUpdate => ActKeepsWire(Heard(s), s.app.HearSocket(s.queue[0].update));
      case AnswerBots(other, bots, p) =>
        var answered := s.(wire := s.wire - {other});
        assert sent in answered.wire;
        ActKeepsWire(PagedList(answered, bots, p), s.app.ReplyBots(bots));
      case AnswerNewest(other, page, p) =>
        var answered := s.(wire := s.wire - {other});
        assert sent in answered.wire;
        ActKeepsWire(answered, s.app.ReplyMessages(other.request.bot, page));
        ActKeepsWire(Paged(answered, other.request.bot, page, p), s.app.ReplyMessages(other.request.bot, page));
      case AnswerOlder(other, page, p) =>
        var answered := s.(wire := s.wire - {other});
        assert sent in answered.wire;
        ActKeepsWire(answered, s.app.ReplyOlder(other.request.bot, other.request.before, page));
        ActKeepsWire(PagedOlder(answered, page, p), s.app.ReplyOlder(other.request.bot, other.request.before, page));
      case OpenABot(bot) => ActKeepsWire(s, s.app.OpenConversation(bot));
      case GoBack => ActKeepsWire(s, s.app.Back());
      case RefreshOpen => ActKeepsWire(s, s.app.Refresh());
      case RefreshList => ActKeepsWire(s, s.app.RefreshBots());
      case LoadMore => ActKeepsWire(s, s.app.LoadOlderAction());
      case Seek(message) => ActKeepsWire(s, s.app.GoTo(message));
      case LeaveSession => ActKeepsWire(s, s.app.SignOut());
      case EnterSession(log) => ActKeepsWire(s.(log := log), s.app.SignIn());
      case _ =>
    }
  }

  /** What a step makes the application do, if anything. */
  ghost function Outcomes(s: SystemState, step: Step): AppState
    requires Allowed(s, step)
  {
    match step
    case HearUpdate => s.app.HearSocket(s.queue[0].update).app
    case AnswerBots(sent, bots, _) =>
      if sent.generation == s.app.generation then s.app.ReplyBots(bots).app else s.app
    case AnswerNewest(sent, page, _) =>
      if sent.generation == s.app.generation then s.app.ReplyMessages(sent.request.bot, page).app else s.app
    case AnswerOlder(sent, page, _) =>
      if sent.generation == s.app.generation
      then s.app.ReplyOlder(sent.request.bot, sent.request.before, page).app else s.app
    case OpenABot(bot) => s.app.OpenConversation(bot).app
    case GoBack => s.app.Back().app
    case RefreshOpen => s.app.Refresh().app
    case RefreshList => s.app.RefreshBots().app
    case LoadMore => s.app.LoadOlderAction().app
    case Seek(message) => s.app.GoTo(message).app
    case LeaveSession => s.app.SignOut().app
    case EnterSession(_) => s.app.SignIn().app
    case _ => s.app
  }

  lemma OutcomesAre(s: SystemState, step: Step)
    requires Allowed(s, step)
    ensures Do(s, step).app == Outcomes(s, step)
  {
    hide Allowed, AppState.HearSocket, AppState.ReplyBots, AppState.ReplyMessages, AppState.ReplyOlder;
    hide AppState.SeekGoto, AppState.LoadAll, AppState.LoadOlderPage, AppState.CloseOpen;
  }

  /** The same session goes on, or the next one begins. */
  predicate GoesOnFrom(a: AppState, b: AppState) {
    b.generation == a.generation || b.generation == a.generation + 1
  }

  lemma SeekGoesOn(a: AppState)
    ensures a.SeekGoto().app.generation == a.generation
  {
  }

  lemma RepliesGoOn(a: AppState, bots: Result<BotList>, bot: BotId, before: MessageId, page: Result<MessagePage>)
    ensures GoesOnFrom(a, a.ReplyBots(bots).app)
    ensures GoesOnFrom(a, a.ReplyMessages(bot, page).app)
    ensures GoesOnFrom(a, a.ReplyOlder(bot, before, page).app)
  {
    if page.Loaded? && a.OpenBot() == Some(bot) {
      var answered := a.Answered(Messages(bot));
      var applied := a.store.LoadMessages(bot, page.page);
      SeekGoesOn(answered.(store := applied.store, open := Some(a.open.value.(error := false, olderError := false)))
                         .LoadAll(applied.reload).app);
      OlderReplyGoesOn(a, bot, before, page.page);
    }
  }

  lemma OlderReplyGoesOn(a: AppState, bot: BotId, before: MessageId, page: MessagePage)
    ensures GoesOnFrom(a, a.ReplyOlder(bot, before, Loaded(page)).app)
  {
    if a.OpenBot() == Some(bot) {
      var applied := a.store.LoadOlder(bot, before, page);
      var merged := a.(inFlight := a.inFlight - {Older(bot)}, store := applied.store,
                       open := Some(a.open.value.(olderError := false)));
      SeekGoesOn(merged);
      SeekGoesOn(merged.LoadOlderPage(bot).app);
    }
  }

  lemma ActionsGoOn(a: AppState, update: SocketUpdate, bot: BotId, message: MessageId)
    ensures GoesOnFrom(a, a.HearSocket(update).app)
    ensures GoesOnFrom(a, a.OpenConversation(bot).app) && GoesOnFrom(a, a.Back().app)
    ensures GoesOnFrom(a, a.Refresh().app) && GoesOnFrom(a, a.RefreshBots().app)
    ensures GoesOnFrom(a, a.LoadOlderAction().app) && GoesOnFrom(a, a.GoTo(message).app)
    ensures a.SignOut().app.generation == a.SignIn().app.generation == a.generation + 1
  {
    if a.open.Some? {
      SeekGoesOn(a.WithOpen(a.open.value.(goto := Some(message), gotoPages := 0)));
    }
  }

  lemma StepGoesOn(s: SystemState, step: Step)
    requires Allowed(s, step)
    ensures GoesOnFrom(s.app, Do(s, step).app)
  {
    OutcomesAre(s, step);
    match step {
      case HearUpdate => ActionsGoOn(s.app, s.queue[0].update, 0, 0);
      case AnswerBots(_, bots, _) => RepliesGoOn(s.app, bots, 0, 0, NotLoaded);
      case AnswerNewest(sent, page, _) => RepliesGoOn(s.app, NotLoaded, sent.request.bot, 0, page);
      case AnswerOlder(sent, page, _) => RepliesGoOn(s.app, NotLoaded, sent.request.bot, sent.request.before, page);
      case OpenABot(bot) => ActionsGoOn(s.app, ReloadUpdate, bot, 0);
      case Seek(message) => ActionsGoOn(s.app, ReloadUpdate, 0, message);
      case _ => ActionsGoOn(s.app, ReloadUpdate, 0, 0);
    }
  }

  // ---------------------------------------------------------------------
  // Every step

  lemma AnswerKeepsWait(s: SystemState, step: Step, sent: Sent)
    requires Inv(s) && Allowed(s, step) && sent.request.LoadBefore?
    requires step.AnswerBots? || step.AnswerNewest? || step.AnswerOlder?
    requires sent in s.wire && !AnswersIt(step, sent) && step.sent.generation == sent.generation == s.app.generation
    requires Outcomes(s, step).generation == s.app.generation
    ensures SameWait(s.app.store, Outcomes(s, step).store, sent.request.bot)
  {
    var bot := sent.request.bot;
    assert SnapshotOf(sent.request) in s.app.inFlight && SnapshotOf(step.sent.request) in s.app.inFlight;
    match step {
      case AnswerBots(other, bots, _) => ListKeepsWait(s.app, bots, bot);
      case AnswerNewest(other, page, _) => NewestKeepsWait(s.app, other.request.bot, page, bot);
      case AnswerOlder(other, page, _) =>
        assert other.request.bot != bot;
        OtherOlderKeepsWait(s.app, other.request.bot, other.request.before, page, bot);
    }
  }

  /** While an older page's request is on its way, no new wait begins for its conversation. */
  lemma StepKeepsWait(s: SystemState, step: Step, sent: Sent)
    requires Inv(s) && Allowed(s, step) && sent.request.LoadBefore?
    requires sent in s.wire && !AnswersIt(step, sent) && sent.generation == Outcomes(s, step).generation
    requires s.app.generation == sent.generation
    ensures SameWait(s.app.store, Outcomes(s, step).store, sent.request.bot)
  {
    var bot := sent.request.bot;
    assert SnapshotOf(sent.request) in s.app.inFlight;
    if step.AnswerBots? || step.AnswerNewest? || step.AnswerOlder? {
      if step.sent.generation == s.app.generation {
        AnswerKeepsWait(s, step, sent);
      }
    } else {
      match step {
        case HearUpdate =>
          if s.app.signedIn {
            HearingKeepsWait(s.app, s.queue[0].update, bot);
          }
        case OpenABot(other) => ActionsKeepWait(s.app, other, bot);
        case GoBack => ActionsKeepWait(s.app, 0, bot);
        case RefreshOpen => ActionsKeepWait(s.app, 0, bot);
        case RefreshList => ActionsKeepWait(s.app, 0, bot);
        case LoadMore => LoadingMoreKeepsWait(s.app, 0, bot);
        case Seek(message) => LoadingMoreKeepsWait(s.app, message, bot);
        case _ =>
      }
    }
  }

  /** A request stays on its way, and its session's number is never above the application's. */
  lemma {:induction false} StillSent(steps: seq<Step>, i: nat, sent: Sent)
    requires IsRun(steps) && i <= |steps| && IsRun(steps[..i])
    requires sent in StateAfter(steps[..i]).wire && sent.request.LoadBefore?
    requires forall k :: i <= k < |steps| ==> !AnswersIt(steps[k], sent)
    ensures sent in StateAfter(steps).wire && sent.generation <= StateAfter(steps).app.generation
    decreases |steps|
  {
    if i == |steps| {
      assert steps[..i] == steps;
    } else {
      var before := steps[..|steps| - 1];
      assert before[..i] == steps[..i];
      StillSent(before, i, sent);
      SentStays(StateAfter(before), steps[|steps| - 1], sent);
    }
    EveryRunKeepsInv(steps);
  }

  /**
   Over every run, even across a close, a reopening or a reload: from where a request for
   an older page is on its way, unanswered, to a later moment at which the copy waits for
   it, the conversation has kept one copy, of one page and cursor, that waited throughout.
   */
  lemma {:induction false} OnlyTheCopyThatAsked(steps: seq<Step>, i: nat, sent: Sent)
    requires IsRun(steps) && i <= |steps| && IsRun(steps[..i]) && sent.request.LoadBefore?
    requires sent in StateAfter(steps[..i]).wire
    requires forall k :: i <= k < |steps| ==> !AnswersIt(steps[k], sent)
    requires sent.generation == StateAfter(steps).app.generation
    ensures SameWait(StateAfter(steps[..i]).app.store, StateAfter(steps).app.store, sent.request.bot)
    ensures sent in StateAfter(steps).wire && StateAfter(steps[..i]).app.generation == sent.generation
    decreases |steps|
  {
    if i == |steps| {
      assert steps[..i] == steps;
    } else {
      var before, step := steps[..|steps| - 1], steps[|steps| - 1];
      assert before[..i] == steps[..i];
      EveryRunKeepsInv(before);
      StepGoesOn(StateAfter(before), step);
      OutcomesAre(StateAfter(before), step);
      StillSent(before, i, sent);
      OnlyTheCopyThatAsked(before, i, sent);
      SentStays(StateAfter(before), step, sent);
      StepKeepsWait(StateAfter(before), step, sent);
      SameWaitThen(StateAfter(before[..i]).app.store, StateAfter(before).app.store, StateAfter(steps).app.store,
                   sent.request.bot);
    }
  }

  // ---------------------------------------------------------------------
  // The answer

  /** The same but for the cursor waited for. */
  predicate SameButWait(c: Conversation, d: Conversation) {
    d == c.(requestedOlder := d.requestedOlder)
  }

  /** Only earlier messages of that Bot are added, and none is changed. */
  predicate AddsEarlier(c: Conversation, d: Conversation, bot: BotId, before: MessageId, page: MessagePage) {
    && d.upTo == c.upTo && d.older == page.older
    && (forall id :: id in c.messages ==> id in d.messages && d.messages[id] == c.messages[id])
    && (forall id :: id in d.messages && id !in c.messages ==>
          id < before && id in page.messages && page.messages[id].bot == bot)
  }

  lemma OlderPageMerges(s: StoreState, bot: BotId, before: MessageId, page: MessagePage)
    requires bot in s.conversations
    ensures var after := OlderIn(s, bot, before, page).conversations;
            && after.Keys == s.conversations.Keys
            && (forall other :: other in s.conversations && other != bot ==> after[other] == s.conversations[other])
            && (SameButWait(s.conversations[bot], after[bot])
                || (WaitsFor(s, bot, before) && AddsEarlier(s.conversations[bot], after[bot], bot, before, page)))
  {
    var after := s.LoadOlder(bot, before, page).store.conversations;
    assert OlderIn(s, bot, before, page).conversations == after;
    forall id
      ensures !SameButWait(s.conversations[bot], after[bot]) ==>
                && (id in s.conversations[bot].messages ==>
                      id in after[bot].messages && after[bot].messages[id] == s.conversations[bot].messages[id])
                && (id in after[bot].messages && id !in s.conversations[bot].messages ==>
                      id < before && id in page.messages && page.messages[id].bot == bot)
    {
      OlderPageOnlyAddsEarlier(s, bot, before, page, id);
    }
    OlderPageOnlyAddsEarlier(s, bot, before, page, before);
  }

  /** What the copy was when it asked, as far as a later page is merged into it. */
  predicate AskedAs(asked: map<BotId, Conversation>, c: Conversation, bot: BotId, before: MessageId) {
    && bot in asked && asked[bot].requestedOlder == Some(before) && asked[bot].older == Some(before)
    && c.older == Some(before) && c.upTo == asked[bot].upTo && asked[bot].messages.Keys <= c.messages.Keys
  }

  lemma ReplyMerges(a: AppState, bot: BotId, before: MessageId, page: MessagePage, other: BotId)
    requires AppInv(a) && a.signedIn && Older(bot) in a.inFlight && AnswersCopy(a.store, bot, before)
    requires other in a.store.conversations
    ensures var after := a.ReplyOlder(bot, before, Loaded(page)).app.store.conversations;
            && after.Keys == a.store.conversations.Keys
            && (SameButWait(a.store.conversations[other], after[other])
                || (other == bot && WaitsFor(a.store, bot, before)
                    && AddsEarlier(a.store.conversations[bot], after[bot], bot, before, page)))
  {
    if a.OpenBot() == Some(bot) {
      assert other == bot;
      OlderReplyLoadsMore(a, bot, before, page);
      OlderPageMerges(a.store, bot, before, page);
    }
  }

  /**
   Over every run, when an older page comes: whatever happened since its request was on
   its way, closes, reopenings and reloads among it, the page is merged only into the
   very copy that asked for it, still at the cursor it asked from, in the same session;
   there it changes no message held and adds only earlier ones of that Bot. Every other
   conversation, and one that no longer waits for it, keeps all it had.
   */
  lemma OlderPageMeetsItsAsker(steps: seq<Step>, i: nat, sent: Sent, page: MessagePage, p: nat, bot: BotId)
    requires IsRun(steps) && i <= |steps| && IsRun(steps[..i]) && sent.request.LoadBefore?
    requires sent in StateAfter(steps[..i]).wire
    requires forall k :: i <= k < |steps| ==> !AnswersIt(steps[k], sent)
    requires Allowed(StateAfter(steps), AnswerOlder(sent, Loaded(page), p))
    requires bot in StateAfter(steps).app.store.conversations
    ensures var s, before := StateAfter(steps), sent.request.before;
            var c := s.app.store.conversations[bot];
            var after := Do(s, AnswerOlder(sent, Loaded(page), p)).app.store.conversations;
            && after.Keys == s.app.store.conversations.Keys
            && (SameButWait(c, after[bot])
                || (&& bot == sent.request.bot && sent.generation == s.app.generation
                    && AskedAs(StateAfter(steps[..i]).app.store.conversations, c, bot, before)
                    && AddsEarlier(c, after[bot], bot, before, page)))
  {
    hide AddsEarlier, AppInv;
    var s := StateAfter(steps);
    EveryRunKeepsInv(steps);
    OutcomesAre(s, AnswerOlder(sent, Loaded(page), p));
    if sent.generation == s.app.generation {
      Awaited(s, sent);
      AnswersItsCopy(s, sent);
      ReplyMerges(s.app, sent.request.bot, sent.request.before, page, bot);
      OnlyTheCopyThatAsked(steps, i, sent);
    }
  }

  lemma AnswersItsCopy(s: SystemState, sent: Sent)
    requires Inv(s) && sent in s.wire && sent.generation == s.app.generation && sent.request.LoadBefore?
    ensures AnswersCopy(s.app.store, sent.request.bot, sent.request.before)
  {
  }
}
