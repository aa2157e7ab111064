/**
 A search for a message goes on until it is found or there is nowhere left to look: in
 every run, while the message is not held, an older page is on its way or has failed.
 */
module Searches {
  import opened Protocol
  import opened StoreModel
  import opened Driver
  import opened AppModel
  import opened AppProofs
  import opened System
  import opened Convergence
  import opened Copies
  import opened OlderPages

  /** A message is looked for in the conversation on screen, which does not hold it. */
  predicate Searching(a: AppState) {
    && a.open.Some? && a.open.value.goto.Some? && a.open.value.bot in a.store.conversations
    && a.open.value.goto.value !in a.store.conversations[a.open.value.bot].messages
  }

  /** There are earlier pages, and the next is in flight, or failed and waits to be tried again. */
  predicate GoesOn(a: AppState) {
    Searching(a) ==>
      var bot := a.open.value.bot;
      && a.store.conversations[bot].older.Some?
      && (Older(bot) in a.inFlight || a.open.value.olderError)
  }

  // ---------------------------------------------------------------------
  // One press, one search

  /** The page before the conversation's oldest can be asked for. */
  predicate HasEarlier(a: AppState, bot: BotId, before: MessageId) {
    && a.signedIn && a.OpenBot() == Some(bot) && bot in a.store.conversations
    && a.store.conversations[bot].older == Some(before) && Older(bot) !in a.inFlight
  }

  /** The request for the page before this message is sent, and the copy waits for it. */
  predicate AsksForEarlier(outcome: Outcome, bot: BotId, before: MessageId) {
    && outcome.sent == {LoadBefore(bot, before)} && Older(bot) in outcome.app.inFlight
    && WaitsFor(outcome.app.store, bot, before)
  }

  /** Pressing "load older" asks for the page before the oldest message, after a failure too. */
  lemma PressingAsks(a: AppState, bot: BotId, before: MessageId)
    requires HasEarlier(a, bot, before)
    ensures AsksForEarlier(a.LoadOlderAction(), bot, before) && !a.LoadOlderAction().app.open.value.olderError
  {
  }

  /**
   A search for a message that is not held asks for an earlier page at once, unless the
   last one failed. It ends without one only if there are none.
   */
  lemma SearchingAsks(a: AppState, bot: BotId, message: MessageId)
    requires a.signedIn && a.OpenBot() == Some(bot) && bot in a.store.conversations
    requires message !in a.store.conversations[bot].messages
    ensures var older, sought := a.store.conversations[bot].older, a.GoTo(message);
            && (older.Some? && Older(bot) !in a.inFlight && !a.open.value.olderError ==>
                  AsksForEarlier(sought, bot, older.value))
            && (sought.app.open.value.goto == if older.Some? then Some(message) else None)
  {
  }

  /**
   While the message is not found, each earlier page that is asked for counts, and after
   twenty, or at the conversation's beginning, the search ends.
   */
  lemma TwentyPagesAtMost(a: AppState)
    requires Searching(a)
    ensures var bot, pages, sought := a.open.value.bot, a.open.value.gotoPages, a.SeekGoto();
            var older := a.store.conversations[bot].older;
            && (older.None? || pages >= 20 ==> sought.sent == {} && sought.app.open.value.goto.None?)
            && (older.Some? && pages < 20 ==> sought.app.open.value.goto == a.open.value.goto)
            && (older.Some? && pages < 20 && Older(bot) !in a.inFlight && !a.open.value.olderError ==>
                  AsksForEarlier(sought, bot, older.value) && sought.app.open.value.gotoPages == pages + 1)
            && (older.Some? && pages < 20 && (Older(bot) in a.inFlight || a.open.value.olderError) ==>
                  sought == a.Quietly())
  {
  }

  // ---------------------------------------------------------------------
  // Every run

  lemma SeekingGoesOn(a: AppState)
    ensures GoesOn(a.SeekGoto().app)
  {
  }

  /** The search goes on only if it did before, for earlier pages of the same copy. */
  predicate SameSearch(a: AppState, b: AppState) {
    Searching(b) ==>
      && Searching(a) && a.open.value.bot == b.open.value.bot
      && var bot := a.open.value.bot;
         && b.store.conversations[bot].older == a.store.conversations[bot].older
         && (Older(bot) in a.inFlight ==> Older(bot) in b.inFlight)
         && (a.open.value.olderError ==> b.open.value.olderError)
  }

  lemma SameGoesOn(a: AppState, b: AppState)
    requires GoesOn(a) && SameSearch(a, b)
    ensures GoesOn(b)
  {
  }

  lemma LoadingIsSameSearch(a: AppState, snapshots: set<Snapshot>)
    requires forall snapshot :: snapshot in snapshots ==> !snapshot.Older?
    ensures SameSearch(a, a.LoadAll(snapshots).app)
  {
  }

  lemma LoadingGoesOn(a: AppState, snapshots: set<Snapshot>)
    requires GoesOn(a) && forall snapshot :: snapshot in snapshots ==> !snapshot.Older?
    ensures GoesOn(a.LoadAll(snapshots).app)
  {
    LoadingIsSameSearch(a, snapshots);
    SameGoesOn(a, a.LoadAll(snapshots).app);
  }

  lemma ThenAgainGoesOn(outcome: Outcome, again: bool, snapshot: Snapshot)
    requires GoesOn(outcome.app) && !snapshot.Older?
    ensures GoesOn(outcome.ThenAgain(again, snapshot).app)
  {
    if again {
      LoadingGoesOn(outcome.app, {snapshot});
    }
  }

  lemma EventIsSameSearch(a: AppState, envelope: Envelope)
    ensures SameSearch(a, a.(store := EventIn(a.store, envelope)))
  {
    EventInStore(a.store, envelope);
    if a.open.Some? && a.open.value.bot in a.store.conversations {
      ReceiveKeepsIds(a.store.conversations[a.open.value.bot].messages, envelope.event);
    }
  }

  lemma HearingGoesOn(a: AppState, update: SocketUpdate)
    requires AppInv(a) && GoesOn(a)
    ensures GoesOn(a.HearSocket(update).app)
  {
    hide GoesOn, AppInv;
    if a.signedIn {
      match update {
        case EventUpdate(envelope) =>
          EventIsSameSearch(a, envelope);
          var reload := EventReloads(a, envelope);
          SameGoesOn(a, a.(store := EventIn(a.store, envelope)));
          LoadingGoesOn(a.(store := EventIn(a.store, envelope)), reload);
        case ReloadUpdate => LoadingGoesOn(a, a.Everything());
        case CheckSessionUpdate =>
        case SignedOutUpdate => NewSessionGoesOn(a);
        case LinkUpdate(_) => LoadingGoesOn(a, a.FailedLoads());
      }
    }
  }

  lemma NewSessionGoesOn(a: AppState)
    ensures GoesOn(a.SignOut().app) && GoesOn(a.SignIn().app)
  {
  }

  lemma ListGoesOn(a: AppState, bots: Result<BotList>)
    requires AppInv(a) && GoesOn(a)
    ensures GoesOn(a.ReplyBots(bots).app)
  {
    if a.signedIn && Bots in a.inFlight {
      match bots {
        case Unauthenticated =>
        case NotLoaded =>
          SameGoesOn(a, a.Answered(Bots));
          ThenAgainGoesOn(a.Answered(Bots).Quietly(), Bots in a.again, Bots);
        case Loaded(page) =>
          ListSteps(a, page);
          var shown, wanted := ListShown(a, page), ReloadsOfList(a.store, page);
          SameGoesOn(a, shown);
          LoadingGoesOn(shown, wanted);
          ThenAgainGoesOn(shown.LoadAll(wanted), Bots in a.again, Bots);
      }
    }
  }

  lemma NewestGoesOn(a: AppState, bot: BotId, page: Result<MessagePage>)
    requires AppInv(a) && GoesOn(a)
    ensures GoesOn(a.ReplyMessages(bot, page).app)
  {
    hide AppInv, GoesOn;
    var snapshot := Messages(bot);
    if a.signedIn && snapshot in a.inFlight {
      SameGoesOn(a, a.Answered(snapshot));
      if a.OpenBot() == Some(bot) {
        match page {
          case Unauthenticated => NewSessionGoesOn(a.Answered(snapshot));
          case NotLoaded => FailedNewestGoesOn(a, bot);
          case Loaded(loaded) =>
            NewestPageSteps(a, bot, loaded);
            var shown := PageShown(a, bot, loaded).LoadAll(ReloadsOfPage(a.store, bot, loaded));
            SeekingGoesOn(shown.app);
            ThenAgainGoesOn(shown.And(shown.app.SeekGoto()), snapshot in a.again, snapshot);
        }
      }
    }
  }

  lemma FailedNewestGoesOn(a: AppState, bot: BotId)
    requires GoesOn(a) && a.signedIn && Messages(bot) in a.inFlight && a.OpenBot() == Some(bot)
    ensures GoesOn(a.ReplyMessages(bot, NotLoaded).app)
  {
    var snapshot := Messages(bot);
    if snapshot in a.again {
      ThenAgainGoesOn(a.Answered(snapshot).Quietly(), true, snapshot);
    }
  }

  lemma OlderGoesOn(a: AppState, bot: BotId, before: MessageId, page: Result<MessagePage>)
    requires GoesOn(a)
    ensures GoesOn(a.ReplyOlder(bot, before, page).app)
  {
    if a.signedIn && Older(bot) in a.inFlight {
      var answered := a.(inFlight := a.inFlight - {Older(bot)});
      if a.OpenBot() != Some(bot) {
        SameGoesOn(a, answered);
      } else if page.Loaded? {
        var applied := a.store.LoadOlder(bot, before, page.page);
        var merged := answered.(store := applied.store, open := Some(a.open.value.(olderError := false)));
        SeekingGoesOn(if applied.reload == {} then merged else merged.LoadOlderPage(bot).app);
      } else if page.NotLoaded? {
        FailedOlderGoesOn(a, bot, before);
      }
    }
  }

  lemma FailedOlderGoesOn(a: AppState, bot: BotId, before: MessageId)
    requires GoesOn(a) && a.signedIn && Older(bot) in a.inFlight && a.OpenBot() == Some(bot)
    ensures GoesOn(a.ReplyOlder(bot, before, NotLoaded).app)
  {
  }

  lemma ActionGoesOn(a: AppState, bot: BotId, message: MessageId)
    requires GoesOn(a)
    ensures GoesOn(a.OpenConversation(bot).app) && GoesOn(a.Back().app)
    ensures GoesOn(a.Refresh().app) && GoesOn(a.RefreshBots().app) && GoesOn(a.GoTo(message).app)
  {
    LoadingGoesOn(a, {Bots});
    if a.open.Some? {
      LoadingGoesOn(a, {Messages(a.open.value.bot)});
      SeekingGoesOn(a.WithOpen(a.open.value.(goto := Some(message), gotoPages := 0)));
    }
  }

  lemma MoreGoesOn(a: AppState)
    requires GoesOn(a)
    ensures GoesOn(a.LoadOlderAction().app)
  {
  }

  lemma StepGoesOn(s: SystemState, step: Step)
    requires Inv(s) && GoesOn(s.app) && Allowed(s, step)
    ensures GoesOn(Do(s, step).app)
  {
    hide GoesOn, SocketInv, WireInv, ClaimsInv, AppInv;
    OutcomesAre(s, step);
    match step {
      case HearUpdate => HearingGoesOn(s.app, s.queue[0].update);
      case AnswerBots(_, bots, _) => ListGoesOn(s.app, bots);
      case AnswerNewest(sent, page, _) => NewestGoesOn(s.app, sent.request.bot, page);
      case AnswerOlder(sent, page, _) => OlderGoesOn(s.app, sent.request.bot, sent.request.before, page);
      case OpenABot(bot) => ActionGoesOn(s.app, bot, 0);
      case Seek(message) => ActionGoesOn(s.app, 0, message);
      case LoadMore => MoreGoesOn(s.app);
      case LeaveSession => NewSessionGoesOn(s.app);
      case EnterSession(_) => NewSessionGoesOn(s.app);
      case _ => ActionGoesOn(s.app, 0, 0);
    }
  }

  lemma {:induction false} EveryRunGoesOn(steps: seq<Step>)
    requires IsRun(steps)
    ensures GoesOn(StateAfter(steps).app)
    decreases |steps|
  {
    if steps != [] {
      EveryRunKeepsInv(steps[..|steps| - 1]);
      EveryRunGoesOn(steps[..|steps| - 1]);
      StepGoesOn(StateAfter(steps[..|steps| - 1]), steps[|steps| - 1]);
    }
  }

  /**
   In every run, while a message is looked for that the conversation on screen does not
   hold, there are earlier pages, and the next one's request is on its way in this session,
   or has failed and waits for the user.
   */
  lemma ASearchGoesOn(steps: seq<Step>)
    requires IsRun(steps) && Searching(StateAfter(steps).app)
    ensures var s := StateAfter(steps);
            var bot := s.app.open.value.bot;
            && s.app.store.conversations[bot].older.Some?
            && (|| s.app.open.value.olderError
                || exists sent :: sent in s.wire && sent.generation == s.app.generation
                                  && SnapshotOf(sent.request) == Older(bot))
  {
    EveryRunGoesOn(steps);
    EveryRunKeepsInv(steps);
  }
}
