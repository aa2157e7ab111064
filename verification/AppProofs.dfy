/**
 What every intent keeps of the application's bookkeeping: at most one request per
 snapshot in flight, no load lost, and nothing counted as loading that is not in flight.
 */
module AppProofs {
  import opened Protocol
  import opened StoreModel
  import opened Driver
  import opened AppModel

  /** The store's bookkeeping on its own. */
  ghost predicate StoreInv(s: StoreState) {
    && s.stale <= s.loading
    && |s.held| <= MAX_HELD
    && (s.loading == {} ==> s.held == [])
  }

  /** A snapshot of a conversation that is not on screen is not the store's concern. */
  predicate Concerns(open: Option<BotId>, snapshot: Snapshot) {
    snapshot.Bots? || open == Some(snapshot.bot)
  }

  ghost predicate AppInv(a: AppState) {
    && StoreInv(a.store)
    // No load is lost track of.
    && a.again <= a.inFlight
    && (forall snapshot :: snapshot in a.again ==> !snapshot.Older?)
    && a.store.loading <= a.inFlight
    && (forall snapshot :: snapshot in a.inFlight && !snapshot.Older? && Concerns(a.OpenBot(), snapshot) ==>
                             snapshot in a.store.loading)
    // Only the open conversation is kept.
    && (forall snapshot :: snapshot in a.store.loading ==> Concerns(a.OpenBot(), snapshot))
    && (forall bot :: bot in a.store.conversations ==> a.OpenBot() == Some(bot))
    // An older page is awaited only while one is in flight for the copy's cursor.
    && (forall bot :: bot in a.store.conversations && a.store.conversations[bot].requestedOlder.Some? ==>
                        && a.store.conversations[bot].requestedOlder == a.store.conversations[bot].older
                        && Older(bot) in a.store.loading)
    // Signed out, there is nothing.
    && (!a.signedIn ==> a.inFlight == {} && a.open.None?)
  }

  /** The requests sent are exactly one for each snapshot newly in flight. */
  ghost predicate Sends(before: set<Snapshot>, outcome: Outcome) {
    && (forall request :: request in outcome.sent ==> SnapshotOf(request) !in before)
    && (forall request :: request in outcome.sent ==> SnapshotOf(request) in outcome.app.inFlight)
    && (forall snapshot :: snapshot in outcome.app.inFlight && snapshot !in before ==>
                             exists request :: request in outcome.sent && SnapshotOf(request) == snapshot)
    && (forall x, y :: x in outcome.sent && y in outcome.sent && SnapshotOf(x) == SnapshotOf(y) ==> x == y)
    && before <= outcome.app.inFlight
  }

  lemma LoadAllSends(a: AppState, snapshots: set<Snapshot>)
    requires forall snapshot :: snapshot in snapshots ==> !snapshot.Older?
    ensures Sends(a.inFlight, a.LoadAll(snapshots))
  {
    var sent := a.LoadAll(snapshots).sent;
    forall request | request in sent
      ensures SnapshotOf(request) in snapshots - a.inFlight && request == RequestFor(SnapshotOf(request))
    {
      var snapshot :| snapshot in snapshots - a.inFlight && request == RequestFor(snapshot);
    }
    forall snapshot | snapshot in a.LoadAll(snapshots).app.inFlight && snapshot !in a.inFlight
      ensures exists request :: request in sent && SnapshotOf(request) == snapshot
    {
      assert RequestFor(snapshot) in sent && SnapshotOf(RequestFor(snapshot)) == snapshot;
    }
  }

  lemma LoadAllKeeps(a: AppState, snapshots: set<Snapshot>)
    requires AppInv(a) && a.signedIn
    requires forall snapshot :: snapshot in snapshots ==> !snapshot.Older? && Concerns(a.OpenBot(), snapshot)
    ensures AppInv(a.LoadAll(snapshots).app) && Sends(a.inFlight, a.LoadAll(snapshots))
  {
    LoadAllSends(a, snapshots);
  }

  lemma LoadOlderKeeps(a: AppState, bot: BotId)
    requires AppInv(a) && a.signedIn && a.OpenBot() == Some(bot)
    ensures AppInv(a.LoadOlderPage(bot).app) && Sends(a.inFlight, a.LoadOlderPage(bot))
  {
    if a.store.OlderCursor(bot).None? && Older(bot) !in a.inFlight {
      var after := a.store.RequestOlder(bot);
      assert Older(bot) !in a.store.loading;
      assert after.loading == a.store.loading;
    }
  }

  lemma SeekGotoKeeps(a: AppState)
    requires AppInv(a) && a.signedIn
    ensures AppInv(a.SeekGoto().app) && Sends(a.inFlight, a.SeekGoto())
  {
    var sought := a.SeekGoto();
    if sought != a.Quietly() && a.store.conversations[a.open.value.bot].older.Some?
       && a.open.value.gotoPages < GOTO_PAGES
    {
      var counted := a.WithOpen(a.open.value.(gotoPages := a.open.value.gotoPages + 1));
      assert sought == counted.LoadOlderPage(a.open.value.bot);
      LoadOlderKeeps(counted, a.open.value.bot);
    }
  }

  /** The reloads an operation of the store asks for are loaded at once. */
  lemma FinishKeeps(a: AppState, wanted: set<Snapshot>)
    requires AppInv(a) && a.signedIn
    requires forall snapshot :: snapshot in wanted ==> !snapshot.Older? && Concerns(a.OpenBot(), snapshot)
    ensures var applied := a.store.Finish(wanted);
            var outcome := a.(store := applied.store).LoadAll(applied.reload);
            && outcome == a.LoadAll(applied.reload)
            && AppInv(outcome.app) && Sends(a.inFlight, outcome)
  {
    var applied := a.store.Finish(wanted);
    assert applied.store.loading + applied.reload == a.store.loading + applied.reload;
    LoadAllKeeps(a, applied.reload);
  }

  lemma ThenAgainKeeps(before: set<Snapshot>, outcome: Outcome, again: bool, snapshot: Snapshot)
    requires AppInv(outcome.app) && outcome.app.signedIn && Sends(before, outcome)
    requires !snapshot.Older? && Concerns(outcome.app.OpenBot(), snapshot)
    ensures AppInv(outcome.ThenAgain(again, snapshot).app) && Sends(before, outcome.ThenAgain(again, snapshot))
  {
    if again {
      LoadAllKeeps(outcome.app, {snapshot});
      SendsThen(before, outcome, outcome.app.LoadWhole(snapshot));
    }
  }

  lemma SendsThen(before: set<Snapshot>, first: Outcome, next: Outcome)
    requires Sends(before, first) && Sends(first.app.inFlight, next)
    ensures Sends(before, first.And(next))
  {
    forall snapshot | snapshot in next.app.inFlight && snapshot !in before
      ensures exists request :: request in first.sent + next.sent && SnapshotOf(request) == snapshot
    {
      if snapshot in first.app.inFlight {
        var request :| request in first.sent && SnapshotOf(request) == snapshot;
        assert request in first.sent + next.sent;
      } else {
        var request :| request in next.sent && SnapshotOf(request) == snapshot;
        assert request in first.sent + next.sent;
      }
    }
  }

  // ---------------------------------------------------------------------
  // Replies

  ghost function ListOf(s: StoreState, page: BotList): Listing {
    ReplayBots(s.conversations,
               Listing(page.bots, map bot | bot in s.newest && bot in page.bots :: s.newest[bot], false),
               page.upTo, s.held)
  }

  /** The store once the Bot list is in, before the reloads it asks for. */
  ghost function ListIn(s: StoreState, page: BotList): StoreState {
    s.(bots := ListOf(s, page).bots, botsUpTo := Some(page.upTo), newest := ListOf(s, page).newest)
     .Forget({Bots}).Settle()
  }

  ghost function ListShown(a: AppState, page: BotList): AppState {
    a.Answered(Bots).(botsError := false, store := ListIn(a.store, page))
  }

  ghost function ReloadsOfList(s: StoreState, page: BotList): set<Snapshot> {
    if ListOf(s, page).reload || Bots in s.stale then {Bots} else {}
  }

  /** What the Bot list's reply does, in steps. */
  lemma ListSteps(a: AppState, page: BotList)
    requires AppInv(a) && a.signedIn && Bots in a.inFlight
    ensures AppInv(ListShown(a, page)) && ListShown(a, page).signedIn
    ensures a.ReplyBots(Loaded(page))
            == ListShown(a, page).LoadAll(ReloadsOfList(a.store, page)).ThenAgain(Bots in a.again, Bots)
  {
    var pre, wanted := ListIn(a.store, page), ReloadsOfList(a.store, page);
    var applied := a.store.LoadBots(page);
    assert applied == pre.Finish(wanted);
    assert applied.reload == wanted;
    var shown := ListShown(a, page);
    assert shown.(store := applied.store).LoadAll(wanted) == shown.LoadAll(wanted) by {
      assert applied.store.loading + wanted == pre.loading + wanted;
    }
  }

  lemma ReplyBotsKeeps(a: AppState, result: Result<BotList>)
    requires AppInv(a) && a.signedIn && Bots in a.inFlight
    ensures AppInv(a.ReplyBots(result).app)
    ensures !result.Unauthenticated? ==>
              Sends(a.inFlight - {Bots}, a.ReplyBots(result)) && a.ReplyBots(result).app.signedIn
  {
    match result {
      case Unauthenticated =>
      case Loaded(page) =>
        ListSteps(a, page);
        var shown := ListShown(a, page);
        LoadAllKeeps(shown, ReloadsOfList(a.store, page));
        ThenAgainKeeps(shown.inFlight, shown.LoadAll(ReloadsOfList(a.store, page)), Bots in a.again, Bots);
      case NotLoaded =>
        if Bots in a.again {
          AgainAfterFailure(a, Bots);
        }
    }
  }

  /** A load that failed while asked for again is simply sent again. */
  lemma AgainAfterFailure(a: AppState, snapshot: Snapshot)
    requires AppInv(a) && a.signedIn && snapshot in a.inFlight && snapshot in a.again
    requires Concerns(a.OpenBot(), snapshot)
    ensures var outcome := a.Answered(snapshot).Quietly().ThenAgain(true, snapshot);
            && AppInv(outcome.app) && Sends(a.inFlight - {snapshot}, outcome)
            && outcome == Outcome(a.(again := a.again - {snapshot}), {RequestFor(snapshot)})
  {
    var answered := a.Answered(snapshot);
    var outcome := answered.LoadWhole(snapshot);
    assert outcome.sent == {RequestFor(snapshot)} by {
      assert {snapshot} - answered.inFlight == {snapshot};
    }
    assert outcome.app.store.loading == a.store.loading;
    assert outcome.app.inFlight == a.inFlight;
    assert {snapshot} * answered.inFlight == {};
  }

  lemma ReplyMessagesKeeps(a: AppState, bot: BotId, result: Result<MessagePage>)
    requires AppInv(a) && a.signedIn && Messages(bot) in a.inFlight
    ensures AppInv(a.ReplyMessages(bot, result).app)
    ensures !(result.Unauthenticated? && a.OpenBot() == Some(bot)) ==>
              Sends(a.inFlight - {Messages(bot)}, a.ReplyMessages(bot, result))
              && a.ReplyMessages(bot, result).app.signedIn
  {
    var snapshot := Messages(bot);
    if a.OpenBot() == Some(bot) {
      match result {
        case Unauthenticated =>
        case Loaded(page) => NewestPageKeeps(a, bot, page);
        case NotLoaded =>
          if snapshot in a.again {
            AgainAfterFailure(a, snapshot);
          }
      }
    }
  }

  /** The store once a newest page is in, before the reloads it asks for. */
  ghost function PageIn(s: StoreState, bot: BotId, page: MessagePage): StoreState {
    s.(newest := NotePage(s.newest, bot, page.messages),
       conversations := s.conversations[bot :=
         Conversation(page.upTo, Replay(page.messages, page.upTo, s.held).messages, page.older, None)])
     .Forget({Messages(bot)}).Settle()
  }

  /** The application once a newest page is in, before the reloads it asks for. */
  ghost function PageShown(a: AppState, bot: BotId, page: MessagePage): AppState
    requires a.open.Some?
  {
    a.Answered(Messages(bot)).(store := PageIn(a.store, bot, page),
                               open := Some(a.open.value.(error := false, olderError := false)))
  }

  ghost function ReloadsOfPage(s: StoreState, bot: BotId, page: MessagePage): set<Snapshot> {
    if Replay(page.messages, page.upTo, s.held).incomplete || Messages(bot) in s.stale then {Messages(bot)} else {}
  }

  /** What a newest page's reply does, in steps. */
  lemma NewestPageSteps(a: AppState, bot: BotId, page: MessagePage)
    requires AppInv(a) && a.signedIn && Messages(bot) in a.inFlight && a.OpenBot() == Some(bot)
    ensures a.ReplyMessages(bot, Loaded(page))
            == (var loaded := PageShown(a, bot, page).LoadAll(ReloadsOfPage(a.store, bot, page));
                loaded.And(loaded.app.SeekGoto()).ThenAgain(Messages(bot) in a.again, Messages(bot)))
  {
    var pre, wanted := PageIn(a.store, bot, page), ReloadsOfPage(a.store, bot, page);
    var applied := a.store.LoadMessages(bot, page);
    assert applied == pre.Finish(wanted);
    assert applied.reload == wanted;
    var shown := PageShown(a, bot, page);
    assert shown.(store := applied.store).LoadAll(wanted) == shown.LoadAll(wanted) by {
      assert applied.store.loading + wanted == pre.loading + wanted;
    }
  }

  lemma PageShownKeeps(a: AppState, bot: BotId, page: MessagePage)
    requires AppInv(a) && a.signedIn && Messages(bot) in a.inFlight && a.OpenBot() == Some(bot)
    ensures AppInv(PageShown(a, bot, page)) && PageShown(a, bot, page).signedIn
  {
  }

  lemma ReloadSeekAgainKeeps(shown: AppState, wanted: set<Snapshot>, again: bool, snapshot: Snapshot)
    requires AppInv(shown) && shown.signedIn && !snapshot.Older? && Concerns(shown.OpenBot(), snapshot)
    requires forall s :: s in wanted ==> !s.Older? && Concerns(shown.OpenBot(), s)
    ensures var loaded := shown.LoadAll(wanted);
            var outcome := loaded.And(loaded.app.SeekGoto()).ThenAgain(again, snapshot);
            AppInv(outcome.app) && outcome.app.signedIn && Sends(shown.inFlight, outcome)
  {
    hide AppInv, Sends;
    LoadAllKeeps(shown, wanted);
    var loaded := shown.LoadAll(wanted);
    SeekGotoKeeps(loaded.app);
    SendsThen(shown.inFlight, loaded, loaded.app.SeekGoto());
    ThenAgainKeeps(shown.inFlight, loaded.And(loaded.app.SeekGoto()), again, snapshot);
  }

  lemma NewestPageKeeps(a: AppState, bot: BotId, page: MessagePage)
    requires AppInv(a) && a.signedIn && Messages(bot) in a.inFlight && a.OpenBot() == Some(bot)
    ensures AppInv(a.ReplyMessages(bot, Loaded(page)).app) && a.ReplyMessages(bot, Loaded(page)).app.signedIn
    ensures Sends(a.inFlight - {Messages(bot)}, a.ReplyMessages(bot, Loaded(page)))
  {
    NewestPageSteps(a, bot, page);
    PageShownKeeps(a, bot, page);
    ReloadSeekAgainKeeps(PageShown(a, bot, page), ReloadsOfPage(a.store, bot, page),
                         Messages(bot) in a.again, Messages(bot));
  }

  /** An older page answers the request the copy waits for, if it waits for one. */
  predicate AnswersCopy(s: StoreState, bot: BotId, before: MessageId) {
    bot in s.conversations ==> s.conversations[bot].requestedOlder in {None, Some(before)}
  }

  lemma ReplyOlderKeeps(a: AppState, bot: BotId, before: MessageId, result: Result<MessagePage>)
    requires AppInv(a) && a.signedIn && Older(bot) in a.inFlight && AnswersCopy(a.store, bot, before)
    ensures AppInv(a.ReplyOlder(bot, before, result).app)
    ensures !(result.Unauthenticated? && a.OpenBot() == Some(bot)) ==>
              Sends(a.inFlight - {Older(bot)}, a.ReplyOlder(bot, before, result))
              && a.ReplyOlder(bot, before, result).app.signedIn
  {
    if a.OpenBot() == Some(bot) && result.Loaded? {
      OlderPageKeeps(a, bot, before, result.page);
    }
  }

  /** The store once an older page is merged, dropped or found wanting. */
  ghost function OlderIn(s: StoreState, bot: BotId, before: MessageId, page: MessagePage): StoreState {
    var applied := s.LoadOlder(bot, before, page);
    applied.store.(loading := applied.store.loading - {Older(bot)})
  }

  ghost function OlderShown(a: AppState, bot: BotId, before: MessageId, page: MessagePage): AppState
    requires a.open.Some?
  {
    a.(inFlight := a.inFlight - {Older(bot)}, store := OlderIn(a.store, bot, before, page),
       open := Some(a.open.value.(olderError := false)))
  }

  lemma OlderPageKeeps(a: AppState, bot: BotId, before: MessageId, page: MessagePage)
    requires AppInv(a) && a.signedIn && Older(bot) in a.inFlight && a.OpenBot() == Some(bot)
    requires AnswersCopy(a.store, bot, before)
    ensures AppInv(OlderShown(a, bot, before, page)) && OlderShown(a, bot, before, page).signedIn
    ensures a.ReplyOlder(bot, before, Loaded(page))
            == (var shown := OlderShown(a, bot, before, page);
                var loaded := if a.store.LoadOlder(bot, before, page).reload == {} then shown.Quietly()
                              else shown.LoadOlderPage(bot);
                loaded.And(loaded.app.SeekGoto()))
    ensures AppInv(a.ReplyOlder(bot, before, Loaded(page)).app) && a.ReplyOlder(bot, before, Loaded(page)).app.signedIn
    ensures Sends(a.inFlight - {Older(bot)}, a.ReplyOlder(bot, before, Loaded(page)))
  {
    var shown := OlderShown(a, bot, before, page);
    OlderShownKeeps(a, bot, before, page);
    var loaded := if a.store.LoadOlder(bot, before, page).reload == {} then shown.Quietly()
                  else shown.LoadOlderPage(bot);
    LoadOlderKeeps(shown, bot);
    SeekGotoKeeps(loaded.app);
    SendsThen(shown.inFlight, loaded, loaded.app.SeekGoto());
    OlderReloads(a, bot, before, page);
  }

  lemma OlderShownKeeps(a: AppState, bot: BotId, before: MessageId, page: MessagePage)
    requires AppInv(a) && a.signedIn && Older(bot) in a.inFlight && a.OpenBot() == Some(bot)
    requires AnswersCopy(a.store, bot, before)
    ensures AppInv(OlderShown(a, bot, before, page))
  {
  }

  lemma OlderReloads(a: AppState, bot: BotId, before: MessageId, page: MessagePage)
    requires AppInv(a) && a.signedIn && Older(bot) in a.inFlight && a.OpenBot() == Some(bot)
    requires AnswersCopy(a.store, bot, before)
    ensures var applied := a.store.LoadOlder(bot, before, page);
            var merged := a.(inFlight := a.inFlight - {Older(bot)}, store := applied.store,
                             open := Some(a.open.value.(olderError := false)));
            && (applied.reload == {} ==> merged == OlderShown(a, bot, before, page))
            && (applied.reload != {} ==>
                  && bot in a.store.conversations && a.store.conversations[bot].older.Some?
                  && merged.LoadOlderPage(bot) == OlderShown(a, bot, before, page).LoadOlderPage(bot))
  {
  }

  // ---------------------------------------------------------------------
  // Socket updates and user actions

  /** The store with an event applied, before the reloads it asks for. */
  function EventIn(s: StoreState, envelope: Envelope): StoreState {
    s.Hold(envelope).ApplyToConversation(envelope).store.ApplyToBots(envelope).store
  }

  function ReloadsOfEvent(s: StoreState, envelope: Envelope): set<Snapshot> {
    var conversation := s.Hold(envelope).ApplyToConversation(envelope);
    conversation.reload + conversation.store.ApplyToBots(envelope).reload
  }

  lemma ToBotsLeaves(s: StoreState, envelope: Envelope)
    ensures var after := s.ApplyToBots(envelope);
            && after.store.conversations == s.conversations && after.store.loading == s.loading
            && after.store.held == s.held && after.store.stale == s.stale && after.store.botsUpTo == s.botsUpTo
            && after.reload <= {Bots}
  {
  }

  lemma ToConversationLeaves(s: StoreState, envelope: Envelope)
    ensures var after := s.ApplyToConversation(envelope);
            && after.store == s.(conversations := after.store.conversations)
            && after.store.conversations.Keys == s.conversations.Keys
            && (forall bot :: bot in s.conversations ==>
                  var c := s.conversations[bot];
                  after.store.conversations[bot] ==
                    if MessageBot(envelope.event) == Some(bot) && c.upTo < envelope.number
                    then c.(messages := Receive(c.messages, envelope.event).messages) else c)
            && (forall snapshot :: snapshot in after.reload ==> snapshot.Messages? && snapshot.bot in s.conversations)
  {
  }

  /** What an event leaves of the store, and what it does to each conversation. */
  lemma EventInStore(store: StoreState, envelope: Envelope)
    ensures var after := EventIn(store, envelope);
            && after.loading == store.loading && after.held == store.Hold(envelope).held
            && after.stale == store.Hold(envelope).stale
            && after.conversations.Keys == store.conversations.Keys
            && forall bot :: bot in store.conversations ==>
                 var c := store.conversations[bot];
                 after.conversations[bot] ==
                   if MessageBot(envelope.event) == Some(bot) && c.upTo < envelope.number
                   then c.(messages := Receive(c.messages, envelope.event).messages) else c
  {
    var held := store.Hold(envelope);
    ToConversationLeaves(held, envelope);
    ToBotsLeaves(held.ApplyToConversation(envelope).store, envelope);
  }

  lemma HoldKeeps(s: StoreState, envelope: Envelope)
    requires StoreInv(s)
    ensures StoreInv(s.Hold(envelope))
  {
  }

  /** A store of the same shape keeps the application's bookkeeping. */
  lemma SameShapeKeeps(a: AppState, store: StoreState)
    requires AppInv(a) && StoreInv(store) && store.loading == a.store.loading
    requires store.conversations.Keys == a.store.conversations.Keys
    requires forall bot :: bot in store.conversations ==>
               && store.conversations[bot].requestedOlder == a.store.conversations[bot].requestedOlder
               && store.conversations[bot].older == a.store.conversations[bot].older
    ensures AppInv(a.(store := store))
  {
  }

  lemma EventInKeeps(a: AppState, envelope: Envelope)
    requires AppInv(a) && a.signedIn
    ensures AppInv(a.(store := EventIn(a.store, envelope)))
    ensures forall snapshot :: snapshot in ReloadsOfEvent(a.store, envelope) ==>
                                 !snapshot.Older? && Concerns(a.OpenBot(), snapshot)
  {
    EventInStore(a.store, envelope);
    HoldKeeps(a.store, envelope);
    SameShapeKeeps(a, EventIn(a.store, envelope));
    EventReloadsConcern(a, envelope);
  }

  lemma EventReloadsConcern(a: AppState, envelope: Envelope)
    requires AppInv(a)
    ensures forall snapshot :: snapshot in ReloadsOfEvent(a.store, envelope) ==>
                                 !snapshot.Older? && Concerns(a.OpenBot(), snapshot)
  {
    var held := a.store.Hold(envelope);
    ToConversationLeaves(held, envelope);
    ToBotsLeaves(held.ApplyToConversation(envelope).store, envelope);
  }

  lemma HearSocketKeeps(a: AppState, update: SocketUpdate)
    requires AppInv(a) && a.signedIn
    ensures AppInv(a.HearSocket(update).app)
    ensures !update.SignedOutUpdate? ==> Sends(a.inFlight, a.HearSocket(update)) && a.HearSocket(update).app.signedIn
  {
    match update {
      case EventUpdate(envelope) =>
        EventInKeeps(a, envelope);
        FinishKeeps(a.(store := EventIn(a.store, envelope)), ReloadsOfEvent(a.store, envelope));
      case ReloadUpdate => LoadAllKeeps(a, a.Everything());
      case CheckSessionUpdate =>
      case SignedOutUpdate =>
      case LinkUpdate(link) => LoadAllKeeps(a, a.FailedLoads());
    }
  }

  lemma CloseOpenKeeps(a: AppState)
    requires AppInv(a) && a.signedIn
    ensures AppInv(a.CloseOpen())
  {
  }

  lemma OpenConversationKeeps(a: AppState, bot: BotId)
    requires AppInv(a) && a.signedIn
    ensures AppInv(a.OpenConversation(bot).app) && Sends(a.inFlight, a.OpenConversation(bot))
    ensures a.OpenConversation(bot).app.signedIn
  {
    if bot in a.store.bots && a.OpenBot() != Some(bot) {
      CloseOpenKeeps(a);
      var entered := a.CloseOpen().WithOpen(Open(bot, false, false, None, 0));
      OpeningKeeps(entered, bot);
    }
  }

  /** Opening a conversation loads its newest page, at once or when the load in flight answers. */
  lemma OpeningKeeps(entered: AppState, bot: BotId)
    requires AppInv(entered.(open := None)) && entered.signedIn && entered.OpenBot() == Some(bot)
    ensures AppInv(entered.LoadWhole(Messages(bot)).app) && Sends(entered.inFlight, entered.LoadWhole(Messages(bot)))
  {
    LoadAllSends(entered, {Messages(bot)});
  }

  lemma GenerationsKeep(a: AppState)
    ensures AppInv(a.SignOut().app) && AppInv(a.SignIn().app)
    ensures Sends({}, a.SignIn()) && Sends({}, a.SignOut())
  {
    assert AppInv(a.NextGeneration(true));
    LoadAllKeeps(a.NextGeneration(true), {Bots});
  }
}
