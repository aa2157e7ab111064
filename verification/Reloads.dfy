/**
 No load that was asked for is lost: a snapshot asked for while one was on its way is
 sent again once that answers, unless its conversation closes or the session ends.
 */
module Reloads {
  import opened Protocol
  import opened StoreModel
  import opened Driver
  import opened Delivery
  import opened AppModel
  import opened AppProofs
  import opened System
  import opened Convergence

  /** The requests a step sends. */
  ghost function Requests(s: SystemState, step: Step): set<Request>
    requires Allowed(s, step)
  {
    match step
    case HearUpdate => s.app.HearSocket(s.queue[0].update).sent
    case AnswerBots(sent, bots, _) =>
      if sent.generation == s.app.generation then s.app.ReplyBots(bots).sent else {}
    case AnswerNewest(sent, page, _) =>
      if sent.generation == s.app.generation then s.app.ReplyMessages(sent.request.bot, page).sent else {}
    case AnswerOlder(sent, page, _) =>
      if sent.generation == s.app.generation
      then s.app.ReplyOlder(sent.request.bot, sent.request.before, page).sent else {}
    case OpenABot(bot) => s.app.OpenConversation(bot).sent
    case RefreshOpen => s.app.Refresh().sent
    case RefreshList => s.app.RefreshBots().sent
    case LoadMore => s.app.LoadOlderAction().sent
    case Seek(message) => s.app.GoTo(message).sent
    case EnterSession(_) => s.app.SignIn().sent
    case _ => {}
  }

  /** The open conversation's newest page, if it is to be loaded. */
  function OpenPage(a: AppState, wanted: bool): set<Snapshot> {
    if a.open.Some? && wanted then {Messages(a.open.value.bot)} else {}
  }

  predicate HasFailed(a: AppState) {
    a.open.Some? && a.open.value.error
  }

  function AskedBy(a: AppState, update: SocketUpdate): set<Snapshot> {
    if !a.signedIn then {}
    else
      match update
      case EventUpdate(envelope) => a.store.Apply(envelope).reload
      case ReloadUpdate =>
        {Bots} + OpenPage(a, true) + set bot | bot in a.store.conversations :: Messages(bot)
      case LinkUpdate(link) =>
        if link.LinkLive? then (if a.botsError then {Bots} else {}) + OpenPage(a, HasFailed(a)) else {}
      case _ => {}
  }

  /** The newest pages and lists a step asks to load. */
  ghost function Asked(s: SystemState, step: Step): set<Snapshot>
    requires Allowed(s, step)
  {
    match step
    case HearUpdate => AskedBy(s.app, s.queue[0].update)
    case AnswerBots(sent, bots, _) =>
      if sent.generation == s.app.generation && bots.Loaded? then s.app.store.LoadBots(bots.page).reload else {}
    case AnswerNewest(sent, page, _) =>
      if sent.generation == s.app.generation && page.Loaded? && s.app.OpenBot() == Some(sent.request.bot)
      then s.app.store.LoadMessages(sent.request.bot, page.page).reload else {}
    case OpenABot(bot) =>
      if bot in s.app.store.bots && s.app.OpenBot() != Some(bot) then {Messages(bot)} else {}
    case RefreshOpen => if s.app.open.Some? then {Messages(s.app.open.value.bot)} else {}
    case RefreshList => {Bots}
    case EnterSession(_) => {Bots}
    case _ => {}
  }

  /** The session the load was asked in is over, or its conversation is not on screen. */
  ghost predicate Moot(s: SystemState, t: SystemState, snapshot: Snapshot) {
    t.app.generation != s.app.generation || !Concerns(t.app.OpenBot(), snapshot)
  }

  /** Asking sends a request at once, or has one sent when the one on its way answers. */
  lemma AskingSendsOrRemembers(s: SystemState, step: Step, snapshot: Snapshot)
    requires Inv(s) && Allowed(s, step) && snapshot in Asked(s, step)
    ensures RequestFor(snapshot) in Requests(s, step) || snapshot in Do(s, step).app.again
    ensures !snapshot.Older?
  {
    match step {
      case HearUpdate => HearingSendsOrRemembers(s, snapshot);
      case AnswerBots(_, _, _) => ListAskIsSent(s, step, snapshot);
      case AnswerNewest(_, _, _) => NewestAskIsSent(s, step, snapshot);
      case _ =>
    }
  }

  /** A list or a page that asks for itself again sends the request with its own reply. */
  lemma ListAskIsSent(s: SystemState, step: Step, snapshot: Snapshot)
    requires Inv(s) && Allowed(s, step) && step.AnswerBots? && snapshot in Asked(s, step)
    ensures RequestFor(snapshot) in Requests(s, step) && !snapshot.Older?
  {
    hide AppInv, SocketInv, WireInv, ClaimsInv;
    Awaited(s, step.sent);
    ListSendsItsReload(s.app, step.bots.page, snapshot);
  }

  lemma ListSendsItsReload(a: AppState, page: BotList, snapshot: Snapshot)
    requires AppInv(a) && a.signedIn && Bots in a.inFlight && snapshot in a.store.LoadBots(page).reload
    ensures snapshot == Bots && RequestFor(snapshot) in a.ReplyBots(Loaded(page)).sent
  {
    assert Bots in a.store.LoadBots(page).reload - a.Answered(Bots).inFlight;
  }

  lemma NewestAskIsSent(s: SystemState, step: Step, snapshot: Snapshot)
    requires Inv(s) && Allowed(s, step) && step.AnswerNewest? && snapshot in Asked(s, step)
    ensures RequestFor(snapshot) in Requests(s, step) && !snapshot.Older?
  {
    hide AppInv, SocketInv, WireInv, ClaimsInv;
    Awaited(s, step.sent);
    PageSendsItsReload(s.app, step.sent.request.bot, step.page.page, snapshot);
  }

  lemma PageSendsItsReload(a: AppState, bot: BotId, page: MessagePage, snapshot: Snapshot)
    requires AppInv(a) && a.signedIn && Messages(bot) in a.inFlight && a.OpenBot() == Some(bot)
    requires snapshot in a.store.LoadMessages(bot, page).reload
    ensures snapshot == Messages(bot) && RequestFor(snapshot) in a.ReplyMessages(bot, Loaded(page)).sent
  {
    var applied := a.store.LoadMessages(bot, page);
    assert snapshot == Messages(bot);
    assert Messages(bot) in applied.reload - a.Answered(Messages(bot)).inFlight;
  }

  lemma HearingSendsOrRemembers(s: SystemState, snapshot: Snapshot)
    requires Inv(s) && s.queue != [] && snapshot in Asked(s, HearUpdate)
    ensures RequestFor(snapshot) in Requests(s, HearUpdate) || snapshot in Do(s, HearUpdate).app.again
    ensures !snapshot.Older?
  {
    AskedIsRemembered(s.app, s.queue[0].update, snapshot);
  }

  lemma AskedIsRemembered(a: AppState, update: SocketUpdate, snapshot: Snapshot)
    requires AppInv(a) && snapshot in AskedBy(a, update)
    ensures RequestFor(snapshot) in a.HearSocket(update).sent || snapshot in a.HearSocket(update).app.again
    ensures !snapshot.Older?
  {
    if update.EventUpdate? {
      var reload := EventReloads(a, update.envelope);
    }
  }

  /**
   Once the link is live, what failed to load is asked for, the list and the open
   conversation alike, and nothing else is: a request is sent for each, unless one is in
   flight, which then is followed by another.
   */
  lemma GoingLiveRetriesFailures(a: AppState)
    requires a.signedIn
    ensures var heard := a.HearSocket(LinkUpdate(LinkLive));
            && (a.botsError ==> if Bots in a.inFlight then Bots in heard.app.again else ListBots in heard.sent)
            && (HasFailed(a) ==>
                  var bot := a.open.value.bot;
                  if Messages(bot) in a.inFlight then Messages(bot) in heard.app.again
                  else LoadNewest(bot) in heard.sent)
            && (forall request :: request in heard.sent ==>
                  || (request == ListBots && a.botsError && Bots !in a.inFlight)
                  || (HasFailed(a) && request == LoadNewest(a.open.value.bot)
                      && Messages(a.open.value.bot) !in a.inFlight))
            && (forall snapshot :: snapshot in heard.app.again && snapshot !in a.again ==>
                  || (snapshot == Bots && a.botsError)
                  || (HasFailed(a) && snapshot == Messages(a.open.value.bot)))
  {
    var heard := a.HearSocket(LinkUpdate(LinkLive));
    if a.botsError && Bots !in a.inFlight {
      assert RequestFor(Bots) in heard.sent;
    }
    if HasFailed(a) && Messages(a.open.value.bot) !in a.inFlight {
      assert RequestFor(Messages(a.open.value.bot)) in heard.sent;
    }
  }

  lemma AgainAfterHearing(a: AppState, update: SocketUpdate)
    requires AppInv(a)
    ensures a.HearSocket(update).app.generation == a.generation ==> a.again <= a.HearSocket(update).app.again
  {
  }

  /** The reload that a list's reply owes is sent, or remembered if the reply's own reload is. */
  lemma AgainAfterList(a: AppState, bots: Result<BotList>)
    requires AppInv(a) && a.signedIn && Bots in a.inFlight
    ensures var outcome := a.ReplyBots(bots);
            || outcome.app.generation != a.generation
            || (&& a.again - {Bots} <= outcome.app.again
                && (Bots in a.again ==> RequestFor(Bots) in outcome.sent))
  {
    match bots {
      case Unauthenticated =>
      case NotLoaded =>
        if Bots in a.again {
          AgainAfterFailure(a, Bots);
        }
      case Loaded(page) => ListSteps(a, page);
    }
  }

  /** The reload that a newest page's reply owes is sent, unless its conversation is closed. */
  lemma AgainAfterNewest(a: AppState, bot: BotId, page: Result<MessagePage>)
    requires AppInv(a) && a.signedIn && Messages(bot) in a.inFlight
    ensures var outcome := a.ReplyMessages(bot, page);
            || outcome.app.generation != a.generation
            || (&& a.again - {Messages(bot)} <= outcome.app.again
                && outcome.app.OpenBot() == a.OpenBot()
                && (Messages(bot) in a.again && a.OpenBot() == Some(bot) ==> LoadNewest(bot) in outcome.sent))
  {
    if a.OpenBot() == Some(bot) {
      match page {
        case Unauthenticated =>
        case NotLoaded =>
          if Messages(bot) in a.again {
            AgainAfterFailure(a, Messages(bot));
          }
        case Loaded(loaded) =>
          NewestPageSteps(a, bot, loaded);
          SentOnceMore(PageShown(a, bot, loaded), ReloadsOfPage(a.store, bot, loaded),
                       Messages(bot) in a.again, Messages(bot));
      }
    }
  }

  /** Loading earlier pages changes neither what is to be sent again nor what is open. */
  lemma SeekKeepsAgain(a: AppState)
    ensures var sought := a.SeekGoto().app;
            && sought.again == a.again && sought.OpenBot() == a.OpenBot() && sought.generation == a.generation
            && (forall snapshot :: snapshot in sought.inFlight && !snapshot.Older? ==> snapshot in a.inFlight)
  {
  }

  lemma SentOnceMore(shown: AppState, wanted: set<Snapshot>, again: bool, snapshot: Snapshot)
    requires !snapshot.Older? && snapshot !in shown.inFlight && wanted <= {snapshot}
    ensures var loaded := shown.LoadAll(wanted);
            var outcome := loaded.And(loaded.app.SeekGoto()).ThenAgain(again, snapshot);
            && outcome.app.generation == shown.generation && outcome.app.OpenBot() == shown.OpenBot()
            && shown.again <= outcome.app.again
            && (again ==> RequestFor(snapshot) in outcome.sent)
  {
    var loaded := shown.LoadAll(wanted);
    var seek := loaded.app.SeekGoto();
    SeekKeepsAgain(loaded.app);
    if snapshot in wanted {
      assert RequestFor(snapshot) in loaded.sent;
    } else if again {
      assert snapshot !in seek.app.inFlight;
      assert RequestFor(snapshot) in seek.app.LoadWhole(snapshot).sent;
    }
  }

  lemma AgainAfterOlder(a: AppState, bot: BotId, before: MessageId, page: Result<MessagePage>)
    requires AppInv(a) && a.signedIn && Older(bot) in a.inFlight
    ensures var outcome := a.ReplyOlder(bot, before, page);
            outcome.app.generation == a.generation ==> a.again <= outcome.app.again
  {
  }

  /** What the user does takes no load back. */
  lemma AgainAfterAction(a: AppState, bot: BotId, message: MessageId)
    ensures a.again <= a.OpenConversation(bot).app.again && a.again <= a.Back().app.again
    ensures a.again <= a.Refresh().app.again && a.again <= a.RefreshBots().app.again
    ensures a.again <= a.LoadOlderAction().app.again && a.again <= a.GoTo(message).app.again
  {
  }

  lemma HearingKeepsAsked(s: SystemState, snapshot: Snapshot)
    requires Inv(s) && s.queue != [] && snapshot in s.app.again
    ensures snapshot in Do(s, HearUpdate).app.again || Moot(s, Do(s, HearUpdate), snapshot)
  {
    AgainAfterHearing(s.app, s.queue[0].update);
  }

  lemma OlderKeepsAsked(s: SystemState, step: Step, snapshot: Snapshot)
    requires Inv(s) && step.AnswerOlder? && Allowed(s, step) && snapshot in s.app.again
    ensures snapshot in Do(s, step).app.again || Moot(s, Do(s, step), snapshot)
  {
    var sent := step.sent;
    if sent.generation == s.app.generation {
      assert SnapshotOf(sent.request) in s.app.inFlight;
      AgainAfterOlder(s.app, sent.request.bot, sent.request.before, step.page);
    }
  }

  lemma ActionKeepsAsked(s: SystemState, step: Step, snapshot: Snapshot)
    requires Allowed(s, step) && snapshot in s.app.again
    requires !step.HearUpdate? && !step.AnswerBots? && !step.AnswerNewest? && !step.AnswerOlder?
    ensures snapshot in Do(s, step).app.again || Moot(s, Do(s, step), snapshot)
  {
    match step {
      case OpenABot(bot) => AgainAfterAction(s.app, bot, 0);
      case Seek(message) => AgainAfterAction(s.app, 0, message);
      case _ => AgainAfterAction(s.app, 0, 0);
    }
  }

  /** A load to be sent again is kept until it is sent, whatever happens, or becomes moot. */
  lemma AskedAgainIsKept(s: SystemState, step: Step, snapshot: Snapshot)
    requires Inv(s) && Allowed(s, step) && snapshot in s.app.again
    ensures || snapshot in Do(s, step).app.again
            || RequestFor(snapshot) in Requests(s, step)
            || Moot(s, Do(s, step), snapshot)
  {
    match step {
      case HearUpdate => HearingKeepsAsked(s, snapshot);
      case AnswerBots(_, _, _) => AnswerSendsAgain(s, step, snapshot);
      case AnswerNewest(_, _, _) => AnswerSendsAgain(s, step, snapshot);
      case AnswerOlder(_, _, _) => OlderKeepsAsked(s, step, snapshot);
      case _ => ActionKeepsAsked(s, step, snapshot);
    }
  }

  /** The step answers this session's request for the snapshot. */
  predicate Answers(s: SystemState, step: Step, snapshot: Snapshot) {
    match step
    case AnswerBots(sent, _, _) => sent.generation == s.app.generation && snapshot == SnapshotOf(sent.request)
    case AnswerNewest(sent, _, _) => sent.generation == s.app.generation && snapshot == SnapshotOf(sent.request)
    case _ => false
  }

  /** The answer to the request in flight sends the load asked for meanwhile, even if it failed. */
  lemma AnswerSendsAgain(s: SystemState, step: Step, snapshot: Snapshot)
    requires Inv(s) && Allowed(s, step) && snapshot in s.app.again
    requires step.AnswerBots? || step.AnswerNewest?
    ensures || RequestFor(snapshot) in Requests(s, step)
            || Moot(s, Do(s, step), snapshot)
            || (!Answers(s, step, snapshot) && snapshot in Do(s, step).app.again)
  {
    match step {
      case AnswerBots(_, _, _) => ListSendsAgain(s, step, snapshot);
      case AnswerNewest(_, _, _) => NewestSendsAgain(s, step, snapshot);
    }
  }

  lemma ListSendsAgain(s: SystemState, step: Step, snapshot: Snapshot)
    requires Inv(s) && Allowed(s, step) && snapshot in s.app.again && step.AnswerBots?
    ensures || RequestFor(snapshot) in Requests(s, step)
            || Moot(s, Do(s, step), snapshot)
            || (!Answers(s, step, snapshot) && snapshot in Do(s, step).app.again)
  {
    hide AppInv, SocketInv, WireInv, ClaimsInv;
    if step.sent.generation == s.app.generation {
      Awaited(s, step.sent);
      AgainAfterList(s.app, step.bots);
    }
  }

  lemma NewestSendsAgain(s: SystemState, step: Step, snapshot: Snapshot)
    requires Inv(s) && Allowed(s, step) && snapshot in s.app.again && step.AnswerNewest?
    ensures || RequestFor(snapshot) in Requests(s, step)
            || Moot(s, Do(s, step), snapshot)
            || (!Answers(s, step, snapshot) && snapshot in Do(s, step).app.again)
  {
    hide AppInv, SocketInv, WireInv, ClaimsInv;
    if step.sent.generation == s.app.generation {
      Awaited(s, step.sent);
      AgainAfterNewest(s.app, step.sent.request.bot, step.page);
    }
  }

  // ---------------------------------------------------------------------
  // Whole runs

  /** Some step of the run, from the i-th on, sent the snapshot's request or made it moot. */
  ghost predicate ServedSince(steps: seq<Step>, i: nat, snapshot: Snapshot)
    requires IsRun(steps) && i <= |steps|
    decreases |steps|
  {
    i < |steps|
    && var before, step := steps[..|steps| - 1], steps[|steps| - 1];
       || ServedSince(before, i, snapshot)
       || RequestFor(snapshot) in Requests(StateAfter(before), step)
       || Moot(StateAfter(before), StateAfter(steps), snapshot)
  }

  /** Every step of a run was allowed where it was taken. */
  lemma {:induction false} RunsBegin(steps: seq<Step>, i: nat)
    requires IsRun(steps) && i < |steps|
    ensures IsRun(steps[..i]) && Allowed(StateAfter(steps[..i]), steps[i])
    decreases |steps|
  {
    if i < |steps| - 1 {
      var before := steps[..|steps| - 1];
      RunsBegin(before, i);
      assert before[..i] == steps[..i] && before[i] == steps[i];
    }
  }

  /** In every run, a load asked for is sent after the ask, or remembered, or moot. */
  lemma {:induction false} NoAskIsLost(steps: seq<Step>, i: nat, snapshot: Snapshot)
    requires IsRun(steps) && i < |steps|
    requires (RunsBegin(steps, i); snapshot in Asked(StateAfter(steps[..i]), steps[i]))
    ensures ServedSince(steps, i, snapshot) || snapshot in StateAfter(steps).app.again
    decreases |steps|
  {
    var before, step := steps[..|steps| - 1], steps[|steps| - 1];
    EveryRunKeepsInv(before);
    if i == |steps| - 1 {
      AskingSendsOrRemembers(StateAfter(before), step, snapshot);
    } else {
      assert before[..i] == steps[..i] && before[i] == steps[i];
      NoAskIsLost(before, i, snapshot);
      if !ServedSince(before, i, snapshot) {
        AskedAgainIsKept(StateAfter(before), step, snapshot);
      }
    }
  }

  /**
   In every run, the first answer to this session's request for the snapshot, after it
   was asked for, finds its request sent since, or sends it, or finds it moot.
   */
  lemma NextAnswerServes(steps: seq<Step>, i: nat, snapshot: Snapshot, answer: Step)
    requires IsRun(steps) && i < |steps|
    requires (RunsBegin(steps, i); snapshot in Asked(StateAfter(steps[..i]), steps[i]))
    requires Allowed(StateAfter(steps), answer) && Answers(StateAfter(steps), answer, snapshot)
    ensures IsRun(steps + [answer]) && ServedSince(steps + [answer], i, snapshot)
  {
    var run := steps + [answer];
    assert run[..|run| - 1] == steps;
    NoAskIsLost(steps, i, snapshot);
    EveryRunKeepsInv(steps);
    if !ServedSince(steps, i, snapshot) {
      AnswerSendsAgain(StateAfter(steps), answer, snapshot);
    }
  }

  // ---------------------------------------------------------------------
  // What failed

  /** Loading, or looking further for a message, leaves what failed as it was. */
  lemma LoadingKeepsFailures(a: AppState, snapshots: set<Snapshot>)
    requires forall snapshot :: snapshot in snapshots ==> !snapshot.Older?
    ensures var after := a.LoadAll(snapshots).app;
            && after.signedIn == a.signedIn && after.botsError == a.botsError && after.open == a.open
            && after.inFlight == a.inFlight + snapshots
  {
  }

  lemma SeekingKeepsFailures(a: AppState)
    ensures var after := a.SeekGoto().app;
            && after.botsError == a.botsError && after.OpenBot() == a.OpenBot()
            && (a.open.Some? ==> after.open.value.error == a.open.value.error
                                 && after.open.value.olderError == a.open.value.olderError)
  {
  }

  /**
   After an answer the list shows that it failed exactly if that answer failed, and no load
   follows it or it had failed before.
   */
  lemma ListFailureShows(a: AppState, bots: Result<BotList>)
    requires a.signedIn && Bots in a.inFlight && !bots.Unauthenticated?
    ensures var after := a.ReplyBots(bots).app;
            after.botsError <==> bots.NotLoaded? && (a.botsError || Bots !in after.inFlight)
  {
  }

  /** So does the conversation on screen; and a page that comes forgets that an older one failed. */
  lemma NewestFailureShows(a: AppState, bot: BotId, page: Result<MessagePage>)
    requires a.signedIn && Messages(bot) in a.inFlight && a.OpenBot() == Some(bot) && !page.Unauthenticated?
    ensures var after := a.ReplyMessages(bot, page).app;
            && after.OpenBot() == Some(bot)
            && (after.open.value.error
                <==> page.NotLoaded? && (a.open.value.error || Messages(bot) !in after.inFlight))
            && (after.open.value.olderError <==> page.NotLoaded? && a.open.value.olderError)
  {
    if page.Loaded? {
      hide AppState.SeekGoto, AppState.LoadAll, StoreState.LoadMessages;
      var applied := a.store.LoadMessages(bot, page.page);
      var shown := a.Answered(Messages(bot)).(store := applied.store,
                                              open := Some(a.open.value.(error := false, olderError := false)));
      LoadingKeepsFailures(shown, applied.reload);
      var sought := shown.LoadAll(applied.reload).app;
      SeekingKeepsFailures(sought);
      LoadingKeepsFailures(sought.SeekGoto().app, {Messages(bot)});
    }
  }

  /** An older page shows that it failed until one comes, or the user asks again. */
  lemma OlderFailureShows(a: AppState, bot: BotId, before: MessageId, page: Result<MessagePage>)
    requires a.signedIn && Older(bot) in a.inFlight && a.OpenBot() == Some(bot) && !page.Unauthenticated?
    ensures var after := a.ReplyOlder(bot, before, page).app;
            after.OpenBot() == Some(bot) && (after.open.value.olderError <==> page.NotLoaded?)
  {
    if page.Loaded? {
      hide AppState.SeekGoto, AppState.LoadOlderPage, StoreState.LoadOlder;
      var applied := a.store.LoadOlder(bot, before, page.page);
      var merged := a.(inFlight := a.inFlight - {Older(bot)}, store := applied.store,
                       open := Some(a.open.value.(olderError := false)));
      AskingKeepsFailures(merged, bot);
      SeekingKeepsFailures(merged);
      SeekingKeepsFailures(merged.LoadOlderPage(bot).app);
    }
  }

  lemma AskingKeepsFailures(a: AppState, bot: BotId)
    ensures a.LoadOlderPage(bot).app.open == a.open
  {
  }
}
