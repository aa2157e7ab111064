/**
 What the convergence theorems come to for someone who sees the application: a link that
 is live, nothing left to hear, and a conversation or list that neither loads nor failed.
 */
module LiveClient {
  import opened Protocol
  import opened ServerLog
  import opened StoreModel
  import opened Copies
  import opened BotLog
  import opened BotCopies
  import opened ConnectionModel
  import opened Delivery
  import opened AppModel
  import opened System
  import opened Convergence
  import opened BotListConvergence

  /** A connection that counts as synced has told the application to reload, or is about to. */
  ghost predicate SyncInv(s: SystemState) {
    s.driver.connection.synced ==> s.synced || AsksForSnapshots(s.queue)
  }

  lemma ActKeepsSync(s: SystemState, outcome: Outcome)
    requires SyncInv(s)
    ensures SyncInv(Act(s, outcome))
  {
  }

  lemma SocketKeepsSync(s: SystemState, input: Input)
    requires SyncInv(s) && Valid(s.driver.connection)
    ensures SyncInv(s.(driver := s.driver.Handle(input), queue := s.queue + Stamped(s.driver, input)))
  {
    if s.driver.Handle(input).connection.synced && !s.synced {
      if !s.driver.connection.synced {
        SyncingAsks(s.driver, input);
      }
      AsksThen(s.queue, Stamped(s.driver, input));
    }
  }

  lemma HeardKeepsSync(s: SystemState)
    requires SyncInv(s) && s.queue != []
    ensures SyncInv(Heard(s))
  {
    if s.driver.connection.synced && !Heard(s).synced {
      var i :| 0 <= i < |s.queue| && s.queue[i].update.ReloadUpdate?;
      assert s.queue[1..][i - 1].update.ReloadUpdate?;
    }
  }

  /** The step answers a request. */
  predicate IsAnswer(step: Step) {
    step.AnswerBots? || step.AnswerNewest? || step.AnswerOlder?
  }

  lemma AnswerKeepsSync(s: SystemState, step: Step)
    requires SyncInv(s) && Allowed(s, step) && IsAnswer(step)
    ensures SyncInv(Do(s, step))
  {
    hide SyncInv;
    var answered := s.(wire := s.wire - {step.sent});
    SameSocketKeepsSync(s, answered);
    match step {
      case AnswerBots(sent, bots, p) =>
        SameSocketKeepsSync(s, PagedList(answered, bots, p));
        ActKeepsSync(PagedList(answered, bots, p), s.app.ReplyBots(bots));
      case AnswerNewest(sent, page, p) =>
        SameSocketKeepsSync(s, Paged(answered, sent.request.bot, page, p));
        ActKeepsSync(answered, s.app.ReplyMessages(sent.request.bot, page));
        ActKeepsSync(Paged(answered, sent.request.bot, page, p), s.app.ReplyMessages(sent.request.bot, page));
      case AnswerOlder(sent, page, p) =>
        SameSocketKeepsSync(s, PagedOlder(answered, page, p));
        ActKeepsSync(answered, s.app.ReplyOlder(sent.request.bot, sent.request.before, page));
        ActKeepsSync(PagedOlder(answered, page, p), s.app.ReplyOlder(sent.request.bot, sent.request.before, page));
    }
  }

  lemma SameSocketKeepsSync(s: SystemState, t: SystemState)
    requires SyncInv(s) && t.driver == s.driver && t.queue == s.queue && t.synced == s.synced
    ensures SyncInv(t)
  {
  }

  lemma StepKeepsSync(s: SystemState, step: Step)
    requires SyncInv(s) && Valid(s.driver.connection) && Allowed(s, step)
    ensures SyncInv(Do(s, step))
  {
    hide AsksForSnapshots;
    if IsAnswer(step) {
      AnswerKeepsSync(s, step);
    } else {
      match step {
        case SocketInput(input) => SocketKeepsSync(s, input);
        case HearUpdate =>
          HeardKeepsSync(s);
          ActKeepsSync(Heard(s), s.app.HearSocket(s.queue[0].update));
        case _ =>
      }
    }
  }

  lemma {:induction false} EveryRunKeepsSync(steps: seq<Step>)
    requires IsRun(steps)
    ensures SyncInv(StateAfter(steps))
    decreases |steps|
  {
    if steps != [] {
      EveryRunKeepsSync(steps[..|steps| - 1]);
      EveryRunKeepsInv(steps[..|steps| - 1]);
      StepKeepsSync(StateAfter(steps[..|steps| - 1]), steps[|steps| - 1]);
    }
  }

  /**
   In every run, once a live connection's updates are all heard, the application has
   heard a reload, and stands where the connection does.
   */
  lemma LiveAndHeardIsSynced(steps: seq<Step>)
    requires IsRun(steps)
    requires StateAfter(steps).driver.connection.phase.LivePhase? && StateAfter(steps).queue == []
    ensures StateAfter(steps).synced && StateAfter(steps).position.Some?
    ensures StateAfter(steps).position == StateAfter(steps).driver.connection.last
  {
    EveryRunKeepsSync(steps);
    EveryRunKeepsInv(steps);
  }

  /** The link is live, and the application has heard all it posted. */
  predicate IsUpToDate(s: SystemState) {
    s.app.signedIn && s.driver.connection.phase.LivePhase? && s.queue == []
  }

  /**
   Convergence, from what can be seen: in every run, with the link live and its updates
   heard, a conversation on screen that is not loading and whose load did not fail has
   every message from its cursor on, each with the gateway's author, text and state where the
   client stands or at a later position its pages showed; and once the connection is at
   the log's end, exactly the gateway's.
   */
  lemma LiveConversationIsTheGateways(steps: seq<Step>, id: MessageId)
    requires IsRun(steps) && IsUpToDate(StateAfter(steps))
    requires StateAfter(steps).app.open.Some? && !StateAfter(steps).app.open.value.error
    requires Messages(StateAfter(steps).app.open.value.bot) !in StateAfter(steps).app.inFlight
    ensures var s := StateAfter(steps);
            var bot := s.app.open.value.bot;
            && bot in s.app.store.conversations
            && var c := s.app.store.conversations[bot];
               && HoldsAll(s.log, bot, c, StandsAt(s, c))
               && HoldsShown(s.log, bot, c, StandsAt(s, c), Max(StandsAt(s, c), s.shown))
               && (s.driver.connection.last == Some(|s.log|) ==>
                     && (Has(s.log, |s.log|, bot, id) && From(c.older, id) ==> id in c.messages)
                     && (id in c.messages && c.messages[id].bot == bot ==> ShownAt(s.log, |s.log|, c.messages[id])))
  {
    var s := StateAfter(steps);
    LiveAndHeardIsSynced(steps);
    SettledConversationConverges(steps);
    if s.driver.connection.last == Some(|s.log|) {
      CaughtUpConversationIsTheGateways(steps, id);
    }
  }

  /** So it is of the Bot list. */
  lemma LiveListIsTheGateways(steps: seq<Step>)
    requires IsRun(steps) && IsUpToDate(StateAfter(steps))
    requires !StateAfter(steps).app.botsError && Bots !in StateAfter(steps).app.inFlight
    ensures var s := StateAfter(steps);
            && s.app.store.botsUpTo.Some?
            && ListRight(s.log, ListStandsAt(s), Max(ListStandsAt(s), s.listShown), EntriesOf(s.app.store.bots))
            && (s.driver.connection.last == Some(|s.log|) ==>
                  EntriesOf(s.app.store.bots) == FoldList(s.log, |s.log|))
  {
    var s := StateAfter(steps);
    LiveAndHeardIsSynced(steps);
    SettledListConverges(steps);
    if s.driver.connection.last == Some(|s.log|) {
      CaughtUpListIsTheGateways(steps);
    }
  }
}
