/**
 Other Bots' messages in a settled conversation, through every run of the whole system:
 which they are, and at which position they show the log for as long as its page stays.
 */
module Strays {
  import opened Protocol
  import opened ServerLog
  import opened StoreModel
  import opened Copies
  import opened AppModel
  import opened AppProofs
  import opened System
  import opened Convergence

  /** Another Bot's message that was created, or whose reply ended, after i events and by n. */
  ghost predicate Strayed(log: seq<Event>, bot: BotId, i: nat, n: nat, id: MessageId) {
    && i <= n <= |log| && id in Fold(log, n) && Fold(log, n)[id].bot != bot
    && (id !in Fold(log, i) || (Fold(log, i)[id].state.Streaming? && !Fold(log, n)[id].state.Streaming?))
  }

  /**
   Of the other Bots' messages a copy has all that strayed between its page and `at`, and
   none but what strayed by `top`; each shows the log somewhere from `at` to `top`.
   */
  ghost predicate StraysRight(log: seq<Event>, bot: BotId, upTo: nat, messages: MessageMap, at: nat, top: nat) {
    && upTo <= at <= top <= |log|
    && (forall id :: Strayed(log, bot, upTo, at, id) ==> id in messages)
    && (forall id :: id in messages && messages[id].bot != bot ==>
          && messages[id].id == id && Strayed(log, bot, upTo, top, id)
          && exists q :: at <= q <= top && ShownAt(log, q, messages[id]))
  }

  // ---------------------------------------------------------------------
  // A page and the events held while it loaded

  lemma StrayedLater(log: seq<Event>, bot: BotId, i: nat, n: nat, m: nat, id: MessageId)
    requires WellFormed(log) && Strayed(log, bot, i, n, id) && n <= m <= |log|
    ensures Strayed(log, bot, i, m, id)
  {
    MessagesGrow(log, n, m, id);
  }

  /** A message that strays with the next event is in the copy that receives it. */
  lemma NextStrayIsIn(log: seq<Event>, bot: BotId, i: nat, messages: MessageMap, k: nat, id: MessageId)
    requires WellFormed(log) && i <= k < |log| && Strayed(log, bot, i, k + 1, id) && !Strayed(log, bot, i, k, id)
    ensures id in Receive(messages, log[k]).messages
  {
    if id in Fold(log, k) {
      MessagesGrow(log, k, k + 1, id);
    } else if id in Fold(log, i) {
      MessagesGrow(log, i, k, id);
    }
    NextEventIsIn(log, messages, k, id);
  }

  /** An event that adds another Bot's message is one by which it strays. */
  lemma AddedStrays(log: seq<Event>, bot: BotId, i: nat, messages: MessageMap, id: MessageId, j: nat)
    requires WellFormed(log) && i < j <= |log| && id !in messages && id in Receive(messages, log[j - 1]).messages
    requires Receive(messages, log[j - 1]).messages[id].bot != bot
    ensures Strayed(log, bot, i, j, id)
  {
    AddedMessage(log, messages, id, j);
    assert FollowsAt(log, j - 1);
    if id in Fold(log, i) {
      MessagesGrow(log, i, j - 1, id);
    }
  }

  /** One of another Bot's messages, after an event is received. */
  lemma StrayAfter(log: seq<Event>, bot: BotId, upTo: nat, messages: MessageMap, at: nat, top: nat, j: nat,
                   id: MessageId)
    requires WellFormed(log) && StraysRight(log, bot, upTo, messages, at, top) && Genuine(log, messages)
    requires upTo < j <= |log| && id in Receive(messages, log[j - 1]).messages
    requires Receive(messages, log[j - 1]).messages[id].bot != bot
    ensures Strayed(log, bot, upTo, Max(top, j), id)
    ensures var after := Receive(messages, log[j - 1]).messages;
            exists q :: Next(at, j) <= q <= Max(top, j) && ShownAt(log, q, after[id])
  {
    ReceiveKeepsGenuine(log, messages, j);
    if id in messages {
      StrayedLater(log, bot, upTo, top, Max(top, j), id);
      var q :| at <= q <= top && ShownAt(log, q, messages[id]);
      var q' := HeldMessageAfter(log, messages, id, q, j);
      assert Next(at, j) <= q';
    } else {
      AddedMessage(log, messages, id, j);
      AddedStrays(log, bot, upTo, messages, id, j);
      StrayedLater(log, bot, upTo, j, Max(top, j), id);
      if j <= at {
        StrayedLater(log, bot, upTo, j, at, id);
      }
    }
  }

  lemma ReceiveKeepsStrays(log: seq<Event>, bot: BotId, upTo: nat, messages: MessageMap, at: nat, top: nat, j: nat)
    requires WellFormed(log) && StraysRight(log, bot, upTo, messages, at, top) && Genuine(log, messages)
    requires upTo < j <= |log|
    ensures StraysRight(log, bot, upTo, Receive(messages, log[j - 1]).messages, Next(at, j), Max(top, j))
  {
    var after := Receive(messages, log[j - 1]).messages;
    ReceiveKeepsIds(messages, log[j - 1]);
    forall id | Strayed(log, bot, upTo, Next(at, j), id)
      ensures id in after
    {
      if !Strayed(log, bot, upTo, at, id) {
        NextStrayIsIn(log, bot, upTo, messages, at, id);
      }
    }
    ReceiveKeepsGenuine(log, messages, j);
    forall id | id in after && after[id].bot != bot
      ensures Strayed(log, bot, upTo, Max(top, j), id)
      ensures exists q :: Next(at, j) <= q <= Max(top, j) && ShownAt(log, q, after[id])
    {
      StrayAfter(log, bot, upTo, messages, at, top, j, id);
    }
  }

  lemma NothingStrays(log: seq<Event>, bot: BotId, upTo: nat, messages: MessageMap)
    requires upTo <= |log| && OnlyOf(messages, bot)
    ensures StraysRight(log, bot, upTo, messages, upTo, upTo)
  {
  }

  /** Replaying held events onto a page of one Bot's messages takes in the others' as far as they reach. */
  lemma {:induction false} ReplayKeepsStrays(log: seq<Event>, bot: BotId, upTo: nat, messages: MessageMap,
                                             events: seq<Envelope>)
    requires WellFormed(log) && FromLog(log, events) && upTo <= |log|
    requires Genuine(log, messages) && OnlyOf(messages, bot)
    ensures StraysRight(log, bot, upTo, Replay(messages, upTo, events).messages,
                        Reached(upTo, events), Furthest(upTo, upTo, events))
    decreases |events|
  {
    hide WellFormed, StraysRight;
    if events == [] {
      NothingStrays(log, bot, upTo, messages);
    } else {
      var before, last := events[..|events| - 1], events[|events| - 1];
      ReplayKeepsStrays(log, bot, upTo, messages, before);
      ReplayGoesOn(messages, upTo, upTo, events);
      ReplayMixesBots(log, bot, messages, upTo, before);
      if upTo < last.number {
        ReceiveKeepsStrays(log, bot, upTo, Replay(messages, upTo, before).messages,
                           Reached(upTo, before), Furthest(upTo, upTo, before), last.number);
      }
    }
  }

  lemma StraysMoreWidely(log: seq<Event>, bot: BotId, upTo: nat, messages: MessageMap, at: nat, top: nat,
                         i: nat, wide: nat)
    requires WellFormed(log) && StraysRight(log, bot, upTo, messages, at, top)
    requires upTo <= i <= at && top <= wide <= |log|
    ensures StraysRight(log, bot, upTo, messages, i, wide)
  {
    forall id | Strayed(log, bot, upTo, i, id)
      ensures id in messages
    {
      StrayedLater(log, bot, upTo, i, at, id);
    }
    forall id | id in messages && messages[id].bot != bot
      ensures Strayed(log, bot, upTo, wide, id)
      ensures exists q :: i <= q <= wide && ShownAt(log, q, messages[id])
    {
      StrayedLater(log, bot, upTo, top, wide, id);
      var q :| at <= q <= top && ShownAt(log, q, messages[id]);
    }
  }

  /** A page loaded with enough held has the others' messages right where the client stands. */
  lemma LoadedStraysAreRight(log: seq<Event>, bot: BotId, page: MessagePage, p: nat,
                             held: seq<Envelope>, floor: nat, at: nat)
    requires WellFormed(log) && ShowsLog(log, bot, None, page, p) && floor <= page.upTo <= p
    requires FromLog(log, held) && HeldSince(held, floor, at) && at <= |log|
    ensures var k := Max(at, page.upTo);
            StraysRight(log, bot, page.upTo, Replay(page.messages, page.upTo, held).messages,
                        k, Max(k, Furthest(page.upTo, page.upTo, held)))
  {
    PageIsGenuine(log, bot, None, page, p);
    ReplayKeepsStrays(log, bot, page.upTo, page.messages, held);
    HeldReachesPosition(held, floor, page.upTo, at);
    var k, top := Max(at, page.upTo), Furthest(page.upTo, page.upTo, held);
    StraysMoreWidely(log, bot, page.upTo, Replay(page.messages, page.upTo, held).messages,
                     Reached(page.upTo, held), top, k, Max(k, top));
  }

  // ---------------------------------------------------------------------
  // After the page

  /** An event of the conversation's own Bot reaches no other Bot's message. */
  lemma OwnEventKeepsStrays(log: seq<Event>, bot: BotId, upTo: nat, messages: MessageMap, at: nat, top: nat, j: nat)
    requires WellFormed(log) && StraysRight(log, bot, upTo, messages, at, top) && Genuine(log, messages)
    requires 0 < j <= |log| && MessageBot(log[j - 1]) == Some(bot)
    ensures StraysRight(log, bot, upTo, Receive(messages, log[j - 1]).messages, at, top)
  {
    var event := log[j - 1];
    var after := Receive(messages, event).messages;
    ReceiveKeepsIds(messages, event);
    forall id | id in after && after[id].bot != bot
      ensures id in messages && after[id] == messages[id]
    {
      if event.MessageDelta? && event.messageId == id {
        assert FollowsAt(log, j - 1);
        MessagesGrow(log, j - 1, |log|, id);
      }
    }
  }

  /** Nor do earlier messages of that Bot, joined to the copy. */
  lemma JoiningKeepsStrays(log: seq<Event>, bot: BotId, upTo: nat, messages: MessageMap, added: MessageMap,
                           at: nat, top: nat)
    requires StraysRight(log, bot, upTo, messages, at, top) && OnlyOf(added, bot)
    ensures StraysRight(log, bot, upTo, messages + added, at, top)
  {
    forall id | id in messages + added && (messages + added)[id].bot != bot
      ensures id in messages && (messages + added)[id] == messages[id]
    {
    }
  }

  lemma CommitKeepsStrays(log: seq<Event>, more: seq<Event>, bot: BotId, upTo: nat, messages: MessageMap,
                          at: nat, top: nat)
    requires StraysRight(log, bot, upTo, messages, at, top)
    ensures StraysRight(log + more, bot, upTo, messages, at, top)
  {
    FoldOfPrefixes(log, more);
    forall id | Strayed(log + more, bot, upTo, at, id)
      ensures id in messages
    {
      assert Strayed(log, bot, upTo, at, id);
    }
    forall id | id in messages && messages[id].bot != bot
      ensures Strayed(log + more, bot, upTo, top, id)
      ensures exists q :: at <= q <= top && ShownAt(log + more, q, messages[id])
    {
      assert Strayed(log, bot, upTo, top, id);
      var q :| at <= q <= top && ShownAt(log, q, messages[id]);
      assert ShownAt(log + more, q, messages[id]);
    }
  }

  // ---------------------------------------------------------------------
  // Every step

  /** A settled conversation has the others' messages as its page took them in. */
  ghost predicate StrayInv(s: SystemState) {
    IsSettled(s) ==>
      var bot := s.app.open.value.bot;
      && bot in s.app.store.conversations
      && var c := s.app.store.conversations[bot];
         StraysRight(s.log, bot, c.upTo, c.messages, s.pageAt, s.pageTo)
  }

  /** The application's part of a settled conversation. */
  predicate Rests(a: AppState) {
    && a.signedIn && a.open.Some? && !a.open.value.error
    && Messages(a.open.value.bot) !in a.inFlight
  }

  /** The conversation rests after only if it did before, and then keeps its page and messages. */
  predicate LeavesCopy(a: AppState, b: AppState) {
    Rests(b) ==>
      && Rests(a) && a.open.value.bot == b.open.value.bot && a.generation == b.generation
      && var bot := b.open.value.bot;
         bot in a.store.conversations ==>
           && bot in b.store.conversations
           && b.store.conversations[bot].upTo == a.store.conversations[bot].upTo
           && b.store.conversations[bot].messages == a.store.conversations[bot].messages
  }

  lemma LeavesCopyThen(a: AppState, b: AppState, c: AppState)
    requires LeavesCopy(a, b) && LeavesCopy(b, c)
    ensures LeavesCopy(a, c)
  {
  }

  /** The same log and showing. */
  predicate SameShowing(s: SystemState, t: SystemState) {
    && t.log == s.log && t.pageAt == s.pageAt && t.pageTo == s.pageTo
    && (t.synced && Rests(t.app) ==> s.synced)
  }

  lemma LeavingKeepsStrays(s: SystemState, t: SystemState)
    requires StrayInv(s) && SameShowing(s, t) && LeavesCopy(s.app, t.app)
    ensures StrayInv(t)
  {
    if IsSettled(t) {
      assert Rests(t.app);
    }
  }

  lemma LoadingLeavesCopy(a: AppState, outcome: Outcome)
    requires LoadsMore(a, outcome)
    ensures LeavesCopy(a, outcome.app)
  {
  }

  /** What acting leaves of the copy. */
  lemma ActKeepsStrays(s: SystemState, t: SystemState, outcome: Outcome)
    requires StrayInv(s) && SameShowing(s, t.(app := outcome.app)) && LeavesCopy(s.app, outcome.app)
    ensures StrayInv(Act(t, outcome))
  {
    LeavingKeepsStrays(s, Act(t, outcome));
  }

  lemma EventKeepsStrays(s: SystemState)
    requires Inv(s) && StrayInv(s) && s.app.signedIn && s.queue != [] && s.queue[0].update.EventUpdate?
    ensures StrayInv(EventHeard(s))
  {
    var after, envelope := EventHeard(s), s.queue[0].update.envelope;
    HeardKeepsSocket(s);
    EventInStore(s.app.store, envelope);
    if IsSettled(after) {
      var bot := s.app.open.value.bot;
      var c := s.app.store.conversations[bot];
      if MessageBot(envelope.event) == Some(bot) && c.upTo < envelope.number {
        OwnEventKeepsStrays(s.log, bot, c.upTo, c.messages, s.pageAt, s.pageTo, envelope.number);
      }
    }
  }

  lemma EventHeardKeepsStrays(s: SystemState)
    requires Inv(s) && StrayInv(s) && s.app.signedIn && s.queue != [] && s.queue[0].update.EventUpdate?
    ensures StrayInv(Do(s, HearUpdate))
  {
    var heard, outcome := EventHeard(s), s.app.HearSocket(s.queue[0].update);
    EventKeepsStrays(s);
    var reload := EventReloads(s.app, s.queue[0].update.envelope);
    LoadingLeavesCopy(heard.app, outcome);
    ActKeepsStrays(heard, heard, outcome);
    assert Do(s, HearUpdate) == Act(heard, outcome);
  }

  lemma HearKeepsStrays(s: SystemState)
    requires Inv(s) && StrayInv(s) && s.queue != []
    ensures StrayInv(Do(s, HearUpdate))
  {
    var update, outcome := s.queue[0].update, s.app.HearSocket(s.queue[0].update);
    if s.app.signedIn && update.EventUpdate? {
      EventHeardKeepsStrays(s);
    } else {
      if s.app.signedIn && update.LinkUpdate? {
        LoadAllLoadsMore(s.app, s.app.FailedLoads());
      }
      assert LeavesCopy(s.app, outcome.app);
      ActKeepsStrays(s, Heard(s), outcome);
    }
  }

  // ---------------------------------------------------------------------
  // Answers

  lemma ListInLoadsMore(a: AppState, page: BotList)
    requires AppInv(a) && a.signedIn && Bots in a.inFlight
    ensures LoadsMore(ListShown(a, page), a.ReplyBots(Loaded(page)))
  {
    hide AppInv, LoadsMore;
    ListSteps(a, page);
    var shown, wanted := ListShown(a, page), ReloadsOfList(a.store, page);
    LoadAllLoadsMore(shown, wanted);
    ThenAgainLoadsMore(shown, shown.LoadAll(wanted), Bots in a.again, Bots);
  }

  lemma ListShownLeavesCopy(a: AppState, page: BotList)
    ensures LeavesCopy(a, ListShown(a, page))
  {
  }

  lemma ListInLeavesCopy(a: AppState, page: BotList)
    requires AppInv(a) && a.signedIn && Bots in a.inFlight
    ensures LeavesCopy(a, a.ReplyBots(Loaded(page)).app)
  {
    hide LeavesCopy, LoadsMore;
    ListInLoadsMore(a, page);
    LoadingLeavesCopy(ListShown(a, page), a.ReplyBots(Loaded(page)));
    ListShownLeavesCopy(a, page);
    LeavesCopyThen(a, ListShown(a, page), a.ReplyBots(Loaded(page)).app);
  }

  lemma ListReplyLeavesCopy(a: AppState, bots: Result<BotList>)
    requires AppInv(a) && a.signedIn && Bots in a.inFlight
    ensures LeavesCopy(a, a.ReplyBots(bots).app)
  {
    match bots {
      case Loaded(page) => ListInLeavesCopy(a, page);
      case Unauthenticated =>
      case NotLoaded =>
        if Bots in a.again {
          AgainAfterFailure(a, Bots);
        } else {
          FailedListLeavesScreen(a);
        }
    }
  }

  lemma AnswerBotsKeepsStrays(s: SystemState, sent: Sent, bots: Result<BotList>, p: nat)
    requires Inv(s) && StrayInv(s) && Allowed(s, AnswerBots(sent, bots, p))
    ensures StrayInv(Do(s, AnswerBots(sent, bots, p)))
  {
    if sent.generation == s.app.generation {
      Awaited(s, sent);
      ListReplyLeavesCopy(s.app, bots);
      ActKeepsStrays(s, PagedList(s.(wire := s.wire - {sent}), bots, p), s.app.ReplyBots(bots));
    }
  }

  /** A newest page that comes in, and is not loaded again, has the others' messages right. */
  lemma NewestInKeepsStrays(s: SystemState, sent: Sent, page: MessagePage, p: nat)
    requires Inv(s) && Allowed(s, AnswerNewest(sent, Loaded(page), p))
    requires sent.generation == s.app.generation && s.app.signedIn && s.app.OpenBot() == Some(sent.request.bot)
    requires Messages(sent.request.bot) !in s.app.again && Messages(sent.request.bot) !in s.app.store.stale
    ensures StrayInv(NewestIn(s, sent, page, p))
  {
    if s.synced {
      LoadedStraysAreRight(s.log, sent.request.bot, page, p, s.app.store.held, sent.floor, At(s.position));
    }
  }

  lemma NewestAnswerKeepsStrays(s: SystemState, sent: Sent, page: MessagePage, p: nat)
    requires Inv(s) && Allowed(s, AnswerNewest(sent, Loaded(page), p))
    requires sent.generation == s.app.generation && s.app.OpenBot() == Some(sent.request.bot)
    ensures StrayInv(Do(s, AnswerNewest(sent, Loaded(page), p)))
  {
    var bot := sent.request.bot;
    var outcome := s.app.ReplyMessages(bot, Loaded(page));
    Awaited(s, sent);
    NewestReplyLoadsMore(s.app, bot, page);
    var paged := NewestIn(s, sent, page, p);
    assert Do(s, AnswerNewest(sent, Loaded(page), p)) == Act(paged, outcome);
    if Messages(bot) !in s.app.again && Messages(bot) !in s.app.store.stale {
      NewestInKeepsStrays(s, sent, page, p);
      LoadingLeavesCopy(paged.app, outcome);
      ActKeepsStrays(paged, paged, outcome);
    }
  }

  /** A newest page that failed leaves no conversation resting that did not. */
  lemma FailedPageLeavesCopy(a: AppState, bot: BotId)
    requires AppInv(a) && a.signedIn && Messages(bot) in a.inFlight && a.OpenBot() == Some(bot)
    ensures LeavesCopy(a, a.ReplyMessages(bot, NotLoaded).app)
  {
    if Messages(bot) in a.again {
      AgainAfterFailure(a, Messages(bot));
    } else {
      NewestFailedLeaves(a, bot);
    }
  }

  lemma AnswerNewestKeepsStrays(s: SystemState, sent: Sent, page: Result<MessagePage>, p: nat)
    requires Inv(s) && StrayInv(s) && Allowed(s, AnswerNewest(sent, page, p))
    ensures StrayInv(Do(s, AnswerNewest(sent, page, p)))
  {
    var bot := sent.request.bot;
    if sent.generation == s.app.generation {
      Awaited(s, sent);
      var answered, outcome := s.(wire := s.wire - {sent}), s.app.ReplyMessages(bot, page);
      if page.Loaded? && s.app.OpenBot() == Some(bot) {
        NewestAnswerKeepsStrays(s, sent, page.page, p);
      } else {
        if page.NotLoaded? && s.app.OpenBot() == Some(bot) {
          FailedPageLeavesCopy(s.app, bot);
        }
        assert LeavesCopy(s.app, outcome.app);
        ActKeepsStrays(s, answered, outcome);
      }
    }
  }

  lemma OlderMergedKeepsStrays(s: SystemState, sent: Sent, page: MessagePage, p: nat)
    requires Inv(s) && StrayInv(s) && Allowed(s, AnswerOlder(sent, Loaded(page), p))
    requires sent.generation == s.app.generation && s.app.OpenBot() == Some(sent.request.bot)
    ensures StrayInv(OlderMerged(s, sent, page, p))
  {
    var bot, before := sent.request.bot, sent.request.before;
    if IsSettled(OlderMerged(s, sent, page, p)) {
      assert IsSettled(s);
      OlderInStore(s.app.store, bot, before, page);
      PageIsGenuine(s.log, bot, Some(before), page, p);
      var c, earlier := s.app.store.conversations[bot], s.app.store.Earlier(bot, before, page);
      OlderKeepsBots(s.log, bot, earlier, page.upTo, s.app.store.held);
      JoiningKeepsStrays(s.log, bot, c.upTo, c.messages, ReplayOlder(earlier, page.upTo, s.app.store.held).messages,
                         s.pageAt, s.pageTo);
    }
  }

  lemma OlderAnswerKeepsStrays(s: SystemState, sent: Sent, page: MessagePage, p: nat)
    requires Inv(s) && StrayInv(s) && Allowed(s, AnswerOlder(sent, Loaded(page), p))
    requires sent.generation == s.app.generation && s.app.OpenBot() == Some(sent.request.bot)
    ensures StrayInv(Do(s, AnswerOlder(sent, Loaded(page), p)))
  {
    hide SocketInv, AppInv, WireInv, NewestPending, CopyInv, OlderPending, WellFormed, StrayInv;
    var bot, before := sent.request.bot, sent.request.before;
    var merged, outcome := OlderMerged(s, sent, page, p), s.app.ReplyOlder(bot, before, Loaded(page));
    Awaited(s, sent);
    OlderMergedKeepsStrays(s, sent, page, p);
    OlderReplyLoadsMore(s.app, bot, before, page);
    LoadingLeavesCopy(merged.app, outcome);
    ActKeepsStrays(merged, merged, outcome);
    assert Do(s, AnswerOlder(sent, Loaded(page), p)) == Act(merged, outcome);
  }

  lemma AnswerOlderKeepsStrays(s: SystemState, sent: Sent, page: Result<MessagePage>, p: nat)
    requires Inv(s) && StrayInv(s) && Allowed(s, AnswerOlder(sent, page, p))
    ensures StrayInv(Do(s, AnswerOlder(sent, page, p)))
  {
    hide SocketInv, WireInv, NewestPending, CopyInv, OlderPending, WellFormed;
    var bot, before := sent.request.bot, sent.request.before;
    if sent.generation == s.app.generation {
      Awaited(s, sent);
      if page.Loaded? && s.app.OpenBot() == Some(bot) {
        OlderAnswerKeepsStrays(s, sent, page.page, p);
      } else {
        if page.NotLoaded? && s.app.OpenBot() == Some(bot) {
          FailedOlderLeavesScreen(s.app, bot, before);
        }
        var outcome := s.app.ReplyOlder(bot, before, page);
        assert LeavesCopy(s.app, outcome.app);
        ActKeepsStrays(s, s.(wire := s.wire - {sent}), outcome);
      }
    }
  }

  // ---------------------------------------------------------------------
  // The user and the whole run

  lemma OpeningLeavesCopy(a: AppState, bot: BotId)
    requires AppInv(a) && a.signedIn
    ensures LeavesCopy(a, a.OpenConversation(bot).app)
  {
    if bot in a.store.bots && a.OpenBot() != Some(bot) {
      OpeningLeaves(a, bot);
    }
  }

  lemma MoreLeavesCopy(a: AppState, message: MessageId)
    requires AppInv(a) && a.signedIn
    ensures LeavesCopy(a, a.LoadOlderAction().app) && LeavesCopy(a, a.GoTo(message).app)
  {
    if a.open.Some? {
      var cleared := a.WithOpen(a.open.value.(olderError := false));
      LoadOlderLoadsMore(cleared, a.open.value.bot);
      LoadingLeavesCopy(cleared, cleared.LoadOlderPage(a.open.value.bot));
      var sought := a.WithOpen(a.open.value.(goto := Some(message), gotoPages := 0));
      SeekLoadsMore(sought);
      LoadingLeavesCopy(sought, sought.SeekGoto());
    }
  }

  lemma RefreshingLeavesCopy(a: AppState)
    requires AppInv(a) && a.signedIn
    ensures LeavesCopy(a, a.Refresh().app) && LeavesCopy(a, a.RefreshBots().app)
  {
    LoadAllLoadsMore(a, {Bots});
    LoadingLeavesCopy(a, a.RefreshBots());
  }

  lemma ActionKeepsStrays(s: SystemState, step: Step, outcome: Outcome)
    requires Inv(s) && StrayInv(s) && s.app.signedIn
    requires match step
             case OpenABot(bot) => outcome == s.app.OpenConversation(bot)
             case GoBack => outcome == s.app.Back()
             case RefreshOpen => outcome == s.app.Refresh()
             case RefreshList => outcome == s.app.RefreshBots()
             case LoadMore => outcome == s.app.LoadOlderAction()
             case Seek(message) => outcome == s.app.GoTo(message)
             case _ => false
    ensures StrayInv(Act(s, outcome))
  {
    assert LeavesCopy(s.app, outcome.app) by {
      match step {
        case OpenABot(bot) => OpeningLeavesCopy(s.app, bot);
        case LoadMore => MoreLeavesCopy(s.app, 0);
        case Seek(message) => MoreLeavesCopy(s.app, message);
        case _ => RefreshingLeavesCopy(s.app);
      }
    }
    ActKeepsStrays(s, s, outcome);
  }

  lemma StepKeepsStrays(s: SystemState, step: Step)
    requires Inv(s) && StrayInv(s) && Allowed(s, step)
    ensures StrayInv(Do(s, step))
  {
    match step {
      case Commit(events) =>
        if IsSettled(s) {
          var bot := s.app.open.value.bot;
          var c := s.app.store.conversations[bot];
          CommitKeepsStrays(s.log, events, bot, c.upTo, c.messages, s.pageAt, s.pageTo);
        }
      case SocketInput(_) =>
      case HearUpdate => HearKeepsStrays(s);
      case AnswerBots(sent, bots, p) => AnswerBotsKeepsStrays(s, sent, bots, p);
      case AnswerNewest(sent, page, p) => AnswerNewestKeepsStrays(s, sent, page, p);
      case AnswerOlder(sent, page, p) => AnswerOlderKeepsStrays(s, sent, page, p);
      case OpenABot(bot) => ActionKeepsStrays(s, step, s.app.OpenConversation(bot));
      case GoBack => ActionKeepsStrays(s, step, s.app.Back());
      case RefreshOpen => ActionKeepsStrays(s, step, s.app.Refresh());
      case RefreshList => ActionKeepsStrays(s, step, s.app.RefreshBots());
      case LoadMore => ActionKeepsStrays(s, step, s.app.LoadOlderAction());
      case Seek(message) => ActionKeepsStrays(s, step, s.app.GoTo(message));
      case LeaveSession =>
      case EnterSession(_) =>
    }
  }

  lemma {:induction false} EveryRunKeepsStrays(steps: seq<Step>)
    requires IsRun(steps)
    ensures StrayInv(StateAfter(steps))
    decreases |steps|
  {
    if steps != [] {
      EveryRunKeepsInv(steps[..|steps| - 1]);
      EveryRunKeepsStrays(steps[..|steps| - 1]);
      StepKeepsStrays(StateAfter(steps[..|steps| - 1]), steps[|steps| - 1]);
    }
  }

  /**
   After every run, what a settled conversation holds of other Bots: every message of
   theirs that was created, or whose reply ended, after its page's number and by where the
   client stood when the page came, and no other but what the events held then told of;
   each as the gateway had it then, whatever has been heard since.
   */
  lemma OthersStayAsTheyCame(steps: seq<Step>)
    requires IsRun(steps) && IsSettled(StateAfter(steps))
    ensures var s := StateAfter(steps);
            var bot := s.app.open.value.bot;
            && bot in s.app.store.conversations
            && var c := s.app.store.conversations[bot];
               StraysRight(s.log, bot, c.upTo, c.messages, s.pageAt, s.pageTo)
  {
    EveryRunKeepsStrays(steps);
  }

  /**
   So another Bot's message falls behind the gateway's: it is the gateway's while that has
   not changed since the page came, and is not once what it says has changed after the
   events held then. Where those reached no further than the client, this says exactly when.
   */
  lemma OthersFallBehind(steps: seq<Step>, id: MessageId)
    requires IsRun(steps) && IsSettled(StateAfter(steps))
    ensures var s := StateAfter(steps);
            var bot := s.app.open.value.bot;
            && bot in s.app.store.conversations
            && var messages := s.app.store.conversations[bot].messages;
               id in messages && messages[id].bot != bot ==>
                 && s.pageAt <= s.pageTo <= |s.log| && id in Fold(s.log, |s.log|) && id in Fold(s.log, s.pageTo)
                 && (id in Fold(s.log, s.pageAt) && Fold(s.log, s.pageAt)[id] == Fold(s.log, |s.log|)[id] ==>
                       ShownAt(s.log, |s.log|, messages[id]))
                 && (ShownAt(s.log, |s.log|, messages[id]) ==>
                       Unstamped(Fold(s.log, s.pageTo)[id]) == Unstamped(Fold(s.log, |s.log|)[id]))
  {
    OthersStayAsTheyCame(steps);
    EveryRunKeepsInv(steps);
    var s := StateAfter(steps);
    var bot := s.app.open.value.bot;
    var messages := s.app.store.conversations[bot].messages;
    if id in messages && messages[id].bot != bot {
      var q :| s.pageAt <= q <= s.pageTo && ShownAt(s.log, q, messages[id]);
      UnchangedBetween(s.log, q, s.pageTo, |s.log|, id);
      if id in Fold(s.log, s.pageAt) {
        UnchangedBetween(s.log, s.pageAt, q, |s.log|, id);
      }
    }
  }

  /** What a message says, whenever it last changed. */
  function Unstamped(content: Content): Content {
    content.(stamp := None)
  }

  /** A message that is later what it was has been so all the time. */
  lemma UnchangedBetween(log: seq<Event>, i: nat, j: nat, n: nat, id: MessageId)
    requires WellFormed(log) && i <= j <= n <= |log| && id in Fold(log, i)
    ensures id in Fold(log, j) && id in Fold(log, n)
    ensures Fold(log, i)[id] == Fold(log, n)[id] ==> Fold(log, j)[id] == Fold(log, n)[id]
    ensures Unstamped(Fold(log, i)[id]) == Unstamped(Fold(log, n)[id]) ==>
              Unstamped(Fold(log, j)[id]) == Unstamped(Fold(log, n)[id])
  {
    MessagesGrow(log, i, j, id);
    MessagesGrow(log, j, n, id);
  }
}
