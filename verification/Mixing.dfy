/**
 Loading a conversation's newest page replays every held event onto it, whichever Bot
 the event concerns. This states exactly when that leaves the conversation right.
 */
module Mixing {
  import opened Protocol
  import opened ServerLog
  import opened StoreModel
  import opened Copies

  /**
   A page that covers what still changes, with gapless events held, loads as a copy of
   that Bot's messages alone and asks for no reload if and only if no event held after
   the page's number concerns another Bot's conversation.
   */
  lemma LoadingIsExactUnlessMixed(log: seq<Event>, s: StoreState, bot: BotId, page: MessagePage, p: nat)
    requires WellFormed(log) && ShowsLog(log, bot, None, page, p) && page.upTo <= p
    requires FromLog(log, s.held) && Gapless(page.upTo, s.held)
    requires Covers(log, Scope(bot, page.upTo, page.older, p)) && Messages(bot) !in s.stale
    ensures var loaded := s.LoadMessages(bot, page);
            && bot in loaded.store.conversations
            && (OnlyOf(loaded.store.conversations[bot].messages, bot) && Messages(bot) !in loaded.reload
                <==> !AnyConcernsAnother(bot, page.upTo, s.held))
  {
    var scope := Scope(bot, page.upTo, page.older, p);
    PageIsFaithful(log, bot, page, p);
    assert OnlyOf(page.messages, bot);
    ReplayIsExact(log, scope, page.messages, s.held);
    assert Messages(bot) !in s.Forget({Messages(bot)}).Settle().loading;
  }

  /**
   A concrete case that fails: while Bot 7's conversation loads, Bot 8 says something.
   The message is in Bot 7's conversation once its page is loaded.
   */
  lemma AnotherBotsMessageGetsIn()
    ensures var said := Message(2, 8, ByBot, "Dinner is at seven", Complete, 0);
            var asked := EMPTY.Request(Messages(7)).Apply(Envelope(2, MessageCreated(said))).store;
            var loaded := asked.LoadMessages(7, MessagePage(map[], None, 1)).store;
            && 7 in loaded.conversations
            && 2 in loaded.conversations[7].messages
            && loaded.conversations[7].messages[2].bot == 8
  {
    var said := Message(2, 8, ByBot, "Dinner is at seven", Complete, 0);
    var held := [Envelope(2, MessageCreated(said))];
    assert held[..0] == [];
    assert Replay(map[], 1, held).messages == map[2 := said];
    var asked := EMPTY.Request(Messages(7)).Apply(held[0]).store;
    assert asked.held == held;
  }

  /** The same holding makes a delta of another Bot's reply ask for the page again. */
  lemma AnotherBotsDeltaReloads()
    ensures var asked := EMPTY.Request(Messages(7)).Apply(Envelope(2, MessageDelta(8, 1, 0, "Hello"))).store;
            Messages(7) in asked.LoadMessages(7, MessagePage(map[], None, 1)).reload
  {
    var held := [Envelope(2, MessageDelta(8, 1, 0, "Hello"))];
    assert held[..0] == [];
    assert Replay(map[], 1, held).incomplete;
    var asked := EMPTY.Request(Messages(7)).Apply(held[0]).store;
    assert asked.held == held;
  }
}
