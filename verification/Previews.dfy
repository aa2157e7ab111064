/**
 The latest-message previews of the Bot list, which need not become the gateway's: what
 can keep one old, besides the deltas that only an open conversation's copy takes.
 */
module Previews {
  import opened Protocol
  import opened StoreModel

  /**
   A Bot's newest message, heard as it is created while the Bot's conversation is closed,
   shows in the list if and only if no page showed it before.
   */
  lemma CreatedShowsUnlessNoted(conversations: map<BotId, Conversation>, list: Listing, message: Message)
    requires message.bot in list.bots && message.bot !in conversations
    requires list.bots[message.bot].lastMessage != Some(PreviewOf(message))
    requires message.bot in list.newest ==> list.newest[message.bot] <= message.id
    ensures var after := ReceiveBots(conversations, list, MessageCreated(message));
            && after.reload == list.reload
            && (after.bots[message.bot].lastMessage == Some(PreviewOf(message))
                <==> message.bot !in list.newest || list.newest[message.bot] < message.id)
  {
  }

  /** The preview is of this message: who wrote it, when, and how its text begins. */
  predicate IsPreviewOf(preview: Option<Preview>, message: Message) {
    && preview.Some? && preview.value.author == message.author && preview.value.at == message.updatedAt
    && preview.value.text <= message.text && |preview.value.text| == Min(140, |message.text|)
  }

  /** The message an event is about is the Bot's newest of those noted, or newer. */
  predicate IsNewestYet(s: StoreState, event: Event) {
    match event
    case MessageCreated(message) => message.bot in s.newest ==> s.newest[message.bot] <= message.id
    case MessageCompleted(message) => message.bot in s.newest && s.newest[message.bot] <= message.id
    case MessageDelta(bot, id, _, _) => bot in s.newest && s.newest[bot] == id
    case _ => false
  }

  predicate HeldIn(s: StoreState, bot: BotId, id: MessageId) {
    bot in s.conversations && id in s.conversations[bot].messages
  }

  /** The conversations after an event has reached the one it concerns. */
  function Conversations(s: StoreState, envelope: Envelope): map<BotId, Conversation> {
    s.Hold(envelope).ApplyToConversation(envelope).store.conversations
  }

  /** The list after an event that is newer than it. */
  function ListAfter(s: StoreState, envelope: Envelope): Listing {
    ReceiveBots(Conversations(s, envelope), Listing(s.bots, s.newest, false), envelope.event)
  }

  lemma AppliedToList(s: StoreState, envelope: Envelope)
    requires s.botsUpTo.Some? && s.botsUpTo.value < envelope.number
    ensures var applied, list := s.Apply(envelope), ListAfter(s, envelope);
            && applied.store.bots == list.bots && applied.store.newest == list.newest
            && applied.store.conversations == Conversations(s, envelope)
            && (Bots in applied.store.loading <==> Bots in s.loading || list.reload)
            && (Bots in applied.reload <==> list.reload && Bots !in s.loading)
  {
    hide Receive, ReceiveBots;
    var conversation := s.Hold(envelope).ApplyToConversation(envelope);
    assert conversation.store.bots == s.bots && conversation.store.newest == s.newest;
    assert Bots !in conversation.reload && conversation.store.loading == s.loading;
  }

  lemma CompletedIsHeld(s: StoreState, envelope: Envelope)
    requires envelope.event.MessageCompleted? && envelope.event.message.bot in s.conversations
    requires s.conversations[envelope.event.message.bot].upTo < envelope.number
    ensures var message := envelope.event.message;
            && message.bot in Conversations(s, envelope)
            && message.id in Conversations(s, envelope)[message.bot].messages
            && Conversations(s, envelope)[message.bot].messages[message.id] == message
  {
  }

  /** A Bot that an event comes to keeps a conversation only if it had one. */
  lemma ConversationsKept(s: StoreState, envelope: Envelope)
    ensures Conversations(s, envelope).Keys == s.conversations.Keys
  {
    hide Receive;
  }

  /** The preview an event leaves, by the conversation on screen. */
  lemma ShownInList(conversations: map<BotId, Conversation>, list: Listing, event: Event)
    requires MessageBot(event).Some? && MessageBot(event).value in list.bots
    ensures var bot, after := MessageBot(event).value, ReceiveBots(conversations, list, event);
            && bot in after.bots
            && var preview, kept := after.bots[bot].lastMessage, list.bots[bot].lastMessage;
               match event
               case MessageCompleted(message) =>
                 if bot in list.newest && list.newest[bot] <= message.id then IsPreviewOf(preview, message)
                 else preview == kept
               case MessageDelta(_, id, _, _) =>
                 if && bot in list.newest && list.newest[bot] == id
                    && bot in conversations && id in conversations[bot].messages
                 then IsPreviewOf(preview, conversations[bot].messages[id]) else preview == kept
               case MessageCreated(message) =>
                 if bot in list.newest && message.id < list.newest[bot] then preview == kept
                 else if bot in conversations && message.id in conversations[bot].messages
                 then IsPreviewOf(preview, conversations[bot].messages[message.id])
                 else if bot in list.newest && list.newest[bot] == message.id then preview == kept
                 else IsPreviewOf(preview, message)
  {
    hide NoteNewest, IsUnread;
  }

  /**
   After an event about the newest message of a Bot listed, the list shows that message as
   the conversation on screen shows it, text, author and time; and as the event tells it,
   if it completes it, or creates it while no conversation holds it. An event about an
   older message leaves the preview.
   */
  lemma EventShowsInPreview(s: StoreState, envelope: Envelope)
    requires s.botsUpTo.Some? && s.botsUpTo.value < envelope.number
    requires MessageBot(envelope.event).Some? && MessageBot(envelope.event).value in s.bots
    ensures var event, bot, after := envelope.event, MessageBot(envelope.event).value, s.Apply(envelope).store;
            && bot in after.bots
            && var preview := after.bots[bot].lastMessage;
               && (!IsNewestYet(s, event) ==> preview == s.bots[bot].lastMessage)
               && (event.MessageCompleted? && IsNewestYet(s, event) ==>
                     && IsPreviewOf(preview, event.message)
                     && (HeldIn(after, bot, event.message.id) && s.conversations[bot].upTo < envelope.number ==>
                           IsPreviewOf(preview, after.conversations[bot].messages[event.message.id])))
               && (event.MessageDelta? && IsNewestYet(s, event) ==>
                     if HeldIn(after, bot, event.messageId)
                     then IsPreviewOf(preview, after.conversations[bot].messages[event.messageId])
                     else preview == s.bots[bot].lastMessage)
               && (event.MessageCreated? && IsNewestYet(s, event) ==>
                     if HeldIn(after, bot, event.message.id)
                     then IsPreviewOf(preview, after.conversations[bot].messages[event.message.id])
                     else if bot in s.newest && s.newest[bot] == event.message.id
                     then preview == s.bots[bot].lastMessage
                     else IsPreviewOf(preview, event.message))
  {
    hide ReceiveBots, Conversations, StoreState.Apply, IsPreviewOf;
    AppliedToList(s, envelope);
    ConversationsKept(s, envelope);
    ShownInList(Conversations(s, envelope), Listing(s.bots, s.newest, false), envelope.event);
    if envelope.event.MessageCompleted? && envelope.event.message.bot in s.conversations
       && s.conversations[envelope.event.message.bot].upTo < envelope.number {
      CompletedIsHeld(s, envelope);
    }
  }

  /**
   The newest message noted of a Bot never goes back, and is at least the one an event
   creates, or a page holds; it is noted only of one of these.
   */
  lemma NotedIsNewest(s: StoreState, envelope: Envelope, bot: BotId, page: MessagePage)
    ensures var heard, paged := s.Apply(envelope).store.newest, s.LoadMessages(bot, page).store.newest;
            var event := envelope.event;
            && (forall b :: b in s.newest ==>
                              b in heard && s.newest[b] <= heard[b] && b in paged && s.newest[b] <= paged[b])
            && (event.MessageCreated? && s.botsUpTo.Some? && s.botsUpTo.value < envelope.number ==>
                  event.message.bot in heard && event.message.id <= heard[event.message.bot])
            && (forall b :: b in heard && (b in s.newest ==> s.newest[b] != heard[b]) ==>
                              && (event.MessageCreated? || event.MessageCompleted?)
                              && b == event.message.bot && heard[b] == event.message.id)
            && (forall id :: id in page.messages ==> bot in paged && id <= paged[bot])
            && (forall b :: b in paged && (b in s.newest ==> s.newest[b] != paged[b]) ==>
                              b == bot && paged[b] in page.messages)
  {
    hide StoreState.Apply, StoreState.LoadMessages;
    HearingNotes(s, envelope);
    PageNotes(s, bot, page);
  }

  lemma HearingNotes(s: StoreState, envelope: Envelope)
    ensures var heard, event := s.Apply(envelope).store.newest, envelope.event;
            && (forall b :: b in s.newest ==> b in heard && s.newest[b] <= heard[b])
            && (event.MessageCreated? && s.botsUpTo.Some? && s.botsUpTo.value < envelope.number ==>
                  event.message.bot in heard && event.message.id <= heard[event.message.bot])
            && (forall b :: b in heard && (b in s.newest ==> s.newest[b] != heard[b]) ==>
                              && (event.MessageCreated? || event.MessageCompleted?)
                              && b == event.message.bot && heard[b] == event.message.id)
  {
    hide Receive, ReceiveBots;
    var conversation := s.Hold(envelope).ApplyToConversation(envelope).store;
    assert conversation.newest == s.newest && conversation.botsUpTo == s.botsUpTo;
    ListNotes(conversation.conversations, Listing(conversation.bots, conversation.newest, false), envelope.event);
    assert s.Apply(envelope).store.newest == conversation.ApplyToBots(envelope).store.newest;
  }

  lemma ListNotes(conversations: map<BotId, Conversation>, list: Listing, event: Event)
    ensures var heard := ReceiveBots(conversations, list, event).newest;
            && (forall b :: b in list.newest ==> b in heard && list.newest[b] <= heard[b])
            && (event.MessageCreated? ==> event.message.bot in heard && event.message.id <= heard[event.message.bot])
            && (forall b :: b in heard && (b in list.newest ==> list.newest[b] != heard[b]) ==>
                              && (event.MessageCreated? || event.MessageCompleted?)
                              && b == event.message.bot && heard[b] == event.message.id)
  {
    hide PreviewOf, HeldPreview, NoteUnread;
    if event.MessageCreated? {
      CreatedNotes(conversations, NoteUnread(list, event.message), event.message);
      UnreadNotes(list, event.message);
    }
  }

  lemma UnreadNotes(list: Listing, message: Message)
    ensures NoteUnread(list, message).newest == list.newest
  {
  }

  lemma CreatedNotes(conversations: map<BotId, Conversation>, list: Listing, message: Message)
    ensures PreviewCreated(conversations, list, message).newest == NoteNewest(list.newest, message.bot, message.id)
  {
  }

  lemma PageNotes(s: StoreState, bot: BotId, page: MessagePage)
    ensures var paged := s.LoadMessages(bot, page).store.newest;
            && (forall b :: b in s.newest ==> b in paged && s.newest[b] <= paged[b])
            && (forall id :: id in page.messages ==> bot in paged && id <= paged[bot])
            && (forall b :: b in paged && (b in s.newest ==> s.newest[b] != paged[b]) ==>
                              b == bot && paged[b] in page.messages)
  {
    hide Replay;
    assert s.LoadMessages(bot, page).store.newest == NotePage(s.newest, bot, page.messages);
    if one :| one in page.messages {
      var id := Greatest(page.messages.Keys, one);
      assert IsNewest(page.messages, id);
    }
  }

  lemma {:induction false} ReplayNotes(conversations: map<BotId, Conversation>, list: Listing, upTo: Seq,
                                       events: seq<Envelope>)
    ensures var noted := ReplayBots(conversations, list, upTo, events).newest;
            forall b :: b in list.newest ==> b in noted && list.newest[b] <= noted[b]
    decreases |events|
  {
    hide ReceiveBots;
    if events != [] {
      var before, last := events[..|events| - 1], events[|events| - 1];
      ReplayNotes(conversations, list, upTo, before);
      ListNotes(conversations, ReplayBots(conversations, list, upTo, before), last.event);
    }
  }

  /** A list loaded again forgets no newest message noted of a Bot still listed. */
  lemma ListKeepsNoted(s: StoreState, list: BotList)
    ensures var noted := s.LoadBots(list).store.newest;
            forall b :: b in s.newest && b in list.bots ==> b in noted && s.newest[b] <= noted[b]
  {
    hide ReplayBots;
    var kept := map b | b in s.newest && b in list.bots :: s.newest[b];
    ReplayNotes(s.conversations, Listing(list.bots, kept, false), list.upTo, s.held);
    assert s.LoadBots(list).store.newest
        == ReplayBots(s.conversations, Listing(list.bots, kept, false), list.upTo, s.held).newest;
  }

  lemma Greatest(ids: set<MessageId>, one: MessageId) returns (id: MessageId)
    requires one in ids
    ensures id in ids && forall other :: other in ids ==> other <= id
  {
    id := one;
    if other :| other in ids - {one} {
      var rest := Greatest(ids - {one}, other);
      id := Max(rest, one);
    }
    assert forall other :: other in ids ==> other == one || other in ids - {one};
  }

  /** The event is about an entry the list has not got. */
  predicate IsOfUnlisted(s: StoreState, event: Event) {
    match event
    case BotStatusChanged(id, _) => id !in s.bots
    case ReadUpdated(id, _, _) => id !in s.bots
    case MessageCreated(message) =>
      message.bot !in s.bots && (message.bot in s.newest ==> s.newest[message.bot] < message.id)
    case _ => false
  }

  /** A reply ends of which the list cannot tell whether it is the Bot's newest message. */
  predicate MayBeNewest(s: StoreState, event: Event) {
    event.MessageCompleted? && event.message.bot in s.bots && event.message.bot !in s.newest
  }

  /**
   An event about a Bot that is not listed asks for the list again, and so does the end of a
   reply that may be a Bot's newest message or not; of a log whose Bots are all listed and
   whose newest messages are known, no event does.
   */
  lemma WhenTheListIsAsked(s: StoreState, envelope: Envelope)
    requires s.botsUpTo.Some? && s.botsUpTo.value < envelope.number && Bots !in s.loading
    ensures var applied := s.Apply(envelope);
            && (Bots in applied.reload <==> Bots in applied.store.loading)
            && (IsOfUnlisted(s, envelope.event) || MayBeNewest(s, envelope.event) ==> Bots in applied.reload)
            && (Bots in applied.reload ==>
                  || IsOfUnlisted(s, envelope.event) || MayBeNewest(s, envelope.event)
                  || (MessageBot(envelope.event).Some? && MessageBot(envelope.event).value !in s.bots))
  {
    hide ReceiveBots, StoreState.Apply;
    AppliedToList(s, envelope);
    AskedOfList(Conversations(s, envelope), Listing(s.bots, s.newest, false), envelope.event, s);
  }

  lemma AskedOfList(conversations: map<BotId, Conversation>, list: Listing, event: Event, s: StoreState)
    requires !list.reload && list.bots == s.bots && list.newest == s.newest
    ensures var asked := ReceiveBots(conversations, list, event).reload;
            && (IsOfUnlisted(s, event) || MayBeNewest(s, event) ==> asked)
            && (asked ==> IsOfUnlisted(s, event) || MayBeNewest(s, event)
                          || (MessageBot(event).Some? && MessageBot(event).value !in s.bots))
  {
    hide NoteNewest, IsUnread, PreviewOf;
  }

  const COOK: Bot := Bot(7, "Cook", Idle, None, false, None)
  const DINNER: Message := Message(2, 7, ByBot, "Dinner is at seven", Complete, 0)
  const HEARD: Envelope := Envelope(2, MessageCreated(DINNER))

  /** The list loaded at 1, and the Bot's conversation at 1 from a page that shows the message numbered 2. */
  const LISTED: StoreState := EMPTY.(bots := map[7 := COOK], botsUpTo := Some(1))

  /**
   A concrete run of the store: the page notes the message, the conversation closes, and
   then the message's event comes. The list keeps the old preview and asks for nothing.
   */
  lemma PageNotesItFirst()
    ensures var paged := LISTED.Request(Messages(7)).LoadMessages(7, MessagePage(map[2 := DINNER], None, 1)).store;
            var heard := paged.CloseConversation(7).Apply(HEARD);
            && 7 in heard.store.bots && heard.store.bots[7].lastMessage == None && heard.reload == {}
            && heard.store.loading == {} && heard.store.conversations == map[]
  {
    var page := MessagePage(map[2 := DINNER], None, 1);
    assert IsNewest(page.messages, 2);
    var paged := LISTED.Request(Messages(7)).LoadMessages(7, page).store;
    assert paged.newest == map[7 := 2] && paged.bots == LISTED.bots && paged.botsUpTo == Some(1);
    var closed := paged.CloseConversation(7);
    assert closed.loading == {} && closed.conversations == map[];
    assert closed.newest == map[7 := 2] && closed.bots == LISTED.bots && closed.botsUpTo == Some(1);
    CreatedShowsUnlessNoted(closed.conversations, Listing(closed.bots, closed.newest, false), DINNER);
    assert closed.Hold(HEARD) == closed && closed.ApplyToConversation(HEARD) == Applied(closed, {});
  }
}
