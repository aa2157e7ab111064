/**
 The client's copy of the Bots and conversations, as values: what each operation of
 the store does to it. `Store` carries the same operations out in place.

 A snapshot reflects every event up to its number and may show later ones. Events
 that arrive while any snapshot loads are held, and replayed onto it.
 */
module StoreModel {
  import opened Protocol

  const PREVIEW_CHARS: nat := 140

  /** At most this many events are held while snapshots load. */
  const MAX_HELD: nat := 5_000

  /** A part of the state that loads from one HTTP snapshot. */
  datatype Snapshot = Bots | Messages(bot: BotId) | Older(bot: BotId)

  type MessageMap = map<MessageId, Message>

  /** One Bot's conversation, as far as it is loaded. */
  datatype Conversation = Conversation(
    upTo: Seq, messages: MessageMap, older: Option<MessageId>, requestedOlder: Option<MessageId>)

  // ---------------------------------------------------------------------
  // One event and one conversation's messages

  /**
   Adds the part of a delta that a streaming message does not hold yet. `None` when
   the delta starts beyond the text held. A message no longer streaming takes none.
   */
  function AppendDelta(message: Message, offset: nat, delta: string): Option<Message> {
    if !message.state.Streaming? then Some(message)
    else if offset > |message.text| then None
    else
      var known := |message.text| - offset;
      Some(message.(text := message.text + if known <= |delta| then delta[known..] else ""))
  }

  /** What a copy of the messages shows is at least as new as the message's creation. */
  predicate Ahead(held: Message, created: Message) {
    !held.state.Streaming? || created.text <= held.text
  }

  /** The messages after an event, and whether it showed that the copy is incomplete. */
  datatype Received = Received(messages: MessageMap, incomplete: bool)

  function Receive(messages: MessageMap, event: Event): Received {
    match event
    case MessageCreated(message) =>
      if message.id in messages && Ahead(messages[message.id], message) then Received(messages, false)
      else Received(messages[message.id := message], false)
    case MessageDelta(_, id, offset, delta) =>
      if id !in messages then Received(messages, true)
      else (
        match AppendDelta(messages[id], offset, delta)
        case Some(message) => Received(messages[id := message], false)
        case None => Received(messages, true)
      )
    case MessageCompleted(message) => Received(messages[message.id := message], false)
    case _ => Received(messages, false)
  }

  /**
   The held events numbered after a page, replayed onto its messages, oldest first.
   Every held event is replayed, whichever Bot it concerns.
   */
  function Replay(messages: MessageMap, upTo: Seq, events: seq<Envelope>): Received {
    if events == [] then Received(messages, false)
    else
      var before := Replay(messages, upTo, events[..|events| - 1]);
      var last := events[|events| - 1];
      if last.number <= upTo then before
      else
        var after := Receive(before.messages, last.event);
        Received(after.messages, before.incomplete || after.incomplete)
  }

  /** One held event and a page of older messages: it changes only messages the page has. */
  function ReceiveOlder(earlier: MessageMap, event: Event): Received {
    match event
    case MessageDelta(_, id, _, _) => if id in earlier then Receive(earlier, event) else Received(earlier, false)
    case MessageCompleted(message) =>
      if message.id in earlier then Receive(earlier, event) else Received(earlier, false)
    case _ => Received(earlier, false)
  }

  function ReplayOlder(earlier: MessageMap, upTo: Seq, events: seq<Envelope>): Received {
    if events == [] then Received(earlier, false)
    else
      var before := ReplayOlder(earlier, upTo, events[..|events| - 1]);
      var last := events[|events| - 1];
      if last.number <= upTo then before
      else
        var after := ReceiveOlder(before.messages, last.event);
        Received(after.messages, before.incomplete || after.incomplete)
  }

  // ---------------------------------------------------------------------
  // The Bot list

  function PreviewOf(message: Message): Preview {
    Preview(message.author,
            if |message.text| <= PREVIEW_CHARS then message.text else message.text[..PREVIEW_CHARS],
            message.updatedAt)
  }

  predicate IsUnread(message: Message, readUpTo: Option<MessageId>) {
    message.author.ByBot? && (readUpTo.Some? ==> message.id > readUpTo.value)
  }

  function NoteNewest(newest: map<BotId, MessageId>, bot: BotId, id: MessageId): map<BotId, MessageId> {
    newest[bot := if bot in newest then Max(newest[bot], id) else id]
  }

  ghost predicate IsNewest(messages: MessageMap, id: MessageId) {
    id in messages && forall other :: other in messages ==> other <= id
  }

  /** The newest message noted after a page: the page's highest id, if it has any. */
  ghost function NotePage(newest: map<BotId, MessageId>, bot: BotId, messages: MessageMap)
    : map<BotId, MessageId>
  {
    if exists id :: IsNewest(messages, id) then
      var id :| IsNewest(messages, id);
      NoteNewest(newest, bot, id)
    else newest
  }

  /** The Bot list with its previews' bookkeeping, and whether it must be loaded again. */
  datatype Listing = Listing(bots: map<BotId, Bot>, newest: map<BotId, MessageId>, reload: bool)

  function SetPreview(list: Listing, bot: BotId, preview: Preview): Listing {
    if bot in list.bots then list.(bots := list.bots[bot := list.bots[bot].(lastMessage := Some(preview))])
    else list.(reload := true)
  }

  function HeldPreview(conversations: map<BotId, Conversation>, bot: BotId, id: MessageId): Option<Preview> {
    if bot in conversations && id in conversations[bot].messages
    then Some(PreviewOf(conversations[bot].messages[id])) else None
  }

  function NoteUnread(list: Listing, message: Message): Listing {
    if && message.bot in list.bots && !list.bots[message.bot].unread
       && IsUnread(message, list.bots[message.bot].readUpTo)
    then list.(bots := list.bots[message.bot := list.bots[message.bot].(unread := true)])
    else list
  }

  /** The list's preview after a message was created. */
  function PreviewCreated(conversations: map<BotId, Conversation>, list: Listing, message: Message): Listing {
    var noted := list.(newest := NoteNewest(list.newest, message.bot, message.id));
    var held := HeldPreview(conversations, message.bot, message.id);
    if message.bot in list.newest && list.newest[message.bot] > message.id then noted
    else if message.bot in list.newest && list.newest[message.bot] == message.id then
      if held.Some? then SetPreview(noted, message.bot, held.value) else noted
    else SetPreview(noted, message.bot, if held.Some? then held.value else PreviewOf(message))
  }

  /** One event newer than the list, and the list. */
  function ReceiveBots(conversations: map<BotId, Conversation>, list: Listing, event: Event): Listing {
    match event
    case BotCreated(bot) => list.(bots := list.bots[bot.id := bot])
    case BotUpdated(bot) => list.(bots := list.bots[bot.id := bot])
    case BotStatusChanged(id, status) =>
      if id in list.bots then list.(bots := list.bots[id := list.bots[id].(status := status)])
      else list.(reload := true)
    case MessageCreated(message) => PreviewCreated(conversations, NoteUnread(list, message), message)
    case MessageDelta(bot, id, _, _) =>
      var held := HeldPreview(conversations, bot, id);
      if bot in list.newest && list.newest[bot] == id && held.Some?
      then SetPreview(list, bot, held.value) else list
    case MessageCompleted(message) =>
      if message.bot in list.newest then
        if list.newest[message.bot] > message.id then list
        else SetPreview(list.(newest := NoteNewest(list.newest, message.bot, message.id)),
                        message.bot, PreviewOf(message))
      else list.(reload := list.reload || message.bot in list.bots)
    case ReadUpdated(id, readUpTo, unread) =>
      if id in list.bots
      then list.(bots := list.bots[id := list.bots[id].(readUpTo := readUpTo, unread := unread)])
      else list.(reload := true)
    case OtherEvent => list
  }

  function ReplayBots(conversations: map<BotId, Conversation>, list: Listing, upTo: Seq, events: seq<Envelope>)
    : Listing
  {
    if events == [] then list
    else
      var before := ReplayBots(conversations, list, upTo, events[..|events| - 1]);
      var last := events[|events| - 1];
      if last.number <= upTo then before else ReceiveBots(conversations, before, last.event)
  }

  // ---------------------------------------------------------------------
  // The store

  /** The store after an operation, and the snapshots it newly asks to load. */
  datatype Applied = Applied(store: StoreState, reload: set<Snapshot>)

  datatype StoreState = StoreState(
    bots: map<BotId, Bot>,
    botsUpTo: Option<Seq>,
    newest: map<BotId, MessageId>,
    conversations: map<BotId, Conversation>,
    loading: set<Snapshot>,
    held: seq<Envelope>,
    stale: set<Snapshot>)
  {
    function Request(snapshot: Snapshot): StoreState {
      this.(loading := loading + {snapshot})
    }

    /** Everything to load again: the Bot list and every conversation held. */
    function Everything(): set<Snapshot> {
      {Bots} + set bot | bot in conversations :: Messages(bot)
    }

    function ReloadAll(): StoreState {
      this.(loading := loading + Everything())
    }

    /** Nothing is held for once nothing loads. */
    function Settle(): StoreState {
      if loading == {} then this.(held := []) else this
    }

    /** Reports only reloads not already under way, and counts them as loading. */
    function Finish(wanted: set<Snapshot>): Applied {
      Applied(this.(loading := loading + wanted), wanted - loading)
    }

    function Forget(snapshots: set<Snapshot>): StoreState {
      this.(loading := loading - snapshots, stale := stale - snapshots)
    }

    function SetRequestedOlder(bot: BotId, cursor: Option<MessageId>): StoreState {
      if bot in conversations
      then this.(conversations := conversations[bot := conversations[bot].(requestedOlder := cursor)])
      else this
    }

    function LoadFailed(snapshot: Snapshot): StoreState {
      var kept := Forget({snapshot});
      (if snapshot.Older? then kept.SetRequestedOlder(snapshot.bot, None) else kept).Settle()
    }

    function OlderCursor(bot: BotId): Option<MessageId> {
      if bot in conversations then conversations[bot].older else None
    }

    function RequestOlder(bot: BotId): StoreState {
      var asked := SetRequestedOlder(bot, OlderCursor(bot));
      if OlderCursor(bot).Some? then asked.Request(Older(bot)) else asked.LoadFailed(Older(bot))
    }

    function CloseConversation(bot: BotId): StoreState {
      this.(conversations := conversations - {bot}).Forget({Messages(bot), Older(bot)}).Settle()
    }

    /** Keeps an event for the snapshots loading; an overflow makes each of them stale. */
    function Hold(envelope: Envelope): StoreState {
      if loading == {} then this
      else if |held| >= MAX_HELD then this.(held := [envelope], stale := stale + loading)
      else this.(held := held + [envelope])
    }

    function ApplyToConversation(envelope: Envelope): Applied {
      var bot := MessageBot(envelope.event);
      if bot.None? || bot.value !in conversations || envelope.number <= conversations[bot.value].upTo
      then Applied(this, {})
      else
        var c := conversations[bot.value];
        var received := Receive(c.messages, envelope.event);
        Applied(this.(conversations := conversations[bot.value := c.(messages := received.messages)]),
                if received.incomplete then {Messages(bot.value)} else {})
    }

    function ApplyToBots(envelope: Envelope): Applied {
      if botsUpTo.None? || envelope.number <= botsUpTo.value then Applied(this, {})
      else
        var list := ReceiveBots(conversations, Listing(bots, newest, false), envelope.event);
        Applied(this.(bots := list.bots, newest := list.newest), if list.reload then {Bots} else {})
    }

    /** One event from the log. */
    function Apply(envelope: Envelope): Applied {
      var conversation := Hold(envelope).ApplyToConversation(envelope);
      var list := conversation.store.ApplyToBots(envelope);
      list.store.Finish(conversation.reload + list.reload)
    }

    function LoadBots(page: BotList): Applied {
      var list := ReplayBots(conversations,
                             Listing(page.bots, map bot | bot in newest && bot in page.bots :: newest[bot], false),
                             page.upTo, held);
      var again := list.reload || Bots in stale;
      this.(bots := list.bots, botsUpTo := Some(page.upTo), newest := list.newest)
        .Forget({Bots}).Settle().Finish(if again then {Bots} else {})
    }

    /** The newest page of a conversation, with the held events after it. */
    ghost function LoadMessages(bot: BotId, page: MessagePage): Applied {
      var received := Replay(page.messages, page.upTo, held);
      var again := received.incomplete || Messages(bot) in stale;
      this.(newest := NotePage(newest, bot, page.messages),
            conversations := conversations[bot := Conversation(page.upTo, received.messages, page.older, None)])
        .Forget({Messages(bot)}).Settle().Finish(if again then {Messages(bot)} else {})
    }

    /** The messages of an older page that a conversation does not hold. */
    function Earlier(bot: BotId, before: MessageId, page: MessagePage): MessageMap
      requires bot in conversations
    {
      map id | id in page.messages && page.messages[id].bot == bot && id < before
               && id !in conversations[bot].messages :: page.messages[id]
    }

    /** A page of older messages, requested with `before`. */
    function LoadOlder(bot: BotId, before: MessageId, page: MessagePage): Applied {
      var snapshot := Older(bot);
      var kept := Forget({snapshot});
      if || bot !in conversations || conversations[bot].requestedOlder != Some(before)
         || conversations[bot].older != Some(before)
      then kept.Settle().Finish({})
      else
        var asked := kept.SetRequestedOlder(bot, None);
        var received := ReplayOlder(Earlier(bot, before, page), page.upTo, held);
        if snapshot in stale || received.incomplete then asked.Settle().Finish({snapshot})
        else
          var c := conversations[bot].(
            messages := conversations[bot].messages + received.messages,
            older := page.older, requestedOlder := None);
          asked.(conversations := conversations[bot := c]).Settle().Finish({})
    }
  }

  /** The copy waits for the page before this message. */
  predicate WaitsFor(s: StoreState, bot: BotId, before: MessageId) {
    && bot in s.conversations
    && s.conversations[bot].requestedOlder == Some(before) && s.conversations[bot].older == Some(before)
  }

  /** A store that has loaded nothing. */
  const EMPTY: StoreState := StoreState(map[], None, map[], map[], {}, [], {})
}
