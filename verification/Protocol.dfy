/**
 The values that cross the wire between the gateway and the web client: messages,
 Bots, the events of a user's log and the frames of the event socket.

 A message keeps the fields the client's merge reads. A Bot's profile (its name,
 label, pin and so on) is one opaque value.
 */
module Protocol {
  datatype Option<+T> = None | Some(value: T)

  /** A position in a user's event log. The first event is number 1. */
  type Seq = nat

  type BotId = int
  type MessageId = int

  datatype MessageState = Streaming | Complete | Interrupted | Failed
  datatype Author = ByUser | ByBot
  datatype Message = Message(
    id: MessageId, bot: BotId, author: Author, text: string, state: MessageState, updatedAt: int)

  datatype BotStatus = Idle | Working | Refused
  datatype Preview = Preview(author: Author, text: string, at: int)
  datatype Bot = Bot(
    id: BotId, profile: string, status: BotStatus,
    readUpTo: Option<MessageId>, unread: bool, lastMessage: Option<Preview>)

  datatype Event =
    | BotCreated(bot: Bot)
    | BotUpdated(bot: Bot)
    | BotStatusChanged(botId: BotId, status: BotStatus)
    | MessageCreated(message: Message)
    | MessageDelta(botId: BotId, messageId: MessageId, offset: nat, delta: string)
    | MessageCompleted(message: Message)
    | ReadUpdated(botId: BotId, readUpTo: Option<MessageId>, unread: bool)
    | OtherEvent

  datatype Envelope = Envelope(number: Seq, event: Event)

  /** A page of one Bot's messages, by id, with the cursor for the page before it. */
  datatype MessagePage = MessagePage(
    messages: map<MessageId, Message>, older: Option<MessageId>, upTo: Seq)

  datatype BotList = BotList(bots: map<BotId, Bot>, upTo: Seq)

  datatype ServerFrame = EventFrame(envelope: Envelope) | Live(latest: Seq) | Reset(after: Seq) | Pong
  datatype ClientFrame = Resume(after: Option<Seq>) | Ping | Viewing(bot: Option<BotId>)

  /** The Bot whose conversation an event changes, if it changes one. */
  function MessageBot(event: Event): Option<BotId> {
    match event
    case MessageCreated(message) => Some(message.bot)
    case MessageCompleted(message) => Some(message.bot)
    case MessageDelta(bot, _, _, _) => Some(bot)
    case _ => None
  }

  function Min(a: int, b: int): int {
    if a < b then a else b
  }

  function Max(a: int, b: int): int {
    if a < b then b else a
  }
}
