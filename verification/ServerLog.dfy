/**
 The gateway's side of a user's conversations: the event log as a plain sequence,
 and the messages it adds up to. Event number n is log[n - 1].
 */
module ServerLog {
  import opened Protocol

  /**
   What the gateway's message says. Its time stamp is the one its creation or completion
   carried; a delta grows the text without naming the new one.
   */
  datatype Content = Content(bot: BotId, author: Author, text: string, state: MessageState, stamp: Option<int>)

  type Contents = map<MessageId, Content>

  function ContentOf(message: Message): Content {
    Content(message.bot, message.author, message.text, message.state, Some(message.updatedAt))
  }

  /** A copy of the message says the same, and has its time stamp if the log tells it. */
  predicate Shows(content: Content, message: Message) {
    && message.bot == content.bot && message.author == content.author
    && message.text == content.text && message.state == content.state
    && (content.stamp.Some? ==> message.updatedAt == content.stamp.value)
  }

  /** The messages after one more event. */
  function Advance(messages: Contents, event: Event): Contents {
    match event
    case MessageCreated(message) => messages[message.id := ContentOf(message)]
    case MessageDelta(_, id, _, delta) =>
      if id in messages
      then messages[id := messages[id].(text := messages[id].text + delta, stamp := None)]
      else messages
    case MessageCompleted(message) => messages[message.id := ContentOf(message)]
    case _ => messages
  }

  /** Every message, of all the user's Bots, after the log's first n events. */
  function Fold(log: seq<Event>, n: nat): Contents
    requires n <= |log|
  {
    if n == 0 then map[] else Advance(Fold(log, n - 1), log[n - 1])
  }

  /**
   What the gateway can append when its messages are `messages`: a message gets a
   new, higher id; text is appended to a streaming reply at its end; a streaming
   reply ends once.
   */
  predicate Follows(messages: Contents, event: Event) {
    match event
    case MessageCreated(message) => forall id :: id in messages ==> id < message.id
    case MessageDelta(bot, id, offset, _) =>
      && id in messages && messages[id].bot == bot
      && messages[id].state.Streaming? && offset == |messages[id].text|
    case MessageCompleted(message) =>
      && message.id in messages && messages[message.id].bot == message.bot
      && messages[message.id].state.Streaming? && !message.state.Streaming?
    case _ => true
  }

  /** Event n + 1 of the log is one the gateway can append after the first n. */
  ghost predicate FollowsAt(log: seq<Event>, n: nat)
    requires n < |log|
  {
    Follows(Fold(log, n), log[n])
  }

  ghost predicate WellFormed(log: seq<Event>) {
    forall n :: 0 <= n < |log| ==> FollowsAt(log, n)
  }

  /** The gateway's message was exactly this one after q events. */
  ghost predicate ShownAt(log: seq<Event>, q: nat, message: Message) {
    q <= |log| && message.id in Fold(log, q) && Shows(Fold(log, q)[message.id], message)
  }

  /** Committing more events does not change what came before. */
  lemma {:induction false} FoldOfPrefix(log: seq<Event>, more: seq<Event>, n: nat)
    requires n <= |log|
    ensures Fold(log + more, n) == Fold(log, n)
  {
    if n > 0 {
      FoldOfPrefix(log, more, n - 1);
    }
  }

  lemma FoldOfPrefixes(log: seq<Event>, more: seq<Event>)
    ensures forall n: nat :: n <= |log| ==> Fold(log + more, n) == Fold(log, n)
  {
    forall n: nat | n <= |log| {
      FoldOfPrefix(log, more, n);
    }
  }

  /**
   A message stays, keeps its Bot, changes only while it streams, and streams by growing
   its text; one that streams with a time stamp has not grown.
   */
  lemma {:induction false} MessagesGrow(log: seq<Event>, i: nat, j: nat, id: MessageId)
    requires WellFormed(log) && i <= j <= |log| && id in Fold(log, i)
    ensures id in Fold(log, j) && Fold(log, j)[id].bot == Fold(log, i)[id].bot
    ensures !Fold(log, i)[id].state.Streaming? ==> Fold(log, j)[id] == Fold(log, i)[id]
    ensures Fold(log, j)[id].state.Streaming? ==>
              && Fold(log, i)[id].state.Streaming? && Fold(log, i)[id].text <= Fold(log, j)[id].text
              && Fold(log, i)[id].author == Fold(log, j)[id].author
              && (Fold(log, j)[id].stamp.Some? ==> Fold(log, i)[id] == Fold(log, j)[id])
    decreases j - i
  {
    if i < j {
      MessagesGrow(log, i, j - 1, id);
      assert FollowsAt(log, j - 1);
    }
  }
}
