/** The gateway's Bot list as what a user's event log adds up to. */
module BotLog {
  import opened Protocol
  import opened ServerLog

  /** What a Bot's entry in the list says, but for its latest message. */
  datatype Entry = Entry(profile: string, status: BotStatus, readUpTo: Option<MessageId>, unread: bool)

  type Entries = map<BotId, Entry>

  function EntryOf(bot: Bot): Entry {
    Entry(bot.profile, bot.status, bot.readUpTo, bot.unread)
  }

  function EntriesOf(bots: map<BotId, Bot>): Entries {
    map id | id in bots :: EntryOf(bots[id])
  }

  function AdvanceEntry(entry: Entry, event: Event): Entry {
    match event
    case BotStatusChanged(_, status) => entry.(status := status)
    case ReadUpdated(_, readUpTo, unread) => entry.(readUpTo := readUpTo, unread := unread)
    case MessageCreated(message) => entry.(unread := entry.unread || IsNews(message, entry.readUpTo))
    case _ => entry
  }

  /** The message is the Bot's own and later than the last one read. */
  predicate IsNews(message: Message, readUpTo: Option<MessageId>) {
    && message.author != ByUser
    && (readUpTo == None || readUpTo.value < message.id)
  }

  /** The Bot whose entry an event changes, if the list has it. */
  function EntryChanged(event: Event): Option<BotId> {
    match event
    case BotStatusChanged(id, _) => Some(id)
    case ReadUpdated(id, _, _) => Some(id)
    case MessageCreated(message) => Some(message.bot)
    case _ => None
  }

  function AdvanceList(list: Entries, event: Event): Entries {
    match event
    case BotCreated(bot) => list[bot.id := EntryOf(bot)]
    case BotUpdated(bot) => list[bot.id := EntryOf(bot)]
    case _ =>
      var id := EntryChanged(event);
      if id.Some? && id.value in list then list[id.value := AdvanceEntry(list[id.value], event)] else list
  }

  /** The list after the log's first n events. */
  function FoldList(log: seq<Event>, n: nat): Entries
    requires n <= |log|
  {
    if n == 0 then map[] else AdvanceList(FoldList(log, n - 1), log[n - 1])
  }

  /** A read marker is one of the messages so far; a status, a marker or a message is of a Bot listed. */
  predicate ListFollows(messages: Contents, list: Entries, event: Event) {
    match event
    case BotCreated(bot) => bot.readUpTo.Some? ==> bot.readUpTo.value in messages
    case BotUpdated(bot) => bot.readUpTo.Some? ==> bot.readUpTo.value in messages
    case BotStatusChanged(id, _) => id in list
    case MessageCreated(message) => message.bot in list
    case ReadUpdated(id, readUpTo, _) => id in list && (readUpTo.Some? ==> readUpTo.value in messages)
    case _ => true
  }

  ghost predicate ListFollowsAt(log: seq<Event>, n: nat)
    requires n < |log|
  {
    ListFollows(Fold(log, n), FoldList(log, n), log[n])
  }

  ghost predicate ListWellFormed(log: seq<Event>) {
    forall n :: 0 <= n < |log| ==> ListFollowsAt(log, n)
  }

  lemma {:induction false} FoldListOfPrefix(log: seq<Event>, more: seq<Event>, n: nat)
    requires n <= |log|
    ensures FoldList(log + more, n) == FoldList(log, n)
  {
    if n > 0 {
      FoldListOfPrefix(log, more, n - 1);
    }
  }

  lemma {:induction false} ListGrows(log: seq<Event>, i: nat, j: nat, id: BotId)
    requires i <= j <= |log| && id in FoldList(log, i)
    ensures id in FoldList(log, j)
    decreases j - i
  {
    if i < j {
      ListGrows(log, i, j - 1, id);
    }
  }

  lemma {:induction false} MarkersAreMessages(log: seq<Event>, n: nat, id: BotId)
    requires WellFormed(log) && ListWellFormed(log) && n <= |log| && id in FoldList(log, n)
    ensures var read := FoldList(log, n)[id].readUpTo;
            read.Some? ==> read.value in Fold(log, n)
  {
    var event := log[n - 1];
    assert ListFollowsAt(log, n - 1) && FollowsAt(log, n - 1);
    if id in FoldList(log, n - 1) {
      MarkersAreMessages(log, n - 1, id);
    }
  }

  /** A Bot's new message makes it unread, since every marker is of an earlier one. */
  lemma NewMessageIsUnread(log: seq<Event>, j: nat, id: BotId)
    requires WellFormed(log) && ListWellFormed(log) && 0 < j <= |log|
    requires log[j - 1].MessageCreated? && log[j - 1].message.bot == id && log[j - 1].message.author.ByBot?
    ensures id in FoldList(log, j - 1) && IsNews(log[j - 1].message, FoldList(log, j - 1)[id].readUpTo)
    ensures id in FoldList(log, j) && FoldList(log, j)[id].unread
  {
    assert ListFollowsAt(log, j - 1);
    MarkersAreMessages(log, j - 1, id);
    assert FollowsAt(log, j - 1);
  }
}
