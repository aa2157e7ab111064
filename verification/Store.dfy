/**
 The client's store, in place: each method updates the fields as the operation of
 the same name in `StoreModel` says, looping over the events held.
 */
module ClientStore {
  import opened Protocol
  import opened StoreModel

  class Store {
    var bots: map<BotId, Bot>
    var botsUpTo: Option<Seq>
    var newest: map<BotId, MessageId>
    var conversations: map<BotId, Conversation>
    var loading: set<Snapshot>
    var held: seq<Envelope>
    var stale: set<Snapshot>

    function State(): StoreState
      reads this
    {
      StoreState(bots, botsUpTo, newest, conversations, loading, held, stale)
    }

    constructor ()
      ensures State() == EMPTY
    {
      bots, botsUpTo, newest, conversations := map[], None, map[], map[];
      loading, held, stale := {}, [], {};
    }

    /** Marks a snapshot as loading. Returns false if it was already. */
    method Request(snapshot: Snapshot) returns (isNew: bool)
      modifies this
      ensures State() == old(State()).Request(snapshot)
      ensures isNew <==> snapshot !in old(loading)
    {
      isNew := snapshot !in loading;
      loading := loading + {snapshot};
    }

    method ReloadAll() returns (all: set<Snapshot>)
      modifies this
      ensures State() == old(State()).ReloadAll()
      ensures all == old(State()).Everything()
    {
      all := {Bots} + set bot | bot in conversations :: Messages(bot);
      loading := loading + all;
    }

    method Settle()
      modifies this
      ensures State() == old(State()).Settle()
    {
      if loading == {} {
        held := [];
      }
    }

    method LoadFailed(snapshot: Snapshot)
      modifies this
      ensures State() == old(State()).LoadFailed(snapshot)
    {
      loading := loading - {snapshot};
      stale := stale - {snapshot};
      if snapshot.Older? && snapshot.bot in conversations {
        conversations := conversations[snapshot.bot := conversations[snapshot.bot].(requestedOlder := None)];
      }
      Settle();
    }

    method RequestOlder(bot: BotId) returns (cursor: Option<MessageId>)
      modifies this
      ensures State() == old(State()).RequestOlder(bot)
      ensures cursor == old(State()).OlderCursor(bot)
    {
      cursor := None;
      if bot in conversations {
        cursor := conversations[bot].older;
        conversations := conversations[bot := conversations[bot].(requestedOlder := cursor)];
      }
      match cursor {
        case Some(_) => loading := loading + {Older(bot)};
        case None => LoadFailed(Older(bot));
      }
    }

    method CloseConversation(bot: BotId)
      modifies this
      ensures State() == old(State()).CloseConversation(bot)
    {
      conversations := conversations - {bot};
      loading := loading - {Messages(bot)} - {Older(bot)};
      stale := stale - {Messages(bot)} - {Older(bot)};
      assert State() == old(State()).(conversations := conversations).Forget({Messages(bot), Older(bot)});
      Settle();
    }

    /** Adds one event to one conversation. Returns whether the copy is incomplete. */
    method ApplyToConversation(bot: BotId, envelope: Envelope) returns (incomplete: bool)
      modifies this`conversations
      ensures bot !in old(conversations) || envelope.number <= old(conversations)[bot].upTo ==>
                conversations == old(conversations) && !incomplete
      ensures bot in old(conversations) && old(conversations)[bot].upTo < envelope.number ==>
                var c := old(conversations)[bot];
                && conversations ==
                     old(conversations)[bot := c.(messages := Receive(c.messages, envelope.event).messages)]
                && incomplete == Receive(c.messages, envelope.event).incomplete
    {
      incomplete := false;
      if bot !in conversations || envelope.number <= conversations[bot].upTo {
        return;
      }
      var messages := conversations[bot].messages;
      match envelope.event {
        case MessageCreated(message) =>
          if message.id !in messages || !Ahead(messages[message.id], message) {
            messages := messages[message.id := message];
          }
        case MessageDelta(_, id, offset, delta) =>
          if id !in messages {
            incomplete := true;
          } else {
            match AppendDelta(messages[id], offset, delta) {
              case Some(grown) => messages := messages[id := grown];
              case None => incomplete := true;
            }
          }
        case MessageCompleted(message) =>
          messages := messages[message.id := message];
        case _ =>
      }
      conversations := conversations[bot := conversations[bot].(messages := messages)];
    }

    /** Adds one event to the Bot list. Returns whether the list must be loaded again. */
    method ApplyToBots(envelope: Envelope) returns (reload: bool)
      modifies this`bots, this`newest
      ensures var applied := old(State()).ApplyToBots(envelope);
              State() == applied.store && reload == (applied.reload != {})
    {
      if botsUpTo.None? || envelope.number <= botsUpTo.value {
        return false;
      }
      reload := false;
      match envelope.event {
        case BotCreated(bot) => bots := bots[bot.id := bot];
        case BotUpdated(bot) => bots := bots[bot.id := bot];
        case BotStatusChanged(id, status) =>
          if id in bots {
            bots := bots[id := bots[id].(status := status)];
          } else {
            reload := true;
          }
        case MessageCreated(message) =>
          MarkUnread(message);
          reload := PreviewCreation(message);
        case MessageDelta(bot, id, _, _) =>
          if bot in newest && newest[bot] == id {
            match HeldPreview(conversations, bot, id) {
              case Some(preview) => reload := ShowPreview(bot, preview);
              case None =>
            }
          }
        case MessageCompleted(message) =>
          if message.bot in newest {
            if newest[message.bot] <= message.id {
              newest := NoteNewest(newest, message.bot, message.id);
              reload := ShowPreview(message.bot, PreviewOf(message));
            }
          } else {
            reload := message.bot in bots;
          }
        case ReadUpdated(id, readUpTo, unread) =>
          if id in bots {
            bots := bots[id := bots[id].(readUpTo := readUpTo, unread := unread)];
          } else {
            reload := true;
          }
        case OtherEvent =>
      }
    }

    /** Marks a Bot unread when it wrote a message after its read marker. */
    method MarkUnread(message: Message)
      modifies this`bots
      ensures Listing(bots, newest, false) == NoteUnread(old(Listing(bots, newest, false)), message)
    {
      if && message.bot in bots && !bots[message.bot].unread
         && IsUnread(message, bots[message.bot].readUpTo)
      {
        bots := bots[message.bot := bots[message.bot].(unread := true)];
      }
    }

    /** The list's preview after a message was created. Returns whether the list lacks its Bot. */
    method PreviewCreation(message: Message) returns (reload: bool)
      modifies this`bots, this`newest
      ensures Listing(bots, newest, reload)
           == PreviewCreated(conversations, old(Listing(bots, newest, false)), message)
    {
      var known := if message.bot in newest then Some(newest[message.bot]) else None;
      newest := NoteNewest(newest, message.bot, message.id);
      reload := false;
      if known.Some? && known.value > message.id {
        return;
      }
      match HeldPreview(conversations, message.bot, message.id) {
        case Some(preview) => reload := ShowPreview(message.bot, preview);
        case None =>
          // From a page or as a repeat: the list had it, as far as it can tell.
          if known != Some(message.id) {
            reload := ShowPreview(message.bot, PreviewOf(message));
          }
      }
    }

    method ShowPreview(bot: BotId, preview: Preview) returns (reload: bool)
      modifies this`bots
      ensures Listing(bots, newest, reload) == SetPreview(old(Listing(bots, newest, false)), bot, preview)
    {
      reload := bot !in bots;
      if bot in bots {
        bots := bots[bot := bots[bot].(lastMessage := Some(preview))];
      }
    }

    /** Reports only the reloads not already under way, and counts them as loading. */
    method Finish(wanted: set<Snapshot>) returns (reload: set<Snapshot>)
      modifies this
      ensures Applied(State(), reload) == old(State()).Finish(wanted)
    {
      reload := wanted - loading;
      loading := loading + wanted;
    }

    method Apply(envelope: Envelope) returns (reload: set<Snapshot>)
      modifies this
      ensures Applied(State(), reload) == old(State()).Apply(envelope)
    {
      hide Receive, ReceiveBots, AppendDelta;
      if loading != {} {
        if |held| >= MAX_HELD {
          held := [];
          stale := stale + loading;
        }
        held := held + [envelope];
      }
      assert State() == old(State()).Hold(envelope);
      var wanted: set<Snapshot> := {};
      match MessageBot(envelope.event) {
        case Some(bot) =>
          var incomplete := ApplyToConversation(bot, envelope);
          if incomplete {
            wanted := {Messages(bot)};
          }
        case None =>
      }
      assert Applied(State(), wanted) == old(State()).Hold(envelope).ApplyToConversation(envelope) by {
        var conversation := old(State()).Hold(envelope).ApplyToConversation(envelope);
        assert conversation.store.conversations == conversations;
      }
      var reloadBots := ApplyToBots(envelope);
      if reloadBots {
        wanted := wanted + {Bots};
      }
      reload := Finish(wanted);
    }

    method LoadBots(page: BotList) returns (reload: set<Snapshot>)
      modifies this
      ensures Applied(State(), reload) == old(State()).LoadBots(page)
    {
      hide ReceiveBots;
      bots := page.bots;
      botsUpTo := Some(page.upTo);
      newest := map bot | bot in newest && bot in page.bots :: newest[bot];
      loading := loading - {Bots};
      var reloadBots := false;
      var envelopes := held;
      held := [];
      ghost var start := Listing(bots, newest, false);
      for i := 0 to |envelopes|
        invariant held == envelopes[..i]
        invariant State() == old(State()).(bots := bots, botsUpTo := Some(page.upTo), newest := newest,
                                           loading := old(loading) - {Bots}, held := held)
        invariant Listing(bots, newest, reloadBots)
                  == ReplayBots(conversations, start, page.upTo, envelopes[..i])
      {
        assert envelopes[..i + 1][..i] == envelopes[..i];
        if envelopes[i].number > page.upTo {
          ListingReloads(conversations, Listing(bots, newest, false), reloadBots, envelopes[i].event);
          var again := ApplyToBots(envelopes[i]);
          reloadBots := reloadBots || again;
        }
        held := held + [envelopes[i]];
      }
      assert envelopes[..|envelopes|] == envelopes;
      if Bots in stale {
        reloadBots := true;
      }
      stale := stale - {Bots};
      Settle();
      reload := Finish(if reloadBots then {Bots} else {});
    }

    method NotePage(bot: BotId, messages: MessageMap)
      modifies this`newest
      ensures newest == StoreModel.NotePage(old(newest), bot, messages)
    {
      if !exists id :: id in messages {
        return;
      }
      var last :| last in messages;
      var ids := messages.Keys - {last};
      while exists id :: id in ids
        invariant last in messages && ids <= messages.Keys
        invariant forall id :: id in messages ==> id in ids || id <= last
        decreases |ids|
      {
        var id :| id in ids;
        last := Max(last, id);
        ids := ids - {id};
      }
      assert IsNewest(messages, last);
      newest := NoteNewest(newest, bot, last);
    }

    method LoadMessages(bot: BotId, page: MessagePage) returns (reload: set<Snapshot>)
      modifies this
      ensures Applied(State(), reload) == old(State()).LoadMessages(bot, page)
    {
      NotePage(bot, page.messages);
      conversations := conversations[bot := Conversation(page.upTo, page.messages, page.older, None)];
      loading := loading - {Messages(bot)};
      var again := false;
      var envelopes := held;
      held := [];
      for i := 0 to |envelopes|
        invariant held == envelopes[..i]
        invariant State() == old(State()).(conversations := conversations, newest := newest,
                                           loading := old(loading) - {Messages(bot)}, held := held)
        invariant newest == StoreModel.NotePage(old(newest), bot, page.messages)
        invariant var replayed := Replay(page.messages, page.upTo, envelopes[..i]);
                  && again == replayed.incomplete
                  && conversations ==
                       old(conversations)[bot := Conversation(page.upTo, replayed.messages, page.older, None)]
      {
        assert envelopes[..i + 1][..i] == envelopes[..i];
        if envelopes[i].number > page.upTo {
          var incomplete := ApplyToConversation(bot, envelopes[i]);
          again := again || incomplete;
        }
        held := held + [envelopes[i]];
      }
      assert envelopes[..|envelopes|] == envelopes;
      if Messages(bot) in stale {
        again := true;
      }
      stale := stale - {Messages(bot)};
      Settle();
      reload := Finish(if again then {Messages(bot)} else {});
    }

    /** Applies the held events to the messages of an older page. Returns whether all of them fitted. */
    method BringUpToDate(page: MessageMap, upTo: Seq) returns (earlier: MessageMap, complete: bool)
      ensures Received(earlier, !complete) == ReplayOlder(page, upTo, held)
    {
      earlier, complete := page, true;
      for i := 0 to |held|
        invariant Received(earlier, !complete) == ReplayOlder(page, upTo, held[..i])
      {
        assert held[..i + 1][..i] == held[..i];
        if held[i].number > upTo {
          match held[i].event {
            case MessageDelta(_, id, offset, delta) =>
              if id in earlier {
                match AppendDelta(earlier[id], offset, delta) {
                  case Some(grown) => earlier := earlier[id := grown];
                  case None => complete := false;
                }
              }
            case MessageCompleted(message) =>
              if message.id in earlier {
                earlier := earlier[message.id := message];
              }
            case _ =>
          }
        }
      }
      assert held[..|held|] == held;
    }

    method LoadOlder(bot: BotId, before: MessageId, page: MessagePage) returns (reload: set<Snapshot>)
      modifies this
      ensures Applied(State(), reload) == old(State()).LoadOlder(bot, before, page)
    {
      var snapshot := Older(bot);
      var wanted: set<Snapshot> := {};
      loading := loading - {snapshot};
      var complete := snapshot !in stale;
      stale := stale - {snapshot};
      if && bot in conversations && conversations[bot].requestedOlder == Some(before)
         && conversations[bot].older == Some(before)
      {
        var c := conversations[bot].(requestedOlder := None);
        var earlier := map id | id in page.messages && page.messages[id].bot == bot && id < before
                                && id !in c.messages :: page.messages[id];
        assert earlier == old(State()).Earlier(bot, before, page);
        var current: bool;
        earlier, current := BringUpToDate(earlier, page.upTo);
        complete := complete && current;
        if complete {
          c := c.(messages := c.messages + earlier, older := page.older);
        } else {
          wanted := {snapshot};
        }
        conversations := conversations[bot := c];
      }
      Settle();
      reload := Finish(wanted);
    }
  }

  /** An event's effect on the list does not depend on a reload already asked for. */
  lemma ListingReloads(conversations: map<BotId, Conversation>, list: Listing, reload: bool, event: Event)
    requires !list.reload
    ensures var alone := ReceiveBots(conversations, list, event);
            ReceiveBots(conversations, list.(reload := reload), event) == alone.(reload := reload || alone.reload)
  {
    match event {
      case MessageCreated(message) => NotingReloads(list, reload, message);
      case _ =>
    }
  }

  lemma NotingReloads(list: Listing, reload: bool, message: Message)
    requires !list.reload
    ensures var alone := NoteUnread(list, message);
            NoteUnread(list.(reload := reload), message) == alone.(reload := reload || alone.reload)
  {
  }
}
