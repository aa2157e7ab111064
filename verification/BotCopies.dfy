/** A client's Bot list against the log: replaying events onto a list that may be ahead of them. */
module BotCopies {
  import opened Protocol
  import opened ServerLog
  import opened StoreModel
  import opened Copies
  import opened BotLog

  // ---------------------------------------------------------------------
  // The client's list advances as the log's does

  lemma PreviewKeepsEntries(list: Listing, bot: BotId, preview: Preview)
    ensures EntriesOf(SetPreview(list, bot, preview).bots) == EntriesOf(list.bots)
  {
  }

  lemma UnreadNoted(list: Listing, message: Message)
    ensures EntriesOf(NoteUnread(list, message).bots) == AdvanceList(EntriesOf(list.bots), MessageCreated(message))
  {
  }

  lemma PreviewCreatedKeepsEntries(conversations: map<BotId, Conversation>, list: Listing, message: Message)
    ensures EntriesOf(PreviewCreated(conversations, list, message).bots) == EntriesOf(list.bots)
  {
    var noted := list.(newest := NoteNewest(list.newest, message.bot, message.id));
    var held := HeldPreview(conversations, message.bot, message.id);
    PreviewKeepsEntries(noted, message.bot, if held.Some? then held.value else PreviewOf(message));
  }

  /** One event does to the entries of a client's list what it does to the gateway's. */
  lemma ReceivingAdvances(conversations: map<BotId, Conversation>, list: Listing, event: Event)
    ensures EntriesOf(ReceiveBots(conversations, list, event).bots) == AdvanceList(EntriesOf(list.bots), event)
  {
    match event {
      case MessageCreated(message) =>
        UnreadNoted(list, message);
        PreviewCreatedKeepsEntries(conversations, NoteUnread(list, message), message);
      case _ =>
    }
  }

  // ---------------------------------------------------------------------
  // Entries the log showed

  ghost predicate ProfileAt(log: seq<Event>, q: nat, id: BotId, entry: Entry) {
    q <= |log| && id in FoldList(log, q) && FoldList(log, q)[id].profile == entry.profile
  }

  ghost predicate StatusAt(log: seq<Event>, q: nat, id: BotId, entry: Entry) {
    q <= |log| && id in FoldList(log, q) && FoldList(log, q)[id].status == entry.status
  }

  ghost predicate MarkerAt(log: seq<Event>, q: nat, id: BotId, entry: Entry) {
    q <= |log| && id in FoldList(log, q) && FoldList(log, q)[id].readUpTo == entry.readUpTo
  }

  ghost predicate UnreadAt(log: seq<Event>, q: nat, id: BotId) {
    q <= |log| && id in FoldList(log, q) && FoldList(log, q)[id].unread
  }

  /** Each part of an entry is the log's at some position from k to top. */
  ghost predicate EntryShown(log: seq<Event>, k: nat, top: nat, id: BotId, entry: Entry) {
    && (exists q :: k <= q <= top && ProfileAt(log, q, id, entry))
    && (exists q :: k <= q <= top && StatusAt(log, q, id, entry))
    && MarkerShown(log, k, top, id, entry)
  }

  /** A list right at k, having been shown the log as far as top. */
  ghost predicate ListRight(log: seq<Event>, k: nat, top: nat, list: Entries) {
    && k <= top <= |log|
    && (forall id :: id in FoldList(log, k) ==> id in list)
    && (forall id :: id in list ==> EntryShown(log, k, top, id, list[id]))
  }

  /** Where a list right at k is right after event j: at j, unless that skips some. */
  function Onto(k: nat, j: nat): nat {
    if j <= k + 1 then j else k
  }

  lemma FoldListStep(log: seq<Event>, j: nat, id: BotId)
    requires 0 < j <= |log| && id in FoldList(log, j - 1)
    ensures id in FoldList(log, j)
    ensures !IsBotEvent(log[j - 1], id) ==>
              FoldList(log, j)[id] == if EntryChanged(log[j - 1]) == Some(id)
                                      then AdvanceEntry(FoldList(log, j - 1)[id], log[j - 1])
                                      else FoldList(log, j - 1)[id]
  {
  }

  /** The event carries the Bot's whole entry. */
  predicate IsBotEvent(event: Event, id: BotId) {
    (event.BotCreated? || event.BotUpdated?) && event.bot.id == id
  }

  /** A part not written by event j stays shown, moving on with the list. */
  lemma ProfileStays(log: seq<Event>, k: nat, top: nat, j: nat, id: BotId, entry: Entry, q: nat)
    requires k <= q <= top <= |log| && 0 < j <= |log| && ProfileAt(log, q, id, entry)
    requires !IsBotEvent(log[j - 1], id)
    ensures exists r :: Onto(k, j) <= r <= Max(top, j) && ProfileAt(log, r, id, entry)
  {
    if q == k && j == k + 1 {
      FoldListStep(log, j, id);
      assert ProfileAt(log, j, id, entry);
    }
  }

  lemma StatusStays(log: seq<Event>, k: nat, top: nat, j: nat, id: BotId, entry: Entry, q: nat)
    requires k <= q <= top <= |log| && 0 < j <= |log| && StatusAt(log, q, id, entry)
    requires !IsBotEvent(log[j - 1], id) && !(log[j - 1].BotStatusChanged? && log[j - 1].botId == id)
    ensures exists r :: Onto(k, j) <= r <= Max(top, j) && StatusAt(log, r, id, entry)
  {
    if q == k && j == k + 1 {
      FoldListStep(log, j, id);
      assert StatusAt(log, j, id, entry);
    }
  }

  /** The unread flag beside a marker shown at q: the log's there, or set by a message shown elsewhere. */
  ghost predicate FlagShown(log: seq<Event>, k: nat, top: nat, id: BotId, entry: Entry, q: nat)
    requires q <= |log| && id in FoldList(log, q)
  {
    || entry.unread == FoldList(log, q)[id].unread
    || (entry.unread && exists u :: k <= u <= top && UnreadAt(log, u, id))
  }

  predicate WritesMarker(event: Event, id: BotId) {
    IsBotEvent(event, id) || (event.ReadUpdated? && event.botId == id)
  }

  predicate IsBotsMessage(event: Event, id: BotId) {
    event.MessageCreated? && event.message.bot == id && event.message.author.ByBot?
  }

  function After(entry: Entry, event: Event, id: BotId): Entry {
    if EntryChanged(event) == Some(id) then AdvanceEntry(entry, event) else entry
  }

  lemma UnreadStays(log: seq<Event>, k: nat, top: nat, j: nat, id: BotId)
    requires k <= top <= |log| && 0 < j <= |log| && !WritesMarker(log[j - 1], id)
    requires exists u :: k <= u <= top && UnreadAt(log, u, id)
    ensures exists u :: Onto(k, j) <= u <= Max(top, j) && UnreadAt(log, u, id)
  {
    var u :| k <= u <= top && UnreadAt(log, u, id);
    if u == k && j == k + 1 {
      FoldListStep(log, j, id);
      assert UnreadAt(log, j, id);
    }
  }

  /** A flag stays shown when the event is no message of the Bot. */
  lemma FlagStays(log: seq<Event>, k: nat, top: nat, j: nat, id: BotId, entry: Entry, q: nat)
    requires k <= q <= top <= |log| && 0 < j <= |log| && MarkerAt(log, q, id, entry)
    requires FlagShown(log, k, top, id, entry, q)
    requires !WritesMarker(log[j - 1], id) && !IsBotsMessage(log[j - 1], id)
    ensures var r := if q == k && j == k + 1 then j else q;
            var after := After(entry, log[j - 1], id);
            MarkerAt(log, r, id, after) && FlagShown(log, Onto(k, j), Max(top, j), id, after, r)
  {
    if q == k && j == k + 1 {
      FoldListStep(log, j, id);
    }
    if entry.unread != FoldList(log, q)[id].unread {
      UnreadStays(log, k, top, j, id);
    }
  }

  /** An entry with the log's marker becomes unread by the same message as the log's. */
  lemma SameMarkerSameFlag(here: Entry, entry: Entry, event: Event, id: BotId)
    requires IsBotsMessage(event, id) && here.readUpTo == entry.readUpTo && IsNews(event.message, here.readUpTo)
    ensures After(entry, event, id) == entry.(unread := true) && AdvanceEntry(here, event) == here.(unread := true)
  {
  }

  /** The message that event j adds makes the Bot unread, whatever its marker. */
  ghost predicate MakesUnread(log: seq<Event>, j: nat, id: BotId)
    requires 0 < j <= |log|
  {
    && IsBotsMessage(log[j - 1], id)
    && id in FoldList(log, j - 1) && IsNews(log[j - 1].message, FoldList(log, j - 1)[id].readUpTo)
  }

  /** A message of the Bot, when the marker moves on with the list, leaves both unread. */
  lemma MessageFlagsHere(log: seq<Event>, k: nat, id: BotId, entry: Entry)
    requires k < |log| && MarkerAt(log, k, id, entry) && MakesUnread(log, k + 1, id)
    ensures var after := After(entry, log[k], id);
            MarkerAt(log, k + 1, id, after) && after.unread == FoldList(log, k + 1)[id].unread
  {
    var here := FoldList(log, k)[id];
    SameMarkerSameFlag(here, entry, log[k], id);
    assert id in FoldList(log, k + 1) && FoldList(log, k + 1)[id] == AdvanceEntry(here, log[k]);
  }

  /** A message of the Bot, away from where its entry's marker is shown. */
  lemma MessageFlagsThere(log: seq<Event>, k: nat, top: nat, j: nat, id: BotId, entry: Entry, q: nat)
    requires k <= q <= top <= |log| && 0 < j <= |log| && MarkerAt(log, q, id, entry)
    requires FlagShown(log, k, top, id, entry, q) && IsBotsMessage(log[j - 1], id) && UnreadAt(log, j, id)
    ensures var after := After(entry, log[j - 1], id);
            MarkerAt(log, q, id, after) && FlagShown(log, Onto(k, j), Max(top, j), id, after, q)
  {
    var after := After(entry, log[j - 1], id);
    if after.unread != entry.unread {
      assert Onto(k, j) <= j <= Max(top, j);
    } else if entry.unread != FoldList(log, q)[id].unread {
      UnreadStays(log, k, top, j, id);
    }
  }

  /** A message of the Bot leaves the flag shown: at the marker's position, or by the message itself. */
  lemma MessageFlags(log: seq<Event>, k: nat, top: nat, j: nat, id: BotId, entry: Entry, q: nat)
    requires k <= q <= top <= |log| && 0 < j <= |log| && MarkerAt(log, q, id, entry)
    requires FlagShown(log, k, top, id, entry, q) && MakesUnread(log, j, id) && UnreadAt(log, j, id)
    ensures var r := if q == k && j == k + 1 then j else q;
            var after := After(entry, log[j - 1], id);
            MarkerAt(log, r, id, after) && FlagShown(log, Onto(k, j), Max(top, j), id, after, r)
  {
    if q == k && j == k + 1 {
      MessageFlagsHere(log, k, id, entry);
    } else {
      MessageFlagsThere(log, k, top, j, id, entry, q);
    }
  }

  /** An entry that is not rewritten whole stays shown. */
  lemma EntryStays(log: seq<Event>, k: nat, top: nat, j: nat, id: BotId, entry: Entry)
    requires WellFormed(log) && ListWellFormed(log) && k <= top <= |log| && 0 < j <= |log|
    requires EntryShown(log, k, top, id, entry) && !IsBotEvent(log[j - 1], id)
    requires EntryChanged(log[j - 1]) == Some(id) ==> id in FoldList(log, j)
    ensures EntryShown(log, Onto(k, j), Max(top, j), id, After(entry, log[j - 1], id))
  {
    ProfileMoves(log, k, top, j, id, entry);
    StatusMoves(log, k, top, j, id, entry);
    MarkerMoves(log, k, top, j, id, entry);
  }

  lemma ProfileMoves(log: seq<Event>, k: nat, top: nat, j: nat, id: BotId, entry: Entry)
    requires k <= top <= |log| && 0 < j <= |log| && !IsBotEvent(log[j - 1], id)
    requires exists q :: k <= q <= top && ProfileAt(log, q, id, entry)
    ensures var after := After(entry, log[j - 1], id);
            exists q :: Onto(k, j) <= q <= Max(top, j) && ProfileAt(log, q, id, after)
  {
    var q :| k <= q <= top && ProfileAt(log, q, id, entry);
    ProfileStays(log, k, top, j, id, entry, q);
    var r :| Onto(k, j) <= r <= Max(top, j) && ProfileAt(log, r, id, entry);
    assert ProfileAt(log, r, id, After(entry, log[j - 1], id));
  }

  lemma StatusMoves(log: seq<Event>, k: nat, top: nat, j: nat, id: BotId, entry: Entry)
    requires k <= top <= |log| && 0 < j <= |log| && !IsBotEvent(log[j - 1], id)
    requires exists q :: k <= q <= top && StatusAt(log, q, id, entry)
    requires EntryChanged(log[j - 1]) == Some(id) ==> id in FoldList(log, j)
    ensures var after := After(entry, log[j - 1], id);
            exists q :: Onto(k, j) <= q <= Max(top, j) && StatusAt(log, q, id, after)
  {
    var q :| k <= q <= top && StatusAt(log, q, id, entry);
    if log[j - 1].BotStatusChanged? && log[j - 1].botId == id {
      assert StatusAt(log, j, id, After(entry, log[j - 1], id));
    } else {
      StatusStays(log, k, top, j, id, entry, q);
      var r :| Onto(k, j) <= r <= Max(top, j) && StatusAt(log, r, id, entry);
      assert StatusAt(log, r, id, After(entry, log[j - 1], id));
    }
  }

  /** The marker and the flag beside it, shown. */
  ghost predicate MarkerShown(log: seq<Event>, k: nat, top: nat, id: BotId, entry: Entry) {
    exists q :: k <= q <= top && MarkerAt(log, q, id, entry) && FlagShown(log, k, top, id, entry, q)
  }

  lemma MarkerMoves(log: seq<Event>, k: nat, top: nat, j: nat, id: BotId, entry: Entry)
    requires WellFormed(log) && ListWellFormed(log) && k <= top <= |log| && 0 < j <= |log|
    requires MarkerShown(log, k, top, id, entry) && !IsBotEvent(log[j - 1], id)
    requires EntryChanged(log[j - 1]) == Some(id) ==> id in FoldList(log, j)
    ensures MarkerShown(log, Onto(k, j), Max(top, j), id, After(entry, log[j - 1], id))
  {
    var q :| k <= q <= top && MarkerAt(log, q, id, entry) && FlagShown(log, k, top, id, entry, q);
    if log[j - 1].ReadUpdated? && log[j - 1].botId == id {
      assert MarkerAt(log, j, id, After(entry, log[j - 1], id));
      assert FlagShown(log, Onto(k, j), Max(top, j), id, After(entry, log[j - 1], id), j);
    } else if IsBotsMessage(log[j - 1], id) {
      NewMessageIsUnread(log, j, id);
      MessageFlags(log, k, top, j, id, entry, q);
    } else {
      FlagStays(log, k, top, j, id, entry, q);
    }
  }

  /** Whatever event of the log a right list receives, it is right after it. */
  lemma AdvancingKeepsRight(log: seq<Event>, k: nat, top: nat, list: Entries, j: nat)
    requires WellFormed(log) && ListWellFormed(log) && ListRight(log, k, top, list) && 0 < j <= |log|
    ensures ListRight(log, Onto(k, j), Max(top, j), AdvanceList(list, log[j - 1]))
  {
    var event, after := log[j - 1], AdvanceList(list, log[j - 1]);
    assert ListFollowsAt(log, j - 1);
    forall id | id in after
      ensures EntryShown(log, Onto(k, j), Max(top, j), id, after[id])
    {
      if IsBotEvent(event, id) {
        WholeEntryShown(log, k, top, j, id);
      } else {
        EntryStays(log, k, top, j, id, list[id]);
      }
    }
    forall id | id in FoldList(log, Onto(k, j))
      ensures id in after
    {
      if !IsBotEvent(event, id) {
        EarlierInList(log, k, j, id);
      }
    }
  }

  lemma EarlierInList(log: seq<Event>, k: nat, j: nat, id: BotId)
    requires k <= |log| && 0 < j <= |log| && id in FoldList(log, Onto(k, j)) && !IsBotEvent(log[j - 1], id)
    ensures id in FoldList(log, k)
  {
    if j <= k {
      ListGrows(log, j, k, id);
    }
  }

  lemma WholeEntryShown(log: seq<Event>, k: nat, top: nat, j: nat, id: BotId)
    requires k <= top <= |log| && 0 < j <= |log| && IsBotEvent(log[j - 1], id)
    ensures EntryShown(log, Onto(k, j), Max(top, j), id, EntryOf(log[j - 1].bot))
  {
    var entry := EntryOf(log[j - 1].bot);
    assert FoldList(log, j)[id] == entry;
    assert ProfileAt(log, j, id, entry) && StatusAt(log, j, id, entry) && MarkerAt(log, j, id, entry);
    assert FlagShown(log, Onto(k, j), Max(top, j), id, entry, j);
  }

  // ---------------------------------------------------------------------
  // Pages and replays

  /** A list that shows the log at position p. */
  ghost predicate ListShows(log: seq<Event>, page: BotList, p: nat) {
    p <= |log| && EntriesOf(page.bots) == FoldList(log, p)
  }

  lemma ListPageIsRight(log: seq<Event>, page: BotList, p: nat)
    requires ListShows(log, page, p) && page.upTo <= p
    ensures ListRight(log, page.upTo, p, EntriesOf(page.bots))
  {
    var list := EntriesOf(page.bots);
    forall id | id in FoldList(log, page.upTo)
      ensures id in list
    {
      ListGrows(log, page.upTo, p, id);
    }
    forall id | id in list
      ensures EntryShown(log, page.upTo, p, id, list[id])
    {
      assert ProfileAt(log, p, id, list[id]) && StatusAt(log, p, id, list[id]) && MarkerAt(log, p, id, list[id]);
      assert FlagShown(log, page.upTo, p, id, list[id], p);
    }
  }

  /** How far a list is right after replaying the events numbered after `upTo`. */
  function OntoAll(k: nat, upTo: nat, events: seq<Envelope>): nat {
    if events == [] then k
    else
      var before := OntoAll(k, upTo, events[..|events| - 1]);
      var last := events[|events| - 1];
      if last.number <= upTo then before else Onto(before, last.number)
  }

  lemma {:induction false} OntoStaysAfter(upTo: nat, events: seq<Envelope>)
    ensures upTo <= OntoAll(upTo, upTo, events)
  {
    if events != [] {
      OntoStaysAfter(upTo, events[..|events| - 1]);
    }
  }

  /** Events held from the request on lead to the client's position, whatever was held before them. */
  lemma {:induction false} OntoReachesPosition(held: seq<Envelope>, floor: nat, upTo: nat, position: nat)
    requires HeldSince(held, floor, position) && floor <= upTo < position
    ensures OntoAll(upTo, upTo, held) == position
    decreases |held|
  {
    var before := held[..|held| - 1];
    if position - 1 > upTo {
      OntoReachesPosition(before, floor, upTo, position - 1);
    } else {
      OntoStaysAfter(upTo, before);
    }
  }

  /** One held event more, and the list. */
  lemma ReplayBotsGoesOn(conversations: map<BotId, Conversation>, list: Listing, upTo: nat, p: nat,
                         events: seq<Envelope>)
    requires events != []
    ensures var before, last := events[..|events| - 1], events[|events| - 1];
            if last.number <= upTo then
              && ReplayBots(conversations, list, upTo, events) == ReplayBots(conversations, list, upTo, before)
              && OntoAll(upTo, upTo, events) == OntoAll(upTo, upTo, before)
              && Furthest(p, upTo, events) == Furthest(p, upTo, before)
            else
              && ReplayBots(conversations, list, upTo, events)
                 == ReceiveBots(conversations, ReplayBots(conversations, list, upTo, before), last.event)
              && OntoAll(upTo, upTo, events) == Onto(OntoAll(upTo, upTo, before), last.number)
              && Furthest(p, upTo, events) == Max(Furthest(p, upTo, before), last.number)
  {
  }

  lemma {:induction false} ReplayingKeepsRight(log: seq<Event>, conversations: map<BotId, Conversation>, list: Listing,
                                               upTo: nat, p: nat, events: seq<Envelope>)
    requires WellFormed(log) && ListWellFormed(log) && FromLog(log, events)
    requires ListRight(log, upTo, p, EntriesOf(list.bots))
    ensures ListRight(log, OntoAll(upTo, upTo, events), Furthest(p, upTo, events),
                      EntriesOf(ReplayBots(conversations, list, upTo, events).bots))
    decreases |events|
  {
    if events != [] {
      var before, last := events[..|events| - 1], events[|events| - 1];
      ReplayingKeepsRight(log, conversations, list, upTo, p, before);
      ReplayBotsGoesOn(conversations, list, upTo, p, events);
      if last.number > upTo {
        var r, k, top := ReplayBots(conversations, list, upTo, before), OntoAll(upTo, upTo, before),
                         Furthest(p, upTo, before);
        ReceivingKeepsRight(log, conversations, r, k, top, last);
      }
    }
  }

  lemma ReceivingKeepsRight(log: seq<Event>, conversations: map<BotId, Conversation>, list: Listing, k: nat, top: nat,
                            envelope: Envelope)
    requires WellFormed(log) && ListWellFormed(log) && ListRight(log, k, top, EntriesOf(list.bots))
    requires 0 < envelope.number <= |log| && envelope.event == log[envelope.number - 1]
    ensures ListRight(log, Onto(k, envelope.number), Max(top, envelope.number),
                      EntriesOf(ReceiveBots(conversations, list, envelope.event).bots))
  {
    ReceivingAdvances(conversations, list, envelope.event);
    AdvancingKeepsRight(log, k, top, EntriesOf(list.bots), envelope.number);
  }

  /** A list that caught up with all it was shown is the gateway's. */
  lemma CaughtUpListIsExact(log: seq<Event>, k: nat, list: Entries)
    requires ListRight(log, k, k, list)
    ensures list == FoldList(log, k)
  {
    forall id | id in list
      ensures id in FoldList(log, k) && list[id] == FoldList(log, k)[id]
    {
      ShownHereIsHere(log, k, id, list[id]);
    }
    var shown := FoldList(log, k);
    assert forall id :: id in shown ==> id in list;
    assert forall id :: id in list <==> id in shown;
    assert list.Keys == shown.Keys;
  }

  lemma ShownHereIsHere(log: seq<Event>, k: nat, id: BotId, entry: Entry)
    requires EntryShown(log, k, k, id, entry)
    ensures k <= |log| && id in FoldList(log, k) && entry == FoldList(log, k)[id]
  {
    var q :| k <= q <= k && MarkerAt(log, q, id, entry) && FlagShown(log, k, k, id, entry, q);
    assert forall u :: k <= u <= k && UnreadAt(log, u, id) ==> FoldList(log, k)[id].unread;
    var s :| k <= s <= k && StatusAt(log, s, id, entry);
    var p :| k <= p <= k && ProfileAt(log, p, id, entry);
  }
}
