/**
 The client's Bot list through every run of the whole system: a list that is not loading
 and did not fail is the gateway's, where the client stands.
 */
module BotListConvergence {
  import opened Protocol
  import opened ServerLog
  import opened StoreModel
  import opened Copies
  import opened BotLog
  import opened BotCopies
  import opened ConnectionModel
  import opened Driver
  import opened AppModel
  import opened AppProofs
  import opened System
  import opened Convergence

  /** The Bot list is neither loading nor failed, in a session that has been synced. */
  predicate IsListSettled(s: SystemState) {
    s.app.signedIn && s.synced && !s.app.botsError && Bots !in s.app.inFlight
  }

  /** Where the list stands: at the client's position, or at its own number if that is further. */
  function ListStandsAt(s: SystemState): nat
    requires s.app.store.botsUpTo.Some?
  {
    Max(At(s.position), s.app.store.botsUpTo.value)
  }

  ghost predicate ListInv(s: SystemState) {
    IsListSettled(s) ==>
      && s.app.store.botsUpTo.Some?
      && ListRight(s.log, ListStandsAt(s), Max(ListStandsAt(s), s.listShown), EntriesOf(s.app.store.bots))
  }

  /** The events held are enough for the list on its way, unless it will be loaded again. */
  ghost predicate ListPending(s: SystemState) {
    forall sent :: sent in s.wire && sent.generation == s.app.generation && s.synced && sent.request.ListBots?
                   && Bots !in s.app.again && Bots !in s.app.store.stale ==>
                     HeldSince(s.app.store.held, sent.floor, At(s.position))
  }

  ghost predicate ListClaims(s: SystemState) {
    ListWellFormed(s.log) && ListInv(s) && ListPending(s)
  }

  // ---------------------------------------------------------------------
  // Steps that leave the list alone

  /** The list, its number and its error stay, and no load of it is lost or deprived of what is held. */
  ghost predicate LeavesList(a: AppState, b: AppState) {
    && b.generation == a.generation && b.signedIn == a.signedIn && b.botsError == a.botsError
    && b.store.bots == a.store.bots && b.store.botsUpTo == a.store.botsUpTo
    && (Bots in a.inFlight ==> Bots in b.inFlight && b.store.held == a.store.held)
    && (Bots in a.again ==> Bots in b.again)
    && (Bots in a.store.stale ==> Bots in b.store.stale)
  }

  lemma LeavesListThen(a: AppState, b: AppState, c: AppState)
    requires LeavesList(a, b) && LeavesList(b, c)
    ensures LeavesList(a, c)
  {
  }

  lemma LoadingLeavesList(a: AppState, snapshots: set<Snapshot>)
    requires forall snapshot :: snapshot in snapshots ==> !snapshot.Older?
    ensures LeavesList(a, a.LoadAll(snapshots).app)
  {
  }

  lemma OlderLoadLeavesList(a: AppState, bot: BotId)
    requires AppInv(a)
    ensures LeavesList(a, a.LoadOlderPage(bot).app)
  {
    if Bots in a.inFlight {
      assert Bots in a.store.loading - {Older(bot)};
    }
  }

  lemma SeekLeavesList(a: AppState)
    requires AppInv(a)
    ensures LeavesList(a, a.SeekGoto().app)
  {
    if a.open.Some? {
      var counted := a.WithOpen(a.open.value.(gotoPages := a.open.value.gotoPages + 1));
      assert AppInv(counted);
      OlderLoadLeavesList(counted, a.open.value.bot);
    }
  }

  lemma AgainLeavesList(a: AppState, outcome: Outcome, again: bool, snapshot: Snapshot)
    requires LeavesList(a, outcome.app) && !snapshot.Older?
    ensures LeavesList(a, outcome.ThenAgain(again, snapshot).app)
  {
    LoadingLeavesList(outcome.app, {snapshot});
  }

  lemma PageShownLeavesList(a: AppState, bot: BotId, page: MessagePage)
    requires AppInv(a) && a.open.Some?
    ensures LeavesList(a, PageShown(a, bot, page))
  {
    if Bots in a.inFlight {
      assert Bots in a.store.loading - {Messages(bot)};
    }
  }

  lemma NewestReplyLeavesList(a: AppState, bot: BotId, page: Result<MessagePage>)
    requires AppInv(a) && a.signedIn && Messages(bot) in a.inFlight
    requires !(page.Unauthenticated? && a.OpenBot() == Some(bot))
    ensures LeavesList(a, a.ReplyMessages(bot, page).app)
  {
    if a.OpenBot() == Some(bot) {
      match page {
        case Loaded(loaded) =>
          NewestPageSteps(a, bot, loaded);
          PageShownKeeps(a, bot, loaded);
          PageShownLeavesList(a, bot, loaded);
          ReloadSeekAgainLeavesList(PageShown(a, bot, loaded), ReloadsOfPage(a.store, bot, loaded),
                                    Messages(bot) in a.again, Messages(bot));
          LeavesListThen(a, PageShown(a, bot, loaded), a.ReplyMessages(bot, page).app);
        case NotLoaded => FailedPageLeavesList(a, bot);
      }
    }
  }

  lemma ReloadSeekAgainLeavesList(shown: AppState, wanted: set<Snapshot>, again: bool, snapshot: Snapshot)
    requires AppInv(shown) && shown.signedIn && !snapshot.Older? && Concerns(shown.OpenBot(), snapshot)
    requires forall s :: s in wanted ==> !s.Older? && Concerns(shown.OpenBot(), s)
    ensures var loaded := shown.LoadAll(wanted);
            LeavesList(shown, loaded.And(loaded.app.SeekGoto()).ThenAgain(again, snapshot).app)
  {
    var loaded := shown.LoadAll(wanted);
    LoadAllKeeps(shown, wanted);
    LoadingLeavesList(shown, wanted);
    SeekLeavesList(loaded.app);
    LeavesListThen(shown, loaded.app, loaded.app.SeekGoto().app);
    AgainLeavesList(shown, loaded.And(loaded.app.SeekGoto()), again, snapshot);
  }

  lemma FailedPageLeavesList(a: AppState, bot: BotId)
    requires AppInv(a) && a.signedIn && Messages(bot) in a.inFlight && a.OpenBot() == Some(bot)
    ensures LeavesList(a, a.ReplyMessages(bot, NotLoaded).app)
  {
    if Bots in a.inFlight {
      assert Bots in a.store.loading - {Messages(bot)};
    }
  }

  lemma OlderReplyLeavesList(a: AppState, bot: BotId, before: MessageId, page: Result<MessagePage>)
    requires AppInv(a) && a.signedIn && Older(bot) in a.inFlight && AnswersCopy(a.store, bot, before)
    requires !(page.Unauthenticated? && a.OpenBot() == Some(bot))
    ensures LeavesList(a, a.ReplyOlder(bot, before, page).app)
  {
    if a.OpenBot() == Some(bot) {
      match page {
        case Loaded(loaded) => OlderPageLeavesList(a, bot, before, loaded);
        case NotLoaded =>
          if Bots in a.inFlight {
            assert Bots in a.store.loading - {Older(bot)};
          }
      }
    }
  }

  lemma OlderShownLeavesList(a: AppState, bot: BotId, before: MessageId, page: MessagePage)
    requires AppInv(a) && a.open.Some?
    ensures LeavesList(a, OlderShown(a, bot, before, page))
  {
    if Bots in a.inFlight {
      OlderInLeavesHeld(a.store, bot, before, page, Bots);
    }
    assert Bots in a.store.stale ==> Bots in a.store.stale - {Older(bot)};
  }

  lemma OlderPageLeavesList(a: AppState, bot: BotId, before: MessageId, page: MessagePage)
    requires AppInv(a) && a.signedIn && Older(bot) in a.inFlight && a.OpenBot() == Some(bot)
    requires AnswersCopy(a.store, bot, before)
    ensures LeavesList(a, a.ReplyOlder(bot, before, Loaded(page)).app)
  {
    OlderPageKeeps(a, bot, before, page);
    OlderShownLeavesList(a, bot, before, page);
    var shown := OlderShown(a, bot, before, page);
    var complete := a.store.LoadOlder(bot, before, page).reload == {};
    var loaded := if complete then shown.Quietly() else shown.LoadOlderPage(bot);
    OlderLoadLeavesList(shown, bot);
    LoadOlderKeeps(shown, bot);
    SeekLeavesList(loaded.app);
    LeavesListThen(shown, loaded.app, loaded.app.SeekGoto().app);
    LeavesListThen(a, shown, loaded.app.SeekGoto().app);
  }

  lemma ClosingLeavesList(a: AppState)
    requires AppInv(a)
    ensures LeavesList(a, a.CloseOpen())
  {
    if a.open.Some? && Bots in a.inFlight {
      assert Bots in a.store.loading - {Messages(a.open.value.bot), Older(a.open.value.bot)};
    }
  }

  lemma ActionsLeaveList(a: AppState, bot: BotId, message: MessageId)
    requires AppInv(a) && a.signedIn
    ensures LeavesList(a, a.OpenConversation(bot).app) && LeavesList(a, a.Back().app)
    ensures LeavesList(a, a.Refresh().app) && LeavesList(a, a.RefreshBots().app)
  {
    ClosingLeavesList(a);
    var entered := a.CloseOpen().WithOpen(Open(bot, false, false, None, 0));
    LoadingLeavesList(entered, {Messages(bot)});
  }

  lemma LoadingMoreLeavesList(a: AppState, message: MessageId)
    requires AppInv(a) && a.signedIn
    ensures LeavesList(a, a.LoadOlderAction().app) && LeavesList(a, a.GoTo(message).app)
  {
    if a.open.Some? {
      var cleared := a.WithOpen(a.open.value.(olderError := false));
      assert AppInv(cleared);
      OlderLoadLeavesList(cleared, a.open.value.bot);
      var sought := a.WithOpen(a.open.value.(goto := Some(message), gotoPages := 0));
      assert AppInv(sought);
      SeekLeavesList(sought);
    }
  }

  // ---------------------------------------------------------------------
  // The claims, step by step

  /** The same log, position and showing, with no request for a list added or lost. */
  ghost predicate SameStanding(s: SystemState, t: SystemState) {
    && t.log == s.log && t.position == s.position && t.synced == s.synced && t.listShown == s.listShown
    && (forall sent :: sent in t.wire && sent.request.ListBots? ==> sent in s.wire)
  }

  lemma LeavingKeepsClaims(s: SystemState, t: SystemState, outcome: Outcome)
    requires ListClaims(s) && SameStanding(s, t) && t.app == s.app && LeavesList(s.app, outcome.app)
    requires WireInv(s.wire, s.app.generation, s.app.inFlight)
    ensures ListClaims(Act(t, outcome))
  {
    var after := Act(t, outcome);
    forall sent | sent in after.wire && sent.generation == after.app.generation && after.synced
                  && sent.request.ListBots? && Bots !in after.app.again && Bots !in after.app.store.stale
      ensures HeldSince(after.app.store.held, sent.floor, At(after.position))
    {
      if sent in t.wire {
        assert SnapshotOf(sent.request) in s.app.inFlight;
      } else {
        NewRequests(t, outcome, sent);
      }
    }
  }

  /** A session that has not been synced claims nothing. */
  lemma UnsyncedClaimsNothing(s: SystemState)
    requires ListWellFormed(s.log) && !s.synced
    ensures ListClaims(s)
  {
  }

  lemma ListRightOfPrefix(log: seq<Event>, more: seq<Event>, k: nat, top: nat, list: Entries)
    requires ListRight(log, k, top, list)
    ensures ListRight(log + more, k, top, list)
  {
    FoldListOfPrefix(log, more, k);
    forall id | id in list
      ensures EntryShown(log + more, k, top, id, list[id])
    {
      EntryShownOfPrefix(log, more, k, top, id, list[id]);
    }
  }

  lemma EntryShownOfPrefix(log: seq<Event>, more: seq<Event>, k: nat, top: nat, id: BotId, entry: Entry)
    requires EntryShown(log, k, top, id, entry)
    ensures EntryShown(log + more, k, top, id, entry)
  {
    var p :| k <= p <= top && ProfileAt(log, p, id, entry);
    FoldListOfPrefix(log, more, p);
    assert ProfileAt(log + more, p, id, entry);
    var s :| k <= s <= top && StatusAt(log, s, id, entry);
    FoldListOfPrefix(log, more, s);
    assert StatusAt(log + more, s, id, entry);
    MarkerShownOfPrefix(log, more, k, top, id, entry);
  }

  lemma MarkerShownOfPrefix(log: seq<Event>, more: seq<Event>, k: nat, top: nat, id: BotId, entry: Entry)
    requires MarkerShown(log, k, top, id, entry)
    ensures MarkerShown(log + more, k, top, id, entry)
  {
    var q :| k <= q <= top && MarkerAt(log, q, id, entry) && FlagShown(log, k, top, id, entry, q);
    FoldListOfPrefix(log, more, q);
    assert MarkerAt(log + more, q, id, entry);
    if entry.unread != FoldList(log, q)[id].unread {
      var u :| k <= u <= top && UnreadAt(log, u, id);
      FoldListOfPrefix(log, more, u);
      assert UnreadAt(log + more, u, id);
    }
    assert FlagShown(log + more, k, top, id, entry, q);
  }

  lemma CommitKeepsList(s: SystemState, events: seq<Event>)
    requires ListClaims(s) && ListWellFormed(s.log + events)
    ensures ListClaims(s.(log := s.log + events))
  {
    if IsListSettled(s) {
      ListRightOfPrefix(s.log, events, ListStandsAt(s), Max(ListStandsAt(s), s.listShown), EntriesOf(s.app.store.bots));
    }
  }

  // ---------------------------------------------------------------------
  // Hearing an event

  /** An event on the list: received if it is after the list's number. */
  lemma EventOnList(store: StoreState, envelope: Envelope)
    ensures EventIn(store, envelope).botsUpTo == store.botsUpTo
    ensures EntriesOf(EventIn(store, envelope).bots)
         == if store.botsUpTo.Some? && envelope.number > store.botsUpTo.value
            then AdvanceList(EntriesOf(store.bots), envelope.event) else EntriesOf(store.bots)
  {
    var before := store.Hold(envelope).ApplyToConversation(envelope).store;
    assert before.bots == store.bots && before.botsUpTo == store.botsUpTo;
    ReceivingAdvances(before.conversations, Listing(before.bots, before.newest, false), envelope.event);
  }

  lemma WiderIsRight(log: seq<Event>, k: nat, top: nat, wide: nat, list: Entries)
    requires ListRight(log, k, top, list) && top <= wide <= |log|
    ensures ListRight(log, k, wide, list)
  {
    forall id | id in list
      ensures EntryShown(log, k, wide, id, list[id])
    {
      EntryShownWider(log, k, top, wide, id, list[id]);
    }
  }

  lemma EntryShownWider(log: seq<Event>, k: nat, top: nat, wide: nat, id: BotId, entry: Entry)
    requires EntryShown(log, k, top, id, entry) && top <= wide
    ensures EntryShown(log, k, wide, id, entry)
  {
    var q :| k <= q <= top && MarkerAt(log, q, id, entry) && FlagShown(log, k, top, id, entry, q);
    assert FlagShown(log, k, wide, id, entry, q);
  }

  lemma EventKeepsList(s: SystemState)
    requires Inv(s) && ListClaims(s) && s.app.signedIn && s.queue != [] && s.queue[0].update.EventUpdate?
    requires IsListSettled(s)
    ensures ListInv(EventHeard(s))
  {
    var envelope, after := s.queue[0].update.envelope, EventHeard(s);
    HeardKeepsSocket(s);
    EventOnList(s.app.store, envelope);
    var list, k, top := EntriesOf(s.app.store.bots), ListStandsAt(s), Max(ListStandsAt(s), s.listShown);
    var j := envelope.number;
    assert j == At(s.position) + 1 <= |s.log| && envelope.event == s.log[j - 1];
    if j > s.app.store.botsUpTo.value {
      assert k + 1 == j;
      AdvancingKeepsRight(s.log, k, top, list, j);
    } else {
      WiderIsRight(s.log, k, top, Max(top, j), list);
    }
  }

  lemma EventKeepsListPending(s: SystemState)
    requires Inv(s) && ListPending(s) && s.app.signedIn && s.queue != [] && s.queue[0].update.EventUpdate?
    ensures ListPending(EventHeard(s))
  {
    var after, envelope := EventHeard(s), s.queue[0].update.envelope;
    HeardKeepsSocket(s);
    EventInStore(s.app.store, envelope);
    forall sent | sent in s.wire && sent.generation == s.app.generation && s.synced && sent.request.ListBots?
                  && Bots !in s.app.again && Bots !in after.app.store.stale
      ensures HeldSince(after.app.store.held, sent.floor, At(after.position))
    {
      assert SnapshotOf(sent.request) in s.app.inFlight;
      HoldKeepsEnough(s.app.store, Bots, sent.floor, At(s.position), envelope);
    }
  }

  lemma EventHeardKeepsList(s: SystemState)
    requires Inv(s) && ListClaims(s) && s.app.signedIn && s.queue != [] && s.queue[0].update.EventUpdate?
    ensures ListClaims(Do(s, HearUpdate))
  {
    var envelope, heard := s.queue[0].update.envelope, EventHeard(s);
    EventKeepsListPending(s);
    if IsListSettled(heard) {
      EventKeepsList(s);
    }
    var reload := EventReloads(s.app, envelope);
    var outcome := s.app.HearSocket(EventUpdate(envelope));
    LoadingLeavesList(heard.app, reload);
    EventHeardKeepsInv(s);
    LeavingKeepsClaims(heard, heard, outcome);
    assert Do(s, HearUpdate) == Act(heard, outcome);
  }

  /** A reload loads the list anew, or once the load in flight answers. */
  lemma ReloadKeepsList(s: SystemState)
    requires Inv(s) && ListClaims(s) && s.app.signedIn && s.queue != [] && s.queue[0].update.ReloadUpdate?
    ensures ListClaims(Do(s, HearUpdate))
  {
    var heard, outcome := Heard(s), s.app.ReloadEverything();
    var after := Act(heard, outcome);
    assert Bots in s.app.Everything() && Bots in after.app.inFlight;
    ListsAreInFlight(s);
    forall sent | sent in after.wire && sent.generation == after.app.generation && sent.request.ListBots?
                  && Bots !in after.app.again
      ensures HeldSince(after.app.store.held, sent.floor, At(after.position))
    {
      if sent !in s.wire {
        NewRequests(heard, outcome, sent);
      }
    }
  }

  lemma ListsAreInFlight(s: SystemState)
    requires WireInv(s.wire, s.app.generation, s.app.inFlight)
    ensures forall sent :: sent in s.wire && sent.generation == s.app.generation && sent.request.ListBots? ==>
                             Bots in s.app.inFlight
  {
    forall sent | sent in s.wire && sent.generation == s.app.generation && sent.request.ListBots?
      ensures Bots in s.app.inFlight
    {
      assert SnapshotOf(sent.request) in s.app.inFlight;
    }
  }

  /** Once its request is answered, no other for the list is on its way in this session. */
  lemma NoOtherList(s: SystemState, sent: Sent)
    requires WireInv(s.wire, s.app.generation, s.app.inFlight)
    requires sent in s.wire && sent.request.ListBots? && sent.generation == s.app.generation
    ensures forall other :: other in s.wire - {sent} && other.generation == s.app.generation ==>
              !other.request.ListBots?
  {
    forall other | other in s.wire && other.generation == s.app.generation && other.request.ListBots?
      ensures other == sent
    {
      assert SnapshotOf(other.request) == SnapshotOf(sent.request);
    }
  }

  lemma HearKeepsList(s: SystemState)
    requires Inv(s) && ListClaims(s) && s.queue != []
    ensures ListClaims(Do(s, HearUpdate))
  {
    var update, heard := s.queue[0].update, Heard(s);
    if !s.app.signedIn {
      assert Do(s, HearUpdate).app == s.app && Do(s, HearUpdate).wire == s.wire + {};
      assert forall sent :: sent in s.wire && sent.generation == s.app.generation ==>
        SnapshotOf(sent.request) in s.app.inFlight;
    } else {
      HeardKeepsSocket(s);
      match update {
        case EventUpdate(_) => EventHeardKeepsList(s);
        case ReloadUpdate => ReloadKeepsList(s);
        case SignedOutUpdate => UnsyncedClaimsNothing(Do(s, HearUpdate));
        case CheckSessionUpdate => LeavingKeepsClaims(s, heard, s.app.Quietly());
        case LinkUpdate(link) =>
          LoadingLeavesList(s.app, s.app.FailedLoads());
          LeavingKeepsClaims(s, heard, s.app.HearSocket(update));
      }
    }
  }

  // ---------------------------------------------------------------------
  // Answers

  lemma StaleAnswerKeepsList(s: SystemState, sent: Sent)
    requires ListClaims(s)
    ensures ListClaims(s.(wire := s.wire - {sent}))
  {
  }

  /** A list that comes in with enough held is right where the client stands. */
  lemma ListInIsRight(log: seq<Event>, store: StoreState, page: BotList, p: nat, floor: nat, at: nat)
    requires WellFormed(log) && ListWellFormed(log) && ListShows(log, page, p) && FromLog(log, store.held)
    requires floor <= page.upTo <= p && HeldSince(store.held, floor, at) && at <= |log|
    ensures var k := Max(at, page.upTo);
            ListRight(log, k, Max(k, Furthest(p, page.upTo, store.held)), EntriesOf(ListIn(store, page).bots))
  {
    var list := Listing(page.bots, map bot | bot in store.newest && bot in page.bots :: store.newest[bot], false);
    ListPageIsRight(log, page, p);
    ReplayedListIsRight(log, store.conversations, list, page.upTo, p, store.held, floor, at);
    ListInBots(store, page);
  }

  lemma ListInBots(store: StoreState, page: BotList)
    ensures var newest := map bot | bot in store.newest && bot in page.bots :: store.newest[bot];
            var list := Listing(page.bots, newest, false);
            ListIn(store, page).bots == ReplayBots(store.conversations, list, page.upTo, store.held).bots
  {
  }

  lemma ReplayedListIsRight(log: seq<Event>, conversations: map<BotId, Conversation>, list: Listing, upTo: nat, p: nat,
                            held: seq<Envelope>, floor: nat, at: nat)
    requires WellFormed(log) && ListWellFormed(log) && FromLog(log, held)
    requires ListRight(log, upTo, p, EntriesOf(list.bots))
    requires floor <= upTo && HeldSince(held, floor, at)
    ensures var k := Max(at, upTo);
            ListRight(log, k, Max(k, Furthest(p, upTo, held)),
                      EntriesOf(ReplayBots(conversations, list, upTo, held).bots))
  {
    ReplayingKeepsRight(log, conversations, list, upTo, p, held);
    OntoStaysAfter(upTo, held);
    if at > upTo {
      OntoReachesPosition(held, floor, upTo, at);
    }
    EndsRight(log, OntoAll(upTo, upTo, held), upTo, at, Furthest(p, upTo, held),
              EntriesOf(ReplayBots(conversations, list, upTo, held).bots));
  }

  /** A list right as far as the replay reached is right at the position, or at its own number. */
  lemma EndsRight(log: seq<Event>, reached: nat, upTo: nat, at: nat, top: nat, list: Entries)
    requires ListRight(log, reached, top, list) && upTo <= reached && (at > upTo ==> reached == at)
    ensures ListRight(log, Max(at, upTo), Max(Max(at, upTo), top), list)
  {
    hide FoldList, EntryShown;
    var k: nat := Max(at, upTo);
    if at <= upTo {
      RightEarlier(log, upTo, reached, top, list);
    }
    assert ListRight(log, k, top, list);
    assert Max(k, top) == top;
  }

  lemma RightEarlier(log: seq<Event>, i: nat, k: nat, top: nat, list: Entries)
    requires ListRight(log, k, top, list) && i <= k
    ensures ListRight(log, i, top, list)
  {
    forall id | id in FoldList(log, i)
      ensures id in list
    {
      ListGrows(log, i, k, id);
    }
    forall id | id in list
      ensures EntryShown(log, i, top, id, list[id])
    {
      EntryShownEarlier(log, i, k, top, id, list[id]);
    }
  }

  lemma EntryShownEarlier(log: seq<Event>, i: nat, k: nat, top: nat, id: BotId, entry: Entry)
    requires EntryShown(log, k, top, id, entry) && i <= k
    ensures EntryShown(log, i, top, id, entry)
  {
    var q :| k <= q <= top && MarkerAt(log, q, id, entry) && FlagShown(log, k, top, id, entry, q);
    assert FlagShown(log, i, top, id, entry, q);
  }

  /** The system once a list is in, before the reloads it asks for. */
  ghost function ListedIn(s: SystemState, sent: Sent, page: BotList, p: nat): SystemState {
    PagedList(s.(wire := s.wire - {sent}), Loaded(page), p).(app := ListShown(s.app, page))
  }

  lemma ListedInKeepsClaims(s: SystemState, sent: Sent, page: BotList, p: nat)
    requires Inv(s) && ListClaims(s) && Allowed(s, AnswerBots(sent, Loaded(page), p))
    requires sent.generation == s.app.generation && s.app.signedIn
    requires Bots !in s.app.again && Bots !in s.app.store.stale
    ensures ListClaims(ListedIn(s, sent, page, p))
  {
    var after := ListedIn(s, sent, page, p);
    assert SnapshotOf(sent.request) in s.app.inFlight;
    if IsListSettled(after) {
      ListInIsRight(s.log, s.app.store, page, p, sent.floor, At(s.position));
    }
    NoOtherList(s, sent);
  }

  lemma ListAnswerKeepsClaims(s: SystemState, sent: Sent, page: BotList, p: nat)
    requires Inv(s) && ListClaims(s) && Allowed(s, AnswerBots(sent, Loaded(page), p))
    requires sent.generation == s.app.generation && s.app.signedIn
    ensures ListClaims(Do(s, AnswerBots(sent, Loaded(page), p)))
  {
    hide AppInv, SocketInv;
    assert SnapshotOf(sent.request) in s.app.inFlight;
    ListSteps(s.app, page);
    var listed := ListedIn(s, sent, page, p);
    var shown, wanted := ListShown(s.app, page), ReloadsOfList(s.app.store, page);
    var outcome := s.app.ReplyBots(Loaded(page));
    LoadingLeavesList(shown, wanted);
    AgainLeavesList(shown, shown.LoadAll(wanted), Bots in s.app.again, Bots);
    assert Do(s, AnswerBots(sent, Loaded(page), p)) == Act(listed, outcome);
    if Bots in s.app.again || Bots in s.app.store.stale {
      ResendingListKeepsClaims(s, sent, page, p);
    } else {
      ListedInKeepsClaims(s, sent, page, p);
      WireAfterAnswer(s.wire, s.app.generation, s.app.inFlight, sent);
      assert listed.app.inFlight == s.app.inFlight - {Bots};
      LeavingKeepsClaims(listed, listed, outcome);
    }
  }

  /** A list asked for again, or too stale to bring up to date, is loaded anew. */
  lemma ResendingListKeepsClaims(s: SystemState, sent: Sent, page: BotList, p: nat)
    requires Inv(s) && ListClaims(s) && Allowed(s, AnswerBots(sent, Loaded(page), p))
    requires sent.generation == s.app.generation && s.app.signedIn
    requires Bots in s.app.again || Bots in s.app.store.stale
    ensures ListClaims(Act(ListedIn(s, sent, page, p), s.app.ReplyBots(Loaded(page))))
  {
    assert SnapshotOf(sent.request) in s.app.inFlight;
    ListSteps(s.app, page);
    var listed, outcome := ListedIn(s, sent, page, p), s.app.ReplyBots(Loaded(page));
    var after := Act(listed, outcome);
    assert Bots in after.app.inFlight;
    NoOtherList(s, sent);
    forall other | other in after.wire && other.generation == after.app.generation && other.request.ListBots?
      ensures HeldSince(after.app.store.held, other.floor, At(after.position))
    {
      if other !in listed.wire {
        NewRequests(listed, outcome, other);
      }
    }
  }

  lemma FailedListKeepsClaims(s: SystemState, sent: Sent)
    requires Inv(s) && ListClaims(s) && sent in s.wire && sent.request.ListBots?
    requires sent.generation == s.app.generation && s.app.signedIn
    ensures ListClaims(Act(s.(wire := s.wire - {sent}), s.app.ReplyBots(NotLoaded)))
  {
    assert SnapshotOf(sent.request) in s.app.inFlight;
    var answered, outcome := s.(wire := s.wire - {sent}), s.app.ReplyBots(NotLoaded);
    var after := Act(answered, outcome);
    if Bots in s.app.again {
      AgainAfterFailure(s.app, Bots);
    }
    NoOtherList(s, sent);
    forall other | other in after.wire && other.generation == after.app.generation && other.request.ListBots?
      ensures HeldSince(after.app.store.held, other.floor, At(after.position))
    {
      if other !in answered.wire {
        NewRequests(answered, outcome, other);
      }
    }
  }

  lemma AnswerBotsKeepsList(s: SystemState, sent: Sent, bots: Result<BotList>, p: nat)
    requires Inv(s) && ListClaims(s) && Allowed(s, AnswerBots(sent, bots, p))
    ensures ListClaims(Do(s, AnswerBots(sent, bots, p)))
  {
    if sent.generation != s.app.generation {
      StaleAnswerKeepsList(s, sent);
    } else {
      assert SnapshotOf(sent.request) in s.app.inFlight;
      match bots {
        case Loaded(page) => ListAnswerKeepsClaims(s, sent, page, p);
        case Unauthenticated => UnsyncedClaimsNothing(Do(s, AnswerBots(sent, bots, p)));
        case NotLoaded => FailedListKeepsClaims(s, sent);
      }
    }
  }

  lemma AnswerNewestKeepsList(s: SystemState, sent: Sent, page: Result<MessagePage>, p: nat)
    requires Inv(s) && ListClaims(s) && Allowed(s, AnswerNewest(sent, page, p))
    ensures ListClaims(Do(s, AnswerNewest(sent, page, p)))
  {
    var bot := sent.request.bot;
    if sent.generation != s.app.generation {
      StaleAnswerKeepsList(s, sent);
    } else {
      assert SnapshotOf(sent.request) in s.app.inFlight;
      if page.Unauthenticated? && s.app.OpenBot() == Some(bot) {
        UnsyncedClaimsNothing(Do(s, AnswerNewest(sent, page, p)));
      } else {
        NewestReplyLeavesList(s.app, bot, page);
        var answered := s.(wire := s.wire - {sent});
        LeavingKeepsClaims(s, answered, s.app.ReplyMessages(bot, page));
        LeavingKeepsClaims(s, Paged(answered, bot, page, p), s.app.ReplyMessages(bot, page));
      }
    }
  }

  lemma AnswerOlderKeepsList(s: SystemState, sent: Sent, page: Result<MessagePage>, p: nat)
    requires Inv(s) && ListClaims(s) && Allowed(s, AnswerOlder(sent, page, p))
    ensures ListClaims(Do(s, AnswerOlder(sent, page, p)))
  {
    var bot, before := sent.request.bot, sent.request.before;
    if sent.generation != s.app.generation {
      StaleAnswerKeepsList(s, sent);
    } else {
      assert SnapshotOf(sent.request) in s.app.inFlight;
      if page.Unauthenticated? && s.app.OpenBot() == Some(bot) {
        UnsyncedClaimsNothing(Do(s, AnswerOlder(sent, page, p)));
      } else {
        OlderReplyLeavesList(s.app, bot, before, page);
        var answered := s.(wire := s.wire - {sent});
        LeavingKeepsClaims(s, answered, s.app.ReplyOlder(bot, before, page));
        LeavingKeepsClaims(s, PagedOlder(answered, page, p), s.app.ReplyOlder(bot, before, page));
      }
    }
  }

  lemma ActionKeepsList(s: SystemState, step: Step)
    requires Inv(s) && ListClaims(s) && Allowed(s, step) && s.app.signedIn
    requires step.OpenABot? || step.GoBack? || step.RefreshOpen? || step.RefreshList? || step.LoadMore? || step.Seek?
    ensures ListClaims(Do(s, step))
  {
    match step {
      case OpenABot(bot) =>
        ActionsLeaveList(s.app, bot, 0);
        LeavingKeepsClaims(s, s, s.app.OpenConversation(bot));
      case GoBack =>
        ActionsLeaveList(s.app, 0, 0);
        LeavingKeepsClaims(s, s, s.app.Back());
      case RefreshOpen =>
        ActionsLeaveList(s.app, 0, 0);
        LeavingKeepsClaims(s, s, s.app.Refresh());
      case RefreshList =>
        ActionsLeaveList(s.app, 0, 0);
        LeavingKeepsClaims(s, s, s.app.RefreshBots());
      case LoadMore =>
        LoadingMoreLeavesList(s.app, 0);
        LeavingKeepsClaims(s, s, s.app.LoadOlderAction());
      case Seek(message) =>
        LoadingMoreLeavesList(s.app, message);
        LeavingKeepsClaims(s, s, s.app.GoTo(message));
    }
  }

  lemma StepKeepsList(s: SystemState, step: Step)
    requires Inv(s) && ListClaims(s) && Allowed(s, step)
    ensures ListClaims(Do(s, step))
  {
    match step {
      case Commit(events) => CommitKeepsList(s, events);
      case SocketInput(_) =>
      case HearUpdate => HearKeepsList(s);
      case AnswerBots(sent, bots, p) => AnswerBotsKeepsList(s, sent, bots, p);
      case AnswerNewest(sent, page, p) => AnswerNewestKeepsList(s, sent, page, p);
      case AnswerOlder(sent, page, p) => AnswerOlderKeepsList(s, sent, page, p);
      case LeaveSession => UnsyncedClaimsNothing(Do(s, step));
      case EnterSession(_) => UnsyncedClaimsNothing(Do(s, step));
      case _ => ActionKeepsList(s, step);
    }
  }

  lemma {:induction false} EveryRunKeepsList(steps: seq<Step>)
    requires IsRun(steps)
    ensures ListClaims(StateAfter(steps))
    decreases |steps|
  {
    if steps != [] {
      EveryRunKeepsInv(steps[..|steps| - 1]);
      EveryRunKeepsList(steps[..|steps| - 1]);
      StepKeepsList(StateAfter(steps[..|steps| - 1]), steps[|steps| - 1]);
    }
  }

  /**
   After every run, a Bot list that is not loading and did not fail has every Bot of the
   gateway's where the client stands, and no other but ones it was already shown; each
   part of an entry is the gateway's there, or at a later position already shown.
   */
  lemma SettledListConverges(steps: seq<Step>)
    requires IsRun(steps) && IsListSettled(StateAfter(steps))
    ensures var s := StateAfter(steps);
            && s.app.store.botsUpTo.Some?
            && ListRight(s.log, ListStandsAt(s), Max(ListStandsAt(s), s.listShown), EntriesOf(s.app.store.bots))
  {
    EveryRunKeepsList(steps);
  }

  /** Once the application has heard every event of the log, a settled Bot list is the gateway's, entry by entry. */
  lemma CaughtUpListIsTheGateways(steps: seq<Step>)
    requires IsRun(steps) && IsListSettled(StateAfter(steps))
    requires At(StateAfter(steps).position) == |StateAfter(steps).log|
    ensures var s := StateAfter(steps);
            EntriesOf(s.app.store.bots) == FoldList(s.log, |s.log|)
  {
    SettledListConverges(steps);
    var s := StateAfter(steps);
    CaughtUpListIsExact(s.log, |s.log|, EntriesOf(s.app.store.bots));
  }
}
