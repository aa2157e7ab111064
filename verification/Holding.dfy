/**
 The events held while snapshots load are enough for each of them, over every sequence
 of the store's operations.
 */
module Holding {
  import opened Protocol
  import opened StoreModel
  import opened AppProofs

  datatype Operation =
    | Ask(snapshot: Snapshot)
    | AskAll
    | AskOlder(bot: BotId)
    | Hear(envelope: Envelope)
    | ListCame(list: BotList)
    | PageCame(bot: BotId, page: MessagePage)
    | OlderCame(bot: BotId, before: MessageId, page: MessagePage)
    | LoadFails(snapshot: Snapshot)
    | CloseIt(bot: BotId)

  ghost function StoreAfter(store: StoreState, operation: Operation): StoreState {
    match operation
    case Ask(snapshot) => store.Request(snapshot)
    case AskAll => store.ReloadAll()
    case AskOlder(bot) => store.RequestOlder(bot)
    case Hear(envelope) => store.Apply(envelope).store
    case ListCame(list) => store.LoadBots(list).store
    case PageCame(bot, page) => store.LoadMessages(bot, page).store
    case OlderCame(bot, before, page) => store.LoadOlder(bot, before, page).store
    case LoadFails(snapshot) => store.LoadFailed(snapshot)
    case CloseIt(bot) => store.CloseConversation(bot)
  }

  /** The snapshots whose loading an operation ends, though it may ask for them anew. */
  function Ends(store: StoreState, operation: Operation): set<Snapshot> {
    match operation
    case AskOlder(bot) => if store.OlderCursor(bot).None? then {Older(bot)} else {}
    case ListCame(_) => {Bots}
    case PageCame(bot, _) => {Messages(bot)}
    case OlderCame(bot, _, _) => {Older(bot)}
    case LoadFails(snapshot) => {snapshot}
    case CloseIt(bot) => {Messages(bot), Older(bot)}
    case _ => {}
  }

  /** A store, and for each snapshot it loads the events applied since that was asked for. */
  datatype Tracked = Tracked(store: StoreState, since: map<Snapshot, seq<Envelope>>)

  ghost function Track(t: Tracked, operation: Operation): Tracked {
    var after := StoreAfter(t.store, operation);
    Tracked(after, map snapshot | snapshot in after.loading ::
      if snapshot in t.store.loading && snapshot in t.since && snapshot !in Ends(t.store, operation)
      then t.since[snapshot] + if operation.Hear? then [operation.envelope] else []
      else [])
  }

  /** A new store after these operations, whatever they are. */
  ghost function TrackAll(operations: seq<Operation>): Tracked {
    if operations == [] then Tracked(EMPTY, map[])
    else Track(TrackAll(operations[..|operations| - 1]), operations[|operations| - 1])
  }

  predicate IsSuffix(end: seq<Envelope>, whole: seq<Envelope>) {
    |end| <= |whole| && whole[|whole| - |end|..] == end
  }

  ghost predicate HoldsEnough(t: Tracked) {
    && t.since.Keys == t.store.loading
    && StoreInv(t.store)
    && (forall snapshot :: snapshot in t.store.loading - t.store.stale ==>
                             IsSuffix(t.since[snapshot], t.store.held))
  }

  /** An event applied: what is held of it, and what loads after it. */
  lemma AppliedStore(store: StoreState, envelope: Envelope)
    ensures var after := store.Apply(envelope).store;
            && after.held == store.Hold(envelope).held && after.stale == store.Hold(envelope).stale
            && store.loading <= after.loading
  {
    EventInStore(store, envelope);
    assert store.Apply(envelope) == EventIn(store, envelope).Finish(ReloadsOfEvent(store, envelope));
  }

  lemma HeldForOne(store: StoreState, since: seq<Envelope>, snapshot: Snapshot, envelope: Envelope)
    requires snapshot in store.loading && (snapshot !in store.stale ==> IsSuffix(since, store.held))
    ensures snapshot !in store.Hold(envelope).stale ==> IsSuffix(since + [envelope], store.Hold(envelope).held)
  {
    if snapshot !in store.stale {
      SuffixGrows(since, store.held, envelope);
    }
  }

  /** Hearing an event holds it, for every snapshot loading, or marks each of them stale. */
  lemma HearingHoldsEnough(t: Tracked, envelope: Envelope)
    requires HoldsEnough(t)
    ensures HoldsEnough(Track(t, Hear(envelope)))
  {
    var after := Track(t, Hear(envelope));
    AppliedStore(t.store, envelope);
    HoldKeeps(t.store, envelope);
    forall snapshot | snapshot in after.store.loading - after.store.stale
      ensures IsSuffix(after.since[snapshot], after.store.held)
    {
      if snapshot in t.store.loading {
        HeldForOne(t.store, t.since[snapshot], snapshot, envelope);
      }
    }
  }

  lemma SuffixGrows(end: seq<Envelope>, whole: seq<Envelope>, envelope: Envelope)
    requires IsSuffix(end, whole)
    ensures IsSuffix(end + [envelope], whole + [envelope])
  {
    assert (whole + [envelope])[|whole| - |end|..] == whole[|whole| - |end|..] + [envelope];
  }

  /** What an operation that ends some loads keeps of what is held. */
  predicate KeepsHeld(store: StoreState, ended: set<Snapshot>, after: StoreState) {
    var left := store.loading - ended;
    && left <= after.loading
    && after.stale == store.stale - ended
    && (after.held == store.held || (left == {} && after.held == []))
    && (after.loading == {} && store.loading != {} ==> after.held == [])
    && (after.loading == {} && store.held == [] ==> after.held == [])
  }

  /** Forgetting loads, settling and finishing: what every reply to a load ends with. */
  lemma SettlingKeepsHeld(store: StoreState, ended: set<Snapshot>, changed: StoreState, wanted: set<Snapshot>)
    requires changed.loading == store.loading && changed.held == store.held && changed.stale == store.stale
    ensures KeepsHeld(store, ended, changed.Forget(ended).Settle())
    ensures wanted <= ended ==> KeepsHeld(store, ended, changed.Forget(ended).Settle().Finish(wanted).store)
  {
  }

  lemma ListKeepsHeld(store: StoreState, list: BotList)
    ensures KeepsHeld(store, {Bots}, store.LoadBots(list).store)
  {
    var newest := map bot | bot in store.newest && bot in list.bots :: store.newest[bot];
    var listing := ReplayBots(store.conversations, Listing(list.bots, newest, false), list.upTo, store.held);
    var changed := store.(bots := listing.bots, botsUpTo := Some(list.upTo), newest := listing.newest);
    SettlingKeepsHeld(store, {Bots}, changed, if listing.reload || Bots in store.stale then {Bots} else {});
  }

  lemma PageKeepsHeld(store: StoreState, bot: BotId, page: MessagePage)
    ensures KeepsHeld(store, {Messages(bot)}, store.LoadMessages(bot, page).store)
  {
    var received := Replay(page.messages, page.upTo, store.held);
    var changed := store.(newest := NotePage(store.newest, bot, page.messages),
                          conversations := store.conversations[bot :=
                            Conversation(page.upTo, received.messages, page.older, None)]);
    SettlingKeepsHeld(store, {Messages(bot)}, changed,
                      if received.incomplete || Messages(bot) in store.stale then {Messages(bot)} else {});
  }

  lemma OlderPageKeepsHeld(store: StoreState, bot: BotId, before: MessageId, page: MessagePage)
    ensures KeepsHeld(store, {Older(bot)}, store.LoadOlder(bot, before, page).store)
  {
    var after := store.LoadOlder(bot, before, page);
    var changed := store.(conversations := after.store.conversations);
    var wanted: set<Snapshot> := if Older(bot) in after.store.loading then {Older(bot)} else {};
    SettlingKeepsHeld(store, {Older(bot)}, changed, wanted);
    assert after.store == changed.Forget({Older(bot)}).Settle().Finish(wanted).store;
  }

  lemma FailureKeepsHeld(store: StoreState, snapshot: Snapshot)
    ensures KeepsHeld(store, {snapshot}, store.LoadFailed(snapshot))
  {
    var changed := store.(conversations := store.LoadFailed(snapshot).conversations);
    SettlingKeepsHeld(store, {snapshot}, changed, {});
    assert store.LoadFailed(snapshot) == changed.Forget({snapshot}).Settle();
  }

  lemma CloseKeepsHeld(store: StoreState, bot: BotId)
    ensures KeepsHeld(store, {Messages(bot), Older(bot)}, store.CloseConversation(bot))
  {
    SettlingKeepsHeld(store, {Messages(bot), Older(bot)}, store.(conversations := store.conversations - {bot}), {});
  }

  lemma AskingOlderKeepsHeld(store: StoreState, bot: BotId)
    ensures KeepsHeld(store, if store.OlderCursor(bot).None? then {Older(bot)} else {}, store.RequestOlder(bot))
  {
    var asked := store.SetRequestedOlder(bot, store.OlderCursor(bot));
    assert asked.loading == store.loading && asked.held == store.held && asked.stale == store.stale;
    if store.OlderCursor(bot).None? {
      FailureKeepsHeld(asked, Older(bot));
    }
  }

  /** Every other operation keeps what is held until nothing it was held for is left. */
  lemma OthersKeepHeld(store: StoreState, operation: Operation)
    requires !operation.Hear?
    ensures KeepsHeld(store, Ends(store, operation), StoreAfter(store, operation))
  {
    match operation {
      case AskOlder(bot) => AskingOlderKeepsHeld(store, bot);
      case ListCame(list) => ListKeepsHeld(store, list);
      case PageCame(bot, page) => PageKeepsHeld(store, bot, page);
      case OlderCame(bot, before, page) => OlderPageKeepsHeld(store, bot, before, page);
      case LoadFails(snapshot) => FailureKeepsHeld(store, snapshot);
      case CloseIt(bot) => CloseKeepsHeld(store, bot);
      case _ =>
    }
  }

  lemma TrackingHoldsEnough(t: Tracked, operation: Operation)
    requires HoldsEnough(t)
    ensures HoldsEnough(Track(t, operation))
  {
    if operation.Hear? {
      HearingHoldsEnough(t, operation.envelope);
    } else {
      OthersKeepHeld(t.store, operation);
      var after := Track(t, operation);
      forall snapshot | snapshot in after.store.loading - after.store.stale
        ensures IsSuffix(after.since[snapshot], after.store.held)
      {
        if snapshot in t.store.loading - Ends(t.store, operation) {
          assert snapshot in t.store.loading - t.store.stale;
          assert after.since[snapshot] == t.since[snapshot] + [];
        }
      }
    }
  }

  /** What was not held is loaded again: a stale snapshot's page asks for another, and an older one adds nothing. */
  ghost predicate LoadsStaleAgain(s: StoreState) {
    && (forall bot, page :: Messages(bot) in s.stale ==> Messages(bot) in s.LoadMessages(bot, page).reload)
    && (forall list :: Bots in s.stale ==> Bots in s.LoadBots(list).reload)
    && (forall bot, before, page :: Older(bot) in s.stale && WaitsFor(s, bot, before) ==>
            && Older(bot) in s.LoadOlder(bot, before, page).reload
            && s.LoadOlder(bot, before, page).store.conversations[bot].messages == s.conversations[bot].messages)
  }

  /**
   Over every sequence of operations: a snapshot that loads and is not marked stale can
   be brought up to date, because every event applied since it was asked for is held, in
   order; one that is stale will be loaded again. Only what loads is stale, and at most
   5000 events are held, none when nothing loads.
   */
  lemma {:induction false} HeldEventsAreEnough(operations: seq<Operation>)
    ensures HoldsEnough(TrackAll(operations)) && LoadsStaleAgain(TrackAll(operations).store)
    ensures |TrackAll(operations).store.held| <= 5_000
  {
    if operations != [] {
      HeldEventsAreEnough(operations[..|operations| - 1]);
      TrackingHoldsEnough(TrackAll(operations[..|operations| - 1]), operations[|operations| - 1]);
    }
    StaleLoadsAgain(TrackAll(operations).store);
  }

  lemma StaleLoadsAgain(s: StoreState)
    ensures LoadsStaleAgain(s)
  {
  }

  /** While something loads, every event is held; the others are let go only when there are 5000 of them. */
  lemma HearingForgetsOnlyWhenFull(s: StoreState, envelope: Envelope)
    requires s.loading != {}
    ensures var after := s.Apply(envelope).store;
            && after.held != [] && after.held[|after.held| - 1] == envelope
            && (|s.held| < 5_000 ==> after.held == s.held + [envelope] && after.stale == s.stale)
            && (|s.held| >= 5_000 ==> s.loading <= after.stale)
  {
    AppliedStore(s, envelope);
  }

  // ---------------------------------------------------------------------
  // What loads

  /** The snapshots an operation asks the store to load. */
  function Begins(store: StoreState, operation: Operation): set<Snapshot> {
    match operation
    case Ask(snapshot) => {snapshot}
    case AskAll => {Bots} + set bot | bot in store.conversations :: Messages(bot)
    case AskOlder(bot) => if store.OlderCursor(bot).Some? then {Older(bot)} else {}
    case _ => {}
  }

  /** The snapshots an operation reports as to be loaded. */
  ghost function Reported(store: StoreState, operation: Operation): set<Snapshot> {
    match operation
    case Hear(envelope) => store.Apply(envelope).reload
    case ListCame(list) => store.LoadBots(list).reload
    case PageCame(bot, page) => store.LoadMessages(bot, page).reload
    case OlderCame(bot, before, page) => store.LoadOlder(bot, before, page).reload
    case _ => {}
  }

  /**
   A snapshot loads from when it is asked for, or reported as to be loaded, until an
   operation ends its load; and one is reported only if it does not load already.
   */
  lemma WhatLoads(store: StoreState, operation: Operation)
    ensures StoreAfter(store, operation).loading
         == store.loading - Ends(store, operation) + Begins(store, operation) + Reported(store, operation)
    ensures Reported(store, operation) !! store.loading - Ends(store, operation)
  {
    if operation.Hear? {
      EventInStore(store, operation.envelope);
    }
  }
}
