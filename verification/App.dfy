/**
 The application's loading of snapshots, in place. Each method returns the requests it
 sent, and leaves the fields as the operation of the same name in `AppModel` says.
 */
module Application {
  import opened Protocol
  import opened StoreModel
  import opened ClientStore
  import opened Driver
  import opened AppModel

  class App {
    var signedIn: bool
    var generation: nat
    var store: Store
    var inFlight: set<Snapshot>
    var again: set<Snapshot>
    var open: Option<Open>
    var botsError: bool

    function State(): AppState
      reads this, store
    {
      AppState(signedIn, generation, store.State(), inFlight, again, open, botsError)
    }

    constructor ()
      ensures State() == NEW_APP && fresh(store)
    {
      signedIn, generation := false, 0;
      store := new Store();
      inFlight, again, open, botsError := {}, {}, None, false;
    }

    /** Loads the Bot list or a newest page; one in flight is loaded again once it answers. */
    method LoadWhole(snapshot: Snapshot) returns (sent: set<Request>)
      requires !snapshot.Older?
      modifies this, store
      ensures store == old(store)
      ensures Outcome(State(), sent) == old(State()).LoadWhole(snapshot)
    {
      var _ := store.Request(snapshot);
      if snapshot in inFlight {
        again := again + {snapshot};
        sent := {};
      } else {
        inFlight := inFlight + {snapshot};
        sent := {RequestFor(snapshot)};
      }
      assert {snapshot} * old(inFlight) == if snapshot in old(inFlight) then {snapshot} else {};
      assert sent == set s | s in {snapshot} - old(inFlight) :: RequestFor(s);
    }

    method LoadAll(snapshots: set<Snapshot>) returns (sent: set<Request>)
      requires forall snapshot :: snapshot in snapshots ==> !snapshot.Older?
      modifies this, store
      ensures store == old(store)
      ensures Outcome(State(), sent) == old(State()).LoadAll(snapshots)
    {
      sent := {};
      var left := snapshots;
      while left != {}
        invariant left <= snapshots && store == old(store)
        invariant Outcome(State(), sent) == old(State()).LoadAll(snapshots - left)
      {
        var snapshot :| snapshot in left;
        var one := LoadWhole(snapshot);
        sent := sent + one;
        left := left - {snapshot};
        assert snapshots - left == (snapshots - (left + {snapshot})) + {snapshot};
      }
      assert snapshots - left == snapshots;
    }

    method LoadOlderPage(bot: BotId) returns (sent: set<Request>)
      modifies this, store
      ensures store == old(store)
      ensures Outcome(State(), sent) == old(State()).LoadOlderPage(bot)
    {
      sent := {};
      if Older(bot) in inFlight {
        return;
      }
      var cursor := store.RequestOlder(bot);
      match cursor {
        case None =>
        case Some(before) =>
          var _ := store.Request(Older(bot));
          inFlight := inFlight + {Older(bot)};
          sent := {LoadBefore(bot, before)};
      }
    }

    method ReloadEverything() returns (sent: set<Request>)
      modifies this, store
      ensures store == old(store)
      ensures Outcome(State(), sent) == old(State()).ReloadEverything()
    {
      var all := store.ReloadAll();
      if open.Some? {
        all := all + {Messages(open.value.bot)};
      }
      ghost var reloaded := State();
      sent := LoadAll(all);
      assert reloaded.LoadAll(all) == old(State()).LoadAll(all);
    }

    method NextGeneration(signedIn: bool)
      modifies this
      ensures State() == old(State()).NextGeneration(signedIn) && fresh(store)
    {
      this.signedIn := signedIn;
      generation := generation + 1;
      store := new Store();
      inFlight, again, open, botsError := {}, {}, None, false;
    }

    method SignIn() returns (sent: set<Request>)
      modifies this
      ensures Outcome(State(), sent) == old(State()).SignIn()
    {
      NextGeneration(true);
      sent := LoadWhole(Bots);
    }

    method SignOut() returns (sent: set<Request>)
      modifies this
      ensures Outcome(State(), sent) == old(State()).SignOut()
    {
      NextGeneration(false);
      sent := {};
    }

    /** A load answered. Returns whether to load it again at once. */
    method Answered(snapshot: Snapshot) returns (askedAgain: bool)
      modifies this`inFlight, this`again
      ensures State() == old(State()).Answered(snapshot)
      ensures askedAgain <==> snapshot in old(again)
    {
      askedAgain := snapshot in again;
      inFlight := inFlight - {snapshot};
      again := again - {snapshot};
    }

    method ReplyBots(result: Result<BotList>) returns (sent: set<Request>)
      modifies this, store
      ensures Outcome(State(), sent) == old(State()).ReplyBots(result)
    {
      sent := {};
      if !signedIn || Bots !in inFlight {
        return;
      }
      var askedAgain := Answered(Bots);
      match result {
        case Unauthenticated =>
          sent := SignOut();
          return;
        case Loaded(page) =>
          botsError := false;
          var reload := store.LoadBots(page);
          sent := LoadAll(reload);
        case NotLoaded =>
          if !askedAgain {
            botsError := true;
            store.LoadFailed(Bots);
          }
      }
      if askedAgain {
        var more := LoadWhole(Bots);
        sent := sent + more;
      }
    }

    method ReplyMessages(bot: BotId, result: Result<MessagePage>) returns (sent: set<Request>)
      modifies this, store
      ensures Outcome(State(), sent) == old(State()).ReplyMessages(bot, result)
    {
      sent := {};
      var snapshot := Messages(bot);
      if !signedIn || snapshot !in inFlight {
        return;
      }
      var askedAgain := Answered(snapshot);
      if open.None? || open.value.bot != bot {
        return;
      }
      match result {
        case Unauthenticated =>
          sent := SignOut();
          return;
        case Loaded(page) =>
          open := Some(open.value.(error := false, olderError := false));
          var reload := store.LoadMessages(bot, page);
          sent := LoadAll(reload);
          var sought := SeekGoto();
          sent := sent + sought;
        case NotLoaded =>
          if !askedAgain {
            open := Some(open.value.(error := true));
            store.LoadFailed(snapshot);
          }
      }
      if askedAgain {
        var more := LoadWhole(snapshot);
        sent := sent + more;
      }
    }

    method ReplyOlder(bot: BotId, before: MessageId, result: Result<MessagePage>) returns (sent: set<Request>)
      modifies this, store
      ensures Outcome(State(), sent) == old(State()).ReplyOlder(bot, before, result)
    {
      sent := {};
      var snapshot := Older(bot);
      if !signedIn || snapshot !in inFlight {
        return;
      }
      inFlight := inFlight - {snapshot};
      if open.None? || open.value.bot != bot {
        return;
      }
      match result {
        case Unauthenticated =>
          sent := SignOut();
        case Loaded(page) =>
          var reload := store.LoadOlder(bot, before, page);
          open := Some(open.value.(olderError := false));
          if reload != {} {
            sent := LoadOlderPage(bot);
          }
          var sought := SeekGoto();
          sent := sent + sought;
        case NotLoaded =>
          open := Some(open.value.(olderError := true));
          store.LoadFailed(snapshot);
      }
    }

    method SeekGoto() returns (sent: set<Request>)
      modifies this, store
      ensures store == old(store)
      ensures Outcome(State(), sent) == old(State()).SeekGoto()
    {
      sent := {};
      if open.None? || open.value.goto.None? || open.value.bot !in store.conversations {
        return;
      }
      var bot, message := open.value.bot, open.value.goto.value;
      var conversation := store.conversations[bot];
      if message in conversation.messages {
        return;
      }
      var far := open.value.gotoPages >= GOTO_PAGES;
      if conversation.older.Some? && !far {
        if !open.value.olderError && Older(bot) !in inFlight {
          open := Some(open.value.(gotoPages := open.value.gotoPages + 1));
          sent := LoadOlderPage(bot);
        }
        return;
      }
      open := Some(open.value.(goto := None));
    }

    method GoTo(message: MessageId) returns (sent: set<Request>)
      modifies this, store
      ensures store == old(store)
      ensures Outcome(State(), sent) == old(State()).GoTo(message)
    {
      if open.Some? {
        open := Some(open.value.(goto := Some(message), gotoPages := 0));
        sent := SeekGoto();
      } else {
        sent := {};
      }
    }

    method HearSocket(update: SocketUpdate) returns (sent: set<Request>)
      modifies this, store
      ensures Outcome(State(), sent) == old(State()).HearSocket(update)
    {
      sent := {};
      if !signedIn {
        return;
      }
      match update {
        case EventUpdate(envelope) =>
          var reload := store.Apply(envelope);
          sent := LoadAll(reload);
        case ReloadUpdate =>
          sent := ReloadEverything();
        case CheckSessionUpdate =>
        case SignedOutUpdate =>
          sent := SignOut();
        case LinkUpdate(link) =>
          if link.LinkLive? {
            var failed: set<Snapshot> := {};
            if botsError {
              failed := failed + {Bots};
            }
            if open.Some? && open.value.error {
              failed := failed + {Messages(open.value.bot)};
            }
            assert failed == State().FailedLoads();
            sent := LoadAll(failed);
          }
      }
    }

    method CloseOpen()
      modifies this, store
      ensures store == old(store)
      ensures State() == old(State()).CloseOpen()
    {
      if open.Some? {
        store.CloseConversation(open.value.bot);
        open := None;
      }
    }

    method OpenConversation(bot: BotId) returns (sent: set<Request>)
      modifies this, store
      ensures store == old(store)
      ensures Outcome(State(), sent) == old(State()).OpenConversation(bot)
    {
      if !signedIn || bot !in store.bots || (open.Some? && open.value.bot == bot) {
        return {};
      }
      CloseOpen();
      open := Some(Open(bot, false, false, None, 0));
      sent := LoadWhole(Messages(bot));
    }

    method LoadOlderAction() returns (sent: set<Request>)
      modifies this, store
      ensures store == old(store)
      ensures Outcome(State(), sent) == old(State()).LoadOlderAction()
    {
      sent := {};
      if signedIn && open.Some? {
        open := Some(open.value.(olderError := false));
        sent := LoadOlderPage(open.value.bot);
      }
    }
  }
}
