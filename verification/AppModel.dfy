/**
 The part of the application that loads snapshots: which requests are in flight, which
 must be made again once they answer, and what each reply, socket update and user
 action does. `App` carries it out in place.
 */
module AppModel {
  import opened Protocol
  import opened StoreModel
  import opened Driver

  /** How many pages a search for one message loads before it gives up. */
  const GOTO_PAGES: nat := 20

  datatype Request = ListBots | LoadNewest(bot: BotId) | LoadBefore(bot: BotId, before: MessageId)

  function SnapshotOf(request: Request): Snapshot {
    match request
    case ListBots => Bots
    case LoadNewest(bot) => Messages(bot)
    case LoadBefore(bot, _) => Older(bot)
  }

  /** The request for a snapshot other than an older page. */
  function RequestFor(snapshot: Snapshot): Request {
    match snapshot
    case Bots => ListBots
    case Messages(bot) => LoadNewest(bot)
    case Older(bot) => LoadNewest(bot)
  }

  /** How a request was answered. */
  datatype Result<T> = Loaded(page: T) | NotLoaded | Unauthenticated

  /** The conversation on screen: whether its load or its older page failed, and a search in it. */
  datatype Open = Open(bot: BotId, error: bool, olderError: bool, goto: Option<MessageId>, gotoPages: nat)

  /** The application after an intent, and the requests it sent. */
  datatype Outcome = Outcome(app: AppState, sent: set<Request>) {
    function And(next: Outcome): Outcome {
      Outcome(next.app, sent + next.sent)
    }

    /** A load asked for while one was in flight follows it. */
    function ThenAgain(again: bool, snapshot: Snapshot): Outcome
      requires !snapshot.Older?
    {
      if again then And(app.LoadWhole(snapshot)) else this
    }
  }

  datatype AppState = AppState(
    signedIn: bool,
    generation: nat,
    store: StoreState,
    inFlight: set<Snapshot>,
    again: set<Snapshot>,
    open: Option<Open>,
    botsError: bool)
  {
    function Quietly(): Outcome { Outcome(this, {}) }

    function OpenBot(): Option<BotId> {
      if open.Some? then Some(open.value.bot) else None
    }

    /** Loads the Bot list or a newest page; one already in flight is loaded again once it answers. */
    function LoadWhole(snapshot: Snapshot): Outcome
      requires !snapshot.Older?
    {
      LoadAll({snapshot})
    }

    /** Loads each of these, none of them an older page. */
    function LoadAll(snapshots: set<Snapshot>): Outcome
      requires forall snapshot :: snapshot in snapshots ==> !snapshot.Older?
    {
      Outcome(this.(store := store.(loading := store.loading + snapshots),
                    again := again + snapshots * inFlight,
                    inFlight := inFlight + snapshots),
              set snapshot | snapshot in snapshots - inFlight :: RequestFor(snapshot))
    }

    /** Loads the page before the conversation's oldest, unless one is in flight or there is none. */
    function LoadOlderPage(bot: BotId): Outcome {
      if Older(bot) in inFlight then Quietly()
      else
        var asked := this.(store := store.RequestOlder(bot));
        match store.OlderCursor(bot)
        case None => asked.Quietly()
        case Some(before) =>
          Outcome(asked.(inFlight := inFlight + {Older(bot)}), {LoadBefore(bot, before)})
    }

    function Everything(): set<Snapshot> {
      store.Everything() + if open.Some? then {Messages(open.value.bot)} else {}
    }

    /** After a reset, or the first time live. */
    function ReloadEverything(): Outcome {
      LoadAll(Everything())
    }

    /** A new sign-in or sign-out: nothing from before counts. */
    function NextGeneration(signedIn: bool): AppState {
      AppState(signedIn, generation + 1, EMPTY, {}, {}, None, false)
    }

    function SignIn(): Outcome {
      NextGeneration(true).LoadWhole(Bots)
    }

    function SignOut(): Outcome {
      NextGeneration(false).Quietly()
    }

    function Answered(snapshot: Snapshot): AppState {
      this.(inFlight := inFlight - {snapshot}, again := again - {snapshot})
    }

    function WithOpen(value: Open): AppState {
      this.(open := Some(value))
    }

    function ReplyBots(result: Result<BotList>): Outcome {
      if !signedIn || Bots !in inFlight then Quietly()
      else
        var again' := Bots in again;
        var answered := Answered(Bots);
        match result
        case Unauthenticated => answered.SignOut()
        case Loaded(page) =>
          var applied := store.LoadBots(page);
          answered.(botsError := false, store := applied.store).LoadAll(applied.reload).ThenAgain(again', Bots)
        case NotLoaded =>
          if again' then answered.Quietly().ThenAgain(true, Bots)
          else answered.(botsError := true, store := store.LoadFailed(Bots)).Quietly()
    }

    ghost function ReplyMessages(bot: BotId, result: Result<MessagePage>): Outcome {
      var snapshot := Messages(bot);
      if !signedIn || snapshot !in inFlight then Quietly()
      else
        var again' := snapshot in again;
        var answered := Answered(snapshot);
        if OpenBot() != Some(bot) then answered.Quietly()
        else
          match result
          case Unauthenticated => answered.SignOut()
          case Loaded(page) =>
            var applied := store.LoadMessages(bot, page);
            var loaded := answered.(store := applied.store,
                                    open := Some(open.value.(error := false, olderError := false)))
                                  .LoadAll(applied.reload);
            loaded.And(loaded.app.SeekGoto()).ThenAgain(again', snapshot)
          case NotLoaded =>
            if again' then answered.Quietly().ThenAgain(true, snapshot)
            else answered.(store := store.LoadFailed(snapshot),
                           open := Some(open.value.(error := true))).Quietly()
    }

    function ReplyOlder(bot: BotId, before: MessageId, result: Result<MessagePage>): Outcome {
      var snapshot := Older(bot);
      if !signedIn || snapshot !in inFlight then Quietly()
      else
        var answered := this.(inFlight := inFlight - {snapshot});
        if OpenBot() != Some(bot) then answered.Quietly()
        else
          match result
          case Unauthenticated => answered.SignOut()
          case Loaded(page) =>
            var applied := store.LoadOlder(bot, before, page);
            var merged := answered.(store := applied.store, open := Some(open.value.(olderError := false)));
            var loaded := if applied.reload == {} then merged.Quietly() else merged.LoadOlderPage(bot);
            loaded.And(loaded.app.SeekGoto())
          case NotLoaded =>
            answered.(store := store.LoadFailed(snapshot),
                      open := Some(open.value.(olderError := true))).Quietly()
    }

    /** Loads earlier pages until the conversation holds the message looked for, or gives up. */
    function SeekGoto(): Outcome {
      if open.None? || open.value.goto.None? || open.value.bot !in store.conversations
         || open.value.goto.value in store.conversations[open.value.bot].messages
      then Quietly()
      else
        var far := open.value.gotoPages >= GOTO_PAGES;
        var bot := open.value.bot;
        if store.conversations[bot].older.Some? && !far then
          if open.value.olderError || Older(bot) in inFlight then Quietly()
          else WithOpen(open.value.(gotoPages := open.value.gotoPages + 1)).LoadOlderPage(bot)
        else WithOpen(open.value.(goto := None)).Quietly()
    }

    function GoTo(message: MessageId): Outcome {
      if open.None? then Quietly()
      else WithOpen(open.value.(goto := Some(message), gotoPages := 0)).SeekGoto()
    }

    /** What failed to load, to retry once the server answers. */
    function FailedLoads(): set<Snapshot> {
      (if botsError then {Bots} else {})
      + if open.Some? && open.value.error then {Messages(open.value.bot)} else {}
    }

    function HearSocket(update: SocketUpdate): Outcome {
      if !signedIn then Quietly()
      else
        match update
        case EventUpdate(envelope) =>
          var applied := store.Apply(envelope);
          this.(store := applied.store).LoadAll(applied.reload)
        case ReloadUpdate => ReloadEverything()
        case CheckSessionUpdate => Quietly()
        case SignedOutUpdate => SignOut()
        case LinkUpdate(link) => if link.LinkLive? then LoadAll(FailedLoads()) else Quietly()
    }

    function CloseOpen(): AppState {
      if open.Some? then this.(store := store.CloseConversation(open.value.bot), open := None) else this
    }

    function OpenConversation(bot: BotId): Outcome {
      if !signedIn || bot !in store.bots || OpenBot() == Some(bot) then Quietly()
      else CloseOpen().WithOpen(Open(bot, false, false, None, 0)).LoadWhole(Messages(bot))
    }

    function Back(): Outcome {
      if signedIn then CloseOpen().Quietly() else Quietly()
    }

    function Refresh(): Outcome {
      if signedIn && open.Some? then LoadWhole(Messages(open.value.bot)) else Quietly()
    }

    function RefreshBots(): Outcome {
      if signedIn then LoadWhole(Bots) else Quietly()
    }

    function LoadOlderAction(): Outcome {
      if signedIn && open.Some?
      then WithOpen(open.value.(olderError := false)).LoadOlderPage(open.value.bot)
      else Quietly()
    }
  }

  const NEW_APP: AppState := AppState(false, 0, EMPTY, {}, {}, None, false)
}
