/**
 The invariant of the whole system, step by step, and what follows for every run: a
 settled conversation shows what the gateway shows.
 */
module Convergence {
  import opened Protocol
  import opened ServerLog
  import opened StoreModel
  import opened Copies
  import opened ConnectionModel
  import opened Driver
  import opened Delivery
  import opened AppModel
  import opened AppProofs
  import opened System

  /** The socket and the updates it posted continue from where the application stands. */
  ghost predicate SocketInv(s: SystemState) {
    && Valid(s.driver.connection)
    && (s.driver.connection.last.Some? ==> s.driver.connection.last.value <= |s.log|)
    && InOrder(s.position, s.queue, s.driver.connection.last)
    && PostsOfLog(s.log, s.queue)
    && (s.position.Some? ==> s.position.value <= |s.log|)
    && (s.synced ==> s.position.Some?)
  }

  ghost predicate ClaimsInv(s: SystemState) {
    NewestPending(s) && CopyInv(s) && OlderAnswers(s) && OlderPending(s)
  }

  /** Log, socket, application and requests, but for what their copies are owed. */
  ghost predicate CoreInv(s: SystemState) {
    && WellFormed(s.log)
    && SocketInv(s)
    && AppInv(s.app)
    && FromLog(s.log, s.app.store.held)
    && WireInv(s.wire, s.app.generation, s.app.inFlight)
  }

  ghost predicate Inv(s: SystemState) {
    CoreInv(s) && ClaimsInv(s)
  }

  // ---------------------------------------------------------------------
  // Sending requests

  /** What loading more changes, and what it leaves: nothing is loaded, lost or forgotten. */
  ghost predicate Loads(a: AppState, b: AppState) {
    && b.generation == a.generation && b.signedIn == a.signedIn
    && b.OpenBot() == a.OpenBot() && (a.open.Some? ==> b.open.value.error == a.open.value.error)
    && a.inFlight <= b.inFlight && a.again <= b.again
    && b.store.stale == a.store.stale
    && b.store.held == a.store.held
    && b.store.conversations.Keys == a.store.conversations.Keys
    && forall bot :: bot in a.store.conversations ==>
         && b.store.conversations[bot]
            == a.store.conversations[bot].(requestedOlder := b.store.conversations[bot].requestedOlder)
         && (Older(bot) in a.inFlight ==> b.store.conversations[bot] == a.store.conversations[bot])
  }

  /** A request for an older page names the cursor its copy waits for. */
  ghost predicate AsksForCopy(outcome: Outcome) {
    forall request :: request in outcome.sent && request.LoadBefore?
                      && request.bot in outcome.app.store.conversations ==>
                        outcome.app.store.conversations[request.bot].requestedOlder == Some(request.before)
  }

  ghost predicate LoadsMore(a: AppState, outcome: Outcome) {
    AppInv(outcome.app) && Loads(a, outcome.app) && Sends(a.inFlight, outcome) && AsksForCopy(outcome)
  }

  lemma LoadsMoreThen(a: AppState, first: Outcome, next: Outcome)
    requires LoadsMore(a, first) && LoadsMore(first.app, next)
    ensures LoadsMore(a, first.And(next))
  {
    SendsThen(a.inFlight, first, next);
    forall request | request in first.sent && request.LoadBefore?
      ensures SnapshotOf(request) in first.app.inFlight
    {
    }
  }

  lemma LoadAllLoadsMore(a: AppState, snapshots: set<Snapshot>)
    requires AppInv(a) && a.signedIn
    requires forall snapshot :: snapshot in snapshots ==> !snapshot.Older? && Concerns(a.OpenBot(), snapshot)
    ensures LoadsMore(a, a.LoadAll(snapshots))
  {
    LoadAllKeeps(a, snapshots);
    forall request | request in a.LoadAll(snapshots).sent
      ensures !request.LoadBefore?
    {
    }
  }

  lemma LoadOlderLoadsMore(a: AppState, bot: BotId)
    requires AppInv(a) && a.signedIn && a.OpenBot() == Some(bot)
    ensures LoadsMore(a, a.LoadOlderPage(bot))
  {
    LoadOlderKeeps(a, bot);
    if a.store.OlderCursor(bot).None? && Older(bot) !in a.inFlight {
      assert a.store.loading - {Older(bot)} == a.store.loading;
      assert a.store.stale - {Older(bot)} == a.store.stale;
    }
  }

  lemma SeekLoadsMore(a: AppState)
    requires AppInv(a) && a.signedIn
    ensures LoadsMore(a, a.SeekGoto())
  {
    SeekGotoKeeps(a);
    var sought := a.SeekGoto();
    if sought != a.Quietly() && a.store.conversations[a.open.value.bot].older.Some?
       && a.open.value.gotoPages < GOTO_PAGES
    {
      var counted := a.WithOpen(a.open.value.(gotoPages := a.open.value.gotoPages + 1));
      assert sought == counted.LoadOlderPage(a.open.value.bot);
      assert AppInv(counted);
      LoadOlderLoadsMore(counted, a.open.value.bot);
    }
  }

  lemma ThenAgainLoadsMore(a: AppState, outcome: Outcome, again: bool, snapshot: Snapshot)
    requires LoadsMore(a, outcome) && a.signedIn
    requires !snapshot.Older? && Concerns(a.OpenBot(), snapshot)
    ensures LoadsMore(a, outcome.ThenAgain(again, snapshot))
  {
    if again {
      LoadAllLoadsMore(outcome.app, {snapshot});
      LoadsMoreThen(a, outcome, outcome.app.LoadWhole(snapshot));
    }
  }

  /** Requests are stamped with at least the application's position, and an older page's with its copy's page. */
  lemma NewRequests(s: SystemState, outcome: Outcome, sent: Sent)
    requires outcome.app.generation == s.app.generation
    requires sent in Act(s, outcome).wire && sent !in s.wire
    ensures sent.request in outcome.sent && sent.generation == s.app.generation
    ensures sent.floor == Standing(outcome.app, At(s.position), sent.request) && At(s.position) <= sent.floor
  {
  }

  lemma WireAfterAct(s: SystemState, outcome: Outcome)
    requires outcome.app.generation == s.app.generation && Sends(s.app.inFlight, outcome)
    requires WireInv(s.wire, s.app.generation, s.app.inFlight)
    ensures WireInv(Act(s, outcome).wire, s.app.generation, outcome.app.inFlight)
  {
    var after := Act(s, outcome);
    forall snapshot | snapshot in outcome.app.inFlight
      ensures exists sent :: sent in after.wire && sent.generation == s.app.generation
                          && SnapshotOf(sent.request) == snapshot
    {
      if snapshot in s.app.inFlight {
        var sent :| sent in s.wire && sent.generation == s.app.generation && SnapshotOf(sent.request) == snapshot;
        assert sent in after.wire;
      } else {
        var request :| request in outcome.sent && SnapshotOf(request) == snapshot;
        assert Sent(s.app.generation, request, Standing(outcome.app, At(s.position), request)) in after.wire;
      }
    }
    forall sent | sent in after.wire && sent !in s.wire
      ensures sent.request in outcome.sent && sent.generation == s.app.generation
      ensures sent == Sent(s.app.generation, sent.request, Standing(outcome.app, At(s.position), sent.request))
    {
      NewRequests(s, outcome, sent);
    }
  }

  lemma ClaimsAfterLoading(s: SystemState, outcome: Outcome)
    requires Inv(s) && LoadsMore(s.app, outcome)
    ensures ClaimsInv(Act(s, outcome))
  {
    var after := Act(s, outcome);
    forall sent | sent in after.wire && sent !in s.wire
      ensures At(s.position) <= sent.floor && SnapshotOf(sent.request) !in s.app.inFlight
      ensures sent.floor == Standing(outcome.app, At(s.position), sent.request)
    {
      NewRequests(s, outcome, sent);
    }
  }

  lemma LoadingKeepsInv(s: SystemState, outcome: Outcome)
    requires Inv(s) && LoadsMore(s.app, outcome)
    ensures Inv(Act(s, outcome))
  {
    WireAfterAct(s, outcome);
    ClaimsAfterLoading(s, outcome);
  }

  // ---------------------------------------------------------------------
  // Hearing an update

  lemma HeardKeepsSocket(s: SystemState)
    requires SocketInv(s) && s.queue != []
    ensures SocketInv(Heard(s))
    ensures s.queue[0].update.EventUpdate? ==>
              var envelope := s.queue[0].update.envelope;
              && 0 < envelope.number <= |s.log| && envelope.event == s.log[envelope.number - 1]
              && Heard(s).position == Some(envelope.number)
              && (s.synced ==> envelope.number == At(s.position) + 1)
    ensures !s.queue[0].update.EventUpdate? && !s.queue[0].update.ReloadUpdate? ==> Heard(s).position == s.position
  {
  }

  lemma HeldOneMore(held: seq<Envelope>, floor: nat, position: nat, envelope: Envelope)
    requires HeldSince(held, floor, position) && envelope.number == position + 1
    ensures HeldSince(held + [envelope], floor, position + 1)
  {
    assert (held + [envelope])[..|held|] == held;
  }

  /** A request of this session on its way is in flight, so the session goes on. */
  lemma Awaited(s: SystemState, sent: Sent)
    requires CoreInv(s) && sent in s.wire && sent.generation == s.app.generation
    ensures SnapshotOf(sent.request) in s.app.inFlight && AppInv(s.app) && s.app.signedIn
  {
  }

  /** No request on its way is of a session to come. */
  lemma NoneFromLater(s: SystemState)
    requires CoreInv(s)
    ensures forall sent :: sent in s.wire ==> sent.generation <= s.app.generation
  {
  }

  /** The system with an event applied, before the reloads it asks for. */
  function EventHeard(s: SystemState): SystemState
    requires s.queue != [] && s.queue[0].update.EventUpdate?
  {
    Heard(s).(app := s.app.(store := EventIn(s.app.store, s.queue[0].update.envelope)))
  }

  /** A conversation with an event taken in. */
  function Taken(bot: BotId, c: Conversation, envelope: Envelope): Conversation {
    if MessageBot(envelope.event) == Some(bot) && c.upTo < envelope.number
    then c.(messages := Receive(c.messages, envelope.event).messages) else c
  }

  lemma EventOnCopy(log: seq<Event>, bot: BotId, c: Conversation, shown: nat, mixed: bool, at: nat, envelope: Envelope)
    requires WellFormed(log) && CopyRight(log, bot, c, shown, mixed, at)
    requires envelope.number == at + 1 <= |log| && envelope.event == log[at]
    ensures CopyRight(log, bot, Taken(bot, c, envelope), Max(shown, at + 1), mixed, at + 1)
  {
    EventOnText(log, bot, c, shown, at, envelope);
    if MessageBot(envelope.event) == Some(bot) && c.upTo < envelope.number {
      ReceiveMixesBots(log, bot, c.messages, at + 1);
    }
  }

  lemma EventOnText(log: seq<Event>, bot: BotId, c: Conversation, shown: nat, at: nat, envelope: Envelope)
    requires WellFormed(log) && Faithful(log, Scope(bot, c.upTo, c.older, shown), c.messages, Max(at, c.upTo))
    requires envelope.number == at + 1 <= |log| && envelope.event == log[at]
    ensures Faithful(log, Scope(bot, c.upTo, c.older, Max(shown, at + 1)), Taken(bot, c, envelope).messages,
                     Max(at + 1, c.upTo))
  {
    var scope, k := Scope(bot, c.upTo, c.older, shown), Max(at, c.upTo);
    assert Seen(scope, at + 1) == Scope(bot, c.upTo, c.older, Max(shown, at + 1));
    if at < c.upTo {
      FaithfulSeen(log, scope, c.messages, k, at + 1);
    } else if MessageBot(envelope.event) == Some(bot) {
      ReceiveKeepsFaithful(log, scope, c.messages, k, at + 1);
    } else {
      FaithfulSeen(log, scope, c.messages, k, at + 1);
      OtherBotsEvent(log, Seen(scope, at + 1), c.messages, k);
    }
  }

  lemma EventKeepsCopy(s: SystemState)
    requires WellFormed(s.log) && SocketInv(s) && CopyInv(s)
    requires s.queue != [] && s.queue[0].update.EventUpdate? && s.app.signedIn
    ensures CopyInv(EventHeard(s))
  {
    var after, envelope := EventHeard(s), s.queue[0].update.envelope;
    HeardKeepsSocket(s);
    EventInStore(s.app.store, envelope);
    if IsSettled(after) {
      var bot := s.app.open.value.bot;
      EventOnCopy(s.log, bot, s.app.store.conversations[bot], s.shown, s.mixed, At(s.position), envelope);
    }
  }

  lemma FaithfulSeen(log: seq<Event>, scope: Scope, messages: MessageMap, k: nat, j: nat)
    requires Faithful(log, scope, messages, k)
    ensures Faithful(log, Seen(scope, j), messages, k)
  {
    forall id | id in messages && messages[id].bot == scope.bot
      ensures exists q :: k <= q <= Max(k, Seen(scope, j).shown) && ShownAt(log, q, messages[id])
    {
      var q :| k <= q <= Max(k, scope.shown) && ShownAt(log, q, messages[id]);
    }
  }

  /** A loading snapshot whose held events reached the position still has enough, or is stale. */
  lemma HoldKeepsEnough(store: StoreState, snapshot: Snapshot, floor: nat, at: nat, envelope: Envelope)
    requires snapshot in store.loading && envelope.number == at + 1
    requires snapshot !in store.stale ==> HeldSince(store.held, floor, at)
    ensures snapshot !in store.Hold(envelope).stale ==> HeldSince(store.Hold(envelope).held, floor, at + 1)
  {
    if snapshot !in store.stale {
      HeldOneMore(store.held, floor, at, envelope);
    }
  }

  lemma EventKeepsNewestPending(s: SystemState)
    requires SocketInv(s) && AppInv(s.app) && WireInv(s.wire, s.app.generation, s.app.inFlight) && NewestPending(s)
    requires s.queue != [] && s.queue[0].update.EventUpdate? && s.app.signedIn
    ensures NewestPending(EventHeard(s))
  {
    var after, envelope := EventHeard(s), s.queue[0].update.envelope;
    HeardKeepsSocket(s);
    EventInStore(s.app.store, envelope);
    forall sent | sent in s.wire && sent.generation == s.app.generation && s.synced
                  && sent.request.LoadNewest? && s.app.OpenBot() == Some(sent.request.bot)
                  && Messages(sent.request.bot) !in s.app.again
                  && Messages(sent.request.bot) !in after.app.store.stale
      ensures HeldSince(after.app.store.held, sent.floor, At(after.position))
    {
      assert SnapshotOf(sent.request) in s.app.inFlight;
      HoldKeepsEnough(s.app.store, Messages(sent.request.bot), sent.floor, At(s.position), envelope);
    }
  }

  lemma EventKeepsOlderPending(s: SystemState)
    requires SocketInv(s) && AppInv(s.app) && OlderPending(s)
    requires s.queue != [] && s.queue[0].update.EventUpdate? && s.app.signedIn
    ensures OlderPending(EventHeard(s))
  {
    var after, envelope := EventHeard(s), s.queue[0].update.envelope;
    HeardKeepsSocket(s);
    EventInStore(s.app.store, envelope);
    if IsSettled(after) {
      forall sent | sent in s.wire && sent.generation == s.app.generation
                    && sent.request.LoadBefore? && sent.request.bot == s.app.open.value.bot
                    && sent.request.bot in s.app.store.conversations
                    && s.app.store.conversations[sent.request.bot].requestedOlder.Some?
                    && Older(sent.request.bot) !in after.app.store.stale
        ensures HeldSince(after.app.store.held, sent.floor, At(after.position))
      {
        HoldKeepsEnough(s.app.store, Older(sent.request.bot), sent.floor, At(s.position), envelope);
      }
    }
  }

  lemma EventKeepsOlderAnswers(s: SystemState)
    requires OlderAnswers(s) && s.queue != [] && s.queue[0].update.EventUpdate?
    ensures OlderAnswers(EventHeard(s))
  {
    EventInStore(s.app.store, s.queue[0].update.envelope);
  }

  lemma EventKeepsHeld(s: SystemState)
    requires SocketInv(s) && FromLog(s.log, s.app.store.held) && s.queue != [] && s.queue[0].update.EventUpdate?
    ensures SocketInv(EventHeard(s)) && FromLog(s.log, EventHeard(s).app.store.held)
  {
    hide EventIn, WellFormed;
    HeardKeepsSocket(s);
    EventInStore(s.app.store, s.queue[0].update.envelope);
  }

  lemma EventHeardKeepsInv(s: SystemState)
    requires Inv(s) && s.queue != [] && s.queue[0].update.EventUpdate? && s.app.signedIn
    ensures Inv(EventHeard(s))
  {
    EventInKeeps(s.app, s.queue[0].update.envelope);
    EventKeepsHeld(s);
    EventKeepsCopy(s);
    EventKeepsNewestPending(s);
    EventKeepsOlderAnswers(s);
    EventKeepsOlderPending(s);
  }

  lemma EventReloads(a: AppState, envelope: Envelope) returns (reload: set<Snapshot>)
    requires AppInv(a) && a.signedIn
    ensures forall snapshot :: snapshot in reload ==> !snapshot.Older?
    ensures a.HearSocket(EventUpdate(envelope)) == a.(store := EventIn(a.store, envelope)).LoadAll(reload)
    ensures LoadsMore(a.(store := EventIn(a.store, envelope)), a.HearSocket(EventUpdate(envelope)))
  {
    var applied := a.(store := EventIn(a.store, envelope));
    EventInKeeps(a, envelope);
    FinishKeeps(applied, ReloadsOfEvent(a.store, envelope));
    reload := applied.store.Finish(ReloadsOfEvent(a.store, envelope)).reload;
    LoadAllLoadsMore(applied, reload);
  }

  lemma EventKeepsInv(s: SystemState)
    requires Inv(s) && s.queue != [] && s.queue[0].update.EventUpdate? && s.app.signedIn
    ensures Inv(Do(s, HearUpdate))
  {
    EventHeardKeepsInv(s);
    var heard, outcome := EventHeard(s), s.app.HearSocket(s.queue[0].update);
    assert LoadsMore(heard.app, outcome) by {
      var reload := EventReloads(s.app, s.queue[0].update.envelope);
    }
    LoadingKeepsInv(heard, outcome);
    assert Do(s, HearUpdate) == Act(heard, outcome);
  }

  lemma HeardQuietlyKeepsInv(s: SystemState)
    requires Inv(s) && s.queue != []
    requires !s.app.signedIn || (!s.queue[0].update.EventUpdate? && !s.queue[0].update.ReloadUpdate?)
    ensures Inv(Heard(s))
  {
    HeardKeepsSocket(s);
  }

  /** What a reload sends: newest pages, from where the client stands now. */
  lemma ReloadSends(s: SystemState, sent: Sent)
    requires s.queue != []
    requires var after := Act(Heard(s), s.app.ReloadEverything());
             sent in after.wire && sent !in s.wire
    ensures sent.floor == At(Heard(s).position) && !sent.request.LoadBefore?
  {
    NewRequests(Heard(s), s.app.ReloadEverything(), sent);
    var snapshot :| snapshot in s.app.Everything() && sent.request == RequestFor(snapshot);
  }

  /** What was in flight for the open conversation is loaded again. */
  lemma ReloadLoadsAgain(s: SystemState, sent: Sent)
    requires WireInv(s.wire, s.app.generation, s.app.inFlight)
    requires sent in s.wire && sent.generation == s.app.generation && sent.request.LoadNewest?
    requires s.app.OpenBot() == Some(sent.request.bot)
    ensures Messages(sent.request.bot) in s.app.ReloadEverything().app.again
  {
    assert SnapshotOf(sent.request) in s.app.inFlight;
  }

  lemma ReloadKeepsNewest(s: SystemState)
    requires Inv(s) && s.queue != [] && s.app.signedIn
    ensures NewestPending(Act(Heard(s), s.app.ReloadEverything()))
  {
    var after := Act(Heard(s), s.app.ReloadEverything());
    forall sent | sent in after.wire && sent.generation == after.app.generation && sent.request.LoadNewest?
                  && after.app.OpenBot() == Some(sent.request.bot) && Messages(sent.request.bot) !in after.app.again
      ensures HeldSince(after.app.store.held, sent.floor, At(after.position))
    {
      if sent !in s.wire {
        ReloadSends(s, sent);
      } else {
        ReloadLoadsAgain(s, sent);
      }
    }
  }

  lemma ReloadKeepsOlder(s: SystemState)
    requires Inv(s) && s.queue != [] && s.app.signedIn
    ensures OlderAnswers(Act(Heard(s), s.app.ReloadEverything()))
  {
    var after := Act(Heard(s), s.app.ReloadEverything());
    assert after.app.store.conversations == s.app.store.conversations;
    forall sent | sent in after.wire && sent.request.LoadBefore?
      ensures sent in s.wire
    {
      if sent !in s.wire {
        ReloadSends(s, sent);
      }
    }
  }

  /** A reload leaves nothing settled: whatever was in flight is loaded again, and the rest is sent now. */
  lemma ReloadKeepsClaims(s: SystemState)
    requires Inv(s) && s.queue != [] && s.queue[0].update.ReloadUpdate? && s.app.signedIn
    ensures ClaimsInv(Act(Heard(s), s.app.ReloadEverything()))
  {
    var after := Act(Heard(s), s.app.ReloadEverything());
    ReloadKeepsNewest(s);
    ReloadKeepsOlder(s);
    assert after.app.open.Some? ==> Messages(after.app.open.value.bot) in after.app.inFlight;
    assert !IsSettled(after);
  }

  lemma ReloadKeepsCore(s: SystemState)
    requires CoreInv(s) && s.queue != [] && s.queue[0].update.ReloadUpdate? && s.app.signedIn
    ensures CoreInv(Act(Heard(s), s.app.ReloadEverything()))
  {
    HeardKeepsSocket(s);
    HearSocketKeeps(s.app, ReloadUpdate);
    WireAfterAct(Heard(s), s.app.ReloadEverything());
  }

  lemma ReloadKeepsInv(s: SystemState)
    requires Inv(s) && s.queue != [] && s.queue[0].update.ReloadUpdate? && s.app.signedIn
    ensures Inv(Do(s, HearUpdate))
  {
    hide SocketInv, AppInv, WireInv, NewestPending, CopyInv, OlderAnswers, OlderPending, WellFormed;
    ReloadKeepsCore(s);
    ReloadKeepsClaims(s);
  }

  /** A session that begins or ends starts from nothing. */
  lemma NewSessionKeepsInv(s: SystemState, wire: set<Sent>, log: seq<Event>, outcome: Outcome)
    requires AppInv(outcome.app) && Sends({}, outcome) && outcome.app.store.held == []
    requires outcome.app.generation == s.app.generation + 1 && outcome.app.store.conversations == map[]
    requires forall sent :: sent in wire ==> sent.generation <= s.app.generation
    requires WellFormed(log)
    ensures Inv(Act(s.(wire := wire, log := log), outcome))
  {
    var after := Act(s.(wire := wire, log := log), outcome);
    assert InOrder(None, [], None);
    forall snapshot | snapshot in outcome.app.inFlight
      ensures exists sent :: sent in after.wire && sent.generation == outcome.app.generation
                          && SnapshotOf(sent.request) == snapshot
    {
      var request :| request in outcome.sent && SnapshotOf(request) == snapshot;
      assert Sent(outcome.app.generation, request, Standing(outcome.app, 0, request)) in after.wire;
    }
  }

  lemma HearKeepsInv(s: SystemState)
    requires Inv(s) && s.queue != []
    ensures Inv(Do(s, HearUpdate))
  {
    hide SocketInv, AppInv, NewestPending, CopyInv, OlderAnswers, OlderPending, WellFormed;
    var update := s.queue[0].update;
    if !s.app.signedIn || update.CheckSessionUpdate? {
      HeardQuietlyKeepsInv(s);
      QuietActKeepsInv(Heard(s));
    } else {
      match update {
        case EventUpdate(_) => EventKeepsInv(s);
        case ReloadUpdate => ReloadKeepsInv(s);
        case SignedOutUpdate =>
          GenerationsKeep(s.app);
          NewSessionKeepsInv(Heard(s), s.wire, s.log, s.app.SignOut());
        case LinkUpdate(link) =>
          HeardQuietlyKeepsInv(s);
          if link.LinkLive? {
            LoadAllLoadsMore(s.app, s.app.FailedLoads());
            LoadingKeepsInv(Heard(s), s.app.LoadAll(s.app.FailedLoads()));
          } else {
            QuietActKeepsInv(Heard(s));
          }
      }
    }
  }

  lemma QuietActKeepsInv(s: SystemState)
    requires Inv(s)
    ensures Inv(Act(s, s.app.Quietly()))
  {
    assert Act(s, s.app.Quietly()) == s by {
      assert s.wire + {} == s.wire;
      assert OnWire(s.app.Quietly(), At(s.position)) == {};
    }
  }

  // ---------------------------------------------------------------------
  // Answers

  /** A request answered: nothing is on its way for its snapshot. */
  lemma WireAfterAnswer(wire: set<Sent>, generation: nat, inFlight: set<Snapshot>, sent: Sent)
    requires WireInv(wire, generation, inFlight) && sent in wire && sent.generation == generation
    ensures WireInv(wire - {sent}, generation, inFlight - {SnapshotOf(sent.request)})
  {
    forall snapshot | snapshot in inFlight - {SnapshotOf(sent.request)}
      ensures exists other :: other in wire - {sent} && other.generation == generation
                           && SnapshotOf(other.request) == snapshot
    {
      var other :| other in wire && other.generation == generation && SnapshotOf(other.request) == snapshot;
      assert other in wire - {sent};
    }
  }

  /** An answer of another generation is nobody's. */
  lemma StaleAnswerKeepsInv(s: SystemState, sent: Sent)
    requires Inv(s) && sent in s.wire && sent.generation != s.app.generation
    ensures Inv(s.(wire := s.wire - {sent}))
  {
    forall snapshot | snapshot in s.app.inFlight
      ensures exists other :: other in s.wire - {sent} && other.generation == s.app.generation
                           && SnapshotOf(other.request) == snapshot
    {
      var other :| other in s.wire && other.generation == s.app.generation && SnapshotOf(other.request) == snapshot;
      assert other in s.wire - {sent};
    }
  }

  /** The system once a newest page is in, before the reloads it asks for. */
  ghost function NewestIn(s: SystemState, sent: Sent, page: MessagePage, p: nat): SystemState
    requires s.app.open.Some? && sent.request.LoadNewest?
  {
    Paged(s.(wire := s.wire - {sent}), sent.request.bot, Loaded(page), p)
      .(app := PageShown(s.app, sent.request.bot, page))
  }

  /** A page loaded with enough held is a right copy. */
  lemma LoadedCopyIsRight(log: seq<Event>, bot: BotId, page: MessagePage, p: nat,
                          held: seq<Envelope>, floor: nat, at: nat)
    requires WellFormed(log) && ShowsLog(log, bot, None, page, p) && floor <= page.upTo <= p
    requires FromLog(log, held) && HeldSince(held, floor, at) && at <= |log|
    ensures CopyRight(log, bot,
                      Conversation(page.upTo, Replay(page.messages, page.upTo, held).messages, page.older, None),
                      Furthest(p, page.upTo, held), AnyBringsAnother(bot, page.upTo, held), at)
  {
    LoadedPageIsFaithful(log, bot, page, p, held, floor, at);
    PageIsFaithful(log, bot, page, p);
    ReplayMixesBots(log, bot, page.messages, page.upTo, held);
  }

  /** No other newest page of the conversation is on its way once one is answered. */
  lemma NoOtherNewest(s: SystemState, sent: Sent)
    requires WireInv(s.wire, s.app.generation, s.app.inFlight)
    requires sent in s.wire && sent.request.LoadNewest? && sent.generation == s.app.generation
    ensures forall other :: other in s.wire - {sent} && other.generation == s.app.generation ==>
                              other.request != sent.request
  {
    forall other | other in s.wire && other.generation == s.app.generation && other.request == sent.request
      ensures other == sent
    {
      assert SnapshotOf(other.request) == SnapshotOf(sent.request);
    }
  }

  lemma NewestInKeepsClaims(s: SystemState, sent: Sent, page: MessagePage, p: nat)
    requires Inv(s) && Allowed(s, AnswerNewest(sent, Loaded(page), p))
    requires sent.generation == s.app.generation && s.app.signedIn && s.app.OpenBot() == Some(sent.request.bot)
    requires Messages(sent.request.bot) !in s.app.again && Messages(sent.request.bot) !in s.app.store.stale
    ensures ClaimsInv(NewestIn(s, sent, page, p))
  {
    hide WellFormed;
    var bot := sent.request.bot;
    var after := NewestIn(s, sent, page, p);
    NoOtherNewest(s, sent);
    assert after.app.store.conversations[bot].requestedOlder == None;
    assert after.app.OpenBot() == Some(bot);
    assert forall other :: other in after.app.store.conversations ==> other == bot;
    if s.synced {
      LoadedCopyIsRight(s.log, bot, page, p, s.app.store.held, sent.floor, At(s.position));
    }
  }

  lemma NewestInKeepsInv(s: SystemState, sent: Sent, page: MessagePage, p: nat)
    requires Inv(s) && Allowed(s, AnswerNewest(sent, Loaded(page), p))
    requires sent.generation == s.app.generation && s.app.signedIn && s.app.OpenBot() == Some(sent.request.bot)
    requires Messages(sent.request.bot) !in s.app.again && Messages(sent.request.bot) !in s.app.store.stale
    ensures Inv(NewestIn(s, sent, page, p))
  {
    NewestInKeepsBase(s, sent, page, p);
    NewestInKeepsClaims(s, sent, page, p);
  }

  /** Everything but what a conversation on screen is owed. */
  ghost predicate BaseInv(s: SystemState) {
    CoreInv(s) && OlderAnswers(s)
  }

  /** A newest page sent for now is owed nothing yet. */
  lemma SendingNewestKeepsInv(s: SystemState, outcome: Outcome)
    requires BaseInv(s) && LoadsMore(s.app, outcome) && s.app.open.Some?
    requires Messages(s.app.open.value.bot) !in s.app.inFlight
    requires Messages(s.app.open.value.bot) in outcome.app.inFlight
    ensures Inv(Act(s, outcome))
  {
    var after := Act(s, outcome);
    WireAfterAct(s, outcome);
    forall sent | sent in after.wire && sent !in s.wire
      ensures At(s.position) <= sent.floor && sent.request in outcome.sent
      ensures SnapshotOf(sent.request) !in s.app.inFlight
    {
      NewRequests(s, outcome, sent);
    }
  }

  lemma NewestInKeepsBase(s: SystemState, sent: Sent, page: MessagePage, p: nat)
    requires Inv(s) && sent in s.wire && sent.request.LoadNewest?
    requires sent.generation == s.app.generation && s.app.signedIn && s.app.OpenBot() == Some(sent.request.bot)
    ensures BaseInv(NewestIn(s, sent, page, p))
  {
    var bot := sent.request.bot;
    PageShownKeeps(s.app, bot, page);
    WireAfterAnswer(s.wire, s.app.generation, s.app.inFlight, sent);
    assert PageShown(s.app, bot, page).inFlight == s.app.inFlight - {Messages(bot)};
  }

  lemma NewestReplyLoadsMore(a: AppState, bot: BotId, page: MessagePage)
    requires AppInv(a) && a.signedIn && Messages(bot) in a.inFlight && a.OpenBot() == Some(bot)
    ensures LoadsMore(PageShown(a, bot, page), a.ReplyMessages(bot, Loaded(page)))
    ensures Messages(bot) in a.again || Messages(bot) in a.store.stale ==>
              Messages(bot) in a.ReplyMessages(bot, Loaded(page)).app.inFlight
  {
    NewestPageSteps(a, bot, page);
    PageShownKeeps(a, bot, page);
    var shown, wanted := PageShown(a, bot, page), ReloadsOfPage(a.store, bot, page);
    LoadAllLoadsMore(shown, wanted);
    var loaded := shown.LoadAll(wanted);
    SeekLoadsMore(loaded.app);
    LoadsMoreThen(shown, loaded, loaded.app.SeekGoto());
    ThenAgainLoadsMore(shown, loaded.And(loaded.app.SeekGoto()), Messages(bot) in a.again, Messages(bot));
  }

  lemma NewestAnswerKeepsInv(s: SystemState, sent: Sent, page: MessagePage, p: nat)
    requires Inv(s) && Allowed(s, AnswerNewest(sent, Loaded(page), p))
    requires sent.generation == s.app.generation && s.app.OpenBot() == Some(sent.request.bot)
    ensures Inv(Do(s, AnswerNewest(sent, Loaded(page), p)))
  {
    hide SocketInv, AppInv, WireInv, NewestPending, CopyInv, OlderAnswers, OlderPending, WellFormed;
    var bot := sent.request.bot;
    var outcome := s.app.ReplyMessages(bot, Loaded(page));
    Awaited(s, sent);
    NewestReplyLoadsMore(s.app, bot, page);
    var paged := NewestIn(s, sent, page, p);
    assert Do(s, AnswerNewest(sent, Loaded(page), p)) == Act(paged, outcome);
    if Messages(bot) in s.app.again || Messages(bot) in s.app.store.stale {
      NewestInKeepsBase(s, sent, page, p);
      SendingNewestKeepsInv(paged, outcome);
    } else {
      NewestInKeepsInv(s, sent, page, p);
      LoadingKeepsInv(paged, outcome);
    }
  }

  lemma WireWithOne(wire: set<Sent>, generation: nat, inFlight: set<Snapshot>, one: Sent)
    requires WireInv(wire, generation, inFlight - {SnapshotOf(one.request)})
    requires one.generation == generation && SnapshotOf(one.request) in inFlight
    ensures WireInv(wire + {one}, generation, inFlight)
  {
    forall snapshot | snapshot in inFlight
      ensures exists other :: other in wire + {one} && other.generation == generation
                           && SnapshotOf(other.request) == snapshot
    {
      if snapshot == SnapshotOf(one.request) {
        assert one in wire + {one};
      } else {
        assert snapshot in inFlight - {SnapshotOf(one.request)};
        var other :| other in wire && other.generation == generation && SnapshotOf(other.request) == snapshot;
        assert other in wire + {one};
      }
    }
  }

  lemma WireAfterResending(wire: set<Sent>, generation: nat, inFlight: set<Snapshot>, sent: Sent, resent: Sent)
    requires WireInv(wire, generation, inFlight) && sent in wire && sent.generation == resent.generation == generation
    requires SnapshotOf(resent.request) == SnapshotOf(sent.request)
    ensures WireInv(wire - {sent} + {resent}, generation, inFlight)
  {
    assert SnapshotOf(sent.request) in inFlight;
    hide WireInv;
    WireAfterAnswer(wire, generation, inFlight, sent);
    WireWithOne(wire - {sent}, generation, inFlight, resent);
  }

  lemma ResendingKeepsClaims(s: SystemState, sent: Sent, resent: Sent)
    requires ClaimsInv(s) && AppInv(s.app) && WireInv(s.wire, s.app.generation, s.app.inFlight)
    requires sent in s.wire && sent.generation == resent.generation == s.app.generation
    requires !sent.request.LoadBefore? && SnapshotOf(sent.request) in s.app.again
    requires resent.request == sent.request && resent.floor == At(s.position)
    ensures ClaimsInv(s.(wire := s.wire - {sent} + {resent},
                         app := s.app.(again := s.app.again - {SnapshotOf(sent.request)})))
  {
    hide SocketInv, WellFormed, FromLog;
  }

  ghost function Resending(s: SystemState, sent: Sent, resent: Sent): SystemState {
    s.(wire := s.wire - {sent} + {resent}, app := s.app.(again := s.app.again - {SnapshotOf(sent.request)}))
  }

  lemma ResendingKeepsCore(s: SystemState, sent: Sent, resent: Sent)
    requires CoreInv(s) && sent in s.wire && sent.generation == resent.generation == s.app.generation
    requires resent.request == sent.request && SnapshotOf(sent.request) in s.app.again
    ensures CoreInv(Resending(s, sent, resent))
  {
    WireAfterResending(s.wire, s.app.generation, s.app.inFlight, sent, resent);
  }

  lemma ResendingIs(s: SystemState, sent: Sent, snapshot: Snapshot)
    requires CoreInv(s) && sent in s.wire && sent.generation == s.app.generation && s.app.signedIn
    requires SnapshotOf(sent.request) == snapshot && snapshot in s.app.again && Concerns(s.app.OpenBot(), snapshot)
    ensures Act(s.(wire := s.wire - {sent}), s.app.Answered(snapshot).Quietly().ThenAgain(true, snapshot))
         == Resending(s, sent, Sent(s.app.generation, sent.request, At(s.position)))
  {
    AgainAfterFailure(s.app, snapshot);
    assert sent.request == RequestFor(snapshot);
    assert OnWire(s.app.Answered(snapshot).Quietly().ThenAgain(true, snapshot), At(s.position))
        == {Sent(s.app.generation, sent.request, At(s.position))};
  }

  /** A load that failed while asked for again is sent again. */
  lemma ResentKeepsInv(s: SystemState, sent: Sent, snapshot: Snapshot)
    requires Inv(s) && sent in s.wire && sent.generation == s.app.generation && s.app.signedIn
    requires SnapshotOf(sent.request) == snapshot && snapshot in s.app.again && Concerns(s.app.OpenBot(), snapshot)
    ensures Inv(Act(s.(wire := s.wire - {sent}), s.app.Answered(snapshot).Quietly().ThenAgain(true, snapshot)))
  {
    var resent := Sent(s.app.generation, sent.request, At(s.position));
    ResendingIs(s, sent, snapshot);
    ResendingKeepsCore(s, sent, resent);
    ResendingKeepsClaims(s, sent, resent);
  }

  // ---------------------------------------------------------------------
  // Answers that leave the screen as it is

  /** The conversation on screen and its copy stay, and nothing held for them is lost. */
  ghost predicate SameScreen(a: AppState, b: AppState) {
    && b.generation == a.generation && b.signedIn == a.signedIn && b.OpenBot() == a.OpenBot()
    && (a.open.Some? ==> b.open.value.error == a.open.value.error)
    && b.store.conversations.Keys == a.store.conversations.Keys
    && (forall bot :: bot in a.store.conversations ==> SameCopy(a.store.conversations[bot], b.store.conversations[bot]))
    && (a.open.Some? ==>
          var newest, older := Messages(a.open.value.bot), Older(a.open.value.bot);
          && (newest in a.inFlight ==> newest in b.inFlight)
          && (newest in a.again ==> newest in b.again)
          && (newest in a.store.stale ==> newest in b.store.stale)
          && (newest in a.store.loading ==> b.store.held == a.store.held)
          && (forall bot :: bot in b.store.conversations && b.store.conversations[bot].requestedOlder.Some? ==>
                && (older in a.store.stale ==> older in b.store.stale)
                && (older in a.store.loading ==> b.store.held == a.store.held)))
  }

  /** The same copy, waiting for the same older page or for none. */
  predicate SameCopy(c: Conversation, d: Conversation) {
    d == c || d == c.(requestedOlder := None)
  }

  /** Answered without a word: the same system, but for the request and the application. */
  predicate Answers(s: SystemState, t: SystemState) {
    && t.log == s.log && t.position == s.position && t.synced == s.synced && t.shown == s.shown && t.mixed == s.mixed
    && t.wire <= s.wire
  }

  lemma ScreenKeepsNewest(s: SystemState, t: SystemState)
    requires CoreInv(s) && NewestPending(s) && Answers(s, t) && SameScreen(s.app, t.app)
    ensures NewestPending(t)
  {
    forall sent | sent in t.wire && sent.generation == t.app.generation && t.synced
                  && sent.request.LoadNewest? && t.app.OpenBot() == Some(sent.request.bot)
                  && Messages(sent.request.bot) !in t.app.again && Messages(sent.request.bot) !in t.app.store.stale
      ensures HeldSince(t.app.store.held, sent.floor, At(t.position))
    {
      assert SnapshotOf(sent.request) in s.app.inFlight;
    }
  }

  lemma ScreenKeepsCopy(s: SystemState, t: SystemState)
    requires CoreInv(s) && CopyInv(s) && Answers(s, t) && SameScreen(s.app, t.app)
    ensures CopyInv(t)
  {
    if IsSettled(t) {
      assert IsSettled(s);
      var bot := s.app.open.value.bot;
      assert SameCopy(s.app.store.conversations[bot], t.app.store.conversations[bot]);
    }
  }

  lemma ScreenKeepsOlder(s: SystemState, t: SystemState)
    requires CoreInv(s) && OlderAnswers(s) && OlderPending(s) && Answers(s, t) && SameScreen(s.app, t.app)
    ensures OlderAnswers(t) && OlderPending(t)
  {
    assert IsSettled(t) ==> IsSettled(s);
    forall sent | sent in t.wire && sent.generation == t.app.generation && sent.request.LoadBefore?
                  && sent.request.bot in t.app.store.conversations
      ensures SameCopy(s.app.store.conversations[sent.request.bot], t.app.store.conversations[sent.request.bot])
    {
    }
  }

  lemma ScreenKeepsClaims(s: SystemState, t: SystemState)
    requires CoreInv(s) && ClaimsInv(s) && Answers(s, t) && SameScreen(s.app, t.app)
    ensures ClaimsInv(t)
  {
    ScreenKeepsNewest(s, t);
    ScreenKeepsCopy(s, t);
    ScreenKeepsOlder(s, t);
  }

  /** An answer for a conversation no longer on screen changes nothing that is. */
  lemma ElsewhereKeepsInv(s: SystemState, sent: Sent)
    requires Inv(s) && sent in s.wire && sent.generation == s.app.generation
    requires !Concerns(s.app.OpenBot(), SnapshotOf(sent.request))
    ensures var snapshot := SnapshotOf(sent.request);
            Inv(s.(wire := s.wire - {sent}, app := s.app.Answered(snapshot)))
  {
    WireAfterAnswer(s.wire, s.app.generation, s.app.inFlight, sent);
  }

  /** A newest page that failed, and is not asked for again, leaves nothing settled. */
  lemma NewestFailedLeaves(a: AppState, bot: BotId)
    requires a.signedIn && a.OpenBot() == Some(bot) && Messages(bot) in a.inFlight && Messages(bot) !in a.again
    ensures var outcome := a.ReplyMessages(bot, NotLoaded);
            && outcome.sent == {} && outcome.app.generation == a.generation && outcome.app.open.Some?
            && outcome.app.open.value.bot == bot && outcome.app.open.value.error && outcome.app.signedIn
            && outcome.app.inFlight == a.inFlight - {Messages(bot)} && outcome.app.again == a.again
            && outcome.app.store.conversations == a.store.conversations
            && outcome.app.store.held in {a.store.held, []}
  {
    assert a.again - {Messages(bot)} == a.again;
  }

  lemma NewestFailedKeepsCore(s: SystemState, sent: Sent)
    requires Inv(s) && sent in s.wire && sent.generation == s.app.generation && sent.request.LoadNewest?
    requires s.app.signedIn && s.app.OpenBot() == Some(sent.request.bot) && Messages(sent.request.bot) !in s.app.again
    ensures CoreInv(Act(s.(wire := s.wire - {sent}), s.app.ReplyMessages(sent.request.bot, NotLoaded)))
  {
    Awaited(s, sent);
    NewestFailedLeaves(s.app, sent.request.bot);
    WireAfterAnswer(s.wire, s.app.generation, s.app.inFlight, sent);
    ReplyMessagesKeeps(s.app, sent.request.bot, NotLoaded);
    NothingOnWire(s.app.ReplyMessages(sent.request.bot, NotLoaded), At(s.position));
  }

  lemma NothingOnWire(outcome: Outcome, at: nat)
    requires outcome.sent == {}
    ensures OnWire(outcome, at) == {}
  {
  }

  lemma NewestFailedKeepsClaims(s: SystemState, sent: Sent)
    requires Inv(s) && sent in s.wire && sent.generation == s.app.generation && sent.request.LoadNewest?
    requires s.app.signedIn && s.app.OpenBot() == Some(sent.request.bot) && Messages(sent.request.bot) !in s.app.again
    ensures ClaimsInv(Act(s.(wire := s.wire - {sent}), s.app.ReplyMessages(sent.request.bot, NotLoaded)))
  {
    hide SocketInv, WellFormed, FromLog, AppInv;
    Awaited(s, sent);
    NoOtherNewest(s, sent);
    NewestFailedLeaves(s.app, sent.request.bot);
    NothingOnWire(s.app.ReplyMessages(sent.request.bot, NotLoaded), At(s.position));
  }

  lemma NewestFailedKeepsInv(s: SystemState, sent: Sent)
    requires Inv(s) && sent in s.wire && sent.generation == s.app.generation && sent.request.LoadNewest?
    requires s.app.signedIn && s.app.OpenBot() == Some(sent.request.bot) && Messages(sent.request.bot) !in s.app.again
    ensures Inv(Act(s.(wire := s.wire - {sent}), s.app.ReplyMessages(sent.request.bot, NotLoaded)))
  {
    NewestFailedKeepsCore(s, sent);
    NewestFailedKeepsClaims(s, sent);
  }

  lemma AnswerNewestKeepsInv(s: SystemState, sent: Sent, page: Result<MessagePage>, p: nat)
    requires Inv(s) && Allowed(s, AnswerNewest(sent, page, p))
    ensures Inv(Do(s, AnswerNewest(sent, page, p)))
  {
    var bot := sent.request.bot;
    var snapshot := Messages(bot);
    if sent.generation != s.app.generation {
      StaleAnswerKeepsInv(s, sent);
      return;
    }
    assert SnapshotOf(sent.request) in s.app.inFlight;
    if s.app.OpenBot() != Some(bot) {
      ElsewhereKeepsInv(s, sent);
      QuietActKeepsInv(s.(wire := s.wire - {sent}, app := s.app.Answered(snapshot)));
    } else {
      match page {
        case Loaded(loaded) => NewestAnswerKeepsInv(s, sent, loaded, p);
        case Unauthenticated =>
          GenerationsKeep(s.app);
          NewSessionKeepsInv(s, s.wire - {sent}, s.log, s.app.ReplyMessages(bot, page));
        case NotLoaded =>
          if snapshot in s.app.again {
            ResentKeepsInv(s, sent, snapshot);
          } else {
            NewestFailedKeepsInv(s, sent);
          }
      }
    }
  }

  lemma ListShownKeepsCore(s: SystemState, sent: Sent, page: BotList)
    requires CoreInv(s) && sent in s.wire && sent.request.ListBots? && sent.generation == s.app.generation
             && s.app.signedIn
    ensures CoreInv(s.(wire := s.wire - {sent}, app := ListShown(s.app, page)))
  {
    hide WellFormed;
    Awaited(s, sent);
    ListSteps(s.app, page);
    WireAfterAnswer(s.wire, s.app.generation, s.app.inFlight, sent);
  }

  lemma ListShownKeepsClaims(s: SystemState, sent: Sent, page: BotList)
    requires Inv(s) && sent in s.wire && sent.request.ListBots? && sent.generation == s.app.generation && s.app.signedIn
    ensures ClaimsInv(s.(wire := s.wire - {sent}, app := ListShown(s.app, page)))
  {
    hide SocketInv, WellFormed, FromLog;
    Awaited(s, sent);
    ListSteps(s.app, page);
  }

  lemma ListShownKeepsInv(s: SystemState, sent: Sent, page: BotList)
    requires Inv(s) && sent in s.wire && sent.request.ListBots? && sent.generation == s.app.generation && s.app.signedIn
    ensures Inv(s.(wire := s.wire - {sent}, app := ListShown(s.app, page)))
  {
    hide SocketInv, AppInv, WireInv, NewestPending, CopyInv, OlderAnswers, OlderPending, WellFormed, FromLog;
    ListShownKeepsCore(s, sent, page);
    ListShownKeepsClaims(s, sent, page);
  }

  /** A request answered with nothing new sent. */
  lemma AnsweredKeepsCore(s: SystemState, sent: Sent, app: AppState)
    requires CoreInv(s) && sent in s.wire && sent.generation == s.app.generation == app.generation && AppInv(app)
    requires app.inFlight == s.app.inFlight - {SnapshotOf(sent.request)} && app.store.held in {s.app.store.held, []}
    ensures CoreInv(Act(s.(wire := s.wire - {sent}), Outcome(app, {})))
    ensures Act(s.(wire := s.wire - {sent}), Outcome(app, {})) == s.(wire := s.wire - {sent}, app := app)
  {
    WireAfterAnswer(s.wire, s.app.generation, s.app.inFlight, sent);
    assert OnWire(Outcome(app, {}), At(s.position)) == {};
  }

  lemma FailedListLeavesScreen(a: AppState)
    requires AppInv(a) && a.signedIn && Bots in a.inFlight && Bots !in a.again
    ensures var b := a.ReplyBots(NotLoaded).app;
            && a.ReplyBots(NotLoaded) == Outcome(b, {}) && SameScreen(a, b)
            && b.inFlight == a.inFlight - {Bots} && b.store.held in {a.store.held, []}
  {
    assert a.again - {Bots} == a.again;
    if a.open.Some? {
      assert Messages(a.open.value.bot) in a.store.loading ==> Messages(a.open.value.bot) in a.store.loading - {Bots};
      assert Older(a.open.value.bot) in a.store.loading ==> Older(a.open.value.bot) in a.store.loading - {Bots};
    }
  }

  lemma ListFailedKeepsInv(s: SystemState, sent: Sent)
    requires Inv(s) && sent in s.wire && sent.request.ListBots? && sent.generation == s.app.generation && s.app.signedIn
    requires Bots !in s.app.again
    ensures Inv(Act(s.(wire := s.wire - {sent}), s.app.ReplyBots(NotLoaded)))
  {
    assert SnapshotOf(sent.request) in s.app.inFlight;
    var app := s.app.ReplyBots(NotLoaded).app;
    ReplyBotsKeeps(s.app, NotLoaded);
    FailedListLeavesScreen(s.app);
    AnsweredKeepsCore(s, sent, app);
    ScreenKeepsClaims(s, s.(wire := s.wire - {sent}, app := app));
  }

  /** What the Bot list was shown is no part of the invariant. */
  lemma ListShownIsFree(s: SystemState, listShown: nat)
    requires Inv(s)
    ensures Inv(s.(listShown := listShown))
  {
  }

  lemma AnswerBotsKeepsInv(s: SystemState, sent: Sent, bots: Result<BotList>, p: nat)
    requires Inv(s) && Allowed(s, AnswerBots(sent, bots, p))
    ensures Inv(Do(s, AnswerBots(sent, bots, p)))
  {
    hide SocketInv, AppInv, WireInv, NewestPending, CopyInv, OlderAnswers, OlderPending, WellFormed;
    if sent.generation != s.app.generation {
      StaleAnswerKeepsInv(s, sent);
      return;
    }
    var answered := s.(wire := s.wire - {sent});
    ListReplyKeepsInv(s, sent, bots);
    var replied := Act(answered, s.app.ReplyBots(bots));
    ListShownIsFree(replied, PagedList(answered, bots, p).listShown);
    assert Do(s, AnswerBots(sent, bots, p)) == replied.(listShown := PagedList(answered, bots, p).listShown);
  }

  lemma ListReplyKeepsInv(s: SystemState, sent: Sent, bots: Result<BotList>)
    requires Inv(s) && sent in s.wire && sent.request.ListBots? && sent.generation == s.app.generation
    ensures Inv(Act(s.(wire := s.wire - {sent}), s.app.ReplyBots(bots)))
  {
    hide SocketInv, AppInv, WireInv, NewestPending, CopyInv, OlderAnswers, OlderPending, WellFormed;
    Awaited(s, sent);
    match bots {
      case Loaded(page) =>
        ListShownKeepsInv(s, sent, page);
        ListSteps(s.app, page);
        var shown, wanted := ListShown(s.app, page), ReloadsOfList(s.app.store, page);
        LoadAllLoadsMore(shown, wanted);
        ThenAgainLoadsMore(shown, shown.LoadAll(wanted), Bots in s.app.again, Bots);
        LoadingKeepsInv(s.(wire := s.wire - {sent}, app := shown), s.app.ReplyBots(bots));
      case Unauthenticated =>
        NoneFromLater(s);
        GenerationsKeep(s.app);
        NewSessionKeepsInv(s, s.wire - {sent}, s.log, s.app.ReplyBots(bots));
      case NotLoaded =>
        if Bots in s.app.again {
          ResentKeepsInv(s, sent, Bots);
        } else {
          ListFailedKeepsInv(s, sent);
        }
    }
  }

  // ---------------------------------------------------------------------
  // Older pages

  ghost function OlderMerged(s: SystemState, sent: Sent, page: MessagePage, p: nat): SystemState
    requires s.app.open.Some? && sent.request.LoadBefore?
  {
    PagedOlder(s.(wire := s.wire - {sent}), Loaded(page), p)
      .(app := OlderShown(s.app, sent.request.bot, sent.request.before, page))
  }

  /** An older page that the copy takes in leaves it right. */
  lemma JoinedCopyIsRight(log: seq<Event>, bot: BotId, c: Conversation, shown: nat, mixed: bool,
                          before: MessageId, page: MessagePage, p: nat,
                          held: seq<Envelope>, floor: nat, at: nat)
    requires WellFormed(log) && CopyRight(log, bot, c, shown, mixed, at) && c.older == Some(before) && at <= |log|
    requires ShowsLog(log, bot, Some(before), page, p) && c.upTo <= floor <= page.upTo <= p
    requires FromLog(log, held) && HeldSince(held, floor, at)
    ensures var earlier := map id | id in page.messages && page.messages[id].bot == bot && id < before
                                    && id !in c.messages :: page.messages[id];
            CopyRight(log, bot,
                      c.(messages := c.messages + ReplayOlder(earlier, page.upTo, held).messages,
                         older := page.older, requestedOlder := None),
                      Max(shown, Furthest(p, page.upTo, held)), mixed, at)
  {
    var earlier := map id | id in page.messages && page.messages[id].bot == bot && id < before
                            && id !in c.messages :: page.messages[id];
    var added := ReplayOlder(earlier, page.upTo, held).messages;
    JoinedPageIsFaithful(log, Scope(bot, c.upTo, c.older, shown), c.messages, earlier, before, page, p, held,
                         floor, at);
    assert OnlyOf(added, bot) by {
      PageIsGenuine(log, bot, Some(before), page, p);
      OlderKeepsBots(log, bot, earlier, page.upTo, held);
    }
    assert c.messages.Keys !! added.Keys by {
      ReplayOlderKeepsIds(earlier, page.upTo, held);
    }
    AddingOwnMessages(c.messages, added, bot);
  }

  lemma AddingOwnMessages(messages: MessageMap, added: MessageMap, bot: BotId)
    requires OnlyOf(added, bot) && messages.Keys !! added.Keys
    ensures OnlyOf(messages + added, bot) <==> OnlyOf(messages, bot)
  {
    assert forall id :: id in messages ==> (messages + added)[id] == messages[id];
  }

  lemma PageIsGenuine(log: seq<Event>, bot: BotId, before: Option<MessageId>, page: MessagePage, p: nat)
    requires WellFormed(log) && ShowsLog(log, bot, before, page, p)
    ensures Genuine(log, page.messages) && OnlyOf(page.messages, bot)
  {
    forall id | id in page.messages
      ensures id in Fold(log, |log|) && Fold(log, |log|)[id].bot == page.messages[id].bot == bot
    {
      MessagesGrow(log, p, |log|, id);
    }
  }

  /** Replaying onto a page of one Bot's messages leaves them that Bot's. */
  lemma {:induction false} OlderKeepsBots(log: seq<Event>, bot: BotId, earlier: MessageMap, upTo: nat,
                                          events: seq<Envelope>)
    requires WellFormed(log) && FromLog(log, events) && Genuine(log, earlier) && OnlyOf(earlier, bot)
    ensures Genuine(log, ReplayOlder(earlier, upTo, events).messages)
    ensures OnlyOf(ReplayOlder(earlier, upTo, events).messages, bot)
    decreases |events|
  {
    if events != [] {
      var before, last := events[..|events| - 1], events[|events| - 1];
      OlderKeepsBots(log, bot, earlier, upTo, before);
      var held := ReplayOlder(earlier, upTo, before).messages;
      if upTo < last.number && ReceiveOlder(held, last.event) == Receive(held, last.event) {
        ReceiveMixesBots(log, bot, held, last.number);
        OwnMessageOwnEvent(log, bot, held, last.number);
      }
    }
  }

  /** An event about a message held is about its Bot. */
  lemma OwnMessageOwnEvent(log: seq<Event>, bot: BotId, messages: MessageMap, j: nat)
    requires WellFormed(log) && Genuine(log, messages) && OnlyOf(messages, bot) && 0 < j <= |log|
    ensures log[j - 1].MessageCompleted? && log[j - 1].message.id in messages ==> !BringsAnother(bot, log[j - 1])
  {
    if log[j - 1].MessageCompleted? && log[j - 1].message.id in messages {
      assert log[j - 1].message.id in Fold(log, j);
      MessagesGrow(log, j, |log|, log[j - 1].message.id);
    }
  }

  /** An older page that no copy waits for is dropped. */
  lemma OlderDropped(store: StoreState, bot: BotId, before: MessageId, page: MessagePage)
    requires bot in store.conversations ==>
               store.conversations[bot].requestedOlder != Some(before) || store.conversations[bot].older != Some(before)
    ensures OlderIn(store, bot, before, page) == store.Forget({Older(bot)}).Settle()
  {
  }

  /** One that the copy waits for is refused or joined. */
  lemma OlderTaken(store: StoreState, bot: BotId, before: MessageId, page: MessagePage)
    requires bot in store.conversations
    requires store.conversations[bot].requestedOlder == Some(before) && store.conversations[bot].older == Some(before)
    ensures var received := ReplayOlder(store.Earlier(bot, before, page), page.upTo, store.held);
            var c := store.conversations[bot];
            var d := if Older(bot) in store.stale || received.incomplete then c.(requestedOlder := None)
                     else c.(messages := c.messages + received.messages, older := page.older, requestedOlder := None);
            OlderIn(store, bot, before, page)
            == store.Forget({Older(bot)}).(conversations := store.conversations[bot := d]).Settle()
  {
  }

  lemma OlderInStore(store: StoreState, bot: BotId, before: MessageId, page: MessagePage)
    requires bot in store.conversations
    ensures var after := OlderIn(store, bot, before, page);
            var c := store.conversations[bot];
            var received := ReplayOlder(store.Earlier(bot, before, page), page.upTo, store.held);
            && after.loading == store.loading - {Older(bot)} && after.stale == store.stale - {Older(bot)}
            && (after.held == store.held || (after.held == [] && after.loading == {}))
            && after.conversations.Keys == store.conversations.Keys
            && (forall other :: other in store.conversations && other != bot ==>
                  after.conversations[other] == store.conversations[other])
            && after.conversations[bot] ==
                 if c.requestedOlder != Some(before) || c.older != Some(before) then c
                 else if Older(bot) in store.stale || received.incomplete then c.(requestedOlder := None)
                 else c.(messages := c.messages + received.messages, older := page.older, requestedOlder := None)
  {
    var c := store.conversations[bot];
    if c.requestedOlder != Some(before) || c.older != Some(before) {
      OlderDropped(store, bot, before, page);
    } else {
      OlderTaken(store, bot, before, page);
    }
  }

  lemma CopySeen(log: seq<Event>, bot: BotId, c: Conversation, shown: nat, mixed: bool, at: nat, j: nat)
    requires CopyRight(log, bot, c, shown, mixed, at)
    ensures CopyRight(log, bot, c.(requestedOlder := None), Max(shown, j), mixed, at)
    ensures CopyRight(log, bot, c, Max(shown, j), mixed, at)
  {
    FaithfulSeen(log, Scope(bot, c.upTo, c.older, shown), c.messages, Max(at, c.upTo), j);
  }

  lemma OlderMergedKeepsCopy(s: SystemState, sent: Sent, page: MessagePage, p: nat)
    requires Inv(s) && Allowed(s, AnswerOlder(sent, Loaded(page), p))
    requires sent.generation == s.app.generation && s.app.OpenBot() == Some(sent.request.bot)
    ensures CopyInv(OlderMerged(s, sent, page, p))
  {
    var after := OlderMerged(s, sent, page, p);
    var bot, before := sent.request.bot, sent.request.before;
    if IsSettled(after) {
      assert IsSettled(s);
      var c := s.app.store.conversations[bot];
      OlderInStore(s.app.store, bot, before, page);
      CopySeen(s.log, bot, c, s.shown, s.mixed, At(s.position), Furthest(p, page.upTo, s.app.store.held));
      if c.requestedOlder == Some(before) && Older(bot) !in s.app.store.stale {
        assert c.older == Some(before);
        JoinedCopyIsRight(s.log, bot, c, s.shown, s.mixed, before, page, p,
                          s.app.store.held, sent.floor, At(s.position));
      }
    }
  }

  /** While the open conversation's newest page loads, an older page leaves what is held. */
  lemma OlderLeavesHeld(s: SystemState, sent: Sent, page: MessagePage, p: nat, other: Snapshot)
    requires AppInv(s.app) && sent.request.LoadBefore? && s.app.OpenBot() == Some(sent.request.bot)
    requires other in s.app.inFlight && !other.Older? && Concerns(s.app.OpenBot(), other)
    ensures var after := OlderMerged(s, sent, page, p).app.store;
            after.held == s.app.store.held && (other in after.stale <==> other in s.app.store.stale)
  {
    var bot, before := sent.request.bot, sent.request.before;
    assert other in s.app.store.loading;
    OlderInLeavesHeld(s.app.store, bot, before, page, other);
  }

  lemma OlderInLeavesHeld(store: StoreState, bot: BotId, before: MessageId, page: MessagePage, other: Snapshot)
    requires other in store.loading && !other.Older?
    ensures OlderIn(store, bot, before, page).held == store.held
    ensures other in OlderIn(store, bot, before, page).stale <==> other in store.stale
  {
    assert other in store.loading - {Older(bot)};
    assert store.Forget({Older(bot)}).Settle().held == store.held;
    if bot in store.conversations {
      OlderInStore(store, bot, before, page);
    }
  }

  lemma OlderMergedKeepsNewest(s: SystemState, sent: Sent, page: MessagePage, p: nat)
    requires Inv(s) && sent in s.wire && sent.request.LoadBefore?
    requires sent.generation == s.app.generation && s.app.OpenBot() == Some(sent.request.bot)
    ensures NewestPending(OlderMerged(s, sent, page, p))
  {
    var after := OlderMerged(s, sent, page, p);
    forall other | other in after.wire && other.generation == after.app.generation && after.synced
                   && other.request.LoadNewest? && after.app.OpenBot() == Some(other.request.bot)
                   && Messages(other.request.bot) !in after.app.again
                   && Messages(other.request.bot) !in after.app.store.stale
      ensures HeldSince(after.app.store.held, other.floor, At(after.position))
    {
      assert SnapshotOf(other.request) in s.app.inFlight;
      OlderLeavesHeld(s, sent, page, p, Messages(other.request.bot));
    }
  }

  lemma OlderMergedKeepsPending(s: SystemState, sent: Sent, page: MessagePage, p: nat)
    requires Inv(s) && Allowed(s, AnswerOlder(sent, Loaded(page), p))
    requires sent.generation == s.app.generation && s.app.OpenBot() == Some(sent.request.bot)
    ensures var after := OlderMerged(s, sent, page, p);
            NewestPending(after) && OlderAnswers(after) && OlderPending(after)
  {
    hide SocketInv, WellFormed, FromLog;
    var after := OlderMerged(s, sent, page, p);
    var bot, before := sent.request.bot, sent.request.before;
    OlderMergedKeepsNewest(s, sent, page, p);
    if bot in s.app.store.conversations {
      OlderInStore(s.app.store, bot, before, page);
      assert after.app.store.conversations[bot].requestedOlder == None;
    }
  }

  lemma OlderInHeld(log: seq<Event>, store: StoreState, bot: BotId, before: MessageId, page: MessagePage)
    requires FromLog(log, store.held)
    ensures FromLog(log, OlderIn(store, bot, before, page).held)
  {
    assert OlderIn(store, bot, before, page).held in {store.held, []};
  }

  lemma OlderMergedKeepsWire(s: SystemState, sent: Sent, page: MessagePage, p: nat)
    requires WireInv(s.wire, s.app.generation, s.app.inFlight) && SocketInv(s)
    requires sent in s.wire && sent.request.LoadBefore? && s.app.open.Some?
    requires sent.generation == s.app.generation
    ensures var after := OlderMerged(s, sent, page, p);
            WireInv(after.wire, after.app.generation, after.app.inFlight) && SocketInv(after)
  {
    WireAfterAnswer(s.wire, s.app.generation, s.app.inFlight, sent);
  }

  lemma OlderMergedKeepsInv(s: SystemState, sent: Sent, page: MessagePage, p: nat)
    requires Inv(s) && Allowed(s, AnswerOlder(sent, Loaded(page), p))
    requires sent.generation == s.app.generation && s.app.OpenBot() == Some(sent.request.bot) && s.app.signedIn
    ensures Inv(OlderMerged(s, sent, page, p))
  {
    assert SnapshotOf(sent.request) in s.app.inFlight;
    OlderPageKeeps(s.app, sent.request.bot, sent.request.before, page);
    OlderInHeld(s.log, s.app.store, sent.request.bot, sent.request.before, page);
    OlderMergedKeepsWire(s, sent, page, p);
    OlderMergedKeepsCopy(s, sent, page, p);
    OlderMergedKeepsPending(s, sent, page, p);
  }

  lemma OlderReplyLoadsMore(a: AppState, bot: BotId, before: MessageId, page: MessagePage)
    requires AppInv(a) && a.signedIn && Older(bot) in a.inFlight && a.OpenBot() == Some(bot)
    requires AnswersCopy(a.store, bot, before)
    ensures LoadsMore(OlderShown(a, bot, before, page), a.ReplyOlder(bot, before, Loaded(page)))
  {
    OlderPageKeeps(a, bot, before, page);
    var shown := OlderShown(a, bot, before, page);
    LoadOlderLoadsMore(shown, bot);
    var complete := a.store.LoadOlder(bot, before, page).reload == {};
    var loaded := if complete then shown.Quietly() else shown.LoadOlderPage(bot);
    SeekLoadsMore(loaded.app);
    LoadsMoreThen(shown, loaded, loaded.app.SeekGoto());
  }

  lemma FailedOlderLeavesScreen(a: AppState, bot: BotId, before: MessageId)
    requires AppInv(a) && a.signedIn && Older(bot) in a.inFlight && a.OpenBot() == Some(bot)
    ensures var b := a.ReplyOlder(bot, before, NotLoaded).app;
            && a.ReplyOlder(bot, before, NotLoaded) == Outcome(b, {}) && SameScreen(a, b)
            && b.inFlight == a.inFlight - {Older(bot)} && b.store.held in {a.store.held, []}
  {
    assert Messages(bot) in a.store.loading ==> Messages(bot) in a.store.loading - {Older(bot)};
  }

  lemma OlderFailedKeepsInv(s: SystemState, sent: Sent)
    requires Inv(s) && sent in s.wire && sent.generation == s.app.generation && sent.request.LoadBefore?
    requires s.app.signedIn && s.app.OpenBot() == Some(sent.request.bot)
    ensures Inv(Act(s.(wire := s.wire - {sent}), s.app.ReplyOlder(sent.request.bot, sent.request.before, NotLoaded)))
  {
    var bot, before := sent.request.bot, sent.request.before;
    assert SnapshotOf(sent.request) in s.app.inFlight;
    var app := s.app.ReplyOlder(bot, before, NotLoaded).app;
    ReplyOlderKeeps(s.app, bot, before, NotLoaded);
    FailedOlderLeavesScreen(s.app, bot, before);
    AnsweredKeepsCore(s, sent, app);
    ScreenKeepsClaims(s, s.(wire := s.wire - {sent}, app := app));
  }

  lemma AnswerOlderKeepsInv(s: SystemState, sent: Sent, page: Result<MessagePage>, p: nat)
    requires Inv(s) && Allowed(s, AnswerOlder(sent, page, p))
    ensures Inv(Do(s, AnswerOlder(sent, page, p)))
  {
    hide SocketInv, AppInv, WireInv, NewestPending, CopyInv, OlderPending, WellFormed;
    var bot, before := sent.request.bot, sent.request.before;
    if sent.generation != s.app.generation {
      StaleAnswerKeepsInv(s, sent);
      return;
    }
    Awaited(s, sent);
    if s.app.OpenBot() != Some(bot) {
      ElsewhereKeepsInv(s, sent);
      assert s.app.again - {Older(bot)} == s.app.again;
      QuietActKeepsInv(s.(wire := s.wire - {sent}, app := s.app.Answered(Older(bot))));
    } else {
      match page {
        case Loaded(loaded) =>
          OlderMergedKeepsInv(s, sent, loaded, p);
          OlderReplyLoadsMore(s.app, bot, before, loaded);
          LoadingKeepsInv(OlderMerged(s, sent, loaded, p), s.app.ReplyOlder(bot, before, page));
        case Unauthenticated =>
          NoneFromLater(s);
          GenerationsKeep(s.app);
          NewSessionKeepsInv(s, s.wire - {sent}, s.log, s.app.ReplyOlder(bot, before, page));
        case NotLoaded => OlderFailedKeepsInv(s, sent);
      }
    }
  }

  // ---------------------------------------------------------------------
  // The user, the gateway and the socket

  /** Opening a conversation: what it leaves of the application. */
  lemma OpeningLeaves(a: AppState, bot: BotId)
    requires AppInv(a) && a.signedIn && bot in a.store.bots && a.OpenBot() != Some(bot)
    ensures var b := a.OpenConversation(bot).app;
            && b.generation == a.generation && b.OpenBot() == Some(bot) && Messages(bot) in b.inFlight
            && b.store.conversations == map[] && b.store.held in {a.store.held, []}
            && (Messages(bot) in a.inFlight ==> Messages(bot) in b.again)
  {
    assert forall other :: other in a.store.conversations ==> a.open.Some? && other == a.open.value.bot;
    assert a.CloseOpen().store.conversations == map[];
  }

  lemma OpenKeepsClaims(s: SystemState, bot: BotId)
    requires Inv(s) && s.app.signedIn && bot in s.app.store.bots && s.app.OpenBot() != Some(bot)
    ensures ClaimsInv(Act(s, s.app.OpenConversation(bot)))
  {
    var outcome := s.app.OpenConversation(bot);
    var after := Act(s, outcome);
    OpeningLeaves(s.app, bot);
    forall sent | sent in after.wire && sent.request == LoadNewest(bot) && sent.generation == after.app.generation
                  && Messages(bot) !in after.app.again
      ensures At(after.position) <= sent.floor
    {
      SentSinceOpening(s, bot, sent);
      NewRequests(s, outcome, sent);
    }
  }

  /** A request for the page that is not to be asked for again was sent by the opening. */
  lemma SentSinceOpening(s: SystemState, bot: BotId, sent: Sent)
    requires Inv(s) && s.app.signedIn && bot in s.app.store.bots && s.app.OpenBot() != Some(bot)
    requires sent.request == LoadNewest(bot) && sent.generation == s.app.generation
    requires Messages(bot) !in s.app.OpenConversation(bot).app.again
    ensures sent !in s.wire
  {
    OpeningLeaves(s.app, bot);
    assert SnapshotOf(sent.request) == Messages(bot);
  }

  lemma OpenKeepsCore(s: SystemState, bot: BotId)
    requires Inv(s) && s.app.signedIn && bot in s.app.store.bots && s.app.OpenBot() != Some(bot)
    ensures CoreInv(Act(s, s.app.OpenConversation(bot)))
  {
    OpeningLeaves(s.app, bot);
    OpenConversationKeeps(s.app, bot);
    WireAfterAct(s, s.app.OpenConversation(bot));
  }

  lemma OpenKeepsInv(s: SystemState, bot: BotId)
    requires Inv(s) && s.app.signedIn
    ensures Inv(Do(s, OpenABot(bot)))
  {
    if bot in s.app.store.bots && s.app.OpenBot() != Some(bot) {
      OpenKeepsCore(s, bot);
      OpenKeepsClaims(s, bot);
    } else {
      QuietActKeepsInv(s);
    }
  }

  lemma BackKeepsInv(s: SystemState)
    requires Inv(s) && s.app.signedIn
    ensures Inv(Do(s, GoBack))
  {
    var closed := s.(app := s.app.CloseOpen());
    ClosedKeepsInv(s);
    QuietActKeepsInv(closed);
  }

  lemma ClosedLeaves(a: AppState)
    requires AppInv(a)
    ensures var b := a.CloseOpen();
            && b.generation == a.generation && b.signedIn == a.signedIn && b.open.None?
            && b.inFlight == a.inFlight && b.again == a.again
            && b.store.conversations == map[] && b.store.held in {a.store.held, []}
  {
    assert forall other :: other !in a.CloseOpen().store.conversations;
  }

  lemma ClosedKeepsInv(s: SystemState)
    requires Inv(s) && s.app.signedIn
    ensures Inv(s.(app := s.app.CloseOpen()))
  {
    hide AppInv, WellFormed;
    CloseOpenKeeps(s.app);
    ClosedLeaves(s.app);
  }

  lemma OlderErrorKeepsInv(s: SystemState, open': Open)
    requires Inv(s) && s.app.open.Some? && open'.bot == s.app.open.value.bot && open'.error == s.app.open.value.error
    ensures Inv(s.(app := s.app.WithOpen(open')))
  {
  }

  lemma LoadMoreKeepsInv(s: SystemState)
    requires Inv(s) && s.app.signedIn
    ensures Inv(Do(s, LoadMore))
  {
    hide SocketInv, AppInv, WireInv, NewestPending, CopyInv, OlderAnswers, OlderPending, WellFormed;
    if s.app.open.Some? {
      var cleared := s.app.open.value.(olderError := false);
      OlderErrorKeepsInv(s, cleared);
      var t := s.(app := s.app.WithOpen(cleared));
      LoadOlderLoadsMore(t.app, cleared.bot);
      LoadingKeepsInv(t, t.app.LoadOlderPage(cleared.bot));
    } else {
      QuietActKeepsInv(s);
    }
  }

  lemma SeekKeepsInv(s: SystemState, message: MessageId)
    requires Inv(s) && s.app.signedIn
    ensures Inv(Do(s, Seek(message)))
  {
    hide SocketInv, AppInv, WireInv, NewestPending, CopyInv, OlderAnswers, OlderPending, WellFormed;
    if s.app.open.Some? {
      var sought := s.app.open.value.(goto := Some(message), gotoPages := 0);
      OlderErrorKeepsInv(s, sought);
      var t := s.(app := s.app.WithOpen(sought));
      SeekLoadsMore(t.app);
      LoadingKeepsInv(t, t.app.SeekGoto());
    } else {
      QuietActKeepsInv(s);
    }
  }

  lemma RefreshOpenKeepsInv(s: SystemState)
    requires Inv(s) && s.app.signedIn
    ensures Inv(Do(s, RefreshOpen))
  {
    hide SocketInv, AppInv, WireInv, NewestPending, CopyInv, OlderAnswers, OlderPending, WellFormed;
    if s.app.open.Some? {
      LoadAllLoadsMore(s.app, {Messages(s.app.open.value.bot)});
      LoadingKeepsInv(s, s.app.Refresh());
    } else {
      QuietActKeepsInv(s);
    }
  }

  lemma RefreshListKeepsInv(s: SystemState)
    requires Inv(s) && s.app.signedIn
    ensures Inv(Do(s, RefreshList))
  {
    hide SocketInv, AppInv, WireInv, NewestPending, CopyInv, OlderAnswers, OlderPending, WellFormed;
    var outcome := s.app.RefreshBots();
    assert LoadsMore(s.app, outcome) by {
      LoadAllLoadsMore(s.app, {Bots});
    }
    LoadingKeepsInv(s, outcome);
  }

  lemma CommitKeepsInv(s: SystemState, events: seq<Event>)
    requires Inv(s) && WellFormed(s.log + events)
    ensures Inv(s.(log := s.log + events))
  {
    var after := s.(log := s.log + events);
    if IsSettled(s) {
      var bot := s.app.open.value.bot;
      var c := s.app.store.conversations[bot];
      FaithfulAfterCommit(s.log, events, Scope(bot, c.upTo, c.older, s.shown), c.messages, Max(At(s.position), c.upTo));
      assert CopyInv(after);
    }
  }

  lemma {:induction false} PostsOfLogThen(log: seq<Event>, x: seq<Posted>, y: seq<Posted>)
    requires PostsOfLog(log, x) && PostsOfLog(log, y)
    ensures PostsOfLog(log, x + y)
  {
  }

  lemma SocketKeepsInv(s: SystemState, input: Input)
    requires Inv(s) && Truthful(s.log, input)
    ensures Inv(Do(s, SocketInput(input)))
  {
    var posts := Stamped(s.driver, input);
    StampedInOrder(s.driver, input);
    InOrderThen(s.position, s.queue, s.driver.connection.last, posts, s.driver.Handle(input).connection.last);
    TruthfulInputPosts(s.log, s.driver, input);
    PostsOfLogThen(s.log, s.queue, posts);
  }

  lemma StepKeepsInv(s: SystemState, step: Step)
    requires Inv(s) && Allowed(s, step)
    ensures Inv(Do(s, step))
  {
    match step {
      case Commit(events) => CommitKeepsInv(s, events);
      case SocketInput(input) => SocketKeepsInv(s, input);
      case HearUpdate => HearKeepsInv(s);
      case AnswerBots(sent, bots, p) => AnswerBotsKeepsInv(s, sent, bots, p);
      case AnswerNewest(sent, page, p) => AnswerNewestKeepsInv(s, sent, page, p);
      case AnswerOlder(sent, page, p) => AnswerOlderKeepsInv(s, sent, page, p);
      case OpenABot(bot) => OpenKeepsInv(s, bot);
      case GoBack => BackKeepsInv(s);
      case RefreshOpen => RefreshOpenKeepsInv(s);
      case RefreshList => RefreshListKeepsInv(s);
      case LoadMore => LoadMoreKeepsInv(s);
      case Seek(message) => SeekKeepsInv(s, message);
      case LeaveSession =>
        GenerationsKeep(s.app);
        NewSessionKeepsInv(s, s.wire, s.log, s.app.SignOut());
      case EnterSession(log) =>
        GenerationsKeep(s.app);
        NewSessionKeepsInv(s, s.wire, log, s.app.SignIn());
    }
  }

  /** The invariant holds after every run. */
  lemma {:induction false} EveryRunKeepsInv(steps: seq<Step>)
    requires IsRun(steps)
    ensures Inv(StateAfter(steps))
    decreases |steps|
  {
    if steps == [] {
      assert InOrder(None, [], None);
    } else {
      EveryRunKeepsInv(steps[..|steps| - 1]);
      StepKeepsInv(StateAfter(steps[..|steps| - 1]), steps[|steps| - 1]);
    }
  }

  // ---------------------------------------------------------------------
  // What every run guarantees

  /** Where a copy stands: at the client's position, or at its page's own number if that is further. */
  function StandsAt(s: SystemState, c: Conversation): nat {
    Max(At(s.position), c.upTo)
  }

  /** Every message from the cursor on is held, as it is at k. */
  ghost predicate HoldsAll(log: seq<Event>, bot: BotId, c: Conversation, k: nat) {
    k <= |log| && forall id :: Has(log, k, bot, id) && From(c.older, id) ==> id in c.messages
  }

  /** Each of the Bot's messages held shows what the gateway's does, at k or later, but not after top. */
  ghost predicate HoldsShown(log: seq<Event>, bot: BotId, c: Conversation, k: nat, top: nat) {
    forall id :: id in c.messages && c.messages[id].bot == bot ==>
                   exists q :: k <= q <= top && ShownAt(log, q, c.messages[id])
  }

  lemma RightCopyConverges(log: seq<Event>, bot: BotId, c: Conversation, shown: nat, mixed: bool, at: nat)
    requires WellFormed(log) && CopyRight(log, bot, c, shown, mixed, at)
    ensures HoldsAll(log, bot, c, Max(at, c.upTo))
            && HoldsShown(log, bot, c, Max(at, c.upTo), Max(Max(at, c.upTo), shown))
  {
    var k := Max(at, c.upTo);
    forall id | Has(log, k, bot, id) && From(c.older, id)
      ensures id in c.messages
    {
      if Has(log, c.upTo, bot, id) {
        MessagesGrow(log, c.upTo, k, id);
      }
    }
  }

  /**
   Convergence. After every run, a conversation on screen that is not loading and whose
   load did not fail has every message from its cursor on, each with the gateway's text
   and state where the client stands, or at a later position its own pages already
   showed. Other Bots' messages are in it exactly if one was held when its page came.
   */
  lemma SettledConversationConverges(steps: seq<Step>)
    requires IsRun(steps) && IsSettled(StateAfter(steps))
    ensures var s := StateAfter(steps);
            var bot := s.app.open.value.bot;
            && bot in s.app.store.conversations
            && var c := s.app.store.conversations[bot];
               && HoldsAll(s.log, bot, c, StandsAt(s, c))
               && HoldsShown(s.log, bot, c, StandsAt(s, c), Max(StandsAt(s, c), s.shown))
               && (OnlyOf(c.messages, bot) <==> !s.mixed)
  {
    EveryRunKeepsInv(steps);
    var s := StateAfter(steps);
    var bot := s.app.open.value.bot;
    RightCopyConverges(s.log, bot, s.app.store.conversations[bot], s.shown, s.mixed, At(s.position));
  }

  lemma CaughtUpIsShown(log: seq<Event>, bot: BotId, c: Conversation, top: nat, id: MessageId)
    requires HoldsShown(log, bot, c, |log|, top) && id in c.messages && c.messages[id].bot == bot
    ensures ShownAt(log, |log|, c.messages[id])
  {
    var q :| |log| <= q <= top && ShownAt(log, q, c.messages[id]);
  }

  /**
   Once the application has heard every event of the log, a settled conversation is the
   gateway's: every message from its cursor on, and of each message held, its author,
   text and state, and its time stamp unless a delta has grown it.
   */
  lemma CaughtUpConversationIsTheGateways(steps: seq<Step>, id: MessageId)
    requires IsRun(steps) && IsSettled(StateAfter(steps))
    requires At(StateAfter(steps).position) == |StateAfter(steps).log|
    ensures var s := StateAfter(steps);
            var bot := s.app.open.value.bot;
            && bot in s.app.store.conversations
            && var c := s.app.store.conversations[bot];
               && (Has(s.log, |s.log|, bot, id) && From(c.older, id) ==> id in c.messages)
               && (id in c.messages && c.messages[id].bot == bot ==> ShownAt(s.log, |s.log|, c.messages[id]))
  {
    SettledConversationConverges(steps);
    var s := StateAfter(steps);
    var bot := s.app.open.value.bot;
    var c := s.app.store.conversations[bot];
    assert StandsAt(s, c) == |s.log|;
    if id in c.messages && c.messages[id].bot == bot {
      CaughtUpIsShown(s.log, bot, c, Max(|s.log|, s.shown), id);
    }
  }

  /** In every run, at most one request of this session is on its way for each snapshot. */
  lemma OneRequestPerSnapshot(steps: seq<Step>, x: Sent, y: Sent)
    requires IsRun(steps)
    requires x in StateAfter(steps).wire && y in StateAfter(steps).wire
    requires x.generation == y.generation == StateAfter(steps).app.generation
    requires SnapshotOf(x.request) == SnapshotOf(y.request)
    ensures x == y && SnapshotOf(x.request) in StateAfter(steps).app.inFlight
  {
    EveryRunKeepsInv(steps);
  }

  /**
   In every run, what the store counts as loading is in flight, as is what is to be loaded
   again; and a request is on its way for all that is in flight.
   */
  lemma LoadingIsInFlight(steps: seq<Step>)
    requires IsRun(steps)
    ensures var app := StateAfter(steps).app;
            && app.store.loading <= app.inFlight && app.again <= app.inFlight
            && forall snapshot :: snapshot in app.inFlight ==>
                 exists sent :: sent in StateAfter(steps).wire && sent.generation == app.generation
                                && SnapshotOf(sent.request) == snapshot
  {
    EveryRunKeepsInv(steps);
  }
}
