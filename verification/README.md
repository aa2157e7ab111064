# Bokkie: the replicated event log and its neighbours, verified

The gateway appends each user's events to a numbered log. A web client follows that log
over a socket that may drop, repeat, skip or be reset, and merges it with HTTP snapshots
that carry a number and may already show later events. This project models both ends and
proves that, whatever the interleaving, a settled client copy is the gateway's state. It
also proves the sign-in limiter with its journal, the usage allowances, the viewing
renewals against the presence table, the JSON-RPC request correlation, the chunked-body
decoder and the civil-date arithmetic.

`dafny verify dfyconfig.toml` checks everything.

## How it is arranged

Each component has a module of pure operations on a state value, and a class whose
methods do the same in place, with the source's loops and branches; every method's
postcondition equates its new state with the pure operation's. The exception is what the
source leaves to one SQL statement on the usage tables (counting, deleting by age or id):
there a method applies the pure operation to the table. The theorems are lemmas about the
pure operations.

| Part | Pure operations | In place | Theorems |
|---|---|---|---|
| Client store | `StoreModel` | `Store.dfy` | `Copies`, `BotCopies`, `Holding`, `Mixing`, `OlderPages`, `Previews` |
| Event connection | `ConnectionModel` | `Connection.dfy`, `Driver.dfy` | `Delivery`, `Upkeep`, `Viewing` |
| Application's loads | `AppModel` | `App.dfy` | `AppProofs`, `Reloads`, `Searches` |
| Whole client and log | `System`, `ServerLog`, `BotLog` | | `Convergence`, `BotListConvergence`, `Strays`, `LiveClient`, `FirstRun` |
| Gateway's log and socket | `EventLogModel` | `EventLog.dfy` | `EventLogModel`, `Serving` |
| Sign-in limiter | `LimiterModel` | `Limiter.dfy` | `LimiterProofs`, `LimiterJournal`, `LimiterRuns`, `LimiterRestarts`, `LimiterCounts` |
| Usage | `UsageModel`, `Rollovers` | `Usage.dfy` | `UsageModel`, `Rollovers`, `Allowances`, `Windows` |
| Presence | `PresenceModel` | `Presence.dfy` | `Viewing` |
| App-server client | `Correlation` | `CodexClient.dfy` | `Correlation` |
| Chunked bodies, civil dates | `Chunked`, `CivilDate` | `Chunked.DechunkBody` | `Chunked`, `CivilDate` |

`System` is one state machine of the gateway's log, the socket, the queue of updates the
application has yet to hear, the application with its store, and the requests on their
way. A run is any sequence of its steps: commits, any socket input, late, failing and
unauthenticated answers, answers from an earlier session, opening, closing, refreshing
and searching conversations, and signing in and out.

## What is assumed of the gateway

- The log is well formed (`ServerLog.Follows`): a message is created once with a higher
  id, its deltas are contiguous while it streams, and a completion ends it. For the Bot
  list (`BotLog.ListFollows`): a status, a read marker and a new message concern a Bot
  already listed, and a read marker is one of the messages so far.
- An event frame numbered n carries event n, and a position a frame names is one the log
  has reached (`Delivery.Truthful`). `Serving.ServingKeepsTheClientLive` proves this of the
  frames the socket route sends.
- A page is read after it was requested: its number is at least the client's position
  when it asked, and at least the copy's own number for an older page; it shows the log at
  some position at or after its number (`System.Allowed`, `Copies.ShowsLog`,
  `BotCopies.ListShows`).

- Within a session the log only grows. The connection also handles a log that was replaced
  by a shorter one (apps/bokkie-web/src/connection.rs:440-447), and the model does what it
  does; but a reload then keeps the events held, so events of the old log numbered after a
  new page could be replayed onto it while two loads are in flight. Only a new sign-in
  starts from another log here.

Nothing is assumed of the socket, of timing, or of which messages change after a page.

## Where the code does not do what its documentation says

`load_messages` (apps/bokkie-web/src/store.rs:430-459) replays every held event onto the
page it loads, whichever Bot the event concerns, although `Store` is documented to apply
to each conversation the events after its own snapshot (apps/bokkie-web/src/store.rs:1-20).
While one Bot's conversation loads, another Bot's new or completed message is inserted
into it, and another Bot's delta asks for the page again. The model keeps this.
`Mixing.AnotherBotsMessageGetsIn` and `Mixing.AnotherBotsDeltaReloads` are concrete cases;
`FirstRun.ARunSettles` is one run of the whole system that ends so.
`Mixing.LoadingIsExactUnlessMixed` says exactly when loading is right; the convergence
theorem says of every settled conversation exactly when it holds its own Bot's messages
alone; and `Strays.OthersStayAsTheyCame` says which other messages it holds, and that they
stay as they were when its page came.

`LoginLimiter` is documented to keep its limits across a restart, by starting from what is
stored (crates/bokkie-gateway/src/auth.rs:175-177). Attempts on accounts that do not exist
are not stored, on purpose (crates/bokkie-gateway/src/auth.rs:241-247), and a restart forgets them. That shows even on
names that are stored: an attempt the running limiter would have refused for the unknown
account is granted by the rebuilt one, and counts against its address.
`LimiterRestarts.RestartIsTransparent` says exactly when a restart shows, and
`LimiterRestarts.AnUnknownAccountShows` that one such attempt is enough.

## Model

| member | source | states |
|---|---|---|
| Convergence.SettledConversationConverges | apps/bokkie-web/src/store.rs:410-545 | after every run, a conversation on screen that is not loading and did not fail has every message from its cursor on, each with the gateway's author, text and state, and its time stamp where the log tells it, where the client stands or at a later position its pages showed, and only its own Bot's messages exactly if none of another Bot's was held when its page came |
| Convergence.CaughtUpConversationIsTheGateways | apps/bokkie-web/src/store.rs:1-20 | once every event of the log is heard, a settled conversation has all its Bot's messages from its cursor on, each with the gateway's author, text and state, and the gateway's time stamp unless a delta has grown it since it was created |
| BotListConvergence.SettledListConverges | apps/bokkie-web/src/store.rs:576-683 | after every run, a Bot list that is not loading and did not fail has every Bot of the gateway's where the client stands, and of each the gateway's profile, status, read marker and unread flag there or at a later position already shown |
| BotListConvergence.CaughtUpListIsTheGateways | apps/bokkie-web/src/store.rs:1-20 | once every event of the log is heard, a settled Bot list is the gateway's, entry by entry |
| Strays.OthersStayAsTheyCame | apps/bokkie-web/src/store.rs:430-459 | after every run, a settled conversation holds of other Bots every message created or ended after its page's number and by where the client stood when it came, and none but what the events held then told of; each shows the log somewhere between those two positions, whatever was heard since |
| Strays.OthersFallBehind | apps/bokkie-web/src/store.rs:727-769 | such a message is the gateway's if the gateway's has not changed since the page came, and only if it has not changed after the last event held then |
| LiveClient.LiveAndHeardIsSynced | apps/bokkie-web/src/connection.rs:436-447 | in every run, once all updates of a live connection are heard, the application has heard a reload and stands at the connection's position |
| LiveClient.LiveConversationIsTheGateways | apps/bokkie-web/src/store.rs:1-20 | in every run, with the link live and its updates heard, a conversation that is not loading and did not fail has every message from its cursor on as the convergence theorem says, and as the gateway's once the connection is at the log's end |
| LiveClient.LiveListIsTheGateways | apps/bokkie-web/src/store.rs:576-683 | so it is of the Bot list, previews apart |
| Convergence.OneRequestPerSnapshot | apps/bokkie-web/src/app.rs:1246-1263 | in every run, at most one request of a session is on its way for each snapshot, and that snapshot is in flight |
| Convergence.LoadingIsInFlight | apps/bokkie-web/src/app.rs:1246-1263 | in every run, all the store counts as loading, and all that is to be loaded again, is in flight, and a request is on its way for each snapshot in flight |
| FirstRun.ARunSettles | apps/bokkie-web/src/store.rs:430-459 | a concrete run signs in, connects, loads, opens a conversation and ends live, settled and caught up, with what was said while its page was on its way; if another Bot said it, its message is in the wrong conversation |
| Convergence.EveryRunKeepsInv | apps/bokkie-web/src/app.rs:1246-1308 | the invariant of log, socket, application and requests holds after every run |
| Copies.DeltasFollowTheStream | apps/bokkie-web/src/store.rs:776-788 | a delta of the stream extends a prefix of it to exactly max(held, offset + length) of the stream, and one beyond the text held is refused |
| Copies.HeldMessageAfter | apps/bokkie-web/src/store.rs:727-788 | any event of the log, early, late or repeated, leaves a held message no older than it was; one of its own brings it to that event exactly, or asks for the page again |
| Copies.CreationIsShown | apps/bokkie-web/src/store.rs:735-747 | a creation leaves the message held or the one created, whichever is the newer |
| Copies.LoadedPageIsFaithful | apps/bokkie-web/src/store.rs:430-459 | a page labelled s that shows the log at p >= s, with every event since its request replayed, is a faithful copy at the client's position |
| Copies.ReplayIsExact | apps/bokkie-web/src/store.rs:727-770 | replaying gapless events onto a page that covers what changes asks for no reload and brings in no other Bot's message exactly if none of them concerns another Bot |
| Copies.CaughtUpCopyIsExact | apps/bokkie-web/src/store.rs:727-770 | a faithful copy that has caught up with all it was shown equals the log's messages there |
| Copies.JoinedPageIsFaithful | apps/bokkie-web/src/store.rs:466-521 | an older page joins a copy without changing a message held, and leaves it faithful from the page's cursor on |
| BotCopies.ReceivingAdvances | apps/bokkie-web/src/store.rs:576-699 | one event does to each entry of a client's list what it does to the gateway's, whatever it does to the previews |
| BotCopies.ReplayingKeepsRight | apps/bokkie-web/src/store.rs:410-427 | a list that shows the log at or after its number, with the events held since replayed, is right at the client's position |
| Previews.PageNotesItFirst | apps/bokkie-web/src/store.rs:668-673 | a concrete run of the store after which the list keeps an old preview and asks for no reload |
| Previews.EventShowsInPreview | apps/bokkie-web/src/store.rs:597-698 | after an event about a listed Bot's newest message, its preview shows that message's author, time and first 140 characters as the conversation on screen has them, or as the event tells them; an event about an older message leaves it |
| Previews.NotedIsNewest | apps/bokkie-web/src/store.rs:570-573 | the newest message noted of a Bot never goes back, is at least what an event creates or a page holds, and is one of these |
| Previews.ListKeepsNoted | apps/bokkie-web/src/store.rs:410-427 | a list loaded again forgets no newest message noted of a Bot still listed |
| Previews.WhenTheListIsAsked | apps/bokkie-web/src/store.rs:576-698 | an event asks for the list again if it is about a Bot not listed, or ends a reply that may be a Bot's newest message or not, and otherwise only if it is about a Bot not listed |
| Mixing.LoadingIsExactUnlessMixed | apps/bokkie-web/src/store.rs:430-459 | loading a page gives that Bot's messages alone and asks for no reload if and only if no event held after its number concerns another Bot |
| Mixing.AnotherBotsMessageGetsIn | apps/bokkie-web/src/store.rs:444-450 | a concrete run of the store that puts another Bot's message into a conversation |
| Mixing.AnotherBotsDeltaReloads | apps/bokkie-web/src/store.rs:444-450 | a concrete run in which another Bot's delta asks for the page again |
| Holding.HeldEventsAreEnough | apps/bokkie-web/src/store.rs:286-347 | over every sequence of store operations, every event applied since a loading snapshot was asked for is held, in order, unless it is stale; stale is within loading, at most MAX_HELD events are held, and none when nothing loads; a stale snapshot's page asks for it again |
| Holding.WhatLoads | apps/bokkie-web/src/store.rs:286-348 | a snapshot loads from when it is asked for or reported as to be loaded until its load ends, and one is reported only if it does not load already |
| Holding.HearingForgetsOnlyWhenFull | apps/bokkie-web/src/store.rs:524-547 | while something loads every event is held, and only when 5000 are held are they let go and all that loads stale |
| OlderPages.OlderPageMeetsItsAsker | apps/bokkie-web/src/store.rs:466-521 | over every run, an older page is merged only into the very copy and cursor it was asked for, in the same session, whatever closes, reopenings and reloads came between; it changes no message held and adds only earlier ones of its Bot, and every other copy keeps all it had |
| OlderPages.OlderPageOnlyAddsEarlier | apps/bokkie-web/src/store.rs:466-521 | an older page changes no message held and no other conversation; it is dropped, asked for again, or adds exactly its earlier messages of that Bot |
| OlderPages.AwaitedPageJoins | apps/bokkie-web/src/store.rs:466-521 | an older page of the log that the copy waits for joins it whole, with its cursor, and is not asked for again |
| OlderPages.OnlyTheCopyThatAsked | apps/bokkie-web/src/store.rs:324-347 | over every run, a copy that waits for an unanswered older page has been one copy of one page and cursor since the request was on its way, across closes, reopenings and reloads |
| Reloads.NoAskIsLost | apps/bokkie-web/src/app.rs:1246-1308 | in every run, a load of the list or of a newest page, asked for by an event, a reload, the user, or an arriving page or list itself, is sent at or after the ask, or remembered, unless its conversation closes or the session ends |
| Reloads.NextAnswerServes | apps/bokkie-web/src/app.rs:1305-1308 | the next answer to that snapshot's request sends the load asked for meanwhile, even if it failed |
| Reloads.GoingLiveRetriesFailures | apps/bokkie-web/src/app.rs:1909-1931 | when the link goes live, the list and the conversation on screen are asked for, or asked for again once they answer, exactly if their load had failed, and nothing else is |
| Reloads.NewestFailureShows | apps/bokkie-web/src/app.rs:1419-1454 | after an answer the conversation on screen shows that its load failed exactly if that answer failed and no load follows it, or it had failed before |
| Reloads.ListFailureShows | apps/bokkie-web/src/app.rs:1391-1418 | so does the list |
| Reloads.OlderFailureShows | apps/bokkie-web/src/app.rs:1455-1491 | after an answer to a request for an older page, that page shows that it failed exactly if the answer failed |
| Searches.PressingAsks | apps/bokkie-web/src/app.rs:2563-2570 | a press of "load older" asks for the page before the oldest message, also after one failed |
| Searches.SearchingAsks | apps/bokkie-web/src/app.rs:1792-1840 | a search for a message not held asks for an earlier page, unless one is in flight or failed, and ends at once only if there is none |
| Searches.TwentyPagesAtMost | apps/bokkie-web/src/app.rs:1817-1839 | each page a search asks for counts, and after twenty, or at the conversation's beginning, it ends |
| Searches.ASearchGoesOn | apps/bokkie-web/src/app.rs:1803-1831 | in every run, while the message looked for is not held, there are earlier pages, and the next one's request is on its way or failed |
| ClientStore.Store.Apply | apps/bokkie-web/src/store.rs:524-547 | one event changes the store exactly as the model's operation, in place |
| ClientStore.Store.LoadMessages | apps/bokkie-web/src/store.rs:430-459 | the loop over held events leaves exactly the replayed page, and asks for the reloads the model asks for |
| ClientStore.Store.LoadOlder | apps/bokkie-web/src/store.rs:466-521 | the loop over held events merges, drops or asks again exactly as the model does |
| ClientStore.Store.LoadBots | apps/bokkie-web/src/store.rs:410-427 | the list with the held events replayed, in place |
| Application.App.LoadAll | apps/bokkie-web/src/app.rs:1246-1269 | loading snapshots one by one is loading them together: those in flight are remembered, the others sent |
| Application.App.ReplyMessages | apps/bokkie-web/src/app.rs:1419-1454 | the reply's effect on the store, on what is in flight and on what is sent again |
| Application.App.HearSocket | apps/bokkie-web/src/app.rs:1868-1920 | each socket update's effect and the requests it sends |
| ClientConnection.Connection.Handle | apps/bokkie-web/src/connection.rs:239-262 | the connection's state and commands for every input |
| Driver.EventDriver.Handle | apps/bokkie-web/src/socket.rs:131-175 | the loop over commands splits them into what the transport does and what the application hears, each in order |
| Delivery.EveryRunDeliversInOrder | apps/bokkie-web/src/connection.rs:404-463 | against any server, each event after a known position is passed on exactly once and in order unless a reload announces a new position; and a live connection has posted a reload, which is what asks for its snapshots |
| Delivery.OneInputDelivers | apps/bokkie-web/src/connection.rs:285-463 | one input passes on at most the next event, or one reload at an announced position, and moves the position only so |
| Delivery.ResumesFromItsPosition | apps/bokkie-web/src/connection.rs:330-334 | every resume names the connection's position |
| Upkeep.ARetryIsAlwaysDue | apps/bokkie-web/src/connection.rs:376-402 | over every run, one retry timer runs while the connection backs off, not taken back, for 250 ms doubled with each socket lost in a row and 8 s at most, and none otherwise; a socket is dialled or open exactly while the connection wants one |
| Upkeep.WhenASocketIsLost | apps/bokkie-web/src/connection.rs:322-402 | in every run, a socket is given up for another exactly if it closed, showed a gap, sent what cannot be read or let the newest ping's deadline pass with nothing heard; three refusals since it was last live, or three unreadable frames with no event between, mean an outdated page |
| Upkeep.WhenItDials | apps/bokkie-web/src/connection.rs:285-309 | without a socket, one is dialled exactly when the connection starts, its retry is due or the page shows again; an ended session stays ended |
| Upkeep.ShownAgainPings | apps/bokkie-web/src/connection.rs:311-321 | a live page shown again sends a ping of a new number, with five seconds to be answered |
| Upkeep.SessionIsHeardOf | apps/bokkie-web/src/connection.rs:338-344 | the application hears that its session ended exactly when the connection learns it, and is asked to check it exactly when a socket fails before it opened |
| Upkeep.LinkIsAsTold | apps/bokkie-web/src/socket.rs:152-171 | in every run, the link's state last told is the connection's, and "reconnecting" exactly once it has been live |
| Upkeep.SayingIsSent | apps/bokkie-web/src/socket.rs:131-151 | the transport sends each statement of what is shown, and sets a timer of half a minute exactly for each renewal counted |
| EventLogModel.LogIntegrity | crates/bokkie-gateway/src/events.rs:101-211 | over every interleaving of batches, failures, prunes and restarts, the stored numbers are one gapless run ending at the last event committed, the cached number is right whenever the lock is free, and a process broadcasts its committed events once each, in log order |
| EventLogModel.NextNumberIsNext | crates/bokkie-gateway/src/events.rs:143-164 | no number is skipped, repeated or spent on an event rolled back |
| EventLogModel.LatestIsLast | crates/bokkie-gateway/src/events.rs:36-43 | the newest number survives prunes and restarts |
| EventLogModel.RetentionBound | crates/bokkie-gateway/src/events.rs:199-208 | a log keeps at least min(h, retention) events, and fewer than retention + 256 once the newest prune due has run |
| EventLogModel.WhenAPruneIsDue | crates/bokkie-gateway/src/events.rs:199-204 | a batch asks for a prune exactly if it passed a multiple of 256 and the log may hold more than it keeps; it lets all but the newest go |
| EventLogs.EventLog.Finish | crates/bokkie-gateway/src/events.rs:179-211 | a commit stores and broadcasts every pending event in order, or nothing |
| EventLogs.EventLog.Append | crates/bokkie-gateway/src/events.rs:298-319 | one event is stored under the number after the newest and broadcast, or neither happens, and the log's invariant is kept |
| EventLogs.EventLog.Earliest | crates/bokkie-gateway/src/events.rs:321-331 | the least number stored, or none exactly if nothing is |
| EventLogs.EventLog.ReadSince | crates/bokkie-gateway/src/events.rs:330-352 | up to so many stored events after a number, by number |
| Serving.SubscribeThenRead | crates/bokkie-gateway/src/events.rs:330-356 | for any limit, what is read and what is broadcast since subscribing hold every event kept after the reader's position, as far as the read got and from the first broadcast on, with no gap if the limit did not cut the read short of it; each is the log's own |
| Serving.ReplayLeadsToLatest | crates/bokkie-gateway/src/routes/events.rs:114-146 | the pages of a replay are consecutive events up to the newest, or end in a reset, whatever is pruned between reads |
| Serving.ServingKeepsTheClientLive | crates/bokkie-gateway/src/routes/events.rs:98-176 | a client that resumes goes live on the frames sent and follows every broadcast; it never resyncs, the gateway never closes for a hole, and each frame is truthful |
| Serving.ReloadsOnlyWhatIsGone | crates/bokkie-gateway/src/routes/events.rs:105-145 | a client whose missed events stay stored while it is served gets exactly these and is not told to reload; it is told to at once if some were pruned when the socket looked, or it is ahead of the log |
| LimiterRuns.EveryWindowIsLimited | crates/bokkie-gateway/src/auth.rs:354-429 | over every run of attempts, successes, evictions and restarts, no fifteen minutes hold more attempts of a key than its limit, of those not removed |
| LimiterRuns.GrantedExactlyBelowLimit | crates/bokkie-gateway/src/auth.rs:354-371 | an attempt is granted if and only if each of its keys counts fewer attempts in the window than its limit |
| LimiterRuns.MemoryIsBounded | crates/bokkie-gateway/src/auth.rs:372-386 | a granted attempt leaves at most MAX_KEYS keys |
| LimiterCounts.SuccessTakesBack | crates/bokkie-gateway/src/auth.rs:406-429 | a success forgets every failure of its own account or user, takes back one attempt of its address, its own, and changes no other count |
| LimiterCounts.FailuresStayCounted | crates/bokkie-gateway/src/auth.rs:354-429 | over every run of attempts, successes, evictions and restarts, what a name counts inside the window is what was granted under it and neither succeeded nor was forgotten |
| LimiterCounts.SpellingsShareAKey | crates/bokkie-gateway/src/auth.rs:295 | two user names share a key if and only if they are the same but for the case of Latin letters and blanks around them |
| LimiterCounts.TableIsPruned | crates/bokkie-gateway/src/auth.rs:202-219 | a granted attempt leaves in the table only times inside the window |
| LimiterRestarts.RestartIsTransparent | crates/bokkie-gateway/src/auth.rs:320-344 | after every run, and with room for three keys more: a limiter rebuilt from the table grants exactly the attempts on stored keys that the running one would, in every run that goes on with room for its keys, sign-ins to unknown accounts among it, if and only if no unstored key was counted in the window |
| LimiterRestarts.RestartAnswersAlike | crates/bokkie-gateway/src/auth.rs:320-344 | as long as the run that goes on names no unstored account counted in the window, every attempt is answered alike, on keys stored or not |
| LimiterRestarts.AnUnknownAccountShows | crates/bokkie-gateway/src/auth.rs:242-251 | one failed sign-in to an account nobody has is enough for a restart to show |
| LimiterJournal.TryingAgrees | crates/bokkie-gateway/src/auth.rs:202-240 | an attempt's journal keeps table and memory in agreement on every time inside the window |
| LimiterJournal.SucceedingAgrees | crates/bokkie-gateway/src/auth.rs:409-429 | so does a success's |
| Limiter.LoginLimiter.Begin | crates/bokkie-gateway/src/auth.rs:354-404 | the popping, eviction and counting loops leave exactly the model's counts and journal |
| Limiter.LoginLimiter.MakeRoom | crates/bokkie-gateway/src/auth.rs:372-386 | the eviction loop ends, each key it removes being the oldest left while there is no room |
| Limiter.LoginLimiter.Succeeded | crates/bokkie-gateway/src/auth.rs:409-429 | a success takes back exactly what the model takes back |
| Windows.LimitedExactlyWhenSpaced | crates/bokkie-gateway/src/auth.rs:354-371 | no window holds more than the limit if and only if every limit + 1 times in a row span one |
| UsageModel.EveryDayIsLimited | crates/bokkie-gateway/src/usage.rs:27-61 | in every run, no 24 hours hold more turns than the daily limit, of those not released |
| Allowances.ReservedExactlyWithinLimits | crates/bokkie-gateway/src/usage.rs:27-50 | in every run of turns, releases, reports and prunes, a turn is reserved if and only if the Bot is the user's, fewer turns than the daily limit lie in the 24 hours up to now, and the tokens recorded in the 7 days up to now total less than the weekly limit |
| UsageModel.PruningChangesNoAllowance | crates/bokkie-gateway/src/usage.rs:177-188 | pruning changes no allowance, then or later |
| UsageModel.RolledOverIsExact | crates/bokkie-gateway/src/usage.rs:154-174 | a check reports exactly the users whose usage counts less than at the last check |
| Rollovers.TurnReportedExactlyOnce | crates/bokkie-gateway/src/usage.rs:154-187 | over every run of turns, releases, reports and passes, some failing and others going on between their check and their prune: a turn not released is stored exactly until a completed pass starts after it left its window, and exactly one completed pass announces its user for it |
| Rollovers.GrowthReportedExactlyOnce | crates/bokkie-gateway/src/usage.rs:154-187 | so is every row of token growth, with the week as its window |
| Rollovers.WhatIsCountedWaits | crates/bokkie-gateway/src/bots/service.rs:1411-1428 | both hold of every row from the moment it is counted, and of all a new process still counts |
| UsageModel.RecordedIsTheTotal | crates/bokkie-gateway/src/usage.rs:83-127 | a thread's recorded growth adds up to its last total if and only if its totals never fell, and otherwise to more |
| Usage.UsageTables.RollOver | crates/bokkie-gateway/src/bots/service.rs:1436-1463 | a pass announces those users, then prunes unless it fails, and no later allowance changes |
| Usage.RolloverTask.Tick | crates/bokkie-gateway/src/bots/service.rs:1411-1428 | one turn of the loop is a check and its end; a pass that failed is tried again from the same start |
| Viewing.ShownExactlyWhileShowing | crates/bokkie-gateway/src/presence.rs:57-62 | at every moment, with renewals late by less than the expiry leaves: unless another open connection says so, the gateway shows exactly the Bot that a live connection shows, if the Bot is the user's, and none while the connection is not live or its entry is taken back |
| Viewing.EndedShowsNothing | crates/bokkie-gateway/src/presence.rs:131-135 | once the gateway has noticed the end of every connection of the user's, it shows none of the user's Bots |
| Viewing.OneRenewalCounts | apps/bokkie-web/src/connection.rs:264-283 | in every run exactly one running timer counts while a live page shows a Bot, and none otherwise |
| Viewing.InputSays | apps/bokkie-web/src/connection.rs:239-333 | after every input a live connection has told exactly what it shows |
| Viewing.SilenceLapses | crates/bokkie-gateway/src/presence.rs:87-115 | a Bot that no connection has said for as long as the expiry is not shown |
| PresenceModel.Presence.IsShownNow | crates/bokkie-gateway/src/presence.rs:55-60 | whether any connection of the user shows the Bot and has not lapsed, by a loop over them |
| PresenceModel.Presence.Set | crates/bokkie-gateway/src/presence.rs:92-115 | a statement replaces or takes back the connection's own, in the nested maps |
| PresenceModel.Presence.Drop | crates/bokkie-gateway/src/presence.rs:131-135 | a connection that ends leaves no entry of its own, and every other entry as it was |
| Correlation.AnswersAreOnesOwn | crates/bokkie-codex/src/client.rs:147-164 | a request is answered only by the first line that carries its own id since it was registered, with that line's result, or its error |
| Correlation.AnswersAreNotShared | crates/bokkie-codex/src/client.rs:147-164 | over every run, no two requests are answered by one line |
| Correlation.ResolvesAtMostOnce | crates/bokkie-codex/src/client.rs:147-164 | a request that has ended stays as it ended |
| Correlation.EntriesAreTheUnanswered | crates/bokkie-codex/src/client.rs:68-79 | while open, the entries are exactly the requests still to be answered |
| Correlation.ClosingFailsTheRest | crates/bokkie-codex/src/client.rs:281-351 | once either loop has ended, every request not yet under way to its answer, and every later one, can only fail, and can do so at once |
| CodexClient.Client.Poll | crates/bokkie-codex/src/client.rs:147-164 | a waiting request ends exactly if its answer is there or its sender is gone, with that answer or as closed |
| CodexClient.Client.Dispatch | crates/bokkie-codex/src/client.rs:353-424 | a line's answer goes to the request that waits for it |
| Chunked.DecodingUndoesEncoding | crates/bokkie-e2e/src/main.rs:119-135 | for every list of non-empty chunks, their sizes spelled in any hexadecimal digits, decoding the encoded body gives their concatenation, whatever bytes they hold |
| Chunked.SizeLineReads | crates/bokkie-e2e/src/main.rs:122-124 | a line's size is read if and only if the line is hexadecimal digits of either case, signed with a plus or not, amid white space, and is then the number they spell |
| Chunked.EveryDataIsSent | crates/bokkie-e2e/src/main.rs:119-135 | every list of non-empty pieces of data has an encoding, and decoding it gives the pieces joined |
| Chunked.CutShortIsAPrefix | crates/bokkie-e2e/src/main.rs:119-135 | a body cut short anywhere decodes to the beginning of its data |
| Chunked.DechunkBody | crates/bokkie-e2e/src/main.rs:119-135 | on any bytes the loop ends, with the specified output, no longer than its input |
| CivilDate.CivilIsTheCalendar | crates/bokkie-mock-model/src/chatgpt.rs:282-292 | for every day count, the closed form is the valid Gregorian date counted day by day from 1 January 1970 |
| CivilDate.CivilUndone | crates/bokkie-mock-model/src/chatgpt.rs:282-292 | the date's day number is the count it came from |
| CivilDate.TextReadsBack | crates/bokkie-mock-model/src/chatgpt.rs:279-294 | the text of section 5.6 of RFC 3339 reads back to the same second if and only if its year is from 0 to 9999 |

## Left out

- Routines: a routine list has its own number, but `routine_changed` and `routine_deleted`
  (apps/bokkie-web/src/store.rs:389-407) have none, and a list still on its first load is not
  loaded again by a reload. While one loads, the source holds events too, so it may hold more
  and earlier ones than the model, which a page skips by number, and overflow sooner.
- Error notices, the usage meter and account updates in the store: each replaces a value whole.
- BotListConvergence.SettledListConverges: says nothing of a Bot's latest-message preview,
  which need not become the gateway's: the deltas of a closed conversation do not reach it,
  and a message that a page showed before its event is heard is not shown by that event
  (`Previews.PageNotesItFirst`). `Previews.EventShowsInPreview` says what each event does to it.
- Convergence.CaughtUpConversationIsTheGateways: of a message that has grown by a delta since
  it was created and has not ended, it says nothing of the time stamp, because a delta does
  not carry the new one; the source keeps the one it had.
- What changed on screen (`Applied::changed`), sorting, presentation, notifications and
  every action but opening, closing, refreshing, searching and loading more.
- The application's `Back`, `Refresh` and `RefreshBots` are on values only, in `AppModel`;
  the class `App` carries out the others in place.
- A message page is a map by id: the order of its array is not modelled.
- The event route's JSON, cookies and session recheck, and a broadcast receiver that lags:
  the route closes the socket, which to the client is one more reset.
- SQL, transactions, tasks and locks as such: a table is a map, a commit one step that
  succeeds or fails, a lock the state machine's own batch.
- Serving.ServingKeepsTheClientLive: reads the log as often as the replay needs; it does
  not bound how long a replay takes.
- Liveness of the network, of timers and of the scheduler: the claims are about what holds
  when a copy is settled, not about when that is.
- LimiterRestarts.RestartIsTransparent: of a journal that was drained without failures
  before the restart; a write that failed leaves the table behind the memory, as the source
  says. Where memory is full, evictions make the two limiters differ, and it says nothing.
- The limiter's keys are constructors rather than prefixed strings, and the setting that
  says which keys are stored is fixed over a run.
- The buckets, staleness and merging of usage meters, and the subscription cache.
- A turn's id is one past the greatest stored, so one that was pruned may be given again.
- Viewing.ShownExactlyWhileShowing: a frame reaches the gateway at once, so delay on the
  way counts against the lateness allowed; and a Bot stays the user's own over a run. While
  the gateway has not noticed the end of a socket, that connection counts as another that
  is open: its entry stays until it lapses or the end is noticed.
- Rollovers.TurnReportedExactlyOnce: in one process; usage that left its window while none
  ran is pruned unannounced, as in the source. A pass that fails after announcing announces
  again when it is tried again.
- Correlation.ClosingFailsTheRest: requests can fail at once; it does not say that a task
  is scheduled to do so.
- Chunk extensions and trailers are not decoded by the source either: such a body ends
  where its size line cannot be read.
- Leap seconds: RFC 3339 allows them, the source never writes one.
- Wrap-around of u32, u64 and i64 counters, and arithmetic past their range.
