/**
 The gateway's end of the event socket: it subscribes, then views the log, then passes
 on what is broadcast, while batches, prunes and readers go on beside it. What it sends
 takes a client from where it resumes to live, without a gap.
 */
module Serving {
  import opened Protocol
  import opened ConnectionModel
  import opened Delivery
  import opened EventLogModel

  /** How many events one read of the log takes. */
  const REPLAY_PAGE: nat := 500

  // ---------------------------------------------------------------------
  // Reading a log that goes on

  predicate NoRestart(steps: seq<LogStep>) {
    forall i :: 0 <= i < |steps| ==> !steps[i].ProcessRestart?
  }

  /** The second state is a later one of the same process. */
  ghost predicate Later(s: LogState, t: LogState) {
    exists steps :: NoRestart(steps) && Leads(s, steps, t)
  }

  /** What stays, and what only grows, while the process runs. */
  ghost predicate Grows(s: LogState, t: LogState) {
    && LogInv(s) && LogInv(t)
    && s.history.committed <= t.history.committed
    && s.history.started == t.history.started
    && s.live <= t.live
    && s.history.low <= t.history.low
  }

  lemma {:induction false} StepsGrow(s: LogState, steps: seq<LogStep>, t: LogState)
    requires LogInv(s) && NoRestart(steps) && Leads(s, steps, t)
    ensures Grows(s, t)
    decreases |steps|
  {
    if steps != [] {
      assert !steps[0].ProcessRestart?;
      StepKeepsLogInv(s, steps[0]);
      assert Grows(s, Do(s, steps[0]));
      assert NoRestart(steps[1..]);
      StepsGrow(Do(s, steps[0]), steps[1..], t);
    }
  }

  lemma LaterGrows(s: LogState, t: LogState)
    requires LogInv(s) && Later(s, t)
    ensures Grows(s, t)
  {
    var steps :| NoRestart(steps) && Leads(s, steps, t);
    StepsGrow(s, steps, t);
  }

  /** Up to `limit` events of the log after a position. */
  function Stretch(log: seq<Event>, from: nat, limit: nat): seq<Envelope>
    decreases limit
  {
    if from >= |log| || limit == 0 then [] else [Envelope(from + 1, log[from])] + Stretch(log, from + 1, limit - 1)
  }

  lemma {:induction false} StretchIs(log: seq<Event>, from: nat, limit: nat, end: nat)
    requires from <= end <= |log| && (end == from + limit || (end == |log| && end <= from + limit))
    ensures Stretch(log, from, limit) == Numbered(log, from, end)
    decreases limit
  {
    if from < end {
      StretchIs(log, from + 1, limit - 1, end);
      assert Numbered(log, from, end) == [Envelope(from + 1, log[from])] + Numbered(log, from + 1, end);
    }
  }

  /** A read returns the log's own events after a number, from the oldest kept on. */
  lemma {:induction false} SinceReads(rows: map<Seq, Event>, log: seq<Event>, low: nat, after: Seq, limit: nat)
    requires RowsAre(rows, log, low)
    ensures Since(rows, after, limit) == Stretch(log, Max(after, low), limit)
    decreases limit
  {
    var from: nat := Max(after, low);
    if from >= |log| {
      assert forall n: Seq :: n in rows ==> !IsNext(rows, after, n);
    } else if limit > 0 {
      NextOfRun(rows, log, low, after);
      SinceReads(rows, log, low, from + 1, limit - 1);
    }
  }

  lemma NextOfRun(rows: map<Seq, Event>, log: seq<Event>, low: nat, after: Seq)
    requires RowsAre(rows, log, low) && Max(after, low) < |log|
    ensures IsNext(rows, after, Max(after, low) + 1)
    ensures forall n: Seq :: IsNext(rows, after, n) ==> n == Max(after, low) + 1
  {
  }

  /**
   Subscribe, then read: whatever happens in between and after, what is read and what is
   broadcast since hold every event after the reader's position that was still kept when
   it read, as far as the read got and from the first broadcast on; so without a gap up to
   the newest broadcast if the read was not cut short, or was cut at or after the first
   broadcast. Each is the log's own, and both parts are consecutive, so an event heard
   twice shows by its number.
   */
  lemma SubscribeThenRead(subscribed: LogState, read: LogState, now: LogState, after: Seq, limit: nat, n: Seq)
    requires LogInv(subscribed) && Later(subscribed, read) && Later(read, now)
    ensures |subscribed.live| <= |now.live| && |now.history.committed| >= now.history.started + |now.live|
    ensures var page, heard := Since(read.rows, after, limit), now.live[|subscribed.live|..];
            var kept, first := Max(after, read.history.low), now.history.started + |subscribed.live|;
            && LogsOwn(now.history.committed, page + heard) && Consecutive(page) && Consecutive(heard)
            && (kept < n <= now.history.started + |now.live| && (n <= kept + |page| || n > first) ==>
                  Envelope(n, now.history.committed[n - 1]) in page + heard)
            && (|page| < limit ==> first <= kept + |page|)
    ensures now.batch.None? ==> now.history.started + |now.live| == |now.history.committed|
  {
    hide LogInv, Later, Since, Consecutive, LogsOwn;
    var h, from, to := ReadAndHeard(subscribed, read, now, after, limit);
    RunsJoin(now.history.committed, Max(after, read.history.low), h, from, to, n);
  }

  ghost predicate LogsOwn(log: seq<Event>, envelopes: seq<Envelope>) {
    forall e :: e in envelopes ==> 0 < e.number <= |log| && e.event == log[e.number - 1]
  }

  ghost predicate Consecutive(envelopes: seq<Envelope>) {
    forall i, j :: 0 <= i < j < |envelopes| ==> envelopes[j].number - envelopes[i].number == j - i
  }

  function Page(log: seq<Event>, kept: nat, h: nat): seq<Envelope>
    requires h <= |log|
  {
    if kept >= h then [] else Numbered(log, kept, h)
  }

  /** Where the events read end, and where those heard begin and end. */
  lemma ReadAndHeard(subscribed: LogState, read: LogState, now: LogState, after: Seq, limit: nat)
    returns (h: nat, from: nat, to: nat)
    requires LogInv(subscribed) && Later(subscribed, read) && Later(read, now)
    ensures from <= to <= |now.history.committed| && h <= |now.history.committed|
    ensures from == now.history.started + |subscribed.live| && to == now.history.started + |now.live|
    ensures |subscribed.live| <= |now.live|
    ensures Since(read.rows, after, limit) == Page(now.history.committed, Max(after, read.history.low), h)
    ensures h < Max(after, read.history.low) + limit ==> from <= h
    ensures now.live[|subscribed.live|..] == Numbered(now.history.committed, from, to)
    ensures now.batch.None? ==> to == |now.history.committed|
  {
    LaterGrows(subscribed, read);
    LaterGrows(read, now);
    HeardSince(subscribed, now);
    BroadcastsAre(subscribed);
    h := EndOfRead(read, now.history.committed, after, limit);
    from, to := now.history.started + |subscribed.live|, now.history.started + |now.live|;
  }

  /** What is broadcast after subscribing is the log's events from there on. */
  lemma HeardSince(subscribed: LogState, now: LogState)
    requires Grows(subscribed, now)
    ensures var from, to := now.history.started + |subscribed.live|, now.history.started + |now.live|;
            && from <= to <= |now.history.committed|
            && now.live[|subscribed.live|..] == Numbered(now.history.committed, from, to)
            && (now.batch.None? ==> to == |now.history.committed|)
  {
    BroadcastsAre(now);
  }

  /** A read ends where its limit cuts it, or at the log's end. */
  lemma EndOfRead(read: LogState, log: seq<Event>, after: Seq, limit: nat) returns (h: nat)
    requires LogInv(read) && read.history.committed <= log
    ensures h <= |log| && h == Min(Max(after, read.history.low) + limit, |read.history.committed|)
    ensures Since(read.rows, after, limit) == Page(log, Max(after, read.history.low), h)
  {
    var kept: nat := Max(after, read.history.low);
    h := Min(kept + limit, |read.history.committed|);
    SinceReads(read.rows, read.history.committed, read.history.low, after, limit);
    if kept < h {
      StretchIs(read.history.committed, kept, limit, h);
      NumberedPrefix(read.history.committed, log, kept, h);
    }
  }

  /** Two runs of the log hold everything in the first and from the second's start on. */
  lemma RunsJoin(log: seq<Event>, kept: nat, h: nat, from: nat, to: nat, n: Seq)
    requires h <= |log| && from <= to <= |log|
    ensures var page, heard := Page(log, kept, h), Numbered(log, from, to);
            && LogsOwn(log, page + heard) && Consecutive(page) && Consecutive(heard)
            && |page| == (if kept < h then h - kept else 0)
            && (kept < n <= to && (n <= h || n > from) ==> Envelope(n, log[n - 1]) in page + heard)
  {
    if kept < h {
      NumberedAre(log, kept, h);
    }
    NumberedAre(log, from, to);
    if kept < n <= to {
      if n <= h {
        NumberedHolds(log, kept, h, n);
      } else if n > from {
        NumberedHolds(log, from, to, n);
      }
    }
  }

  lemma NumberedAre(log: seq<Event>, from: nat, to: nat)
    requires from <= to <= |log|
    ensures LogsOwn(log, Numbered(log, from, to))
  {
  }

  lemma NumberedHolds(log: seq<Event>, from: nat, to: nat, n: Seq)
    requires from < n <= to <= |log|
    ensures Envelope(n, log[n - 1]) in Numbered(log, from, to)
  {
    assert Numbered(log, from, to)[n - from - 1] == Envelope(n, log[n - 1]);
  }

  /** What was broadcast is the log's events since the process started, as far as it got. */
  lemma BroadcastsAre(s: LogState)
    requires LogInv(s)
    ensures var h := s.history;
            && h.started + |s.live| <= |h.committed|
            && s.live == Numbered(h.committed, h.started, h.started + |s.live|)
            && (s.batch.None? || s.batch.value.Open? ==> h.started + |s.live| == |h.committed|)
  {
    var h := s.history;
    assert s.live == Numbered(h.committed, h.started, |h.committed|)[..|s.live|];
  }

  // ---------------------------------------------------------------------
  // The frames sent

  function EventFrames(envelopes: seq<Envelope>): seq<ServerFrame> {
    seq(|envelopes|, i requires 0 <= i < |envelopes| => EventFrame(envelopes[i]))
  }

  /** The events of a page up to the number that was the newest. */
  function UpTo(page: seq<Envelope>, latest: Seq): seq<Envelope> {
    if page == [] || page[0].number > latest then [] else [page[0]] + UpTo(page[1..], latest)
  }

  /** Reads the log page by page, each from the state it is in by then. */
  ghost function Replay(views: seq<LogState>, sent: Seq, latest: Seq): seq<ServerFrame>
    decreases |views|
  {
    if sent >= latest || views == [] then []
    else
      var page := Since(views[0].rows, sent, REPLAY_PAGE);
      if page == [] then []
      else if page[0].number != sent + 1 then [Reset(latest)]
      else
        var last := page[|page| - 1].number;
        EventFrames(UpTo(page, latest)) + Replay(views[1..], Min(last, latest), latest)
  }

  function Newest(s: LogState): Seq
    requires s.last.Some?
  {
    s.last.value
  }

  ghost predicate Keeps(rows: map<Seq, Event>, from: Seq) {
    exists n :: n in rows && n <= from
  }

  /** The frames before and up to live, for a client that resumes after `after`. */
  ghost function Greeting(after: Option<Seq>, latest: Seq, checked: LogState, views: seq<LogState>)
    : seq<ServerFrame>
  {
    if after.None? then [Live(latest)]
    else if after.value > latest || (after.value < latest && !Keeps(checked.rows, after.value + 1))
    then [Reset(latest), Live(latest)]
    else Replay(views, after.value, latest) + [Live(latest)]
  }

  /** Passing on broadcasts: what was replayed is skipped, and a hole closes the socket. */
  datatype Followed = Followed(frames: seq<ServerFrame>, open: bool)

  function Follow(heard: seq<Envelope>, sent: Seq): Followed {
    if heard == [] then Followed([], true)
    else if heard[0].number <= sent then Follow(heard[1..], sent)
    else if heard[0].number != sent + 1 then Followed([], false)
    else
      var rest := Follow(heard[1..], heard[0].number);
      Followed([EventFrame(heard[0])] + rest.frames, rest.open)
  }

  // ---------------------------------------------------------------------
  // What the frames are

  lemma {:induction false} UpToOfRun(log: seq<Event>, from: nat, to: nat, latest: Seq)
    requires from <= to && to <= |log| && from <= latest
    ensures UpTo(Numbered(log, from, to), latest) == Numbered(log, from, Min(to, latest))
    decreases |log| - from
  {
    if from < to {
      assert Numbered(log, from, to)[1..] == Numbered(log, from + 1, to);
      if from < latest {
        UpToOfRun(log, from + 1, to, latest);
      }
    }
  }

  /** A log read while it holds at least its first `latest` events. */
  ghost predicate Shows(view: LogState, log: seq<Event>, latest: Seq) {
    && RowsAre(view.rows, view.history.committed, view.history.low)
    && latest <= |view.history.committed| && view.history.committed <= log
  }

  /** The events after a number up to the newest, or some of them and a reset to the newest. */
  ghost predicate LeadsTo(frames: seq<ServerFrame>, log: seq<Event>, sent: Seq, latest: Seq)
    requires sent <= latest <= |log|
  {
    || frames == EventFrames(Numbered(log, sent, latest))
    || exists m :: sent <= m < latest && frames == EventFrames(Numbered(log, sent, m)) + [Reset(latest)]
  }

  lemma {:induction false} ReplayLeadsToLatest(log: seq<Event>, views: seq<LogState>, sent: Seq, latest: Seq)
    requires sent <= latest <= |log| && latest - sent <= |views|
    requires forall i :: 0 <= i < |views| ==> Shows(views[i], log, latest)
    ensures LeadsTo(Replay(views, sent, latest), log, sent, latest)
    decreases |views|
  {
    if sent == latest {
      assert Numbered(log, sent, latest) == [];
    } else {
      var next := ReplayOnePage(log, views, sent, latest);
      if next > sent {
        ReplayLeadsToLatest(log, views[1..], next, latest);
        ReplayJoins(log, sent, next, latest, Replay(views[1..], next, latest));
      } else {
        assert Numbered(log, sent, sent) == [];
        assert Replay(views, sent, latest) == EventFrames(Numbered(log, sent, sent)) + [Reset(latest)];
      }
    }
  }

  /** One read sends the next events, or finds that they are gone and resets. */
  lemma {:induction false} ReplayOnePage(log: seq<Event>, views: seq<LogState>, sent: Seq, latest: Seq)
    returns (next: nat)
    requires sent < latest <= |log| && views != [] && Shows(views[0], log, latest)
    ensures sent <= next <= latest && (views[0].history.low <= sent ==> next > sent)
    ensures next == sent ==> Replay(views, sent, latest) == [Reset(latest)]
    ensures next > sent ==>
              Replay(views, sent, latest) == EventFrames(Numbered(log, sent, next)) + Replay(views[1..], next, latest)
  {
    hide Since, Replay, Shows;
    var from, end := PageRead(log, views[0], sent, latest);
    if from > sent {
      next := sent;
      ReplayResets(log, views, sent, latest, from, end);
    } else {
      next := if end < latest then end else latest;
      ReplaySends(log, views, sent, latest, end);
    }
  }

  lemma {:induction false} ReplayResets(log: seq<Event>, views: seq<LogState>, sent: Seq, latest: Seq, from: nat,
                                        end: nat)
    requires sent < latest && views != [] && sent < from < end <= |log|
    requires Since(views[0].rows, sent, REPLAY_PAGE) == Numbered(log, from, end)
    ensures Replay(views, sent, latest) == [Reset(latest)]
  {
    NumberedEnds(log, from, end);
    ReplayReads(views, sent, latest, Numbered(log, from, end));
  }

  lemma {:induction false} ReplaySends(log: seq<Event>, views: seq<LogState>, sent: Seq, latest: Seq, end: nat)
    requires sent < latest <= |log| && views != [] && sent < end <= |log|
    requires Since(views[0].rows, sent, REPLAY_PAGE) == Numbered(log, sent, end)
    ensures var next: nat := Min(end, latest);
            Replay(views, sent, latest) == EventFrames(Numbered(log, sent, next)) + Replay(views[1..], next, latest)
  {
    NumberedEnds(log, sent, end);
    UpToOfRun(log, sent, end, latest);
    ReplayReads(views, sent, latest, Numbered(log, sent, end));
  }

  lemma {:induction false} ReplayReads(views: seq<LogState>, sent: Seq, latest: Seq, page: seq<Envelope>)
    requires sent < latest && views != [] && page == Since(views[0].rows, sent, REPLAY_PAGE) && page != []
    ensures Replay(views, sent, latest)
         == if page[0].number != sent + 1 then [Reset(latest)]
            else EventFrames(UpTo(page, latest)) + Replay(views[1..], Min(page[|page| - 1].number, latest), latest)
  {
  }

  /** What one read gives: a stretch of the log from the number after, or from the oldest kept. */
  lemma PageRead(log: seq<Event>, view: LogState, sent: Seq, latest: Seq) returns (from: nat, end: nat)
    requires sent < latest <= |log| && Shows(view, log, latest)
    ensures sent <= from < end <= |log| && from == Max(sent, view.history.low)
    ensures Since(view.rows, sent, REPLAY_PAGE) == Numbered(log, from, end)
  {
    var part := view.history.committed;
    from := Max(sent, view.history.low);
    end := if from + REPLAY_PAGE < |part| then from + REPLAY_PAGE else |part|;
    SinceReads(view.rows, part, view.history.low, sent, REPLAY_PAGE);
    StretchIs(part, from, REPLAY_PAGE, end);
    NumberedPrefix(part, log, from, end);
  }

  lemma NumberedPrefix(part: seq<Event>, log: seq<Event>, from: nat, to: nat)
    requires part <= log && from <= to <= |part|
    ensures Numbered(part, from, to) == Numbered(log, from, to)
  {
  }

  lemma NumberedEnds(log: seq<Event>, from: nat, to: nat)
    requires from < to <= |log|
    ensures var page := Numbered(log, from, to);
            page != [] && page[0].number == from + 1 && page[|page| - 1].number == to
  {
  }

  lemma ReplayJoins(log: seq<Event>, sent: Seq, next: Seq, latest: Seq, rest: seq<ServerFrame>)
    requires sent <= next <= latest <= |log| && LeadsTo(rest, log, next, latest)
    ensures LeadsTo(EventFrames(Numbered(log, sent, next)) + rest, log, sent, latest)
  {
    if rest == EventFrames(Numbered(log, next, latest)) {
      assert EventFrames(Numbered(log, sent, latest)) == EventFrames(Numbered(log, sent, next)) + rest;
    } else {
      var m :| next <= m < latest && rest == EventFrames(Numbered(log, next, m)) + [Reset(latest)];
      assert EventFrames(Numbered(log, sent, m))
          == EventFrames(Numbered(log, sent, next)) + EventFrames(Numbered(log, next, m));
    }
  }

  /** What is broadcast is passed on from the number sent so far, and never closes the socket. */
  lemma {:induction false} FollowingPassesOn(log: seq<Event>, from: nat, to: nat, sent: Seq)
    requires from <= to <= |log| && from <= sent <= |log|
    ensures Follow(Numbered(log, from, to), sent)
         == Followed(EventFrames(Numbered(log, sent, Max(to, sent))), true)
    decreases |log| - from
  {
    var heard := Numbered(log, from, to);
    if from < to {
      assert heard[1..] == Numbered(log, from + 1, to);
      if from < sent {
        FollowingPassesOn(log, from + 1, to, sent);
      } else {
        FollowingPassesOn(log, from + 1, to, sent + 1);
        assert EventFrames(Numbered(log, sent, to))
            == [EventFrame(heard[0])] + EventFrames(Numbered(log, sent + 1, to));
      }
    }
  }

  // ---------------------------------------------------------------------
  // The client that hears them

  function Feed(c: ConnectionState, frames: seq<ServerFrame>): ConnectionState
    decreases |frames|
  {
    if frames == [] then c
    else Feed(c.Handle(Frame(frames[0])).state, frames[1..])
  }

  lemma {:induction false} FeedThen(c: ConnectionState, x: seq<ServerFrame>, y: seq<ServerFrame>)
    ensures Feed(c, x + y) == Feed(Feed(c, x), y)
    decreases |x|
  {
    if x == [] {
      assert x + y == y;
    } else {
      assert (x + y)[1..] == x[1..] + y;
      FeedThen(c.Handle(Frame(x[0])).state, x[1..], y);
    }
  }

  /** Consecutive events are taken in one by one. */
  lemma {:induction false} FeedingEvents(c: ConnectionState, log: seq<Event>, from: nat, to: nat)
    requires from <= to <= |log| && c.phase.Listening() && c.last == Some(from)
    ensures var after := Feed(c, EventFrames(Numbered(log, from, to)));
            && after.last == Some(to) && after.phase.Listening()
            && (c.phase.LivePhase? ==> after.phase.LivePhase?)
            && (!c.phase.LivePhase? ==> !after.phase.LivePhase?)
    decreases |log| - from
  {
    var frames := EventFrames(Numbered(log, from, to));
    if from < to {
      assert frames[1..] == EventFrames(Numbered(log, from + 1, to));
      assert frames[0] == EventFrame(Envelope(from + 1, log[from]));
      FeedingEvents(c.Handle(Frame(frames[0])).state, log, from + 1, to);
    }
  }

  /** The client's next frame is `live`, at its position or with none: it goes live there. */
  lemma FeedingLive(c: ConnectionState, latest: Seq)
    requires c.phase.Listening() && !c.phase.LivePhase? && (c.last.Some? ==> c.last.value >= latest)
    ensures Feed(c, [Live(latest)]).phase.LivePhase? && Feed(c, [Live(latest)]).last == Some(latest)
  {
    assert [Live(latest)][1..] == [];
  }

  lemma FeedingReset(c: ConnectionState, latest: Seq)
    requires c.phase.Listening() && !c.phase.LivePhase?
    ensures Feed(c, [Reset(latest), Live(latest)]).phase.LivePhase?
    ensures Feed(c, [Reset(latest), Live(latest)]).last == Some(latest)
  {
    var frames := [Reset(latest), Live(latest)];
    assert frames[1..] == [Live(latest)];
    FeedingLive(c.Handle(Frame(frames[0])).state, latest);
  }

  lemma FeedingReplay(c: ConnectionState, log: seq<Event>, frames: seq<ServerFrame>, sent: Seq, latest: Seq)
    requires sent <= latest <= |log| && LeadsTo(frames, log, sent, latest)
    requires c.phase.Listening() && !c.phase.LivePhase? && c.last == Some(sent)
    ensures Feed(c, frames + [Live(latest)]).phase.LivePhase?
    ensures Feed(c, frames + [Live(latest)]).last == Some(latest)
  {
    if frames == EventFrames(Numbered(log, sent, latest)) {
      FeedThen(c, frames, [Live(latest)]);
      FeedingEvents(c, log, sent, latest);
      FeedingLive(Feed(c, frames), latest);
    } else {
      var m :| sent <= m < latest && frames == EventFrames(Numbered(log, sent, m)) + [Reset(latest)];
      var events := EventFrames(Numbered(log, sent, m));
      assert frames + [Live(latest)] == events + [Reset(latest), Live(latest)];
      FeedThen(c, events, [Reset(latest), Live(latest)]);
      FeedingEvents(c, log, sent, m);
      FeedingReset(Feed(c, events), latest);
    }
  }

  /**
   A socket that serves a client: it subscribes, reads the newest number, reads the log
   in pages, and hears what was broadcast until now. Each moment is a later one of the
   same process. A replay reads at most as often as there are events.
   */
  ghost predicate Serves(subscribed: LogState, newest: LogState, views: seq<LogState>, now: LogState) {
    && LogInv(subscribed) && Later(subscribed, newest)
    && newest.batch.None? && newest.last.Some?
    && (forall i :: 0 <= i < |views| ==> Later(newest, views[i]) && Later(views[i], now))
    && Later(newest, now)
    && Newest(newest) <= |views|
  }

  /**
   From resuming to live and on: whatever the log does meanwhile, a client that resumes
   at its position goes live on the frames sent and follows every broadcast, with no hole
   for it to give up on and none for the gateway to close the socket for. Each frame is
   truthful.
   */
  lemma ServingKeepsTheClientLive(
    subscribed: LogState, newest: LogState, checked: LogState, views: seq<LogState>, now: LogState,
    c: ConnectionState)
    requires Serves(subscribed, newest, views, now)
    requires c.phase.Resuming?
    ensures |subscribed.live| <= |now.live|
    ensures var latest := Newest(newest);
            var followed := Follow(now.live[|subscribed.live|..], latest);
            var frames := Greeting(c.last, latest, checked, views) + followed.frames;
            && latest == |newest.history.committed| <= |now.history.committed|
            && followed.open
            && Feed(c, frames).phase.LivePhase?
            && Feed(c, frames).last == Some(Max(latest, now.history.started + |now.live|))
            && AllTruthful(now.history.committed, frames)
  {
    var latest, log := Newest(newest), now.history.committed;
    MomentsShow(subscribed, newest, views, now);
    var greeting := Greeting(c.last, latest, checked, views);
    GreetingGoesLive(latest, checked, views, log, c);
    var from, to := now.history.started + |subscribed.live|, now.history.started + |now.live|;
    var heard := now.live[|subscribed.live|..];
    FollowingPassesOn(log, from, to, latest);
    var followed := Follow(heard, latest);
    var end: nat := Max(to, latest);
    assert followed == Followed(EventFrames(Numbered(log, latest, end)), true);
    FeedThen(c, greeting, followed.frames);
    FeedingEvents(Feed(c, greeting), log, latest, end);
    RunsAreTruthful(log, latest, end);
  }

  /** What the moments of serving show of the log. */
  lemma MomentsShow(subscribed: LogState, newest: LogState, views: seq<LogState>, now: LogState)
    requires Serves(subscribed, newest, views, now)
    ensures var latest, log := Newest(newest), now.history.committed;
            && latest == |newest.history.committed| <= |log|
            && (forall i :: 0 <= i < |views| ==> Shows(views[i], log, latest))
            && |subscribed.live| <= |now.live|
            && now.history.started + |subscribed.live| <= latest
            && now.history.started + |now.live| <= |log|
            && now.live[|subscribed.live|..]
               == Numbered(log, now.history.started + |subscribed.live|, now.history.started + |now.live|)
  {
    LaterGrows(subscribed, newest);
    LaterGrows(newest, now);
    forall i | 0 <= i < |views|
      ensures Shows(views[i], now.history.committed, Newest(newest))
    {
      LaterGrows(newest, views[i]);
      LaterGrows(views[i], now);
    }
    BroadcastsAre(subscribed);
    BroadcastsAre(now);
  }

  lemma GreetingGoesLive(latest: Seq, checked: LogState, views: seq<LogState>, log: seq<Event>, c: ConnectionState)
    requires latest <= |log| && latest <= |views|
    requires forall i :: 0 <= i < |views| ==> Shows(views[i], log, latest)
    requires c.phase.Resuming?
    ensures var frames := Greeting(c.last, latest, checked, views);
            && Feed(c, frames).phase.LivePhase? && Feed(c, frames).last == Some(latest)
            && AllTruthful(log, frames)
  {
    if c.last.None? {
      FeedingLive(c, latest);
    } else if c.last.value > latest || (c.last.value < latest && !Keeps(checked.rows, c.last.value + 1)) {
      FeedingReset(c, latest);
    } else {
      ReplayLeadsToLatest(log, views, c.last.value, latest);
      var replay := Replay(views, c.last.value, latest);
      FeedingReplay(c, log, replay, c.last.value, latest);
      ReplayIsTruthful(log, replay, c.last.value, latest);
    }
  }

  ghost predicate AllTruthful(log: seq<Event>, frames: seq<ServerFrame>) {
    forall i :: 0 <= i < |frames| ==> Truthful(log, Frame(frames[i]))
  }

  lemma RunsAreTruthful(log: seq<Event>, from: nat, to: nat)
    requires from <= to <= |log|
    ensures AllTruthful(log, EventFrames(Numbered(log, from, to)))
  {
  }

  lemma ReplayIsTruthful(log: seq<Event>, frames: seq<ServerFrame>, sent: Seq, latest: Seq)
    requires sent <= latest <= |log| && LeadsTo(frames, log, sent, latest)
    ensures AllTruthful(log, frames)
  {
    if frames == EventFrames(Numbered(log, sent, latest)) {
      RunsAreTruthful(log, sent, latest);
    } else {
      var m :| sent <= m < latest && frames == EventFrames(Numbered(log, sent, m)) + [Reset(latest)];
      RunsAreTruthful(log, sent, m);
    }
  }

  // ---------------------------------------------------------------------
  // When a client must reload

  lemma {:induction false} ReplayOfKept(log: seq<Event>, views: seq<LogState>, sent: Seq, latest: Seq)
    requires sent <= latest <= |log| && latest - sent <= |views|
    requires forall i :: 0 <= i < |views| ==> Shows(views[i], log, latest) && views[i].history.low <= sent
    ensures Replay(views, sent, latest) == EventFrames(Numbered(log, sent, latest))
    decreases |views|
  {
    hide Since, Shows;
    if sent == latest {
      assert Numbered(log, sent, latest) == [];
    } else {
      var next := ReplayOnePage(log, views, sent, latest);
      ReplayOfKept(log, views[1..], next, latest);
      assert EventFrames(Numbered(log, sent, latest))
          == EventFrames(Numbered(log, sent, next)) + EventFrames(Numbered(log, next, latest));
    }
  }

  /** The events after this position were all stored, or there were none. */
  predicate StillKeeps(view: LogState, from: Seq) {
    view.history.low <= from
  }

  lemma KeepsIfLow(s: LogState, from: Seq)
    requires LogInv(s) && from < |s.history.committed|
    ensures Keeps(s.rows, from + 1) <==> StillKeeps(s, from)
  {
    if StillKeeps(s, from) {
      assert s.history.low + 1 in s.rows;
    }
  }

  /**
   A client whose missed events are all stored while it is served gets exactly these, and is
   not told to reload. It is told to, at once, if some of them were pruned when the socket
   looked, or if it is ahead of the log; and a client new to the log gets nothing to apply.
   */
  lemma ReloadsOnlyWhatIsGone(
    subscribed: LogState, newest: LogState, checked: LogState, views: seq<LogState>, now: LogState, after: Seq)
    requires Serves(subscribed, newest, views, now) && Later(newest, checked)
    ensures var latest := Newest(newest);
            && latest <= |now.history.committed|
            && Greeting(None, latest, checked, views) == [Live(latest)]
            && var frames := Greeting(Some(after), latest, checked, views);
               && (after <= latest && StillKeeps(checked, after)
                   && (forall i :: 0 <= i < |views| ==> StillKeeps(views[i], after)) ==>
                     frames == EventFrames(Numbered(now.history.committed, after, latest)) + [Live(latest)])
               && (after > latest || (after < latest && !StillKeeps(checked, after)) ==>
                     frames == [Reset(latest), Live(latest)])
  {
    var latest, log := Newest(newest), now.history.committed;
    MomentsShow(subscribed, newest, views, now);
    LaterGrows(subscribed, newest);
    LaterGrows(newest, checked);
    hide Shows, Replay, LogInv, Later;
    if after < latest {
      KeepsIfLow(checked, after);
    }
    if after <= latest && forall i :: 0 <= i < |views| ==> StillKeeps(views[i], after) {
      ReplayOfKept(log, views, after, latest);
    }
  }
}
