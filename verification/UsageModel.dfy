/**
 Each user's allowance: the turns and the token growth recorded, as tables. `Usage`
 changes the tables in place.
 */
module UsageModel {
  import opened Protocol
  import opened Windows

  const DAY: nat := 86_400_000
  const TURN_WINDOW: nat := DAY
  const TOKEN_WINDOW: nat := 7 * DAY

  datatype Turn = Turn(id: nat, user: int, bot: int, at: int)
  datatype Growth = Growth(user: int, bot: int, at: int, tokens: nat, turn: Option<string>)
  datatype Thread = Thread(bot: int, reported: nat)
  datatype Limits = Limits(dailyTurns: Option<nat>, weeklyTokens: Option<nat>)
  datatype Allowance = Allowance(turnsToday: nat, tokensThisWeek: nat, exhausted: bool)

  /** A thread's report of the tokens it has used in all. */
  datatype Report = Report(at: int, user: int, bot: int, thread: string, turn: Option<string>, total: nat)

  datatype Reservation = Reserved(id: nat) | NoneLeft | NotFound

  function TurnTimes(turns: seq<Turn>, user: int): seq<int> {
    if turns == [] then []
    else
      var front, last := TurnTimes(turns[..|turns| - 1], user), turns[|turns| - 1];
      if last.user == user then front + [last.at] else front
  }

  function CountAfter(times: seq<int>, bound: int): nat {
    if times == [] then 0
    else CountAfter(times[..|times| - 1], bound) + if times[|times| - 1] > bound then 1 else 0
  }

  function TokensAfter(tokens: seq<Growth>, user: int, bound: int): nat {
    if tokens == [] then 0
    else
      var last := tokens[|tokens| - 1];
      TokensAfter(tokens[..|tokens| - 1], user, bound) + if last.user == user && last.at > bound then last.tokens else 0
  }

  function NextId(turns: seq<Turn>): nat {
    if turns == [] then 1 else turns[|turns| - 1].id + 1
  }

  /** Rows are in the order of their ids; a row's id is one past the greatest in use. */
  datatype UsageState = UsageState(
    turns: seq<Turn>,
    tokens: seq<Growth>,
    threads: map<(int, string), Thread>,
    bots: set<(int, int)>,
    limits: map<int, Limits>)
  {
    function LimitsOf(user: int): Limits {
      if user in limits then limits[user] else Limits(None, None)
    }

    function AllowanceAt(now: int, user: int): Allowance {
      var turnsToday := CountAfter(TurnTimes(turns, user), now - TURN_WINDOW);
      var tokensThisWeek := TokensAfter(tokens, user, now - TOKEN_WINDOW);
      var l := LimitsOf(user);
      Allowance(turnsToday, tokensThisWeek,
                (l.dailyTurns.Some? && turnsToday >= l.dailyTurns.value)
                || (l.weeklyTokens.Some? && tokensThisWeek >= l.weeklyTokens.value))
    }

    function Reserve(now: int, user: int, bot: int): (UsageState, Reservation) {
      if AllowanceAt(now, user).exhausted then (this, NoneLeft)
      else if (user, bot) !in bots then (this, NotFound)
      else (this.(turns := turns + [Turn(NextId(turns), user, bot, now)]), Reserved(NextId(turns)))
    }

    function Release(user: int, id: nat): UsageState {
      this.(turns := WithoutTurn(turns, user, id))
    }

    /** The growth recorded, or `None` for a thread that is not the Bot's. */
    function Record(report: Report): (UsageState, Option<nat>) {
      var key := (report.user, report.thread);
      if key !in threads || threads[key].bot != report.bot then (this, None)
      else
        var growth := if report.total > threads[key].reported then report.total - threads[key].reported else 0;
        var row := Growth(report.user, report.bot, report.at, growth, report.turn);
        (this.(threads := threads[key := Thread(report.bot, report.total)],
               tokens := if growth > 0 then tokens + [row] else tokens),
         Some(growth))
    }

    /** The users with usage that left a window in `(since, now]`. */
    function RolledOver(since: int, now: int): set<int> {
      (set turn | turn in turns && Leaves(turn.at, TURN_WINDOW, since, now) :: turn.user)
      + (set growth | growth in tokens && Leaves(growth.at, TOKEN_WINDOW, since, now) :: growth.user)
    }

    function Prune(now: int): UsageState {
      this.(turns := TurnsAfter(turns, now - TURN_WINDOW), tokens := GrowthAfter(tokens, now - TOKEN_WINDOW))
    }
  }

  predicate Leaves(at: int, window: nat, since: int, now: int) {
    since - window < at <= now - window
  }

  function WithoutTurn(turns: seq<Turn>, user: int, id: nat): seq<Turn> {
    if turns == [] then []
    else
      var front, last := WithoutTurn(turns[..|turns| - 1], user, id), turns[|turns| - 1];
      if last.id == id && last.user == user then front else front + [last]
  }

  function TurnsAfter(turns: seq<Turn>, bound: int): seq<Turn> {
    if turns == [] then []
    else
      var front, last := TurnsAfter(turns[..|turns| - 1], bound), turns[|turns| - 1];
      if last.at > bound then front + [last] else front
  }

  function GrowthAfter(tokens: seq<Growth>, bound: int): seq<Growth> {
    if tokens == [] then []
    else
      var front, last := GrowthAfter(tokens[..|tokens| - 1], bound), tokens[|tokens| - 1];
      if last.at > bound then front + [last] else front
  }

  lemma {:induction false} TurnsAfterHolds(turns: seq<Turn>, bound: int, turn: Turn)
    ensures turn in TurnsAfter(turns, bound) <==> turn in turns && turn.at > bound
  {
    if turns != [] {
      TurnsAfterHolds(turns[..|turns| - 1], bound, turn);
      assert turn in turns <==> turn in turns[..|turns| - 1] || turn == turns[|turns| - 1];
    }
  }

  lemma {:induction false} GrowthAfterHolds(tokens: seq<Growth>, bound: int, growth: Growth)
    ensures growth in GrowthAfter(tokens, bound) <==> growth in tokens && growth.at > bound
  {
    if tokens != [] {
      GrowthAfterHolds(tokens[..|tokens| - 1], bound, growth);
      assert growth in tokens <==> growth in tokens[..|tokens| - 1] || growth == tokens[|tokens| - 1];
    }
  }

  lemma {:induction false} WithoutTurnHolds(turns: seq<Turn>, user: int, id: nat, turn: Turn)
    ensures turn in WithoutTurn(turns, user, id) <==> turn in turns && !(turn.user == user && turn.id == id)
  {
    if turns != [] {
      WithoutTurnHolds(turns[..|turns| - 1], user, id, turn);
      assert turn in turns <==> turn in turns[..|turns| - 1] || turn == turns[|turns| - 1];
    }
  }

  // ---------------------------------------------------------------------
  // The daily limit

  /** The tables, every user's turns that were not released, and the clock. */
  datatype Tracked = Tracked(usage: UsageState, past: map<int, seq<int>>, now: int)

  datatype Act =
    | ReserveTurn(at: int, user: int, bot: int)
    | ReleaseTurn(user: int, id: nat)
    | RecordTokens(report: Report)
    | PruneAt(at: int)

  function PastOf(past: map<int, seq<int>>, user: int): seq<int> {
    if user in past then past[user] else []
  }

  function Do(s: Tracked, act: Act): Tracked {
    match act
    case ReserveTurn(at, user, bot) =>
      var reserved := s.usage.Reserve(at, user, bot);
      Tracked(reserved.0,
              if reserved.1.Reserved? then s.past[user := PastOf(s.past, user) + [at]] else s.past, at)
    case ReleaseTurn(user, id) =>
      var released := s.usage.Release(user, id);
      Tracked(released,
              s.past[user := Cut(PastOf(s.past, user), TurnTimes(s.usage.turns, user))
                + TurnTimes(released.turns, user)],
              s.now)
    case RecordTokens(report) => s.(usage := s.usage.Record(report).0)
    case PruneAt(at) => Tracked(s.usage.Prune(at), s.past, at)
  }

  predicate Allowed(s: Tracked, act: Act) {
    match act
    case ReserveTurn(at, _, _) => at >= s.now
    case PruneAt(at) => at >= s.now
    case _ => true
  }

  ghost predicate Leads(s: Tracked, acts: seq<Act>, t: Tracked)
    decreases |acts|
  {
    if acts == [] then s == t else Allowed(s, acts[0]) && Leads(Do(s, acts[0]), acts[1..], t)
  }

  predicate IdsGrow(turns: seq<Turn>) {
    forall i, j :: 0 <= i < j < |turns| ==> turns[i].id < turns[j].id
  }

  ghost predicate UserLimited(s: Tracked, user: int) {
    var limit := s.usage.LimitsOf(user).dailyTurns;
    limit.Some? ==>
      Limited(PastOf(s.past, user), TurnTimes(s.usage.turns, user), limit.value, TURN_WINDOW, s.now)
  }

  ghost predicate UsageInv(s: Tracked) {
    IdsGrow(s.usage.turns) && forall user :: UserLimited(s, user)
  }

  lemma {:induction false} FewAfter(times: seq<int>, bound: int, limit: nat)
    requires Sorted(times) && CountAfter(times, bound) < limit <= |times|
    ensures times[|times| - limit] <= bound
  {
    if times[|times| - limit] > bound {
      ManyAfter(times, bound, |times| - limit);
    }
  }

  lemma {:induction false} ManyAfter(times: seq<int>, bound: int, from: nat)
    requires from <= |times| && forall i :: from <= i < |times| ==> times[i] > bound
    ensures CountAfter(times, bound) >= |times| - from
  {
    if from < |times| {
      ManyAfter(times[..|times| - 1], bound, from);
    }
  }

  /** A turn counted while fewer than the limit are in the window overfills none. */
  lemma ReservingStaysLimited(past: seq<int>, times: seq<int>, limit: nat, now: int, at: int)
    requires Limited(past, times, limit, TURN_WINDOW, now) && now <= at
    requires CountAfter(times, at - TURN_WINDOW) < limit
    ensures Limited(past + [at], times + [at], limit, TURN_WINDOW, at)
  {
    hide CountAfter;
    if |past| >= limit {
      var low := |past| - |times|;
      if |times| >= limit {
        assert forall i :: 0 <= i < |times| ==> times[i] == past[low + i];
        FewAfter(times, at - TURN_WINDOW, limit);
      }
    }
    AddingKeepsSpaced(past, limit, TURN_WINDOW, at);
  }

  lemma {:induction false} WithoutTurnKeepsIds(turns: seq<Turn>, user: int, id: nat)
    requires IdsGrow(turns)
    ensures IdsGrow(WithoutTurn(turns, user, id))
  {
    if turns != [] {
      var front, last := turns[..|turns| - 1], turns[|turns| - 1];
      WithoutTurnKeepsIds(front, user, id);
      forall turn | turn in WithoutTurn(front, user, id)
        ensures turn.id < last.id
      {
        WithoutTurnHolds(front, user, id, turn);
      }
    }
  }

  lemma {:induction false} WithoutTurnKeepsOthers(turns: seq<Turn>, user: int, id: nat, other: int)
    requires other != user
    ensures TurnTimes(WithoutTurn(turns, user, id), other) == TurnTimes(turns, other)
  {
    if turns != [] {
      var front, last := turns[..|turns| - 1], turns[|turns| - 1];
      WithoutTurnKeepsOthers(front, user, id, other);
      var kept := WithoutTurn(front, user, id);
      assert (kept + [last])[..|kept|] == kept;
    }
  }

  /** Releasing takes at most one of the user's turns back. */
  lemma {:induction false} WithoutTurnTimes(turns: seq<Turn>, user: int, id: nat) returns (k: nat)
    requires IdsGrow(turns)
    ensures var times, left := TurnTimes(turns, user), TurnTimes(WithoutTurn(turns, user, id), user);
            (k == |times| && left == times) || (k < |times| && left == times[..k] + times[k + 1..])
  {
    if turns == [] {
      k := 0;
    } else {
      var front, last := turns[..|turns| - 1], turns[|turns| - 1];
      var times, kept := TurnTimes(front, user), WithoutTurn(front, user, id);
      k := WithoutTurnTimes(front, user, id);
      if last.id == id && last.user == user {
        NotThere(front, user, id);
        k := |times|;
        assert (times + [last.at])[..k] + (times + [last.at])[k + 1..] == times;
      } else {
        assert (kept + [last])[..|kept|] == kept;
        if last.user == user {
          if k == |times| {
            k := k + 1;
          } else {
            assert (times + [last.at])[..k] + (times + [last.at])[k + 1..] == times[..k] + times[k + 1..] + [last.at];
          }
        }
      }
    }
  }

  lemma {:induction false} NotThere(turns: seq<Turn>, user: int, id: nat)
    requires forall turn :: turn in turns ==> turn.id != id
    ensures WithoutTurn(turns, user, id) == turns
  {
    if turns != [] {
      NotThere(turns[..|turns| - 1], user, id);
    }
  }

  lemma {:induction false} TurnsAfterKeeps(turns: seq<Turn>, bound: int)
    requires IdsGrow(turns)
    ensures IdsGrow(TurnsAfter(turns, bound))
  {
    if turns != [] {
      var front, last := turns[..|turns| - 1], turns[|turns| - 1];
      TurnsAfterKeeps(front, bound);
      forall turn | turn in TurnsAfter(front, bound)
        ensures turn.id < last.id
      {
        TurnsAfterHolds(front, bound, turn);
      }
    }
  }

  lemma {:induction false} AllPruned(turns: seq<Turn>, bound: int, user: int)
    requires forall turn :: turn in turns && turn.user == user ==> turn.at <= bound
    ensures TurnTimes(TurnsAfter(turns, bound), user) == []
  {
    if turns != [] {
      var kept := TurnsAfter(turns[..|turns| - 1], bound);
      AllPruned(turns[..|turns| - 1], bound, user);
      assert (kept + [turns[|turns| - 1]])[..|kept|] == kept;
    }
  }

  lemma {:induction false} TimeOf(turns: seq<Turn>, user: int, turn: Turn)
    requires turn in turns && turn.user == user
    ensures turn.at in TurnTimes(turns, user)
  {
    if turn in turns[..|turns| - 1] {
      TimeOf(turns[..|turns| - 1], user, turn);
    }
  }

  /** Pruning leaves the newest of a user's turns, and drops only those out of the window. */
  lemma {:induction false} TurnsAfterTimes(turns: seq<Turn>, bound: int, user: int) returns (low: nat)
    requires Sorted(TurnTimes(turns, user))
    ensures var times := TurnTimes(turns, user);
            && low <= |times| && TurnTimes(TurnsAfter(turns, bound), user) == times[low..]
            && (forall i :: 0 <= i < low ==> times[i] <= bound)
            && (forall i :: low <= i < |times| ==> times[i] > bound)
  {
    if turns == [] {
      low := 0;
    } else {
      var front, last := turns[..|turns| - 1], turns[|turns| - 1];
      var times, all := TurnTimes(front, user), TurnTimes(turns, user);
      assert Sorted(times) by {
        assert forall i :: 0 <= i < |times| ==> times[i] == all[i];
      }
      low := TurnsAfterTimes(front, bound, user);
      var kept := TurnsAfter(front, bound);
      assert last.at > bound ==> (kept + [last])[..|kept|] == kept;
      if last.user == user {
        assert all == times + [last.at];
        if last.at <= bound {
          assert forall i :: 0 <= i < |all| ==> all[i] <= all[|times|];
          forall turn | turn in turns && turn.user == user
            ensures turn.at <= bound
          {
            TimeOf(turns, user, turn);
          }
          AllPruned(turns, bound, user);
          low := |all|;
        } else {
          assert all[low..] == times[low..] + [last.at];
        }
      }
    }
  }

  lemma ReserveKeepsUser(s: Tracked, at: int, user: int, bot: int, other: int)
    requires UserLimited(s, other) && s.now <= at
    ensures UserLimited(Do(s, ReserveTurn(at, user, bot)), other)
  {
    var turns, reserved := s.usage.turns, s.usage.Reserve(at, user, bot);
    var limit := s.usage.LimitsOf(other).dailyTurns;
    if reserved.1.Reserved? {
      assert reserved.0.turns[..|turns|] == turns;
      if other == user && limit.Some? {
        ReservingStaysLimited(PastOf(s.past, user), TurnTimes(turns, user), limit.value, s.now, at);
      }
    }
  }

  lemma ReserveKeepsInv(s: Tracked, at: int, user: int, bot: int)
    requires UsageInv(s) && s.now <= at
    ensures UsageInv(Do(s, ReserveTurn(at, user, bot)))
  {
    forall other {
      ReserveKeepsUser(s, at, user, bot, other);
    }
  }

  lemma ReleaseKeepsUser(s: Tracked, user: int, id: nat, other: int)
    requires IdsGrow(s.usage.turns) && UserLimited(s, other)
    ensures UserLimited(Do(s, ReleaseTurn(user, id)), other)
  {
    var turns := s.usage.turns;
    if other != user {
      WithoutTurnKeepsOthers(turns, user, id, other);
    }
    var limit := s.usage.LimitsOf(other).dailyTurns;
    if other == user && limit.Some? {
      var past, times := PastOf(s.past, user), TurnTimes(turns, user);
      var k := WithoutTurnTimes(turns, user, id);
      if k < |times| {
        RemovingStaysLimited(past, times, limit.value, TURN_WINDOW, s.now, k);
      } else {
        assert Cut(past, times) + times == past;
      }
    }
  }

  lemma ReleaseKeepsInv(s: Tracked, user: int, id: nat)
    requires UsageInv(s)
    ensures UsageInv(Do(s, ReleaseTurn(user, id)))
  {
    WithoutTurnKeepsIds(s.usage.turns, user, id);
    forall other {
      ReleaseKeepsUser(s, user, id, other);
    }
  }

  lemma PruneKeepsInv(s: Tracked, at: int)
    requires UsageInv(s) && s.now <= at
    ensures UsageInv(Do(s, PruneAt(at)))
  {
    hide Limited, TurnsAfter, GrowthAfter, TurnTimes;
    var t := Do(s, PruneAt(at));
    TurnsAfterKeeps(s.usage.turns, at - TURN_WINDOW);
    forall user
      ensures UserLimited(t, user)
    {
      assert UserLimited(s, user);
      var limit := s.usage.LimitsOf(user).dailyTurns;
      if limit.Some? {
        PruningStaysLimited(s.usage.turns, PastOf(s.past, user), user, limit.value, s.now, at);
      }
    }
  }

  lemma PruningStaysLimited(turns: seq<Turn>, past: seq<int>, user: int, limit: nat, now: int, at: int)
    requires Limited(past, TurnTimes(turns, user), limit, TURN_WINDOW, now) && now <= at
    ensures Limited(past, TurnTimes(TurnsAfter(turns, at - TURN_WINDOW), user), limit, TURN_WINDOW, at)
  {
    var times := TurnTimes(turns, user);
    assert forall i :: 0 <= i < |times| ==> times[i] == past[|past| - |times| + i];
    var low := TurnsAfterTimes(turns, at - TURN_WINDOW, user);
    forall i | 0 <= i < |past| - |times[low..]|
      ensures at - past[i] >= TURN_WINDOW
    {
      if i >= |past| - |times| {
        assert past[i] == times[i - (|past| - |times|)];
      }
    }
  }

  lemma RecordKeepsInv(s: Tracked, report: Report)
    requires UsageInv(s)
    ensures UsageInv(Do(s, RecordTokens(report)))
  {
    var t := Do(s, RecordTokens(report));
    assert t.usage.turns == s.usage.turns && t.usage.limits == s.usage.limits;
    forall user
      ensures UserLimited(t, user)
    {
      assert UserLimited(s, user);
    }
  }

  lemma {:induction false} EveryRunKeepsUsageInv(s: Tracked, acts: seq<Act>, t: Tracked)
    requires UsageInv(s) && Leads(s, acts, t)
    ensures UsageInv(t) && t.usage.limits == s.usage.limits
    decreases |acts|
  {
    if acts != [] {
      match acts[0] {
        case ReserveTurn(at, user, bot) => ReserveKeepsInv(s, at, user, bot);
        case ReleaseTurn(user, id) => ReleaseKeepsInv(s, user, id);
        case RecordTokens(report) => RecordKeepsInv(s, report);
        case PruneAt(at) => PruneKeepsInv(s, at);
      }
      EveryRunKeepsUsageInv(Do(s, acts[0]), acts[1..], t);
    }
  }

  /** No usage yet, with these limits, for these Bots and threads. */
  function NewUsage(threads: map<(int, string), Thread>, bots: set<(int, int)>, limits: map<int, Limits>, now: int)
    : Tracked
  {
    Tracked(UsageState([], [], threads, bots, limits), map[], now)
  }

  /** In every run, no 24 hours hold more turns than the user's daily limit, of those not released. */
  lemma EveryDayIsLimited(threads: map<(int, string), Thread>, bots: set<(int, int)>, limits: map<int, Limits>,
                          now: int, acts: seq<Act>, t: Tracked, user: int, limit: nat, from: int)
    requires Leads(NewUsage(threads, bots, limits, now), acts, t)
    requires user in limits && limits[user].dailyTurns == Some(limit)
    ensures CountWithin(PastOf(t.past, user), from, 86_400_000) <= limit
  {
    EveryRunKeepsUsageInv(NewUsage(threads, bots, limits, now), acts, t);
    assert UserLimited(t, user);
    WindowsAreLimited(PastOf(t.past, user), limit, TURN_WINDOW, from);
  }

  // ---------------------------------------------------------------------
  // Pruning and rolling over

  lemma AddOne(times: seq<int>, at: int, bound: int)
    ensures CountAfter(times + [at], bound) == CountAfter(times, bound) + if at > bound then 1 else 0
  {
    assert (times + [at])[..|times|] == times;
  }

  lemma {:induction false} PrunedTurnsCount(turns: seq<Turn>, user: int, pruned: int, bound: int)
    requires pruned <= bound
    ensures CountAfter(TurnTimes(TurnsAfter(turns, pruned), user), bound) == CountAfter(TurnTimes(turns, user), bound)
  {
    if turns != [] {
      var front, last := turns[..|turns| - 1], turns[|turns| - 1];
      PrunedTurnsCount(front, user, pruned, bound);
      var kept := TurnsAfter(front, pruned);
      assert (kept + [last])[..|kept|] == kept;
      AddOne(TurnTimes(front, user), last.at, bound);
      AddOne(TurnTimes(kept, user), last.at, bound);
    }
  }

  lemma {:induction false} PrunedTokensSum(tokens: seq<Growth>, user: int, pruned: int, bound: int)
    requires pruned <= bound
    ensures TokensAfter(GrowthAfter(tokens, pruned), user, bound) == TokensAfter(tokens, user, bound)
  {
    if tokens != [] {
      var front, last := tokens[..|tokens| - 1], tokens[|tokens| - 1];
      PrunedTokensSum(front, user, pruned, bound);
      var kept := GrowthAfter(front, pruned);
      assert (kept + [last])[..|kept|] == kept;
    }
  }

  /** Pruning changes no allowance, then or later. */
  lemma PruningChangesNoAllowance(s: UsageState, pruned: int, now: int, user: int)
    requires pruned <= now
    ensures s.Prune(pruned).AllowanceAt(now, user) == s.AllowanceAt(now, user)
  {
    PrunedTurnsCount(s.turns, user, pruned - TURN_WINDOW, now - TURN_WINDOW);
    PrunedTokensSum(s.tokens, user, pruned - TOKEN_WINDOW, now - TOKEN_WINDOW);
  }

  lemma {:induction false} CountsDiffer(turns: seq<Turn>, user: int, since: int, now: int)
    requires since <= now
    ensures CountAfter(TurnTimes(turns, user), now) <= CountAfter(TurnTimes(turns, user), since)
    ensures CountAfter(TurnTimes(turns, user), now) != CountAfter(TurnTimes(turns, user), since)
            <==> exists turn :: turn in turns && turn.user == user && since < turn.at <= now
  {
    if turns != [] {
      var front, last := turns[..|turns| - 1], turns[|turns| - 1];
      CountsDiffer(front, user, since, now);
      AddOne(TurnTimes(front, user), last.at, since);
      AddOne(TurnTimes(front, user), last.at, now);
      assert last in turns && forall turn :: turn in turns <==> turn in front || turn == last;
    }
  }

  lemma {:induction false} SumsDiffer(tokens: seq<Growth>, user: int, since: int, now: int)
    requires since <= now && forall growth :: growth in tokens ==> growth.tokens > 0
    ensures TokensAfter(tokens, user, now) <= TokensAfter(tokens, user, since)
    ensures TokensAfter(tokens, user, now) != TokensAfter(tokens, user, since)
            <==> exists growth :: growth in tokens && growth.user == user && since < growth.at <= now
  {
    if tokens != [] {
      var front, last := tokens[..|tokens| - 1], tokens[|tokens| - 1];
      SumsDiffer(front, user, since, now);
      assert last in tokens && forall growth :: growth in tokens <==> growth in front || growth == last;
    }
  }

  /** Every row of growth holds some. */
  predicate GrowthIsReal(s: UsageState) {
    forall growth :: growth in s.tokens ==> growth.tokens > 0
  }

  /** A check reports exactly the users whose usage, as it stands, counts less than at the last check. */
  lemma RolledOverIsExact(s: UsageState, since: int, now: int, user: int)
    requires since <= now && GrowthIsReal(s)
    ensures user in s.RolledOver(since, now)
            <==> || s.AllowanceAt(now, user).turnsToday != s.AllowanceAt(since, user).turnsToday
                 || s.AllowanceAt(now, user).tokensThisWeek != s.AllowanceAt(since, user).tokensThisWeek
  {
    CountsDiffer(s.turns, user, since - TURN_WINDOW, now - TURN_WINDOW);
    SumsDiffer(s.tokens, user, since - TOKEN_WINDOW, now - TOKEN_WINDOW);
  }

  // ---------------------------------------------------------------------
  // Tokens by thread

  function RecordAll(s: UsageState, reports: seq<Report>): UsageState {
    if reports == [] then s else RecordAll(s, reports[..|reports| - 1]).Record(reports[|reports| - 1]).0
  }

  /** The growth these reports recorded for one thread. */
  function Recorded(s: UsageState, reports: seq<Report>, key: (int, string)): nat {
    if reports == [] then 0
    else
      var before, last := reports[..|reports| - 1], reports[|reports| - 1];
      var growth := RecordAll(s, before).Record(last).1;
      Recorded(s, before, key) + if (last.user, last.thread) == key && growth.Some? then growth.value else 0
  }

  /** None of the thread's reports is below the one before it. */
  predicate NeverFalls(s: UsageState, reports: seq<Report>, key: (int, string))
    requires key in s.threads
  {
    reports == []
    || (var before, last := reports[..|reports| - 1], reports[|reports| - 1];
        && NeverFalls(s, before, key)
        && ((last.user, last.thread) == key && last.bot == s.threads[key].bot ==>
              key in RecordAll(s, before).threads ==> last.total >= RecordAll(s, before).threads[key].reported))
  }

  /**
   What a thread's reports record adds up to its last total, from the total it stood at,
   exactly if the totals never fall; otherwise it is more.
   */
  lemma {:induction false} RecordedIsTheTotal(s: UsageState, reports: seq<Report>, key: (int, string))
    requires key in s.threads
    ensures var after := RecordAll(s, reports).threads;
            && key in after && after[key].bot == s.threads[key].bot
            && after[key].reported <= s.threads[key].reported + Recorded(s, reports, key)
            && (after[key].reported == s.threads[key].reported + Recorded(s, reports, key)
                <==> NeverFalls(s, reports, key))
    ensures GrowthIsReal(s) ==> GrowthIsReal(RecordAll(s, reports))
  {
    if reports != [] {
      RecordedIsTheTotal(s, reports[..|reports| - 1], key);
    }
  }
}
