/**
 When a turn is reserved, over every run of turns, releases, reports and prunes: said of
 everything that was ever recorded, whatever the tables have been pruned of since.
 */
module Allowances {
  import opened Protocol
  import opened UsageModel

  /** The tables, with every turn counted and not released, and all growth ever recorded. */
  datatype Ledger = Ledger(usage: UsageState, turns: seq<Turn>, tokens: seq<Growth>, now: int)

  /** The clock does not go back. */
  predicate InTime(l: Ledger, act: Act) {
    match act
    case ReserveTurn(at, _, _) => l.now <= at
    case RecordTokens(report) => l.now <= report.at
    case PruneAt(at) => l.now <= at
    case ReleaseTurn(_, _) => true
  }

  function Enter(l: Ledger, act: Act): Ledger {
    match act
    case ReserveTurn(at, user, bot) =>
      var reserved := l.usage.Reserve(at, user, bot);
      Ledger(reserved.0,
             if reserved.1.Reserved? then l.turns + [Turn(reserved.1.id, user, bot, at)] else l.turns,
             l.tokens, at)
    case ReleaseTurn(user, id) => l.(usage := l.usage.Release(user, id), turns := WithoutTurn(l.turns, user, id))
    case RecordTokens(report) =>
      var recorded := l.usage.Record(report);
      Ledger(recorded.0, l.turns,
             if recorded.1.Some? && recorded.1.value > 0
             then l.tokens + [Growth(report.user, report.bot, report.at, recorded.1.value, report.turn)] else l.tokens,
             report.at)
    case PruneAt(at) => l.(usage := l.usage.Prune(at), now := at)
  }

  ghost predicate Enters(l: Ledger, acts: seq<Act>, m: Ledger)
    decreases |acts|
  {
    if acts == [] then l == m else InTime(l, acts[0]) && Enters(Enter(l, acts[0]), acts[1..], m)
  }

  /** Nothing used yet. */
  function Opened(threads: map<(int, string), Thread>, bots: set<(int, int)>, limits: map<int, Limits>, now: int)
    : Ledger
  {
    Ledger(UsageState([], [], threads, bots, limits), [], [], now)
  }

  /** How many of the user's turns lie in `(from, to]`. */
  function TurnsIn(turns: seq<Turn>, user: int, from: int, to: int): nat {
    if turns == [] then 0
    else
      var first := turns[0];
      (if first.user == user && from < first.at <= to then 1 else 0) + TurnsIn(turns[1..], user, from, to)
  }

  /** How many tokens of the user's were recorded in `(from, to]`. */
  function TokensIn(tokens: seq<Growth>, user: int, from: int, to: int): nat {
    if tokens == [] then 0
    else
      var first := tokens[0];
      (if first.user == user && from < first.at <= to then first.tokens else 0) + TokensIn(tokens[1..], user, from, to)
  }

  // ---------------------------------------------------------------------
  // The tables hold all of the ledger that a window may still count

  ghost predicate LedgerInv(l: Ledger) {
    && IdsGrow(l.usage.turns)
    && TurnsAfter(l.usage.turns, l.now - TURN_WINDOW) == TurnsAfter(l.turns, l.now - TURN_WINDOW)
    && GrowthAfter(l.usage.tokens, l.now - TOKEN_WINDOW) == GrowthAfter(l.tokens, l.now - TOKEN_WINDOW)
    && (forall turn :: turn in l.turns ==> turn.at <= l.now)
    && (forall growth :: growth in l.tokens ==> growth.at <= l.now)
  }

  lemma {:induction false} TurnsAfterTwice(turns: seq<Turn>, early: int, late: int)
    requires early <= late
    ensures TurnsAfter(TurnsAfter(turns, early), late) == TurnsAfter(turns, late)
  {
    if turns != [] {
      var front, last := turns[..|turns| - 1], turns[|turns| - 1];
      TurnsAfterTwice(front, early, late);
      var kept := TurnsAfter(front, early);
      assert (kept + [last])[..|kept|] == kept;
    }
  }

  lemma {:induction false} GrowthAfterTwice(tokens: seq<Growth>, early: int, late: int)
    requires early <= late
    ensures GrowthAfter(GrowthAfter(tokens, early), late) == GrowthAfter(tokens, late)
  {
    if tokens != [] {
      var front, last := tokens[..|tokens| - 1], tokens[|tokens| - 1];
      GrowthAfterTwice(front, early, late);
      var kept := GrowthAfter(front, early);
      assert (kept + [last])[..|kept|] == kept;
    }
  }

  lemma {:induction false} WithoutAfter(turns: seq<Turn>, user: int, id: nat, bound: int)
    ensures TurnsAfter(WithoutTurn(turns, user, id), bound) == WithoutTurn(TurnsAfter(turns, bound), user, id)
  {
    if turns != [] {
      var front, last := turns[..|turns| - 1], turns[|turns| - 1];
      WithoutAfter(front, user, id, bound);
      var left, kept := WithoutTurn(front, user, id), TurnsAfter(front, bound);
      assert (left + [last])[..|left|] == left;
      assert (kept + [last])[..|kept|] == kept;
    }
  }

  lemma TurnsAfterAdded(turns: seq<Turn>, turn: Turn, bound: int)
    ensures TurnsAfter(turns + [turn], bound) == TurnsAfter(turns, bound) + if turn.at > bound then [turn] else []
  {
    assert (turns + [turn])[..|turns|] == turns;
  }

  lemma GrowthAfterAdded(tokens: seq<Growth>, growth: Growth, bound: int)
    ensures GrowthAfter(tokens + [growth], bound)
         == GrowthAfter(tokens, bound) + if growth.at > bound then [growth] else []
  {
    assert (tokens + [growth])[..|tokens|] == tokens;
  }

  lemma LedgerLater(l: Ledger, at: int)
    requires LedgerInv(l) && l.now <= at
    ensures LedgerInv(l.(now := at))
  {
    hide TurnsAfter, GrowthAfter;
    TurnsAfterTwice(l.turns, l.now - TURN_WINDOW, at - TURN_WINDOW);
    TurnsAfterTwice(l.usage.turns, l.now - TURN_WINDOW, at - TURN_WINDOW);
    GrowthAfterTwice(l.tokens, l.now - TOKEN_WINDOW, at - TOKEN_WINDOW);
    GrowthAfterTwice(l.usage.tokens, l.now - TOKEN_WINDOW, at - TOKEN_WINDOW);
  }

  lemma ReserveKeepsLedger(l: Ledger, at: int, user: int, bot: int)
    requires LedgerInv(l) && l.now <= at
    ensures LedgerInv(Enter(l, ReserveTurn(at, user, bot)))
  {
    hide TurnsAfter, GrowthAfter, CountAfter, TokensAfter, TurnTimes;
    LedgerLater(l, at);
    var turn := Turn(NextId(l.usage.turns), user, bot, at);
    TurnsAfterAdded(l.usage.turns, turn, at - TURN_WINDOW);
    TurnsAfterAdded(l.turns, turn, at - TURN_WINDOW);
  }

  lemma ReleaseKeepsLedger(l: Ledger, user: int, id: nat)
    requires LedgerInv(l)
    ensures LedgerInv(Enter(l, ReleaseTurn(user, id)))
  {
    hide TurnsAfter, GrowthAfter, WithoutTurn;
    WithoutAfter(l.usage.turns, user, id, l.now - TURN_WINDOW);
    WithoutAfter(l.turns, user, id, l.now - TURN_WINDOW);
    WithoutTurnKeepsIds(l.usage.turns, user, id);
    forall turn | turn in WithoutTurn(l.turns, user, id)
      ensures turn.at <= l.now
    {
      WithoutTurnHolds(l.turns, user, id, turn);
    }
  }

  lemma RecordKeepsLedger(l: Ledger, report: Report)
    requires LedgerInv(l) && l.now <= report.at
    ensures LedgerInv(Enter(l, RecordTokens(report)))
  {
    hide TurnsAfter, GrowthAfter;
    LedgerLater(l, report.at);
    var growth := l.usage.Record(report).1;
    if growth.Some? && growth.value > 0 {
      var row := Growth(report.user, report.bot, report.at, growth.value, report.turn);
      GrowthAfterAdded(l.usage.tokens, row, report.at - TOKEN_WINDOW);
      GrowthAfterAdded(l.tokens, row, report.at - TOKEN_WINDOW);
    }
  }

  lemma PruneKeepsLedger(l: Ledger, at: int)
    requires LedgerInv(l) && l.now <= at
    ensures LedgerInv(Enter(l, PruneAt(at)))
  {
    hide TurnsAfter, GrowthAfter;
    LedgerLater(l, at);
    TurnsAfterKeeps(l.usage.turns, at - TURN_WINDOW);
    TurnsAfterTwice(l.usage.turns, at - TURN_WINDOW, at - TURN_WINDOW);
    GrowthAfterTwice(l.usage.tokens, at - TOKEN_WINDOW, at - TOKEN_WINDOW);
  }

  lemma EnterKeepsInv(l: Ledger, act: Act)
    requires LedgerInv(l) && InTime(l, act)
    ensures LedgerInv(Enter(l, act))
    ensures Enter(l, act).usage.bots == l.usage.bots && Enter(l, act).usage.limits == l.usage.limits
  {
    hide LedgerInv;
    match act {
      case ReserveTurn(at, user, bot) => ReserveKeepsLedger(l, at, user, bot);
      case ReleaseTurn(user, id) => ReleaseKeepsLedger(l, user, id);
      case RecordTokens(report) => RecordKeepsLedger(l, report);
      case PruneAt(at) => PruneKeepsLedger(l, at);
    }
  }

  lemma {:induction false} EveryRunKeepsLedger(l: Ledger, acts: seq<Act>, m: Ledger)
    requires LedgerInv(l) && Enters(l, acts, m)
    ensures LedgerInv(m) && m.usage.bots == l.usage.bots && m.usage.limits == l.usage.limits
    decreases |acts|
  {
    if acts != [] {
      EnterKeepsInv(l, acts[0]);
      EveryRunKeepsLedger(Enter(l, acts[0]), acts[1..], m);
    }
  }

  // ---------------------------------------------------------------------
  // What the allowance counts

  lemma {:induction false} TurnsInThen(a: seq<Turn>, b: seq<Turn>, user: int, from: int, to: int)
    ensures TurnsIn(a + b, user, from, to) == TurnsIn(a, user, from, to) + TurnsIn(b, user, from, to)
  {
    if a == [] {
      assert a + b == b;
    } else {
      assert (a + b)[1..] == a[1..] + b;
      TurnsInThen(a[1..], b, user, from, to);
    }
  }

  lemma {:induction false} TokensInThen(a: seq<Growth>, b: seq<Growth>, user: int, from: int, to: int)
    ensures TokensIn(a + b, user, from, to) == TokensIn(a, user, from, to) + TokensIn(b, user, from, to)
  {
    if a == [] {
      assert a + b == b;
    } else {
      assert (a + b)[1..] == a[1..] + b;
      TokensInThen(a[1..], b, user, from, to);
    }
  }

  /** The turns a window counts are those it would count of the turns after its start. */
  lemma {:induction false} CountedTurns(turns: seq<Turn>, user: int, from: int, to: int)
    requires forall turn :: turn in TurnsAfter(turns, from) ==> turn.at <= to
    ensures CountAfter(TurnTimes(turns, user), from) == TurnsIn(TurnsAfter(turns, from), user, from, to)
  {
    if turns != [] {
      var front, last := turns[..|turns| - 1], turns[|turns| - 1];
      CountedTurns(front, user, from, to);
      AddOne(TurnTimes(front, user), last.at, from);
      TurnsInThen(TurnsAfter(front, from), [last], user, from, to);
      assert [last][1..] == [];
      assert last.at > from ==> last in TurnsAfter(turns, from);
    }
  }

  lemma {:induction false} CountedTokens(tokens: seq<Growth>, user: int, from: int, to: int)
    requires forall growth :: growth in GrowthAfter(tokens, from) ==> growth.at <= to
    ensures TokensAfter(tokens, user, from) == TokensIn(GrowthAfter(tokens, from), user, from, to)
  {
    if tokens != [] {
      var front, last := tokens[..|tokens| - 1], tokens[|tokens| - 1];
      CountedTokens(front, user, from, to);
      TokensInThen(GrowthAfter(front, from), [last], user, from, to);
      assert [last][1..] == [];
      assert last.at > from ==> last in GrowthAfter(tokens, from);
    }
  }

  lemma {:induction false} TurnsInAfter(turns: seq<Turn>, user: int, from: int, to: int)
    ensures TurnsIn(TurnsAfter(turns, from), user, from, to) == TurnsIn(turns, user, from, to)
  {
    if turns != [] {
      var front, last := turns[..|turns| - 1], turns[|turns| - 1];
      TurnsInAfter(front, user, from, to);
      TurnsInThen(front, [last], user, from, to);
      TurnsInThen(TurnsAfter(front, from), [last], user, from, to);
      assert front + [last] == turns && [last][1..] == [];
    }
  }

  lemma {:induction false} TokensInAfter(tokens: seq<Growth>, user: int, from: int, to: int)
    ensures TokensIn(GrowthAfter(tokens, from), user, from, to) == TokensIn(tokens, user, from, to)
  {
    if tokens != [] {
      var front, last := tokens[..|tokens| - 1], tokens[|tokens| - 1];
      TokensInAfter(front, user, from, to);
      TokensInThen(front, [last], user, from, to);
      TokensInThen(GrowthAfter(front, from), [last], user, from, to);
      assert front + [last] == tokens && [last][1..] == [];
    }
  }

  /** The tables count what the ledger holds. */
  lemma LedgerIsCounted(l: Ledger, user: int, at: int)
    requires LedgerInv(l) && l.now <= at
    ensures CountAfter(TurnTimes(l.usage.turns, user), at - TURN_WINDOW)
         == TurnsIn(l.turns, user, at - TURN_WINDOW, at)
    ensures TokensAfter(l.usage.tokens, user, at - TOKEN_WINDOW)
         == TokensIn(l.tokens, user, at - TOKEN_WINDOW, at)
  {
    LedgerLater(l, at);
    var today, week := at - TURN_WINDOW, at - TOKEN_WINDOW;
    forall turn | turn in TurnsAfter(l.usage.turns, today)
      ensures turn.at <= at
    {
      TurnsAfterHolds(l.turns, today, turn);
    }
    forall growth | growth in GrowthAfter(l.usage.tokens, week)
      ensures growth.at <= at
    {
      GrowthAfterHolds(l.tokens, week, growth);
    }
    CountedTurns(l.usage.turns, user, today, at);
    CountedTokens(l.usage.tokens, user, week, at);
    TurnsInAfter(l.turns, user, today, at);
    TokensInAfter(l.tokens, user, week, at);
  }

  /** The user has a turn left: both limits, if set, are above what the windows up to now hold. */
  predicate WithinLimits(limits: map<int, Limits>, l: Ledger, user: int, at: int) {
    user in limits ==>
      && (limits[user].dailyTurns.Some? ==>
            TurnsIn(l.turns, user, at - 86_400_000, at) < limits[user].dailyTurns.value)
      && (limits[user].weeklyTokens.Some? ==>
            TokensIn(l.tokens, user, at - 604_800_000, at) < limits[user].weeklyTokens.value)
  }

  /**
   In every run, a turn is reserved exactly if the Bot is the user's, fewer turns than the
   daily limit lie in the 24 hours up to now, and the tokens recorded in the seven days up
   to now total less than the weekly limit; only then is a turn added, under an id above
   every stored one.
   */
  lemma ReservedExactlyWithinLimits(threads: map<(int, string), Thread>, bots: set<(int, int)>,
                                    limits: map<int, Limits>, start: int, acts: seq<Act>, l: Ledger,
                                    at: int, user: int, bot: int)
    requires Enters(Opened(threads, bots, limits, start), acts, l) && l.now <= at
    ensures var (after, reservation) := l.usage.Reserve(at, user, bot);
            && (reservation.Reserved? <==> (user, bot) in bots && WithinLimits(limits, l, user, at))
            && (reservation.NoneLeft? <==> !WithinLimits(limits, l, user, at))
            && (reservation.Reserved? ==> forall turn :: turn in l.usage.turns ==> turn.id < reservation.id)
            && after == (if reservation.Reserved?
                         then l.usage.(turns := l.usage.turns + [Turn(reservation.id, user, bot, at)]) else l.usage)
  {
    EveryRunKeepsLedger(Opened(threads, bots, limits, start), acts, l);
    LedgerIsCounted(l, user, at);
  }
}
