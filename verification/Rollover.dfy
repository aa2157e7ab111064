/**
 The gateway's rollover passes over the usage tables: who is announced when usage leaves
 its window, and that pruning loses nobody's announcement. Turns and reports go on while
 a pass is between its check and its prune.
 */
module Rollovers {
  import opened Protocol
  import opened UsageModel

  /** A pass under way: when it checked, and whom it found. */
  datatype Pass = Pass(at: int, users: set<int>)

  /** The tables, where the next pass starts from, the pass under way, and the clock. */
  datatype Rolling = Rolling(usage: UsageState, since: int, pass: Option<Pass>, now: int)

  datatype RollStep =
    | Reserves(at: int, user: int, bot: int)
    | Releases(user: int, id: nat)
    | Records(report: Report)
    | Checks(at: int)
    | Ends(commits: bool)

  /** A pass that fails changes nothing, and the next one starts from the same time. */
  function Roll(s: Rolling, step: RollStep): Rolling {
    match step
    case Reserves(at, user, bot) => s.(usage := s.usage.Reserve(at, user, bot).0, now := at)
    case Releases(user, id) => s.(usage := s.usage.Release(user, id))
    case Records(report) => s.(usage := s.usage.Record(report).0, now := report.at)
    case Checks(at) => s.(pass := Some(Pass(at, s.usage.RolledOver(s.since, at))), now := at)
    case Ends(commits) =>
      if commits && s.pass.Some?
      then s.(usage := s.usage.Prune(s.pass.value.at), since := s.pass.value.at, pass := None)
      else s.(pass := None)
  }

  predicate MayRoll(s: Rolling, step: RollStep) {
    match step
    case Reserves(at, _, _) => at >= s.now
    case Releases(_, _) => true
    case Records(report) => report.at >= s.now
    case Checks(at) => at >= s.now && s.pass.None?
    case Ends(_) => s.pass.Some?
  }

  ghost predicate Rolls(s: Rolling, steps: seq<RollStep>, t: Rolling)
    decreases |steps|
  {
    if steps == [] then s == t else MayRoll(s, steps[0]) && Rolls(Roll(s, steps[0]), steps[1..], t)
  }

  /** The passes of a new process start from its own beginning. */
  function NewRolling(usage: UsageState, now: int): Rolling {
    Rolling(usage, now, None, now)
  }

  predicate RollInv(s: Rolling) {
    s.since <= s.now && (s.pass.Some? ==> s.since <= s.pass.value.at <= s.now)
  }

  /** The step completes a pass that announced this user when usage of this time left its window. */
  predicate Reports(s: Rolling, step: RollStep, window: nat, user: int, at: int) {
    && step == Ends(true) && s.pass.Some?
    && Leaves(at, window, s.since, s.pass.value.at) && user in s.pass.value.users
  }

  function TimesReported(s: Rolling, steps: seq<RollStep>, window: nat, user: int, at: int): nat
    decreases |steps|
  {
    if steps == [] then 0
    else
      TimesReported(Roll(s, steps[0]), steps[1..], window, user, at)
      + if Reports(s, steps[0], window, user, at) then 1 else 0
  }

  /** Usage no completed pass has found yet; if it has left its window by the check under way, that found it. */
  predicate Waits(s: Rolling, window: nat, user: int, at: int) {
    && at > s.since - window
    && (s.pass.Some? && at <= s.pass.value.at - window ==> user in s.pass.value.users)
  }

  // ---------------------------------------------------------------------
  // Rows

  lemma CheckFinds(s: UsageState, since: int, at: int, turn: Turn, growth: Growth)
    ensures turn in s.turns && Leaves(turn.at, TURN_WINDOW, since, at) ==> turn.user in s.RolledOver(since, at)
    ensures growth in s.tokens && Leaves(growth.at, TOKEN_WINDOW, since, at) ==> growth.user in s.RolledOver(since, at)
  {
  }

  /** What one step does to usage that waits: it still does, or this step reports it. */
  lemma StepReports(s: Rolling, step: RollStep, window: nat, user: int, at: int)
    requires RollInv(s) && MayRoll(s, step) && Waits(s, window, user, at)
    requires step.Checks? && Leaves(at, window, s.since, step.at) ==> user in s.usage.RolledOver(s.since, step.at)
    ensures RollInv(Roll(s, step))
    ensures if at <= Roll(s, step).since - window then Reports(s, step, window, user, at)
            else Waits(Roll(s, step), window, user, at) && !Reports(s, step, window, user, at)
  {
  }

  /** Usage found once is behind every later pass. */
  lemma {:induction false} NeverAgain(s: Rolling, steps: seq<RollStep>, t: Rolling, window: nat, user: int, at: int)
    requires RollInv(s) && Rolls(s, steps, t) && at <= s.since - window
    ensures TimesReported(s, steps, window, user, at) == 0 && at <= t.since - window
    decreases |steps|
  {
    if steps != [] {
      NeverAgain(Roll(s, steps[0]), steps[1..], t, window, user, at);
    }
  }

  // ---------------------------------------------------------------------
  // Turns

  /** No step takes the turn back while it is counted. */
  predicate NeverReleased(s: Rolling, steps: seq<RollStep>, turn: Turn)
    decreases |steps|
  {
    steps == []
    || (&& (turn in s.usage.turns ==> steps[0] != Releases(turn.user, turn.id))
        && NeverReleased(Roll(s, steps[0]), steps[1..], turn))
  }

  lemma StepKeepsTurn(s: Rolling, step: RollStep, turn: Turn)
    requires RollInv(s) && MayRoll(s, step) && turn in s.usage.turns && step != Releases(turn.user, turn.id)
    ensures turn in Roll(s, step).usage.turns <==> step != Ends(true) || turn.at > s.pass.value.at - TURN_WINDOW
  {
    match step {
      case Releases(user, id) => WithoutTurnHolds(s.usage.turns, user, id, turn);
      case Ends(commits) =>
        if commits {
          TurnsAfterHolds(s.usage.turns, s.pass.value.at - TURN_WINDOW, turn);
        }
      case _ =>
    }
  }

  /** A turn that is gone does not come back: what is counted later is later. */
  lemma {:induction false} TurnStaysGone(s: Rolling, steps: seq<RollStep>, t: Rolling, turn: Turn)
    requires RollInv(s) && Rolls(s, steps, t) && turn !in s.usage.turns && turn.at < s.now
    ensures turn !in t.usage.turns
    decreases |steps|
  {
    if steps != [] {
      var step := steps[0];
      match step {
        case Releases(user, id) => WithoutTurnHolds(s.usage.turns, user, id, turn);
        case Ends(commits) =>
          if commits {
            TurnsAfterHolds(s.usage.turns, s.pass.value.at - TURN_WINDOW, turn);
          }
        case _ =>
      }
      TurnStaysGone(Roll(s, step), steps[1..], t, turn);
    }
  }

  /**
   Over every run of turns, releases, reports and passes, some of which fail: a turn that
   is not taken back is kept exactly until a completed pass starts after it has left its
   window, and exactly one completed pass announces its user for it, none before and none
   later.
   */
  lemma {:induction false} TurnReportedExactlyOnce(s: Rolling, steps: seq<RollStep>, t: Rolling, turn: Turn)
    requires RollInv(s) && Rolls(s, steps, t) && NeverReleased(s, steps, turn)
    requires turn in s.usage.turns && Waits(s, TURN_WINDOW, turn.user, turn.at)
    ensures turn in t.usage.turns <==> turn.at > t.since - TURN_WINDOW
    ensures TimesReported(s, steps, TURN_WINDOW, turn.user, turn.at)
            == if turn.at <= t.since - TURN_WINDOW then 1 else 0
    decreases |steps|
  {
    if steps != [] {
      var step, next := steps[0], Roll(s, steps[0]);
      if step.Checks? {
        CheckFinds(s.usage, s.since, step.at, turn, Growth(0, 0, 0, 0, None));
      }
      StepReports(s, step, TURN_WINDOW, turn.user, turn.at);
      StepKeepsTurn(s, step, turn);
      if turn.at <= next.since - TURN_WINDOW {
        NeverAgain(next, steps[1..], t, TURN_WINDOW, turn.user, turn.at);
        TurnStaysGone(next, steps[1..], t, turn);
      } else {
        TurnReportedExactlyOnce(next, steps[1..], t, turn);
      }
    }
  }

  // ---------------------------------------------------------------------
  // Token growth

  lemma StepKeepsGrowth(s: Rolling, step: RollStep, growth: Growth)
    requires RollInv(s) && MayRoll(s, step) && growth in s.usage.tokens
    ensures growth in Roll(s, step).usage.tokens <==> step != Ends(true) || growth.at > s.pass.value.at - TOKEN_WINDOW
  {
    if step == Ends(true) {
      GrowthAfterHolds(s.usage.tokens, s.pass.value.at - TOKEN_WINDOW, growth);
    }
  }

  lemma {:induction false} GrowthStaysGone(s: Rolling, steps: seq<RollStep>, t: Rolling, growth: Growth)
    requires RollInv(s) && Rolls(s, steps, t) && growth !in s.usage.tokens && growth.at < s.now
    ensures growth !in t.usage.tokens
    decreases |steps|
  {
    if steps != [] {
      if steps[0] == Ends(true) {
        GrowthAfterHolds(s.usage.tokens, s.pass.value.at - TOKEN_WINDOW, growth);
      }
      GrowthStaysGone(Roll(s, steps[0]), steps[1..], t, growth);
    }
  }

  /** So is every row of token growth, with the week as its window. */
  lemma {:induction false} GrowthReportedExactlyOnce(s: Rolling, steps: seq<RollStep>, t: Rolling, growth: Growth)
    requires RollInv(s) && Rolls(s, steps, t)
    requires growth in s.usage.tokens && Waits(s, TOKEN_WINDOW, growth.user, growth.at)
    ensures growth in t.usage.tokens <==> growth.at > t.since - TOKEN_WINDOW
    ensures TimesReported(s, steps, TOKEN_WINDOW, growth.user, growth.at)
         == if growth.at <= t.since - TOKEN_WINDOW then 1 else 0
    decreases |steps|
  {
    if steps != [] {
      var step, next := steps[0], Roll(s, steps[0]);
      if step.Checks? {
        CheckFinds(s.usage, s.since, step.at, Turn(0, 0, 0, 0), growth);
      }
      StepReports(s, step, TOKEN_WINDOW, growth.user, growth.at);
      StepKeepsGrowth(s, step, growth);
      if growth.at <= next.since - TOKEN_WINDOW {
        NeverAgain(next, steps[1..], t, TOKEN_WINDOW, growth.user, growth.at);
        GrowthStaysGone(next, steps[1..], t, growth);
      } else {
        GrowthReportedExactlyOnce(next, steps[1..], t, growth);
      }
    }
  }

  // ---------------------------------------------------------------------
  // Every row waits from the moment it is counted

  lemma {:induction false} EveryRunKeepsRollInv(s: Rolling, steps: seq<RollStep>, t: Rolling)
    requires RollInv(s) && Rolls(s, steps, t)
    ensures RollInv(t)
    decreases |steps|
  {
    if steps != [] {
      EveryRunKeepsRollInv(Roll(s, steps[0]), steps[1..], t);
    }
  }

  /**
   Whatever is counted in a process, at any point of any run of it, waits to be reported
   from then on, as does what its tables still counted when it started.
   */
  lemma WhatIsCountedWaits(usage: UsageState, start: int, steps: seq<RollStep>, s: Rolling, step: RollStep)
    requires Rolls(NewRolling(usage, start), steps, s) && MayRoll(s, step)
    ensures RollInv(Roll(s, step))
    ensures forall turn :: turn in usage.turns && turn.at > start - TURN_WINDOW ==>
                             Waits(NewRolling(usage, start), TURN_WINDOW, turn.user, turn.at)
    ensures forall turn :: turn in Roll(s, step).usage.turns && turn !in s.usage.turns ==>
                             Waits(Roll(s, step), TURN_WINDOW, turn.user, turn.at)
    ensures forall growth :: growth in Roll(s, step).usage.tokens && growth !in s.usage.tokens ==>
                               Waits(Roll(s, step), TOKEN_WINDOW, growth.user, growth.at)
  {
    EveryRunKeepsRollInv(NewRolling(usage, start), steps, s);
    forall turn | turn in Roll(s, step).usage.turns && turn !in s.usage.turns
      ensures turn.at >= s.now
    {
      match step {
        case Releases(user, id) => WithoutTurnHolds(s.usage.turns, user, id, turn);
        case Ends(_) => TurnsAfterHolds(s.usage.turns, s.pass.value.at - TURN_WINDOW, turn);
        case _ =>
      }
    }
    forall growth | growth in Roll(s, step).usage.tokens && growth !in s.usage.tokens
      ensures growth.at >= s.now
    {
      if step.Ends? {
        GrowthAfterHolds(s.usage.tokens, s.pass.value.at - TOKEN_WINDOW, growth);
      }
    }
  }
}
