/** The usage tables in place: each statement of the gateway's as a change to its table. */
module Usage {
  import opened Protocol
  import opened UsageModel
  import opened Rollovers

  class UsageTables {
    var turns: seq<Turn>
    var tokens: seq<Growth>
    var threads: map<(int, string), Thread>
    var bots: set<(int, int)>
    var limits: map<int, Limits>

    function State(): UsageState
      reads this
    {
      UsageState(turns, tokens, threads, bots, limits)
    }

    /** Counts a turn, if the user's allowance has one left. */
    method ReserveTurn(now: int, user: int, bot: int) returns (reservation: Reservation)
      modifies this`turns
      ensures (State(), reservation) == old(State()).Reserve(now, user, bot)
    {
      var allowance := State().AllowanceAt(now, user);
      if allowance.exhausted {
        return NoneLeft;
      }
      if (user, bot) !in bots {
        return NotFound;
      }
      reservation := Reserved(NextId(turns));
      turns := turns + [Turn(NextId(turns), user, bot, now)];
    }

    /** Takes back a turn counted by `ReserveTurn`. */
    method ReleaseTurn(user: int, id: nat)
      modifies this`turns
      ensures State() == old(State()).Release(user, id)
    {
      turns := WithoutTurn(turns, user, id);
    }

    /** Stores a thread's growth since its last report. */
    method RecordTokens(report: Report) returns (growth: Option<nat>)
      modifies this`tokens, this`threads
      ensures (State(), growth) == old(State()).Record(report)
    {
      var key := (report.user, report.thread);
      if key !in threads || threads[key].bot != report.bot {
        return None;
      }
      var reported := threads[key].reported;
      var grown := if report.total > reported then report.total - reported else 0;
      threads := threads[key := Thread(report.bot, report.total)];
      if grown > 0 {
        tokens := tokens + [Growth(report.user, report.bot, report.at, grown, report.turn)];
      }
      growth := Some(grown);
    }

    method Prune(now: int)
      modifies this`turns, this`tokens
      ensures State() == old(State()).Prune(now)
    {
      turns := TurnsAfter(turns, now - TURN_WINDOW);
      tokens := GrowthAfter(tokens, now - TOKEN_WINDOW);
    }

    /** One pass over the windows: who to announce, and then the rows no window counts any more. */
    method RollOver(since: int, now: int, commits: bool) returns (users: set<int>, done: bool)
      modifies this`turns, this`tokens
      ensures users == old(State()).RolledOver(since, now) && done == commits
      ensures State() == if commits then old(State()).Prune(now) else old(State())
      ensures forall later, user :: later >= now ==>
                State().AllowanceAt(later, user) == old(State()).AllowanceAt(later, user)
    {
      users, done := State().RolledOver(since, now), commits;
      ghost var before := State();
      if !commits {
        return;
      }
      Prune(now);
      forall later, user | later >= now
        ensures State().AllowanceAt(later, user) == before.AllowanceAt(later, user)
      {
        PruningChangesNoAllowance(before, now, later, user);
      }
    }
  }

  /** The loop that runs the passes: a pass that fails is tried again from the same start. */
  class RolloverTask {
    const tables: UsageTables
    var since: int

    constructor (tables: UsageTables, now: int)
      ensures this.tables == tables && State(now) == NewRolling(tables.State(), now)
    {
      this.tables := tables;
      since := now;
    }

    function State(now: int): Rolling
      reads this, tables
    {
      Rolling(tables.State(), since, None, now)
    }

    method Tick(now: int, commits: bool) returns (users: set<int>)
      modifies this`since, tables`turns, tables`tokens
      ensures var checked := Roll(old(State(now)), Checks(now));
              checked.pass == Some(Pass(now, users)) && State(now) == Roll(checked, Ends(commits))
    {
      var done: bool;
      users, done := tables.RollOver(since, now, commits);
      if done {
        since := now;
      }
    }
  }
}
