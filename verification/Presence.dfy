/**
 Which of their Bots each user's devices show, as their connections last said. A
 statement lapses unless it is said again.
 */
module PresenceModel {
  import opened Protocol

  const VIEWING_EXPIRES: nat := 75_000

  /** What a connection said it shows, and until when that holds. */
  datatype Shown = Shown(bot: BotId, until: int)

  type Table = map<int, map<nat, Shown>>

  function SetShown(table: Table, user: int, id: nat, bot: Option<BotId>, now: int): Table {
    match bot
    case Some(shown) =>
      var connections := if user in table then table[user] else map[];
      table[user := connections[id := Shown(shown, now + VIEWING_EXPIRES)]]
    case None =>
      if user !in table then table
      else if table[user] - {id} == map[] then table - {user}
      else table[user := table[user] - {id}]
  }

  /** What a connection says, if it says anything. */
  function Entry(table: Table, user: int, id: nat): Option<Shown> {
    if user in table && id in table[user] then Some(table[user][id]) else None
  }

  /** A statement replaces the connection's last one, or takes it back, and touches no other. */
  lemma SetShownSets(table: Table, user: int, id: nat, bot: Option<BotId>, now: int, other: int, key: nat)
    ensures Entry(SetShown(table, user, id, bot, now), other, key)
         == if other == user && key == id then
              if bot.Some? then Some(Shown(bot.value, now + VIEWING_EXPIRES)) else None
            else Entry(table, other, key)
  {
    if bot.None? && user in table && other == user && key in table[user] && key != id {
      assert key in table[user] - {id};
    }
  }

  predicate IsShown(table: Table, user: int, bot: BotId, now: int) {
    user in table && exists id :: id in table[user] && table[user][id].bot == bot && table[user][id].until > now
  }

  class Presence {
    var next: nat
    var shown: Table

    constructor ()
      ensures next == 1 && shown == map[]
    {
      next, shown := 1, map[];
    }

    /** A new connection, which shows nothing yet. */
    method Connect() returns (id: nat)
      modifies this`next
      ensures id == old(next) && next == old(next) + 1
    {
      id := next;
      next := next + 1;
    }

    method Set(user: int, id: nat, bot: Option<BotId>, now: int)
      modifies this`shown
      ensures shown == SetShown(old(shown), user, id, bot, now)
    {
      match bot {
        case Some(b) =>
          if user !in shown {
            shown := shown[user := map[]];
          }
          var connections: map<nat, Shown> := shown[user];
          shown := shown[user := connections[id := Shown(b, now + VIEWING_EXPIRES)]];
        case None =>
          if user in shown {
            shown := shown[user := shown[user] - {id}];
            if shown[user] == map[] {
              shown := shown - {user};
            }
          }
      }
    }

    /** A connection that ends takes back what it said. */
    method Drop(user: int, id: nat, now: int)
      modifies this`shown
      ensures shown == SetShown(old(shown), user, id, None, now)
      ensures Entry(shown, user, id) == None
      ensures forall other: int, key: nat :: (other, key) != (user, id) ==>
                Entry(shown, other, key) == Entry(old(shown), other, key)
    {
      Set(user, id, None, now);
      forall other: int, key: nat
        ensures Entry(shown, other, key)
             == if (other, key) == (user, id) then None else Entry(old(shown), other, key)
      {
        SetShownSets(old(shown), user, id, None, now, other, key);
      }
    }

    /** Whether one of the user's devices shows the Bot now. */
    method IsShownNow(user: int, bot: BotId, now: int) returns (shows: bool)
      ensures shows <==> IsShown(shown, user, bot, now)
    {
      shows := false;
      if user in shown {
        var left := shown[user].Keys;
        while left != {}
          invariant left <= shown[user].Keys
          invariant forall id :: id in shown[user] && id !in left ==>
                      !(shown[user][id].bot == bot && shown[user][id].until > now)
        {
          var id :| id in left;
          if shown[user][id].bot == bot && shown[user][id].until > now {
            return true;
          }
          left := left - {id};
        }
      }
    }
  }
}
