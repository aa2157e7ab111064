/** The sign-in limiter in place: queues of times by key, and the journal of their changes. */
module Limiter {
  import opened Protocol
  import M = LimiterModel
  import opened LimiterProofs

  class LoginLimiter {
    var failures: M.Failures
    var journal: seq<M.Change>

    /** A limiter that starts from the attempts stored within the window. */
    constructor Persistent(rows: seq<M.Row>, now: int)
      ensures failures == M.Rebuilt(rows, now) && journal == []
    {
      failures, journal := map[], [];
      new;
      var stored := M.ByTime(M.KeepAfter(rows, now - M.WINDOW));
      for i := 0 to |stored|
        invariant failures == M.PushRows(map[], stored[..i]) && journal == []
      {
        assert stored[..i + 1][..i] == stored[..i];
        var times := if stored[i].name in failures then failures[stored[i].name] else [];
        failures := failures[stored[i].name := times + [stored[i].at]];
      }
      assert stored[..|stored|] == stored;
    }

    /** Drops a key's expired times from its front. */
    method PopExpired(name: M.Name, now: int)
      requires name in failures
      modifies this`failures
      ensures failures == old(failures)[name := M.Expire(old(failures)[name], now)]
    {
      var times := failures[name];
      while times != [] && now - times[0] >= M.WINDOW
        invariant M.Expire(times, now) == M.Expire(failures[name], now)
      {
        times := times[1..];
      }
      failures := failures[name := times];
    }

    /** Whether every key is below its limit. */
    method CheckLimits(keys: seq<M.Key>, now: int) returns (open: bool)
      modifies this`failures
      ensures M.Check(failures, open) == M.Checked(old(failures), keys, now)
    {
      for i := 0 to |keys|
        invariant M.Checked(failures, keys[i..], now) == M.Checked(old(failures), keys, now)
      {
        if keys[i].name in failures {
          PopExpired(keys[i].name, now);
          if |failures[keys[i].name]| >= keys[i].limit {
            return false;
          }
        }
        assert keys[i..][1..] == keys[i + 1..];
      }
      return true;
    }

    method OldestKey() returns (oldest: M.Name)
      requires failures != map[] && AllCounted(failures)
      ensures M.IsOldest(failures, oldest)
    {
      oldest :| oldest in failures;
      var left := failures.Keys;
      while left != {}
        invariant left <= failures.Keys && oldest in failures
        invariant forall name :: name in failures && name !in left ==> Newest(oldest) <= Newest(name)
      {
        var name :| name in left;
        if Newest(name) < Newest(oldest) {
          oldest := name;
        }
        left := left - {name};
      }
    }

    function Newest(name: M.Name): int
      requires name in failures && failures[name] != []
      reads this
    {
      failures[name][|failures[name]| - 1]
    }

    method EvictOldest() returns (oldest: M.Name)
      requires failures != map[] && AllCounted(failures)
      modifies this
      ensures M.IsOldest(old(failures), oldest)
      ensures failures == old(failures) - {oldest} && |failures| < |old(failures)|
      ensures journal == old(journal) + [M.Cleared(oldest)]
    {
      oldest := OldestKey();
      OneFewer(failures, oldest);
      failures := failures - {oldest};
      journal := journal + [M.Cleared(oldest)];
    }

    method DropExpired(now: int)
      modifies this`failures
      ensures failures == M.Unexpired(old(failures), now)
    {
      failures := map name | name in failures && failures[name] != []
                             && now - failures[name][|failures[name]| - 1] < M.WINDOW :: failures[name];
    }

    /** Drops expired keys, then the oldest until there is room. */
    method MakeRoom(room: nat, now: int) returns (ghost evicted: seq<M.Name>)
      modifies this
      ensures M.Evicts(M.Unexpired(old(failures), now), room, evicted)
      ensures failures == M.Without(M.Unexpired(old(failures), now), evicted)
      ensures journal == old(journal) + M.Clearings(evicted)
    {
      DropExpired(now);
      ghost var unexpired := failures;
      evicted := [];
      NothingGone(unexpired);
      while |failures| + room > M.MAX_KEYS && failures != map[]
        invariant AllCounted(failures) && Evicted(unexpired, room, evicted, failures)
        invariant journal == old(journal) + M.Clearings(evicted)
        decreases |failures|
      {
        ghost var more := EvictOne(unexpired, room, evicted);
        ClearingsOneMore(old(journal), evicted, more);
        evicted := more;
      }
      EvictedEnough(unexpired, room, evicted, failures);
    }

    method EvictOne(ghost start: M.Failures, room: nat, ghost evicted: seq<M.Name>) returns (ghost more: seq<M.Name>)
      requires |failures| + room > M.MAX_KEYS && failures != map[]
      requires AllCounted(failures) && Evicted(start, room, evicted, failures)
      modifies this
      ensures AllCounted(failures) && Evicted(start, room, more, failures) && |failures| < |old(failures)|
      ensures exists oldest :: more == evicted + [oldest] && journal == old(journal) + [M.Cleared(oldest)]
    {
      ghost var before := failures;
      var oldest := EvictOldest();
      more := evicted + [oldest];
      EvictedOneMore(start, room, evicted, before, oldest);
    }

    method MakeRoomFor(keys: seq<M.Key>, now: int) returns (ghost evicted: seq<M.Name>)
      modifies this
      ensures failures == M.Roomy(old(failures), keys, now, evicted)
      ensures if M.IsFull(old(failures), keys)
              then M.Evicts(M.Unexpired(old(failures), now), |keys|, evicted)
                   && journal == old(journal) + M.Clearings(evicted)
              else evicted == [] && journal == old(journal)
    {
      evicted := [];
      if |failures| + |keys| > M.MAX_KEYS {
        evicted := MakeRoom(|keys|, now);
      }
    }

    method PushKeys(keys: seq<M.Key>, now: int)
      modifies this`failures
      ensures failures == M.PushAll(old(failures), keys, now)
    {
      for i := 0 to |keys|
        invariant M.PushAll(failures, keys[i..], now) == M.PushAll(old(failures), keys, now)
      {
        var times := if keys[i].name in failures then failures[keys[i].name] else [];
        failures := failures[keys[i].name := times + [now]];
        assert keys[i..][1..] == keys[i + 1..];
      }
    }

    /** Counts an attempt, or refuses it when any of its keys is at its limit. */
    method Begin(attempting: M.Attempting, now: int) returns (attempt: Option<M.Attempt>, ghost evicted: seq<M.Name>)
      modifies this
      ensures M.MayEvict(old(failures), attempting, now, evicted)
      ensures var begun := M.Begin(old(failures), attempting, now, evicted);
              && failures == begun.failures && journal == old(journal) + begun.changes
              && attempt == if begun.granted then Some(M.Attempt(M.Keys(attempting), now)) else None
    {
      var keys := M.Keys(attempting);
      var open := CheckLimits(keys, now);
      if !open {
        return None, [];
      }
      evicted := MakeRoomFor(keys, now);
      PushKeys(keys, now);
      journal := journal + [M.Counted(M.StoredNames(keys), now)];
      attempt := Some(M.Attempt(keys, now));
    }

    /** A success under one key: it forgets the key, or only this attempt. */
    method SucceedKey(key: M.Key, at: int)
      modifies this
      ensures var freed := M.SucceedKey(old(failures), key, at);
              failures == freed.failures && journal == old(journal) + freed.changes
    {
      if key.clear {
        failures := failures - {key.name};
        if key.stored {
          journal := journal + [M.Cleared(key.name)];
        }
      } else if key.name in failures && at in failures[key.name] {
        failures := failures[key.name := M.RemoveFirst(failures[key.name], at)];
        if key.stored {
          journal := journal + [M.TakenBack(key.name, at)];
        }
      }
    }

    /** Takes back a successful attempt. */
    method Succeeded(attempt: M.Attempt)
      modifies this
      ensures var freed := M.Succeed(old(failures), attempt.keys, attempt.at);
              failures == freed.failures && journal == old(journal) + freed.changes
    {
      for i := 0 to |attempt.keys|
        invariant SucceedsFrom(old(failures), old(journal), attempt, failures, journal, i)
      {
        ghost var before, journalled := failures, journal;
        SucceedKey(attempt.keys[i], attempt.at);
        SucceedOn(old(failures), old(journal), attempt, before, journalled, i);
      }
    }
  }

  lemma OneFewer(failures: M.Failures, name: M.Name)
    requires name in failures
    ensures |failures - {name}| < |failures|
  {
    assert |failures.Keys| == |failures| && |(failures - {name}).Keys| == |failures - {name}|;
    assert (failures - {name}).Keys == failures.Keys - {name};
  }

  predicate AllCounted(failures: M.Failures) {
    forall name :: name in failures ==> failures[name] != []
  }

  /** These keys went, each as it had to, and these are left. */
  ghost predicate Evicted(start: M.Failures, room: nat, evicted: seq<M.Name>, left: M.Failures) {
    && left == M.Without(start, evicted)
    && forall i :: 0 <= i < |evicted| ==> M.HadToGo(start, room, evicted, i)
  }

  lemma EvictedEnough(start: M.Failures, room: nat, evicted: seq<M.Name>, left: M.Failures)
    requires Evicted(start, room, evicted, left) && (|left| + room <= M.MAX_KEYS || left == map[])
    ensures M.Evicts(start, room, evicted)
  {
  }

  lemma ClearingsOneMore(journal: seq<M.Change>, evicted: seq<M.Name>, more: seq<M.Name>)
    requires |more| == |evicted| + 1 && more[..|evicted|] == evicted
    ensures journal + M.Clearings(evicted) + [M.Cleared(more[|evicted|])] == journal + M.Clearings(more)
  {
  }

  lemma NothingGone(start: M.Failures)
    ensures M.Without(start, []) == start
  {
  }

  lemma EvictedOneMore(start: M.Failures, room: nat, evicted: seq<M.Name>, left: M.Failures, oldest: M.Name)
    requires Evicted(start, room, evicted, left) && |left| + room > M.MAX_KEYS && M.IsOldest(left, oldest)
    ensures Evicted(start, room, evicted + [oldest], left - {oldest})
  {
    var more := evicted + [oldest];
    forall i | 0 <= i < |more|
      ensures M.HadToGo(start, room, more, i)
    {
      if i < |evicted| {
        assert more[..i] == evicted[..i] && M.HadToGo(start, room, evicted, i);
      } else {
        assert more[..i] == evicted;
      }
    }
  }

  /** What is left of a success, done from its i-th key on, ends as the whole success does. */
  predicate SucceedsFrom(start: M.Failures, journal: seq<M.Change>, attempt: M.Attempt,
                         failures: M.Failures, journalled: seq<M.Change>, i: nat)
    requires i <= |attempt.keys|
  {
    var whole := M.Succeed(start, attempt.keys, attempt.at);
    var rest := M.Succeed(failures, attempt.keys[i..], attempt.at);
    rest.failures == whole.failures && journalled + rest.changes == journal + whole.changes
  }

  lemma SucceedOn(start: M.Failures, journal: seq<M.Change>, attempt: M.Attempt,
                  failures: M.Failures, journalled: seq<M.Change>, i: nat)
    requires i < |attempt.keys| && SucceedsFrom(start, journal, attempt, failures, journalled, i)
    ensures var one := M.SucceedKey(failures, attempt.keys[i], attempt.at);
            SucceedsFrom(start, journal, attempt, one.failures, journalled + one.changes, i + 1)
  {
    assert attempt.keys[i..][1..] == attempt.keys[i + 1..];
  }
}
