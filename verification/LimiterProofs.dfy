/**
 What the sign-in limiter guarantees over every run of overlapping attempts, successes,
 evictions and restarts on a clock that does not go back.
 */
module LimiterProofs {
  import opened Windows
  import opened LimiterModel

  // ---------------------------------------------------------------------
  // Runs

  /**
   The counts in memory and the table behind them, with every attempt counted under each
   name that no success, eviction or unstored restart has removed.
   */
  datatype Tracked = Tracked(failures: Failures, rows: seq<Row>, past: Failures, now: int)

  datatype Act =
    | Try(attempting: Attempting, at: int, evicted: seq<Name>)
    | Good(attempting: Attempting, begun: int)
    | Restart(at: int)

  function TimesIn(failures: Failures, name: Name): seq<int> {
    if name in failures then failures[name] else []
  }

  /** The names stored: every address and user, and the accounts that exist. */
  predicate IsStored(accounts: set<string>, name: Name) {
    name.OfAccount? ==> name.username in accounts
  }

  predicate FlagsAgree(accounts: set<string>, attempting: Attempting) {
    attempting.SignIn? ==> (attempting.accountExists <==> IsStored(accounts, AccountName(attempting.username)))
  }

  function LimitOf(name: Name): nat {
    if name.OfAddress? then PER_ADDRESS else PER_ACCOUNT
  }

  ghost predicate Allowed(accounts: set<string>, s: Tracked, act: Act) {
    match act
    case Try(attempting, at, evicted) =>
      at >= s.now && FlagsAgree(accounts, attempting) && MayEvict(s.failures, attempting, at, evicted)
    case Good(attempting, begun) => begun <= s.now && FlagsAgree(accounts, attempting)
    case Restart(at) => at >= s.now
  }

  function PastWithout(past: Failures, failures: Failures, gone: set<Name>): Failures {
    map name | name in past ::
      if name in gone then Cut(past[name], TimesIn(failures, name)) else past[name]
  }

  function PastSucceeded(past: Failures, failures: Failures, keys: seq<Key>, at: int): Failures
    decreases |keys|
  {
    if keys == [] then past
    else
      var name := keys[0].name;
      var after := SucceedKey(failures, keys[0], at).failures;
      var left := past[name := Cut(TimesIn(past, name), TimesIn(failures, name)) + TimesIn(after, name)];
      PastSucceeded(left, after, keys[1..], at)
  }

  function Names(keys: seq<Key>): set<Name> {
    set key | key in keys :: key.name
  }

  ghost function Do(accounts: set<string>, s: Tracked, act: Act): Tracked {
    match act
    case Try(attempting, at, evicted) =>
      var begun := Begin(s.failures, attempting, at, evicted);
      var checked := Checked(s.failures, Keys(attempting), at).failures;
      var left := PastWithout(s.past, checked, set name | name in evicted);
      Tracked(begun.failures, RecordAll(s.rows, begun.changes),
              if begun.granted then PushAll(left, Keys(attempting), at) else s.past, at)
    case Good(attempting, begun) =>
      var freed := Succeed(s.failures, Keys(attempting), begun);
      Tracked(freed.failures, RecordAll(s.rows, freed.changes),
              PastSucceeded(s.past, s.failures, Keys(attempting), begun), s.now)
    case Restart(at) =>
      Tracked(Rebuilt(s.rows, at), KeepAfter(s.rows, at - WINDOW),
              PastWithout(s.past, s.failures, set name | name in s.past && !IsStored(accounts, name)), at)
  }

  ghost predicate Leads(accounts: set<string>, s: Tracked, acts: seq<Act>, t: Tracked)
    decreases |acts|
  {
    if acts == [] then s == t
    else Allowed(accounts, s, acts[0]) && Leads(accounts, Do(accounts, s, acts[0]), acts[1..], t)
  }

  function New(now: int): Tracked {
    Tracked(map[], [], map[], now)
  }

  // ---------------------------------------------------------------------
  // One name's times

  lemma {:induction false} ExpireStaysLimited(past: seq<int>, counted: seq<int>, limit: nat, now: int)
    requires Limited(past, counted, limit, WINDOW, now)
    ensures Limited(past, Expire(counted, now), limit, WINDOW, now)
    decreases |counted|
  {
    if counted != [] && now - counted[0] >= WINDOW {
      assert past[|past| - |counted|] == counted[0];
      assert past[|past| - |counted[1..]|..] == counted[1..];
      ExpireStaysLimited(past, counted[1..], limit, now);
    }
  }

  lemma {:induction false} RemoveFirstAt(times: seq<int>, at: int) returns (k: nat)
    requires at in times
    ensures k < |times| && times[k] == at && RemoveFirst(times, at) == times[..k] + times[k + 1..]
    decreases |times|
  {
    if times[0] == at {
      k := 0;
    } else {
      var j := RemoveFirstAt(times[1..], at);
      k := j + 1;
      assert times[..k] + times[k + 1..] == [times[0]] + (times[1..][..j] + times[1..][j + 1..]);
    }
  }

  lemma TakingBackStaysLimited(past: seq<int>, counted: seq<int>, at: int, limit: nat, now: int)
    requires Limited(past, counted, limit, WINDOW, now) && at in counted
    ensures Limited(Cut(past, counted) + RemoveFirst(counted, at), RemoveFirst(counted, at), limit, WINDOW, now)
  {
    var k := RemoveFirstAt(counted, at);
    RemovingStaysLimited(past, counted, limit, WINDOW, now, k);
  }

  /** An attempt under the limit keeps every window within it. */
  lemma CountingStaysLimited(past: seq<int>, counted: seq<int>, limit: nat, now: int)
    requires Limited(past, counted, limit, WINDOW, now) && |counted| < limit
    ensures Limited(past + [now], counted + [now], limit, WINDOW, now)
  {
    AddingKeepsSpaced(past, limit, WINDOW, now);
  }

  // ---------------------------------------------------------------------
  // Every name

  ghost predicate AllLimited(failures: Failures, past: Failures, now: int) {
    forall name :: Limited(TimesIn(past, name), TimesIn(failures, name), LimitOf(name), WINDOW, now)
  }

  lemma LimitedLater(failures: Failures, past: Failures, now: int, later: int)
    requires AllLimited(failures, past, now) && now <= later
    ensures AllLimited(failures, past, later)
  {
    forall name
      ensures Limited(TimesIn(past, name), TimesIn(failures, name), LimitOf(name), WINDOW, later)
    {
      assert Limited(TimesIn(past, name), TimesIn(failures, name), LimitOf(name), WINDOW, now);
    }
  }

  predicate KeysRight(keys: seq<Key>) {
    && (forall i :: 0 <= i < |keys| ==> keys[i].limit == LimitOf(keys[i].name))
    && (forall i, j :: 0 <= i < j < |keys| ==> keys[i].name != keys[j].name)
  }

  lemma KeysAreRight(attempting: Attempting)
    ensures KeysRight(Keys(attempting)) && 0 < |Keys(attempting)| <= 2
  {
  }

  /** A check changes a name's times only by dropping those expired, and opens below each limit. */
  lemma {:induction false} CheckedTimes(failures: Failures, keys: seq<Key>, now: int, name: Name)
    requires KeysRight(keys)
    ensures var check := Checked(failures, keys, now);
            && TimesIn(check.failures, name) in {TimesIn(failures, name), Expire(TimesIn(failures, name), now)}
            && check.failures.Keys == failures.Keys
            && (name !in Names(keys) ==> TimesIn(check.failures, name) == TimesIn(failures, name))
            && (check.open && name in Names(keys) ==>
                  && TimesIn(check.failures, name) == Expire(TimesIn(failures, name), now)
                  && |TimesIn(check.failures, name)| < LimitOf(name))
    decreases |keys|
  {
    if keys != [] {
      var key := keys[0];
      var popped := if key.name in failures then failures[key.name := Expire(failures[key.name], now)] else failures;
      NamesOf(keys);
      CheckedTimes(popped, keys[1..], now, name);
    }
  }

  lemma NamesOf(keys: seq<Key>)
    requires KeysRight(keys) && keys != []
    ensures Names(keys) == {keys[0].name} + Names(keys[1..]) && keys[0].name !in Names(keys[1..])
    ensures keys[0].limit == LimitOf(keys[0].name)
  {
    assert forall key :: key in keys <==> key == keys[0] || key in keys[1..];
  }

  lemma CheckingStaysLimited(failures: Failures, keys: seq<Key>, past: Failures, now: int)
    requires AllLimited(failures, past, now) && KeysRight(keys)
    ensures AllLimited(Checked(failures, keys, now).failures, past, now)
  {
    var checked := Checked(failures, keys, now).failures;
    forall name
      ensures Limited(TimesIn(past, name), TimesIn(checked, name), LimitOf(name), WINDOW, now)
    {
      assert Limited(TimesIn(past, name), TimesIn(failures, name), LimitOf(name), WINDOW, now);
      CheckedTimes(failures, keys, now, name);
      ExpireStaysLimited(TimesIn(past, name), TimesIn(failures, name), LimitOf(name), now);
    }
  }

  predicate IsAged(counted: seq<int>, now: int) {
    counted == [] || now - counted[|counted| - 1] >= WINDOW
  }

  lemma RoomTimes(failures: Failures, past: Failures, now: int, evicted: seq<Name>, name: Name)
    ensures TimesIn(Without(Unexpired(failures, now), evicted), name)
         == if name in evicted || IsAged(TimesIn(failures, name), now) then [] else TimesIn(failures, name)
    ensures |TimesIn(failures, name)| <= |TimesIn(past, name)| ==>
              TimesIn(PastWithout(past, failures, set name | name in evicted), name)
              == if name in evicted then Cut(TimesIn(past, name), TimesIn(failures, name)) else TimesIn(past, name)
  {
  }

  lemma RoomLeavesLimited(past: seq<int>, counted: seq<int>, evicted: bool, limit: nat, now: int)
    requires Limited(past, counted, limit, WINDOW, now)
    ensures Limited(if evicted then Cut(past, counted) else past,
                    if evicted || IsAged(counted, now) then [] else counted, limit, WINDOW, now)
  {
    if evicted {
      CutStaysLimited(past, counted, limit, WINDOW, now);
    } else if IsAged(counted, now) {
      AgedStaysLimited(past, counted, limit, now);
    }
  }

  /** Keys dropped for their age leave the past as it is; evicted ones leave it too. */
  lemma MakingRoomStaysLimited(failures: Failures, past: Failures, now: int, evicted: seq<Name>)
    requires AllLimited(failures, past, now)
    ensures AllLimited(Without(Unexpired(failures, now), evicted),
                       PastWithout(past, failures, set name | name in evicted), now)
  {
    var left := PastWithout(past, failures, set name | name in evicted);
    var kept := Without(Unexpired(failures, now), evicted);
    forall name
      ensures Limited(TimesIn(left, name), TimesIn(kept, name), LimitOf(name), WINDOW, now)
    {
      assert Limited(TimesIn(past, name), TimesIn(failures, name), LimitOf(name), WINDOW, now);
      RoomTimes(failures, past, now, evicted, name);
      RoomLeavesLimited(TimesIn(past, name), TimesIn(failures, name), name in evicted, LimitOf(name), now);
    }
  }

  lemma AgedStaysLimited(past: seq<int>, counted: seq<int>, limit: nat, now: int)
    requires Limited(past, counted, limit, WINDOW, now)
    requires IsAged(counted, now)
    ensures Limited(past, [], limit, WINDOW, now)
  {
    if counted != [] {
      assert past[|past| - 1] == counted[|counted| - 1];
    }
  }

  lemma {:induction false} PushAllIs(failures: Failures, keys: seq<Key>, now: int, name: Name)
    requires KeysRight(keys)
    ensures TimesIn(PushAll(failures, keys, now), name)
         == TimesIn(failures, name) + if name in Names(keys) then [now] else []
    ensures PushAll(failures, keys, now).Keys == failures.Keys + Names(keys)
    decreases |keys|
  {
    if keys != [] {
      PushAllIs(Push(failures, keys[0].name, now), keys[1..], now, name);
      assert Names(keys) == {keys[0].name} + Names(keys[1..]) by {
        assert forall key :: key in keys <==> key == keys[0] || key in keys[1..];
      }
      assert keys[0].name !in Names(keys[1..]);
    }
  }

  lemma PushingStaysLimited(failures: Failures, past: Failures, keys: seq<Key>, now: int)
    requires AllLimited(failures, past, now) && KeysRight(keys)
    requires forall name :: name in Names(keys) ==> |TimesIn(failures, name)| < LimitOf(name)
    ensures AllLimited(PushAll(failures, keys, now), PushAll(past, keys, now), now)
  {
    forall name
      ensures Limited(TimesIn(PushAll(past, keys, now), name), TimesIn(PushAll(failures, keys, now), name),
                      LimitOf(name), WINDOW, now)
    {
      PushingOne(failures, past, keys, now, name);
    }
  }

  lemma PushingOne(failures: Failures, past: Failures, keys: seq<Key>, now: int, name: Name)
    requires KeysRight(keys) && Limited(TimesIn(past, name), TimesIn(failures, name), LimitOf(name), WINDOW, now)
    requires name in Names(keys) ==> |TimesIn(failures, name)| < LimitOf(name)
    ensures Limited(TimesIn(PushAll(past, keys, now), name), TimesIn(PushAll(failures, keys, now), name),
                    LimitOf(name), WINDOW, now)
  {
    PushAllIs(past, keys, now, name);
    PushAllIs(failures, keys, now, name);
    if name in Names(keys) {
      CountingStaysLimited(TimesIn(past, name), TimesIn(failures, name), LimitOf(name), now);
    } else {
      assert TimesIn(past, name) + [] == TimesIn(past, name);
    }
  }

  /** The counts an attempt starts from, once there is room, and the past beside them. */
  lemma RoomStaysLimited(failures: Failures, keys: seq<Key>, past: Failures, at: int, evicted: seq<Name>)
    requires AllLimited(failures, past, at) && (!IsFull(failures, keys) ==> evicted == [])
    ensures AllLimited(Roomy(failures, keys, at, evicted), PastWithout(past, failures, set name | name in evicted), at)
  {
    if IsFull(failures, keys) {
      MakingRoomStaysLimited(failures, past, at, evicted);
    } else {
      assert PastWithout(past, failures, set name | name in evicted) == past;
    }
  }

  lemma RoomIsBelowLimits(failures: Failures, keys: seq<Key>, at: int, evicted: seq<Name>)
    requires KeysRight(keys) && Checked(failures, keys, at).open
    ensures var room := Roomy(Checked(failures, keys, at).failures, keys, at, evicted);
            forall name :: name in Names(keys) ==> |TimesIn(room, name)| < LimitOf(name)
  {
    var checked := Checked(failures, keys, at).failures;
    var room := Roomy(checked, keys, at, evicted);
    forall name | name in Names(keys)
      ensures |TimesIn(room, name)| < LimitOf(name)
    {
      CheckedTimes(failures, keys, at, name);
      assert TimesIn(room, name) in {[], TimesIn(checked, name)};
    }
  }

  lemma TryingStaysLimited(s: Tracked, attempting: Attempting, at: int, evicted: seq<Name>)
    requires AllLimited(s.failures, s.past, s.now) && s.now <= at
    requires !IsFull(Checked(s.failures, Keys(attempting), at).failures, Keys(attempting)) ==> evicted == []
    ensures var begun := Begin(s.failures, attempting, at, evicted);
            var checked := Checked(s.failures, Keys(attempting), at).failures;
            var left := PastWithout(s.past, checked, set name | name in evicted);
            AllLimited(begun.failures, if begun.granted then PushAll(left, Keys(attempting), at) else s.past, at)
  {
    var keys := Keys(attempting);
    KeysAreRight(attempting);
    LimitedLater(s.failures, s.past, s.now, at);
    CheckingStaysLimited(s.failures, keys, s.past, at);
    var check := Checked(s.failures, keys, at);
    if check.open {
      RoomStaysLimited(check.failures, keys, s.past, at, evicted);
      RoomIsBelowLimits(s.failures, keys, at, evicted);
      PushingStaysLimited(Roomy(check.failures, keys, at, evicted),
                          PastWithout(s.past, check.failures, set name | name in evicted), keys, at);
    }
  }

  /** A name's times after a success under a key of that name. */
  function SucceededTimes(times: seq<int>, clear: bool, at: int): seq<int> {
    if clear then [] else if at in times then RemoveFirst(times, at) else times
  }

  lemma SucceedKeyTimes(failures: Failures, key: Key, at: int, name: Name)
    ensures TimesIn(SucceedKey(failures, key, at).failures, name)
         == if name == key.name then SucceededTimes(TimesIn(failures, name), key.clear, at) else TimesIn(failures, name)
  {
  }

  lemma SucceededStaysLimited(past: seq<int>, counted: seq<int>, clear: bool, at: int, limit: nat, now: int)
    requires Limited(past, counted, limit, WINDOW, now)
    ensures var left := SucceededTimes(counted, clear, at);
            Limited(Cut(past, counted) + left, left, limit, WINDOW, now)
  {
    if clear {
      CutStaysLimited(past, counted, limit, WINDOW, now);
      assert Cut(past, counted) + [] == Cut(past, counted);
    } else if at in counted {
      TakingBackStaysLimited(past, counted, at, limit, now);
    } else {
      assert Cut(past, counted) + counted == past;
    }
  }

  /** Success under one key: the counts it leaves and the past it leaves them. */
  lemma SucceedingOne(failures: Failures, past: Failures, key: Key, at: int, now: int)
    requires AllLimited(failures, past, now)
    ensures var after := SucceedKey(failures, key, at).failures;
            AllLimited(after, past[key.name := Cut(TimesIn(past, key.name), TimesIn(failures, key.name))
                                               + TimesIn(after, key.name)], now)
  {
    var after := SucceedKey(failures, key, at).failures;
    var before, counted := TimesIn(past, key.name), TimesIn(failures, key.name);
    var left := past[key.name := Cut(before, counted) + TimesIn(after, key.name)];
    forall name
      ensures Limited(TimesIn(left, name), TimesIn(after, name), LimitOf(name), WINDOW, now)
    {
      assert Limited(TimesIn(past, name), TimesIn(failures, name), LimitOf(name), WINDOW, now);
      SucceedKeyTimes(failures, key, at, name);
      if name == key.name {
        SucceededStaysLimited(before, counted, key.clear, at, LimitOf(name), now);
      } else {
        assert TimesIn(left, name) == TimesIn(past, name);
      }
    }
  }

  lemma {:induction false} SucceedingStaysLimited(failures: Failures, past: Failures, keys: seq<Key>, at: int, now: int)
    requires AllLimited(failures, past, now)
    ensures AllLimited(Succeed(failures, keys, at).failures, PastSucceeded(past, failures, keys, at), now)
    decreases |keys|
  {
    if keys != [] {
      SucceedingOne(failures, past, keys[0], at, now);
      var name := keys[0].name;
      var after := SucceedKey(failures, keys[0], at).failures;
      var left := past[name := Cut(TimesIn(past, name), TimesIn(failures, name)) + TimesIn(after, name)];
      SucceedingStaysLimited(after, left, keys[1..], at, now);
    }
  }
}
