/** The sign-in limiter's guarantees, over every run. */
module LimiterRuns {
  import opened Windows
  import opened LimiterModel
  import opened LimiterProofs
  import opened LimiterJournal

  ghost predicate Inv(accounts: set<string>, s: Tracked) {
    AllLimited(s.failures, s.past, s.now) && JournalInv(accounts, s)
  }

  lemma CountedInOrder(past: seq<int>, counted: seq<int>, limit: nat, now: int)
    requires Limited(past, counted, limit, WINDOW, now)
    ensures Sorted(counted) && forall i :: 0 <= i < |counted| ==> counted[i] <= now
  {
    assert forall i :: 0 <= i < |counted| ==> counted[i] == past[|past| - |counted| + i];
  }

  lemma AllCountedInOrder(failures: Failures, past: Failures, now: int, name: Name)
    requires AllLimited(failures, past, now)
    ensures Sorted(TimesIn(failures, name))
    ensures forall i :: 0 <= i < |TimesIn(failures, name)| ==> TimesIn(failures, name)[i] <= now
  {
    assert Limited(TimesIn(past, name), TimesIn(failures, name), LimitOf(name), WINDOW, now);
    CountedInOrder(TimesIn(past, name), TimesIn(failures, name), LimitOf(name), now);
  }

  lemma {:induction false} InOrderLater(rows: seq<Row>, now: int, later: int)
    requires InOrder(rows, now) && now <= later
    ensures InOrder(rows, later)
  {
    if rows != [] {
      InOrderLater(rows[1..], now, later);
    }
  }

  lemma CheckedInOrder(s: Tracked, attempting: Attempting, at: int, name: Name)
    requires AllLimited(s.failures, s.past, s.now) && s.now <= at
    ensures Sorted(TimesIn(Checked(s.failures, Keys(attempting), at).failures, name))
  {
    KeysAreRight(attempting);
    LimitedLater(s.failures, s.past, s.now, at);
    CheckingStaysLimited(s.failures, Keys(attempting), s.past, at);
    AllCountedInOrder(Checked(s.failures, Keys(attempting), at).failures, s.past, at, name);
  }

  lemma TryKeepsTable(accounts: set<string>, s: Tracked, attempting: Attempting, at: int, evicted: seq<Name>)
    requires AllLimited(s.failures, s.past, s.now) && JournalInv(accounts, s) && s.now <= at
    requires FlagsAgree(accounts, attempting) && EvictsOnlyWhenFull(s.failures, attempting, at, evicted)
    ensures var begun := Begin(s.failures, attempting, at, evicted);
            Agrees(accounts, begun.failures, RecordAll(s.rows, begun.changes), at)
  {
    InOrderLater(s.rows, s.now, at);
    var begun := Begin(s.failures, attempting, at, evicted);
    var rows := RecordAll(s.rows, begun.changes);
    forall name | IsStored(accounts, name)
      ensures TableInv(accounts, rows, at) && AgreesOn(begun.failures, rows, at, name)
    {
      CheckedInOrder(s, attempting, at, name);
      TryingAgrees(accounts, s, attempting, at, evicted, name);
    }
    assert IsStored(accounts, OfUser(0));
  }

  lemma TryKeepsInv(accounts: set<string>, s: Tracked, attempting: Attempting, at: int, evicted: seq<Name>)
    requires Inv(accounts, s) && s.now <= at
    requires FlagsAgree(accounts, attempting) && MayEvict(s.failures, attempting, at, evicted)
    ensures Inv(accounts, Do(accounts, s, Try(attempting, at, evicted)))
  {
    assert EvictsOnlyWhenFull(s.failures, attempting, at, evicted);
    TryingStaysLimited(s, attempting, at, evicted);
    TryKeepsTable(accounts, s, attempting, at, evicted);
  }

  lemma FlagsOf(accounts: set<string>, attempting: Attempting)
    requires FlagsAgree(accounts, attempting)
    ensures var keys := Keys(attempting);
            forall i :: 0 <= i < |keys| ==> (keys[i].stored <==> IsStored(accounts, keys[i].name))
  {
  }

  lemma GoodKeepsTable(accounts: set<string>, s: Tracked, attempting: Attempting, begun: int)
    requires JournalInv(accounts, s) && FlagsAgree(accounts, attempting)
    ensures var freed := Succeed(s.failures, Keys(attempting), begun);
            Agrees(accounts, freed.failures, RecordAll(s.rows, freed.changes), s.now)
  {
    FlagsOf(accounts, attempting);
    var freed := Succeed(s.failures, Keys(attempting), begun);
    var rows := RecordAll(s.rows, freed.changes);
    forall name | IsStored(accounts, name)
      ensures TableInv(accounts, rows, s.now) && AgreesOn(freed.failures, rows, s.now, name)
    {
      SucceedingAgrees(accounts, s.failures, s.rows, Keys(attempting), begun, s.now, name);
    }
    assert IsStored(accounts, OfUser(0));
  }

  lemma GoodKeepsInv(accounts: set<string>, s: Tracked, attempting: Attempting, begun: int)
    requires Inv(accounts, s) && Allowed(accounts, s, Good(attempting, begun))
    ensures Inv(accounts, Do(accounts, s, Good(attempting, begun)))
  {
    var t := Do(accounts, s, Good(attempting, begun));
    SucceedingStaysLimited(s.failures, s.past, Keys(attempting), begun, s.now);
    GoodKeepsTable(accounts, s, attempting, begun);
  }

  lemma {:induction false} NoRowsOf(rows: seq<Row>, name: Name)
    requires forall row :: row in rows ==> row.name != name
    ensures TimesOf(rows, name) == []
  {
    if rows != [] {
      NoRowsOf(rows[1..], name);
    }
  }

  lemma RestartOne(accounts: set<string>, s: Tracked, at: int, name: Name)
    requires Inv(accounts, s) && s.now <= at
    ensures TimesIn(Rebuilt(s.rows, at), name)
         == if IsStored(accounts, name) then Expire(TimesIn(s.failures, name), at) else []
  {
    RebuiltTimes(s.rows, s.now, at, name);
    if IsStored(accounts, name) {
      AgreesLater(s.failures, s.rows, s.now, at, name);
      AllCountedInOrder(s.failures, s.past, s.now, name);
      ExpireIsRecent(TimesIn(s.failures, name), at);
    } else {
      NoRowsOf(s.rows, name);
    }
  }

  lemma RestartedTimes(past: seq<int>, counted: seq<int>, stored: bool, limit: nat, now: int)
    requires Limited(past, counted, limit, WINDOW, now)
    ensures Limited(if stored then past else Cut(past, counted), if stored then Expire(counted, now) else [],
                    limit, WINDOW, now)
  {
    if stored {
      ExpireStaysLimited(past, counted, limit, now);
    } else {
      CutStaysLimited(past, counted, limit, WINDOW, now);
    }
  }

  lemma PastAfterRestart(accounts: set<string>, s: Tracked, at: int, name: Name)
    requires |TimesIn(s.failures, name)| <= |TimesIn(s.past, name)|
    ensures TimesIn(Do(accounts, s, Restart(at)).past, name)
         == if IsStored(accounts, name) then TimesIn(s.past, name)
           else Cut(TimesIn(s.past, name), TimesIn(s.failures, name))
  {
  }

  lemma RestartStaysLimited(accounts: set<string>, s: Tracked, at: int, name: Name)
    requires Inv(accounts, s) && s.now <= at
    ensures var t := Do(accounts, s, Restart(at));
            Limited(TimesIn(t.past, name), TimesIn(t.failures, name), LimitOf(name), WINDOW, at)
  {
    RestartOne(accounts, s, at, name);
    var past, counted := TimesIn(s.past, name), TimesIn(s.failures, name);
    assert Limited(past, counted, LimitOf(name), WINDOW, at) by {
      LimitedLater(s.failures, s.past, s.now, at);
    }
    PastAfterRestart(accounts, s, at, name);
    RestartedTimes(past, counted, IsStored(accounts, name), LimitOf(name), at);
  }

  lemma RestartAgrees(rows: seq<Row>, now: int, at: int, name: Name)
    requires InOrder(rows, now) && now <= at
    ensures AgreesOn(Rebuilt(rows, at), KeepAfter(rows, at - WINDOW), at, name)
  {
    RebuiltTimes(rows, now, at, name);
    KeptTimes(rows, at, name);
  }

  lemma RestartKeepsTable(accounts: set<string>, failures: Failures, rows: seq<Row>, now: int, at: int)
    requires Agrees(accounts, failures, rows, now) && now <= at
    ensures Agrees(accounts, Rebuilt(rows, at), KeepAfter(rows, at - WINDOW), at)
  {
    assert TableInv(accounts, KeepAfter(rows, at - WINDOW), at) by {
      InOrderLater(rows, now, at);
      KeepAfterInOrder(rows, at - WINDOW, at);
    }
    forall name | IsStored(accounts, name)
      ensures AgreesOn(Rebuilt(rows, at), KeepAfter(rows, at - WINDOW), at, name)
    {
      RestartAgrees(rows, now, at, name);
    }
  }

  lemma RestartKeepsInv(accounts: set<string>, s: Tracked, at: int)
    requires Inv(accounts, s) && s.now <= at
    ensures Inv(accounts, Do(accounts, s, Restart(at)))
  {
    hide Limited, Agrees, Rebuilt, KeepAfter;
    var t := Do(accounts, s, Restart(at));
    assert AllLimited(t.failures, t.past, at) by {
      forall name {
        RestartStaysLimited(accounts, s, at, name);
      }
    }
    RestartKeepsTable(accounts, s.failures, s.rows, s.now, at);
  }

  lemma ActKeepsInv(accounts: set<string>, s: Tracked, act: Act)
    requires Inv(accounts, s) && Allowed(accounts, s, act)
    ensures Inv(accounts, Do(accounts, s, act))
  {
    match act {
      case Try(attempting, at, evicted) => TryKeepsInv(accounts, s, attempting, at, evicted);
      case Good(attempting, begun) => GoodKeepsInv(accounts, s, attempting, begun);
      case Restart(at) => RestartKeepsInv(accounts, s, at);
    }
  }

  lemma {:induction false} EveryRunKeepsInv(accounts: set<string>, s: Tracked, acts: seq<Act>, t: Tracked)
    requires Inv(accounts, s) && Leads(accounts, s, acts, t)
    ensures Inv(accounts, t)
    decreases |acts|
  {
    if acts != [] {
      ActKeepsInv(accounts, s, acts[0]);
      EveryRunKeepsInv(accounts, Do(accounts, s, acts[0]), acts[1..], t);
    }
  }

  // ---------------------------------------------------------------------
  // What every run guarantees

  /**
   The sliding window: over every run, no window of fifteen minutes holds more attempts
   under a name than its limit, of those that no success or eviction has removed. A
   restart does not reset it for a name that is stored.
   */
  lemma EveryWindowIsLimited(accounts: set<string>, start: int, acts: seq<Act>, t: Tracked, name: Name, from: int)
    requires Leads(accounts, New(start), acts, t)
    ensures CountWithin(TimesIn(t.past, name), from, 900_000) <= (if name.OfAddress? then 20 else 5)
  {
    EveryRunKeepsInv(accounts, New(start), acts, t);
    assert Limited(TimesIn(t.past, name), TimesIn(t.failures, name), LimitOf(name), WINDOW, t.now);
    WindowsAreLimited(TimesIn(t.past, name), LimitOf(name), WINDOW, from);
  }

  /** The attempts a key still counts at a time. */
  function CountNow(failures: Failures, name: Name, now: int): nat {
    |Recent(TimesIn(failures, name), now)|
  }

  /** An attempt is refused exactly when the window just past is full for one of its names. */
  lemma GrantedExactlyBelowLimit(failures: Failures, attempting: Attempting, at: int, evicted: seq<Name>)
    requires forall name :: name in Names(Keys(attempting)) ==> Sorted(TimesIn(failures, name))
    ensures Begin(failures, attempting, at, evicted).granted
            <==> forall name :: name in Names(Keys(attempting)) ==>
                                  CountNow(failures, name, at) < if name.OfAddress? then 20 else 5
  {
    KeysAreRight(attempting);
    CheckIsExact(failures, Keys(attempting), at);
  }

  lemma {:induction false} CheckIsExact(failures: Failures, keys: seq<Key>, at: int)
    requires KeysRight(keys) && forall name :: name in Names(keys) ==> Sorted(TimesIn(failures, name))
    ensures Checked(failures, keys, at).open
            <==> forall name :: name in Names(keys) ==> CountNow(failures, name, at) < LimitOf(name)
    decreases |keys|
  {
    hide Recent;
    if keys == [] {
      assert Names(keys) == {};
    } else {
      var name := keys[0].name;
      NamesOf(keys);
      assert name in Names(keys);
      ExpireIsRecent(TimesIn(failures, name), at);
      var popped := if name in failures then failures[name := Expire(failures[name], at)] else failures;
      CheckIsExact(popped, keys[1..], at);
      assert forall other :: other in Names(keys[1..]) ==> TimesIn(popped, other) == TimesIn(failures, other);
    }
  }

  /** A granted attempt leaves at most 10 000 keys in memory. */
  lemma MemoryIsBounded(failures: Failures, attempting: Attempting, at: int, evicted: seq<Name>)
    requires MayEvict(failures, attempting, at, evicted)
    requires Begin(failures, attempting, at, evicted).granted
    ensures |Begin(failures, attempting, at, evicted).failures| <= 10_000
  {
    var keys := Keys(attempting);
    KeysAreRight(attempting);
    var check := Checked(failures, keys, at);
    var room := Roomy(check.failures, keys, at, evicted);
    assert |room| + |keys| <= MAX_KEYS;
    PushAllIs(room, keys, at, OfUser(0));
    NamesAreFew(keys);
    UnionIsSmall(room.Keys, Names(keys));
    var after := PushAll(room, keys, at);
    assert |after| == |after.Keys|;
  }

  lemma {:induction false} NamesAreFew(keys: seq<Key>)
    ensures |Names(keys)| <= |keys|
  {
    if keys == [] {
      assert Names(keys) == {};
    } else {
      NamesAreFew(keys[1..]);
      assert Names(keys) == {keys[0].name} + Names(keys[1..]) by {
        assert forall key :: key in keys <==> key == keys[0] || key in keys[1..];
      }
    }
  }

  lemma {:induction false} UnionIsSmall(a: set<Name>, b: set<Name>)
    ensures |a + b| <= |a| + |b|
  {
    assert a + b == a + (b - a);
  }
}
