/**
 The table behind the sign-in limiter agrees with memory on every time inside the window,
 so a limiter rebuilt from it after a restart answers as the running one would have.
 */
module LimiterJournal {
  import opened Windows
  import opened LimiterModel
  import opened LimiterProofs

  /** The times inside the window. */
  function Recent(times: seq<int>, now: int): seq<int> {
    if times == [] then []
    else if now - times[0] < WINDOW then [times[0]] + Recent(times[1..], now)
    else Recent(times[1..], now)
  }

  /** The rows are in order of time, none later than now. */
  predicate InOrder(rows: seq<Row>, now: int) {
    rows == []
    || (&& rows[0].at <= now
        && (forall row :: row in rows[1..] ==> rows[0].at <= row.at)
        && InOrder(rows[1..], now))
  }

  predicate OnlyStored(accounts: set<string>, rows: seq<Row>) {
    forall row :: row in rows ==> IsStored(accounts, row.name)
  }

  /** Table and memory hold the same times of the name inside the window. */
  predicate AgreesOn(failures: Failures, rows: seq<Row>, now: int, name: Name) {
    Recent(TimesOf(rows, name), now) == Recent(TimesIn(failures, name), now)
  }

  ghost predicate Agrees(accounts: set<string>, failures: Failures, rows: seq<Row>, now: int) {
    && TableInv(accounts, rows, now)
    && forall name :: IsStored(accounts, name) ==> AgreesOn(failures, rows, now, name)
  }

  ghost predicate JournalInv(accounts: set<string>, s: Tracked) {
    Agrees(accounts, s.failures, s.rows, s.now)
  }

  // ---------------------------------------------------------------------
  // Times

  lemma {:induction false} RecentThen(a: seq<int>, b: seq<int>, now: int)
    ensures Recent(a + b, now) == Recent(a, now) + Recent(b, now)
  {
    if a == [] {
      assert a + b == b;
    } else {
      assert (a + b)[1..] == a[1..] + b;
      RecentThen(a[1..], b, now);
    }
  }

  lemma {:induction false} RecentLater(times: seq<int>, now: int, later: int)
    requires now <= later
    ensures Recent(Recent(times, now), later) == Recent(times, later)
  {
    if times != [] {
      RecentLater(times[1..], now, later);
      RecentThen(if now - times[0] < WINDOW then [times[0]] else [], Recent(times[1..], now), later);
    }
  }

  lemma {:induction false} RecentOfExpired(times: seq<int>, now: int)
    ensures Recent(Expire(times, now), now) == Recent(times, now)
  {
    if times != [] && now - times[0] >= WINDOW {
      RecentOfExpired(times[1..], now);
    }
  }

  lemma {:induction false} RecentOfNone(times: seq<int>, now: int)
    requires forall i :: 0 <= i < |times| ==> now - times[i] >= WINDOW
    ensures Recent(times, now) == []
  {
    if times != [] {
      RecentOfNone(times[1..], now);
    }
  }

  lemma {:induction false} RecentOfAll(times: seq<int>, now: int)
    requires forall i :: 0 <= i < |times| ==> now - times[i] < WINDOW
    ensures Recent(times, now) == times
  {
    if times != [] {
      RecentOfAll(times[1..], now);
    }
  }

  /** In order of time, those in the window are what is left when the expired ones are dropped. */
  lemma {:induction false} ExpireIsRecent(times: seq<int>, now: int)
    requires Sorted(times)
    ensures Expire(times, now) == Recent(times, now)
  {
    if times != [] {
      if now - times[0] >= WINDOW {
        ExpireIsRecent(times[1..], now);
      } else {
        RecentOfAll(times, now);
      }
    }
  }

  lemma {:induction false} RecentOfRemoved(times: seq<int>, at: int, now: int)
    ensures Recent(RemoveFirst(times, at), now)
         == if now - at < WINDOW then RemoveFirst(Recent(times, now), at) else Recent(times, now)
  {
    if times != [] && times[0] != at {
      RecentOfRemoved(times[1..], at, now);
      assert ([times[0]] + RemoveFirst(times[1..], at))[1..] == RemoveFirst(times[1..], at);
      assert ([times[0]] + Recent(times[1..], now))[1..] == Recent(times[1..], now);
    }
  }

  lemma {:induction false} RemovingNone(times: seq<int>, at: int)
    requires at !in times
    ensures RemoveFirst(times, at) == times
  {
    if times != [] {
      RemovingNone(times[1..], at);
    }
  }

  // ---------------------------------------------------------------------
  // Rows

  lemma {:induction false} TimesThen(a: seq<Row>, b: seq<Row>, name: Name)
    ensures TimesOf(a + b, name) == TimesOf(a, name) + TimesOf(b, name)
  {
    if a == [] {
      assert a + b == b;
    } else {
      assert (a + b)[1..] == a[1..] + b;
      TimesThen(a[1..], b, name);
    }
  }

  lemma {:induction false} KeepAfterInOrder(rows: seq<Row>, bound: int, now: int)
    requires InOrder(rows, now)
    ensures InOrder(KeepAfter(rows, bound), now) && forall row :: row in KeepAfter(rows, bound) ==> row in rows
  {
    if rows != [] {
      KeepAfterInOrder(rows[1..], bound, now);
      var rest := KeepAfter(rows[1..], bound);
      assert ([rows[0]] + rest)[1..] == rest;
    }
  }

  lemma {:induction false} KeepAfterTimes(rows: seq<Row>, bound: int, now: int, name: Name)
    requires bound <= now - WINDOW
    ensures Recent(TimesOf(KeepAfter(rows, bound), name), now) == Recent(TimesOf(rows, name), now)
  {
    if rows != [] {
      KeepAfterTimes(rows[1..], bound, now, name);
      var first := if rows[0].at > bound then [rows[0]] else [];
      TimesThen(first, KeepAfter(rows[1..], bound), name);
      RecentThen(TimesOf(first, name), TimesOf(KeepAfter(rows[1..], bound), name), now);
      assert [rows[0]] + rows[1..] == rows;
      TimesThen([rows[0]], rows[1..], name);
      RecentThen(TimesOf([rows[0]], name), TimesOf(rows[1..], name), now);
    }
  }

  lemma {:induction false} KeepOthersInOrder(rows: seq<Row>, gone: Name, now: int)
    requires InOrder(rows, now)
    ensures InOrder(KeepOthers(rows, gone), now) && forall row :: row in KeepOthers(rows, gone) ==> row in rows
  {
    if rows != [] {
      KeepOthersInOrder(rows[1..], gone, now);
      var rest := KeepOthers(rows[1..], gone);
      assert ([rows[0]] + rest)[1..] == rest;
    }
  }

  lemma {:induction false} KeepOthersTimes(rows: seq<Row>, gone: Name, name: Name)
    ensures TimesOf(KeepOthers(rows, gone), name) == if name == gone then [] else TimesOf(rows, name)
  {
    if rows != [] {
      KeepOthersTimes(rows[1..], gone, name);
      TimesThen(if rows[0].name != gone then [rows[0]] else [], KeepOthers(rows[1..], gone), name);
    }
  }

  lemma {:induction false} RemoveRowInOrder(rows: seq<Row>, row: Row, now: int)
    requires InOrder(rows, now)
    ensures InOrder(RemoveRow(rows, row), now) && forall r :: r in RemoveRow(rows, row) ==> r in rows
  {
    if rows != [] && rows[0] != row {
      RemoveRowInOrder(rows[1..], row, now);
      var rest := RemoveRow(rows[1..], row);
      assert ([rows[0]] + rest)[1..] == rest;
    }
  }

  lemma {:induction false} RemoveRowTimes(rows: seq<Row>, row: Row, name: Name)
    ensures TimesOf(RemoveRow(rows, row), name)
         == if name == row.name then RemoveFirst(TimesOf(rows, name), row.at) else TimesOf(rows, name)
  {
    if rows != [] {
      if rows[0] == row {
        FirstRemoved(TimesOf(rows[1..], name), row.at);
      } else {
        RemoveRowTimes(rows[1..], row, name);
        OneRowTimes(rows[0], RemoveRow(rows[1..], row), name);
        if rows[0].at != row.at {
          FirstKept(rows[0].at, TimesOf(rows[1..], name), row.at);
        }
      }
    }
  }

  lemma OneRowTimes(row: Row, rest: seq<Row>, name: Name)
    ensures TimesOf([row] + rest, name)
            == if row.name == name then [row.at] + TimesOf(rest, name) else TimesOf(rest, name)
  {
    assert ([row] + rest)[1..] == rest;
  }

  lemma FirstRemoved(rest: seq<int>, at: int)
    ensures RemoveFirst([at] + rest, at) == rest
  {
    assert ([at] + rest)[1..] == rest;
  }

  lemma FirstKept(first: int, rest: seq<int>, at: int)
    requires first != at
    ensures RemoveFirst([first] + rest, at) == [first] + RemoveFirst(rest, at)
  {
    assert ([first] + rest)[1..] == rest;
  }

  lemma {:induction false} AddedInOrder(rows: seq<Row>, names: seq<Name>, at: int)
    requires InOrder(rows, at)
    ensures InOrder(rows + RowsFor(names, at), at)
  {
    if rows != [] {
      AddedInOrder(rows[1..], names, at);
      assert (rows + RowsFor(names, at))[1..] == rows[1..] + RowsFor(names, at);
    } else {
      NewInOrder(names, at);
      assert rows + RowsFor(names, at) == RowsFor(names, at);
    }
  }

  lemma {:induction false} NewInOrder(names: seq<Name>, at: int)
    ensures InOrder(RowsFor(names, at), at)
  {
    if names != [] {
      assert RowsFor(names, at)[1..] == RowsFor(names[1..], at);
      NewInOrder(names[1..], at);
    }
  }

  lemma {:induction false} TimesOfRows(names: seq<Name>, at: int, name: Name)
    requires forall i, j :: 0 <= i < j < |names| ==> names[i] != names[j]
    ensures TimesOf(RowsFor(names, at), name) == if name in names then [at] else []
  {
    if names != [] {
      assert RowsFor(names, at)[1..] == RowsFor(names[1..], at);
      TimesOfRows(names[1..], at, name);
    }
  }

  // ---------------------------------------------------------------------
  // One act, and the changes it journals

  lemma {:induction false} RecordThen(rows: seq<Row>, a: seq<Change>, b: seq<Change>)
    ensures RecordAll(rows, a + b) == RecordAll(RecordAll(rows, a), b)
    decreases |a|
  {
    if a == [] {
      assert a + b == b;
    } else {
      assert (a + b)[1..] == a[1..] + b;
      RecordThen(Record(rows, a[0]), a[1..], b);
    }
  }

  /** What every change keeps of the table. */
  ghost predicate TableInv(accounts: set<string>, rows: seq<Row>, now: int) {
    InOrder(rows, now) && OnlyStored(accounts, rows)
  }

  lemma {:induction false} ClearingsClear(accounts: set<string>, rows: seq<Row>, evicted: seq<Name>, now: int,
                                          name: Name)
    requires TableInv(accounts, rows, now)
    ensures TableInv(accounts, RecordAll(rows, Clearings(evicted)), now)
    ensures TimesOf(RecordAll(rows, Clearings(evicted)), name) == if name in evicted then [] else TimesOf(rows, name)
    decreases |evicted|
  {
    if evicted != [] {
      KeepOthersInOrder(rows, evicted[0], now);
      KeepOthersTimes(rows, evicted[0], name);
      assert Clearings(evicted)[1..] == Clearings(evicted[1..]);
      ClearingsClear(accounts, KeepOthers(rows, evicted[0]), evicted[1..], now, name);
    }
  }

  lemma CountedKeepsTable(accounts: set<string>, rows: seq<Row>, names: seq<Name>, at: int)
    requires TableInv(accounts, rows, at)
    requires forall i :: 0 <= i < |names| ==> IsStored(accounts, names[i])
    ensures TableInv(accounts, Record(rows, Counted(names, at)), at)
  {
    var all := rows + RowsFor(names, at);
    AddedInOrder(rows, names, at);
    assert OnlyStored(accounts, all);
    KeepAfterInOrder(all, at - WINDOW, at);
  }

  lemma CountedCounts(rows: seq<Row>, names: seq<Name>, at: int, name: Name)
    requires forall i, j :: 0 <= i < j < |names| ==> names[i] != names[j]
    ensures Recent(TimesOf(Record(rows, Counted(names, at)), name), at)
         == Recent(TimesOf(rows, name), at) + if name in names then [at] else []
  {
    var all := rows + RowsFor(names, at);
    var more := if name in names then [at] else [];
    TimesThen(rows, RowsFor(names, at), name);
    TimesOfRows(names, at, name);
    RecentThen(TimesOf(rows, name), more, at);
    RecentOfAll(more, at);
    KeepAfterTimes(all, at - WINDOW, at, name);
  }

  lemma StoredNamesOf(accounts: set<string>, attempting: Attempting, name: Name)
    requires FlagsAgree(accounts, attempting)
    ensures var names := StoredNames(Keys(attempting));
            && (forall i, j :: 0 <= i < j < |names| ==> names[i] != names[j])
            && (forall i :: 0 <= i < |names| ==> IsStored(accounts, names[i]))
            && (IsStored(accounts, name) ==> (name in names <==> name in Names(Keys(attempting))))
  {
    var keys := Keys(attempting);
    assert keys == [keys[0]] || keys == [keys[0], keys[1]];
    assert StoredNames(keys[|keys|..]) == [];
    assert keys[0] in keys && (|keys| == 2 ==> keys[1] in keys);
    assert |keys| == 2 ==> StoredNames(keys[1..]) == [keys[1].name];
  }

  /** Making room forgets only what is out of the window, or what the journal clears too. */
  lemma RoomAgrees(failures: Failures, keys: seq<Key>, now: int, evicted: seq<Name>, name: Name)
    requires Sorted(TimesIn(failures, name))
    requires !IsFull(failures, keys) ==> evicted == []
    ensures var room := Roomy(failures, keys, now, evicted);
            Recent(TimesIn(room, name), now) == if name in evicted then [] else Recent(TimesIn(failures, name), now)
  {
    if IsFull(failures, keys) {
      if name !in evicted && name !in Unexpired(failures, now) {
        RecentOfNone(TimesIn(failures, name), now);
      }
    }
  }

  /** What a granted attempt leaves of a name's times inside the window, in memory. */
  lemma GrantedTimes(failures: Failures, keys: seq<Key>, at: int, evicted: seq<Name>, name: Name)
    requires KeysRight(keys) && Sorted(TimesIn(failures, name)) && (!IsFull(failures, keys) ==> evicted == [])
    ensures Recent(TimesIn(PushAll(Roomy(failures, keys, at, evicted), keys, at), name), at)
         == (if name in evicted then [] else Recent(TimesIn(failures, name), at))
            + (if name in Names(keys) then [at] else [])
  {
    var room := Roomy(failures, keys, at, evicted);
    var more := if name in Names(keys) then [at] else [];
    RoomAgrees(failures, keys, at, evicted, name);
    PushAllIs(room, keys, at, name);
    RecentThen(TimesIn(room, name), more, at);
    RecentOfAll(more, at);
  }

  /** And in the table. */
  lemma GrantedRows(accounts: set<string>, rows: seq<Row>, attempting: Attempting, at: int, evicted: seq<Name>,
                    name: Name)
    requires TableInv(accounts, rows, at) && FlagsAgree(accounts, attempting) && IsStored(accounts, name)
    ensures var left := Record(RecordAll(rows, Clearings(evicted)), Counted(StoredNames(Keys(attempting)), at));
            && TableInv(accounts, left, at)
            && Recent(TimesOf(left, name), at)
               == (if name in evicted then [] else Recent(TimesOf(rows, name), at))
                  + (if name in Names(Keys(attempting)) then [at] else [])
  {
    var names := StoredNames(Keys(attempting));
    var cleared := RecordAll(rows, Clearings(evicted));
    ClearingsClear(accounts, rows, evicted, at, name);
    StoredNamesOf(accounts, attempting, name);
    CountedKeepsTable(accounts, cleared, names, at);
    CountedCounts(cleared, names, at, name);
  }

  predicate EvictsOnlyWhenFull(failures: Failures, attempting: Attempting, at: int, evicted: seq<Name>) {
    !IsFull(Checked(failures, Keys(attempting), at).failures, Keys(attempting)) ==> evicted == []
  }

  lemma BegunChanges(failures: Failures, rows: seq<Row>, attempting: Attempting, at: int, evicted: seq<Name>)
    requires EvictsOnlyWhenFull(failures, attempting, at, evicted)
    ensures var keys, begun := Keys(attempting), Begin(failures, attempting, at, evicted);
            RecordAll(rows, begun.changes)
            == if begun.granted
               then Record(RecordAll(rows, Clearings(evicted)), Counted(StoredNames(keys), at)) else rows
  {
    var keys := Keys(attempting);
    var check := Checked(failures, keys, at);
    if check.open {
      var counted := Counted(StoredNames(keys), at);
      var left := RecordAll(rows, Clearings(evicted));
      RecordThen(rows, Clearings(evicted), [counted]);
      assert [counted][1..] == [];
      assert RecordAll(left, [counted]) == RecordAll(Record(left, counted), []);
      if !IsFull(check.failures, keys) {
        assert Clearings(evicted) == [];
      }
    }
  }

  lemma TryingAgrees(accounts: set<string>, s: Tracked, attempting: Attempting, at: int, evicted: seq<Name>, name: Name)
    requires TableInv(accounts, s.rows, at) && AgreesOn(s.failures, s.rows, s.now, name)
    requires s.now <= at && IsStored(accounts, name)
    requires FlagsAgree(accounts, attempting) && EvictsOnlyWhenFull(s.failures, attempting, at, evicted)
    requires Sorted(TimesIn(Checked(s.failures, Keys(attempting), at).failures, name))
    ensures var begun := Begin(s.failures, attempting, at, evicted);
            var rows := RecordAll(s.rows, begun.changes);
            TableInv(accounts, rows, at) && AgreesOn(begun.failures, rows, at, name)
  {
    var keys := Keys(attempting);
    KeysAreRight(attempting);
    var check := Checked(s.failures, keys, at);
    AgreesLater(s.failures, s.rows, s.now, at, name);
    CheckedTimes(s.failures, keys, at, name);
    RecentOfExpired(TimesIn(s.failures, name), at);
    BegunChanges(s.failures, s.rows, attempting, at, evicted);
    if check.open {
      GrantedTimes(check.failures, keys, at, evicted, name);
      GrantedRows(accounts, s.rows, attempting, at, evicted, name);
    }
  }

  lemma AgreesLater(failures: Failures, rows: seq<Row>, now: int, later: int, name: Name)
    requires AgreesOn(failures, rows, now, name) && now <= later
    ensures AgreesOn(failures, rows, later, name)
  {
    RecentLater(TimesOf(rows, name), now, later);
    RecentLater(TimesIn(failures, name), now, later);
  }

  /** What a success under one key takes back in memory and in the table agrees. */
  lemma SucceedingOneAgrees(accounts: set<string>, failures: Failures, rows: seq<Row>, key: Key, at: int, now: int,
                            name: Name)
    requires TableInv(accounts, rows, now) && IsStored(accounts, name) && AgreesOn(failures, rows, now, name)
    requires key.stored <==> IsStored(accounts, key.name)
    ensures var one := SucceedKey(failures, key, at);
            var left := RecordAll(rows, one.changes);
            TableInv(accounts, left, now) && AgreesOn(one.failures, left, now, name)
  {
    var one := SucceedKey(failures, key, at);
    SucceedKeyTimes(failures, key, at, name);
    if one.changes != [] {
      assert one.changes[1..] == [];
      assert RecordAll(rows, one.changes) == Record(rows, one.changes[0]);
      KeepOthersInOrder(rows, key.name, now);
      KeepOthersTimes(rows, key.name, name);
      RemoveRowInOrder(rows, Row(key.name, at), now);
      RemoveRowTimes(rows, Row(key.name, at), name);
      RecentOfRemoved(TimesOf(rows, name), at, now);
      RecentOfRemoved(TimesIn(failures, name), at, now);
    }
  }

  lemma {:induction false} SucceedingAgrees(accounts: set<string>, failures: Failures, rows: seq<Row>, keys: seq<Key>,
                                            at: int, now: int, name: Name)
    requires TableInv(accounts, rows, now) && IsStored(accounts, name) && AgreesOn(failures, rows, now, name)
    requires forall i :: 0 <= i < |keys| ==> (keys[i].stored <==> IsStored(accounts, keys[i].name))
    ensures var freed := Succeed(failures, keys, at);
            var left := RecordAll(rows, freed.changes);
            TableInv(accounts, left, now) && AgreesOn(freed.failures, left, now, name)
    decreases |keys|
  {
    if keys != [] {
      var one := SucceedKey(failures, keys[0], at);
      SucceedingOneAgrees(accounts, failures, rows, keys[0], at, now, name);
      SucceedingAgrees(accounts, one.failures, RecordAll(rows, one.changes), keys[1..], at, now, name);
      RecordThen(rows, one.changes, Succeed(one.failures, keys[1..], at).changes);
    }
  }

  // ---------------------------------------------------------------------
  // Restarts

  lemma {:induction false} ByTimeOfOrdered(rows: seq<Row>)
    requires forall i, j :: 0 <= i < j < |rows| ==> rows[i].at <= rows[j].at
    ensures ByTime(rows) == rows
  {
    if rows != [] {
      ByTimeOfOrdered(rows[..|rows| - 1]);
    }
  }

  lemma {:induction false} InOrderPairs(rows: seq<Row>, now: int)
    requires InOrder(rows, now)
    ensures forall i, j :: 0 <= i < j < |rows| ==> rows[i].at <= rows[j].at
    ensures forall i :: 0 <= i < |rows| ==> rows[i].at <= now
  {
    if rows != [] {
      InOrderPairs(rows[1..], now);
      forall i | 0 <= i < |rows|
        ensures rows[0].at <= rows[i].at <= now
      {
        if i > 0 {
          assert rows[i] == rows[1..][i - 1];
        }
      }
      forall i, j | 0 <= i < j < |rows|
        ensures rows[i].at <= rows[j].at
      {
        if i > 0 {
          assert rows[i] == rows[1..][i - 1] && rows[j] == rows[1..][j - 1];
        }
      }
    }
  }

  lemma {:induction false} PushRowsTimes(rows: seq<Row>, name: Name)
    ensures TimesIn(PushRows(map[], rows), name) == TimesOf(rows, name)
  {
    if rows != [] {
      var before, last := rows[..|rows| - 1], rows[|rows| - 1];
      PushRowsTimes(before, name);
      assert rows == before + [last];
      TimesThen(before, [last], name);
      assert [last][1..] == [];
      assert TimesOf([last], name) == if last.name == name then [last.at] else [];
    }
  }

  lemma {:induction false} KeptTimes(rows: seq<Row>, now: int, name: Name)
    ensures TimesOf(KeepAfter(rows, now - WINDOW), name) == Recent(TimesOf(rows, name), now)
  {
    if rows != [] {
      KeptTimes(rows[1..], now, name);
      TimesThen(if rows[0].at > now - WINDOW then [rows[0]] else [], KeepAfter(rows[1..], now - WINDOW), name);
      var rest := TimesOf(rows[1..], name);
      assert ([rows[0].at] + rest)[1..] == rest;
    }
  }

  /** A limiter rebuilt from the table counts exactly the stored attempts inside the window. */
  lemma RebuiltTimes(rows: seq<Row>, now: int, later: int, name: Name)
    requires InOrder(rows, now) && now <= later
    ensures TimesIn(Rebuilt(rows, later), name) == Recent(TimesOf(rows, name), later)
  {
    KeepAfterInOrder(rows, later - WINDOW, now);
    InOrderPairs(KeepAfter(rows, later - WINDOW), now);
    ByTimeOfOrdered(KeepAfter(rows, later - WINDOW));
    PushRowsTimes(KeepAfter(rows, later - WINDOW), name);
    KeptTimes(rows, later, name);
  }
}
