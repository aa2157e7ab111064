/**
 What an attempt counts against and what a success takes back, by name: in every run a
 failure stays counted under each name it was made under until it leaves the window, its
 name is evicted, or a success of that very account or user forgets it.
 */
module LimiterCounts {
  import opened Windows
  import opened LimiterModel
  import opened LimiterProofs
  import opened LimiterJournal
  import opened LimiterRuns

  /** The account or user the attempt is on, if it is on one. */
  function OwnName(attempting: Attempting): set<Name> {
    match attempting
    case SignIn(username, _, _) => {AccountName(username)}
    case Invitation(_) => {}
    case PasswordChange(user) => {OfUser(user)}
  }

  /** The address the attempt comes from, where that is limited. */
  function FromAddress(attempting: Attempting): set<Name> {
    match attempting
    case SignIn(_, address, _) => {OfAddress(address)}
    case Invitation(address) => {OfAddress(address)}
    case PasswordChange(_) => {}
  }

  // ---------------------------------------------------------------------
  // One success

  /** One occurrence of a time is gone, if there was one; the others stay as they were. */
  predicate OneGone(before: seq<int>, at: int, after: seq<int>) {
    if at in before
    then exists k :: 0 <= k < |before| && before[k] == at && after == before[..k] + before[k + 1..]
    else after == before
  }

  lemma {:induction false} SucceedTimes(failures: Failures, keys: seq<Key>, at: int, name: Name)
    requires KeysRight(keys)
    ensures forall i :: 0 <= i < |keys| && keys[i].name == name ==>
              TimesIn(Succeed(failures, keys, at).failures, name)
              == SucceededTimes(TimesIn(failures, name), keys[i].clear, at)
    ensures (forall i :: 0 <= i < |keys| ==> keys[i].name != name) ==>
              TimesIn(Succeed(failures, keys, at).failures, name) == TimesIn(failures, name)
    decreases |keys|
  {
    if keys != [] {
      SucceedKeyTimes(failures, keys[0], at, name);
      SucceedTimes(SucceedKey(failures, keys[0], at).failures, keys[1..], at, name);
      assert forall i :: 0 < i < |keys| ==> keys[1..][i - 1] == keys[i];
    }
  }

  /**
   A success forgets every failure of its own account or user. Of its address it takes back
   one attempt, its own: the failures of other sign-ins from there stay counted. No other
   name's counts change.
   */
  lemma SuccessTakesBack(failures: Failures, attempting: Attempting, begun: int, name: Name)
    ensures var after := Succeed(failures, Keys(attempting), begun).failures;
            && (name in OwnName(attempting) ==> TimesIn(after, name) == [])
            && (name in FromAddress(attempting) ==> OneGone(TimesIn(failures, name), begun, TimesIn(after, name)))
            && (name !in OwnName(attempting) + FromAddress(attempting) ==>
                  TimesIn(after, name) == TimesIn(failures, name))
  {
    KeysAreRight(attempting);
    SucceedTimes(failures, Keys(attempting), begun, name);
    var keys, after := Keys(attempting), Succeed(failures, Keys(attempting), begun).failures;
    if name in FromAddress(attempting) {
      assert keys[|keys| - 1].name == name;
      if begun in TimesIn(failures, name) {
        var k := RemoveFirstAt(TimesIn(failures, name), begun);
      }
    } else if name in OwnName(attempting) {
      assert keys[0].name == name;
    }
  }

  // ---------------------------------------------------------------------
  // Every run

  /**
   The attempts outstanding under a name: those granted under it, less those that succeeded
   and those forgotten, by a success of the name itself, an eviction, or a restart of a
   name that is not stored.
   */
  ghost function Outstanding(accounts: set<string>, s: Tracked, act: Act, name: Name, so: multiset<int>)
    : multiset<int>
  {
    match act
    case Try(attempting, at, evicted) =>
      if !Begin(s.failures, attempting, at, evicted).granted then so
      else
        (if name in evicted then multiset{} else so)
        + if name in OwnName(attempting) + FromAddress(attempting) then multiset{at} else multiset{}
    case Good(attempting, begun) =>
      if name in OwnName(attempting) then multiset{}
      else if name in FromAddress(attempting) then so - multiset{begun}
      else so
    case Restart(_) => if IsStored(accounts, name) then so else multiset{}
  }

  ghost function AllOutstanding(accounts: set<string>, s: Tracked, acts: seq<Act>, name: Name, so: multiset<int>)
    : multiset<int>
    decreases |acts|
  {
    if acts == [] then so
    else
      AllOutstanding(accounts, Do(accounts, s, acts[0]), acts[1..], name,
                     Outstanding(accounts, s, acts[0], name, so))
  }

  /** Of the times inside the window, exactly these are counted, as often. */
  ghost predicate Counts(failures: Failures, now: int, name: Name, so: multiset<int>) {
    forall time :: now - time < WINDOW ==> multiset(TimesIn(failures, name))[time] == so[time]
  }

  lemma {:induction false} RecentCounts(times: seq<int>, now: int, time: int)
    requires now - time < WINDOW
    ensures multiset(Recent(times, now))[time] == multiset(times)[time]
  {
    if times != [] {
      RecentCounts(times[1..], now, time);
      assert times == [times[0]] + times[1..];
    }
  }

  /** Two counts with the same times inside the window count alike. */
  lemma AlikeRecently(failures: Failures, left: Failures, now: int, name: Name, so: multiset<int>)
    requires Recent(TimesIn(failures, name), now) == Recent(TimesIn(left, name), now)
    requires Counts(failures, now, name, so)
    ensures Counts(left, now, name, so)
  {
    forall time | now - time < WINDOW
      ensures multiset(TimesIn(left, name))[time] == so[time]
    {
      RecentCounts(TimesIn(failures, name), now, time);
      RecentCounts(TimesIn(left, name), now, time);
    }
  }

  lemma NamesAre(attempting: Attempting)
    ensures Names(Keys(attempting)) == OwnName(attempting) + FromAddress(attempting)
  {
    var keys := Keys(attempting);
    assert keys == [keys[0]] || keys == [keys[0], keys[1]];
    assert forall key :: key in keys <==> key == keys[0] || (|keys| == 2 && key == keys[1]);
  }

  lemma TryCounts(accounts: set<string>, s: Tracked, attempting: Attempting, at: int, evicted: seq<Name>, name: Name,
                  so: multiset<int>)
    requires LimiterRuns.Inv(accounts, s) && LimiterProofs.Allowed(accounts, s, Try(attempting, at, evicted))
    requires Counts(s.failures, s.now, name, so)
    ensures Counts(Do(accounts, s, Try(attempting, at, evicted)).failures, at, name,
                   Outstanding(accounts, s, Try(attempting, at, evicted), name, so))
  {
    hide Recent, RecordAll, PushAll, LimiterRuns.Inv, MayEvict, Expire;
    var keys, begun := Keys(attempting), Begin(s.failures, attempting, at, evicted);
    var check := Checked(s.failures, keys, at);
    KeysAreRight(attempting);
    NamesAre(attempting);
    CheckedTimes(s.failures, keys, at, name);
    RecentOfExpired(TimesIn(s.failures, name), at);
    AlikeRecently(s.failures, check.failures, at, name, so);
    if begun.granted {
      GrantedCounts(accounts, s, attempting, at, evicted, name, so);
    }
  }

  lemma AddedCounts(left: seq<int>, before: seq<int>, added: seq<int>, now: int, time: int)
    requires Recent(left, now) == Recent(before, now) + added && now - time < WINDOW
    ensures multiset(left)[time] == multiset(before)[time] + multiset(added)[time]
  {
    RecentCounts(left, now, time);
    RecentCounts(before, now, time);
  }

  /** What a granted attempt leaves of a name's times inside the window. */
  lemma GrantedLeaves(accounts: set<string>, s: Tracked, attempting: Attempting, at: int, evicted: seq<Name>,
                      name: Name)
    requires LimiterRuns.Inv(accounts, s) && LimiterProofs.Allowed(accounts, s, Try(attempting, at, evicted))
    requires Begin(s.failures, attempting, at, evicted).granted
    ensures Recent(TimesIn(Begin(s.failures, attempting, at, evicted).failures, name), at)
         == (if name in evicted then []
             else Recent(TimesIn(Checked(s.failures, Keys(attempting), at).failures, name), at))
            + (if name in OwnName(attempting) + FromAddress(attempting) then [at] else [])
  {
    hide PushAll, Checked, Recent, Evicts, Agrees;
    KeysAreRight(attempting);
    NamesAre(attempting);
    CheckedInOrder(s, attempting, at, name);
    GrantedTimes(Checked(s.failures, Keys(attempting), at).failures, Keys(attempting), at, evicted, name);
  }

  lemma GrantedCounts(accounts: set<string>, s: Tracked, attempting: Attempting, at: int, evicted: seq<Name>,
                      name: Name, so: multiset<int>)
    requires LimiterRuns.Inv(accounts, s) && LimiterProofs.Allowed(accounts, s, Try(attempting, at, evicted))
    requires Begin(s.failures, attempting, at, evicted).granted
    requires Counts(Checked(s.failures, Keys(attempting), at).failures, at, name, so)
    ensures Counts(Begin(s.failures, attempting, at, evicted).failures, at, name,
                   Outstanding(accounts, s, Try(attempting, at, evicted), name, so))
  {
    hide Begin, Checked, Recent, Keys, AccountName, MayEvict, LimiterRuns.Inv, OwnName, FromAddress, LimiterProofs.Do;
    var check := Checked(s.failures, Keys(attempting), at).failures;
    var left := Begin(s.failures, attempting, at, evicted).failures;
    var before := if name in evicted then [] else TimesIn(check, name);
    var added := if name in OwnName(attempting) + FromAddress(attempting) then [at] else [];
    GrantedLeaves(accounts, s, attempting, at, evicted, name);
    NoneRecent(at);
    forall time | at - time < WINDOW
      ensures multiset(TimesIn(left, name))[time] == multiset(before)[time] + multiset(added)[time]
    {
      AddedCounts(TimesIn(left, name), before, added, at, time);
    }
  }

  lemma NoneRecent(now: int)
    ensures Recent([], now) == []
  {
  }

  lemma OneGoneCounts(before: seq<int>, at: int, after: seq<int>)
    requires OneGone(before, at, after)
    ensures multiset(after) == multiset(before) - multiset{at}
  {
    if at in before {
      var k :| 0 <= k < |before| && before[k] == at && after == before[..k] + before[k + 1..];
      assert before == before[..k] + [before[k]] + before[k + 1..];
    }
  }

  lemma GoodCounts(accounts: set<string>, s: Tracked, attempting: Attempting, begun: int, name: Name,
                   so: multiset<int>)
    requires Counts(s.failures, s.now, name, so)
    ensures Counts(Do(accounts, s, Good(attempting, begun)).failures, s.now, name,
                   Outstanding(accounts, s, Good(attempting, begun), name, so))
  {
    hide Succeed, PastSucceeded, RecordAll, OneGone, AccountName;
    SuccessTakesBack(s.failures, attempting, begun, name);
    var after := Do(accounts, s, Good(attempting, begun)).failures;
    if name in FromAddress(attempting) {
      OneGoneCounts(TimesIn(s.failures, name), begun, TimesIn(after, name));
    }
  }

  lemma RestartCounts(accounts: set<string>, s: Tracked, at: int, name: Name, so: multiset<int>)
    requires LimiterRuns.Inv(accounts, s) && s.now <= at && Counts(s.failures, s.now, name, so)
    ensures Counts(Do(accounts, s, Restart(at)).failures, at, name,
                   Outstanding(accounts, s, Restart(at), name, so))
  {
    hide LimiterRuns.Inv, Rebuilt, Recent, Expire;
    RestartOne(accounts, s, at, name);
    if IsStored(accounts, name) {
      RecentOfExpired(TimesIn(s.failures, name), at);
      AlikeRecently(s.failures, Do(accounts, s, Restart(at)).failures, at, name, so);
    }
  }

  lemma ActCounts(accounts: set<string>, s: Tracked, act: Act, name: Name, so: multiset<int>)
    requires LimiterRuns.Inv(accounts, s) && LimiterProofs.Allowed(accounts, s, act)
    requires Counts(s.failures, s.now, name, so)
    ensures Counts(Do(accounts, s, act).failures, Do(accounts, s, act).now, name,
                   Outstanding(accounts, s, act, name, so))
  {
    match act {
      case Try(attempting, at, evicted) => TryCounts(accounts, s, attempting, at, evicted, name, so);
      case Good(attempting, begun) => GoodCounts(accounts, s, attempting, begun, name, so);
      case Restart(at) => RestartCounts(accounts, s, at, name, so);
    }
  }

  lemma {:induction false} CountingGoesOn(accounts: set<string>, s: Tracked, acts: seq<Act>, t: Tracked, name: Name,
                                          so: multiset<int>)
    requires LimiterRuns.Inv(accounts, s) && Leads(accounts, s, acts, t) && Counts(s.failures, s.now, name, so)
    ensures Counts(t.failures, t.now, name, AllOutstanding(accounts, s, acts, name, so))
    decreases |acts|
  {
    if acts != [] {
      ActCounts(accounts, s, acts[0], name, so);
      ActKeepsInv(accounts, s, acts[0]);
      CountingGoesOn(accounts, Do(accounts, s, acts[0]), acts[1..], t, name,
                     Outstanding(accounts, s, acts[0], name, so));
    }
  }

  /**
   In every run of attempts, successes, evictions and restarts, what is counted under a name
   inside the window is exactly what is outstanding under it: a failed attempt stays counted
   against its account, user and address until it expires, whoever else succeeds.
   */
  lemma FailuresStayCounted(accounts: set<string>, start: int, acts: seq<Act>, t: Tracked, name: Name)
    requires Leads(accounts, New(start), acts, t)
    ensures Counts(t.failures, t.now, name, AllOutstanding(accounts, New(start), acts, name, multiset{}))
  {
    CountingGoesOn(accounts, New(start), acts, t, name, multiset{});
  }

  // ---------------------------------------------------------------------
  // The table

  lemma {:induction false} KeptAreAfter(rows: seq<Row>, bound: int)
    ensures forall row :: row in KeepAfter(rows, bound) ==> row.at > bound
  {
    if rows != [] {
      KeptAreAfter(rows[1..], bound);
    }
  }

  lemma {:induction false} NamesAreStored(keys: seq<Key>)
    requires keys != [] && keys[|keys| - 1].stored
    ensures StoredNames(keys) != []
  {
    if !keys[0].stored {
      NamesAreStored(keys[1..]);
    }
  }

  /** The table never outgrows the window: a granted attempt leaves only rows inside it. */
  lemma TableIsPruned(failures: Failures, rows: seq<Row>, attempting: Attempting, at: int, evicted: seq<Name>)
    requires Begin(failures, attempting, at, evicted).granted
    ensures forall row :: row in RecordAll(rows, Begin(failures, attempting, at, evicted).changes) ==>
                            at - row.at < 900_000
  {
    hide Begin, Checked, KeepAfter;
    var names := StoredNames(Keys(attempting));
    NamesAreStored(Keys(attempting));
    BegunEndsCounted(failures, rows, attempting, at, evicted);
    forall before: seq<Row>
      ensures forall row :: row in Record(before, Counted(names, at)) ==> at - row.at < 900_000
    {
      KeptAreAfter(before + RowsFor(names, at), at - WINDOW);
    }
  }

  lemma BegunEndsCounted(failures: Failures, rows: seq<Row>, attempting: Attempting, at: int, evicted: seq<Name>)
    requires Begin(failures, attempting, at, evicted).granted
    ensures exists before: seq<Row> ::
              RecordAll(rows, Begin(failures, attempting, at, evicted).changes)
              == Record(before, Counted(StoredNames(Keys(attempting)), at))
  {
    hide Checked, Record, StoredNames, Roomy, PushAll;
    var counted := Counted(StoredNames(Keys(attempting)), at);
    var check := Checked(failures, Keys(attempting), at);
    var cleared := if IsFull(check.failures, Keys(attempting)) then Clearings(evicted) else [];
    RecordThen(rows, cleared, [counted]);
    assert RecordAll(RecordAll(rows, cleared), [counted]) == Record(RecordAll(rows, cleared), counted);
  }

  // ---------------------------------------------------------------------
  // Spellings

  /** The same letter, whatever its case; of the Latin letters A to Z only. */
  predicate SameLetter(a: char, b: char) {
    || a == b
    || ('A' <= a <= 'Z' && b == a - 'A' + 'a')
    || ('A' <= b <= 'Z' && a == b - 'A' + 'a')
  }

  predicate SameButCase(a: string, b: string) {
    |a| == |b| && forall i :: 0 <= i < |a| ==> SameLetter(a[i], b[i])
  }

  predicate IsBlank(s: string) {
    forall i :: 0 <= i < |s| ==> IsSpace(s[i])
  }

  /** The text is this core with blanks around it. */
  ghost predicate IsPadded(text: string, core: string) {
    exists before, after :: IsBlank(before) && IsBlank(after) && text == before + core + after
  }

  ghost predicate SameName(u: string, v: string) {
    exists x, y :: IsPadded(u, x) && IsPadded(v, y) && SameButCase(x, y)
  }

  lemma {:induction false} TrimIsPadded(s: string)
    ensures IsPadded(s, Trim(s))
    decreases |s|
  {
    if s != "" && IsSpace(s[0]) {
      TrimIsPadded(s[1..]);
      var before, after :| IsBlank(before) && IsBlank(after) && s[1..] == before + Trim(s) + after;
      assert IsBlank([s[0]] + before) && s == [s[0]] + before + Trim(s) + after;
    } else if s != "" && IsSpace(s[|s| - 1]) {
      TrimIsPadded(s[..|s| - 1]);
      var before, after :| IsBlank(before) && IsBlank(after) && s[..|s| - 1] == before + Trim(s) + after;
      assert IsBlank(after + [s[|s| - 1]]) && s == before + Trim(s) + (after + [s[|s| - 1]]);
    } else {
      assert IsBlank("") && s == "" + s + "";
    }
  }

  /** Leading blanks, and then trailing ones, make no difference to what is trimmed. */
  lemma {:induction false} TrimLeading(before: string, s: string)
    requires IsBlank(before)
    ensures Trim(before + s) == Trim(s)
    decreases |before|
  {
    if before == "" {
      assert before + s == s;
    } else {
      assert (before + s)[1..] == before[1..] + s;
      TrimLeading(before[1..], s);
    }
  }

  lemma {:induction false} TrimTrailing(s: string, after: string)
    requires IsBlank(after)
    ensures Trim(s + after) == Trim(s)
    decreases |s| + |after|
  {
    if after == "" {
      assert s + after == s;
    } else if s == "" {
      assert s + after == after + s;
      TrimLeading(after, s);
    } else if IsSpace(s[0]) {
      assert (s + after)[1..] == s[1..] + after;
      TrimTrailing(s[1..], after);
    } else {
      assert (s + after)[..|s + after| - 1] == s + after[..|after| - 1];
      TrimTrailing(s, after[..|after| - 1]);
    }
  }

  lemma {:induction false} TrimKeepsCase(x: string, y: string)
    requires SameButCase(x, y)
    ensures Lower(Trim(x)) == Lower(Trim(y))
    decreases |x|
  {
    if x != "" {
      assert SameLetter(x[0], y[0]) && SameLetter(x[|x| - 1], y[|x| - 1]);
      if IsSpace(x[0]) {
        TrimKeepsCase(x[1..], y[1..]);
      } else if IsSpace(x[|x| - 1]) {
        TrimKeepsCase(x[..|x| - 1], y[..|y| - 1]);
      } else {
        assert forall i :: 0 <= i < |x| ==> SameLetter(x[i], y[i]);
      }
    }
  }

  lemma SameWhenLower(x: string, y: string)
    requires Lower(x) == Lower(y)
    ensures SameButCase(x, y)
  {
    assert |Lower(x)| == |x| && |Lower(y)| == |y|;
    forall i | 0 <= i < |x|
      ensures SameLetter(x[i], y[i])
    {
      assert Lower(x)[i] == LowerChar(x[i]) && Lower(y)[i] == LowerChar(y[i]);
    }
  }

  /** Two spellings are limited as one account exactly if they differ by case and blanks around them. */
  lemma SpellingsShareAKey(u: string, v: string)
    ensures AccountName(u) == AccountName(v) <==> SameName(u, v)
  {
    if AccountName(u) == AccountName(v) {
      TrimIsPadded(u);
      TrimIsPadded(v);
      SameWhenLower(Trim(u), Trim(v));
    }
    if SameName(u, v) {
      var x, y :| IsPadded(u, x) && IsPadded(v, y) && SameButCase(x, y);
      PaddedTrims(u, x);
      PaddedTrims(v, y);
      TrimKeepsCase(x, y);
    }
  }

  lemma PaddedTrims(text: string, core: string)
    requires IsPadded(text, core)
    ensures Trim(text) == Trim(core)
  {
    var before, after :| IsBlank(before) && IsBlank(after) && text == before + core + after;
    TrimTrailing(before + core, after);
    TrimLeading(before, core);
  }
}
