/**
 What a restart of the process changes for the sign-in limiter. Names that are not stored
 are forgotten; unless one of them was counted in the window, nothing else is.
 */
module LimiterRestarts {
  import opened Protocol
  import opened Windows
  import opened LimiterModel
  import opened LimiterProofs
  import opened LimiterJournal
  import opened LimiterRuns

  // ---------------------------------------------------------------------
  // Runs that go on

  /** Each act as the source takes it, on a clock that does not go back, with room for its keys. */
  ghost predicate GoesOn(accounts: set<string>, failures: Failures, acts: seq<Act>, now: int)
    decreases |acts|
  {
    acts != [] ==>
      match acts[0]
      case Try(attempting, at, evicted) =>
        && at >= now && FlagsAgree(accounts, attempting)
        && evicted == [] && !IsFull(failures, Keys(attempting))
        && GoesOn(accounts, Begin(failures, attempting, at, []).failures, acts[1..], at)
      case Good(attempting, begun) =>
        && begun <= now && FlagsAgree(accounts, attempting)
        && GoesOn(accounts, Succeed(failures, Keys(attempting), begun).failures, acts[1..], now)
      case Restart(_) => false
  }

  /** The counts an act leaves. */
  function Next(failures: Failures, act: Act): Failures {
    match act
    case Try(attempting, at, evicted) => Begin(failures, attempting, at, evicted).failures
    case Good(attempting, begun) => Succeed(failures, Keys(attempting), begun).failures
    case Restart(_) => failures
  }

  function After(failures: Failures, acts: seq<Act>): Failures
    decreases |acts|
  {
    if acts == [] then failures else After(Next(failures, acts[0]), acts[1..])
  }

  /** The act is an attempt under these names alone, besides addresses and users. */
  predicate TriesOnly(accounts: set<string>, act: Act) {
    act.Try? && forall key :: key in Keys(act.attempting) ==> IsStored(accounts, key.name)
  }

  /** Whether each attempt under these names is granted, whatever else goes on. */
  function Answers(accounts: set<string>, failures: Failures, acts: seq<Act>): seq<bool>
    decreases |acts|
  {
    if acts == [] then []
    else if TriesOnly(accounts, acts[0]) then
      [Begin(failures, acts[0].attempting, acts[0].at, acts[0].evicted).granted]
      + Answers(accounts, Next(failures, acts[0]), acts[1..])
    else Answers(accounts, Next(failures, acts[0]), acts[1..])
  }

  /** Every account the run names is one of these. */
  predicate Knows(known: set<string>, acts: seq<Act>) {
    forall act :: act in acts && !act.Restart? ==>
      forall key :: key in Keys(act.attempting) ==> IsStored(known, key.name)
  }

  // ---------------------------------------------------------------------
  // Two limiters that count the same

  /** They count the same under every name known, inside the window. */
  ghost predicate Similar(known: set<string>, f: Failures, g: Failures, now: int) {
    forall name :: IsStored(known, name) ==>
      && Recent(TimesIn(f, name), now) == Recent(TimesIn(g, name), now)
      && IsTimely(TimesIn(f, name), now) && IsTimely(TimesIn(g, name), now)
  }

  predicate IsTimely(times: seq<int>, now: int) {
    Sorted(times) && forall i :: 0 <= i < |times| ==> times[i] <= now
  }

  /** What an attempt with room for it leaves of a name's times inside the window. */
  lemma BegunTimes(failures: Failures, attempting: Attempting, at: int, name: Name)
    requires !IsFull(failures, Keys(attempting)) && IsTimely(TimesIn(failures, name), at)
    ensures var begun := Begin(failures, attempting, at, []);
            var more := if begun.granted && name in Names(Keys(attempting)) then [at] else [];
            && Recent(TimesIn(begun.failures, name), at) == Recent(TimesIn(failures, name), at) + more
            && IsTimely(TimesIn(begun.failures, name), at)
  {
    var keys := Keys(attempting);
    KeysAreRight(attempting);
    CheckedTimes(failures, keys, at, name);
    RecentOfExpired(TimesIn(failures, name), at);
    ExpireIsTimely(TimesIn(failures, name), at);
    var check := Checked(failures, keys, at);
    assert |check.failures.Keys| == |check.failures| && |failures.Keys| == |failures|;
    if check.open {
      PushedTimes(check.failures, keys, at, name);
    }
  }

  lemma PushedTimes(failures: Failures, keys: seq<Key>, at: int, name: Name)
    requires KeysRight(keys) && IsTimely(TimesIn(failures, name), at)
    ensures var after := TimesIn(PushAll(failures, keys, at), name);
            && Recent(after, at) == Recent(TimesIn(failures, name), at) + (if name in Names(keys) then [at] else [])
            && IsTimely(after, at)
  {
    hide PushAll, IsTimely, Recent, Names;
    PushAllIs(failures, keys, at, name);
    var times, more := TimesIn(failures, name), if name in Names(keys) then [at] else [];
    RecentThen(times, more, at);
    RecentOfAll(more, at);
    TimelyThen(times, more, at);
  }

  lemma TimelyThen(times: seq<int>, more: seq<int>, now: int)
    requires IsTimely(times, now) && more in {[], [now]}
    ensures IsTimely(times + more, now)
  {
  }

  lemma {:induction false} ExpireIsTimely(times: seq<int>, now: int)
    requires IsTimely(times, now)
    ensures IsTimely(Expire(times, now), now)
  {
    if times != [] {
      ExpireIsTimely(times[1..], now);
    }
  }

  lemma BegunKeys(failures: Failures, attempting: Attempting, at: int)
    requires !IsFull(failures, Keys(attempting))
    ensures var begun := Begin(failures, attempting, at, []);
            begun.failures.Keys == if begun.granted then failures.Keys + Names(Keys(attempting)) else failures.Keys
  {
    var keys := Keys(attempting);
    KeysAreRight(attempting);
    CheckedTimes(failures, keys, at, OfUser(0));
    var check := Checked(failures, keys, at);
    assert |check.failures.Keys| == |check.failures| && |failures.Keys| == |failures|;
    PushAllIs(check.failures, keys, at, OfUser(0));
  }

  /** Where there is room for the larger, there is for the smaller. */
  lemma RoomForFewer(f: Failures, g: Failures, keys: seq<Key>)
    requires g.Keys <= f.Keys && !IsFull(f, keys)
    ensures !IsFull(g, keys)
  {
    SubsetIsSmaller(g.Keys, f.Keys);
    assert |g.Keys| == |g| && |f.Keys| == |f|;
  }

  lemma SubsetIsSmaller(a: set<Name>, b: set<Name>)
    requires a <= b
    ensures |a| <= |b|
  {
    assert b == a + (b - a);
  }

  lemma SimilarLater(known: set<string>, f: Failures, g: Failures, now: int, later: int)
    requires Similar(known, f, g, now) && now <= later
    ensures Similar(known, f, g, later)
  {
    forall name | IsStored(known, name)
      ensures Recent(TimesIn(f, name), later) == Recent(TimesIn(g, name), later)
      ensures IsTimely(TimesIn(f, name), later) && IsTimely(TimesIn(g, name), later)
    {
      RecentLater(TimesIn(f, name), now, later);
      RecentLater(TimesIn(g, name), now, later);
    }
  }

  lemma TryAlike(known: set<string>, f: Failures, g: Failures, attempting: Attempting, at: int)
    requires Similar(known, f, g, at)
    requires forall key :: key in Keys(attempting) ==> IsStored(known, key.name)
    ensures Begin(f, attempting, at, []).granted == Begin(g, attempting, at, []).granted
  {
    GrantedExactlyBelowLimit(f, attempting, at, []);
    GrantedExactlyBelowLimit(g, attempting, at, []);
    forall name | name in Names(Keys(attempting))
      ensures CountNow(f, name, at) == CountNow(g, name, at)
    {
    }
  }

  lemma TryStaysSimilar(known: set<string>, f: Failures, g: Failures, attempting: Attempting, at: int)
    requires Similar(known, f, g, at) && g.Keys <= f.Keys && !IsFull(f, Keys(attempting))
    requires forall key :: key in Keys(attempting) ==> IsStored(known, key.name)
    ensures Begin(f, attempting, at, []).granted == Begin(g, attempting, at, []).granted
    ensures Similar(known, Begin(f, attempting, at, []).failures, Begin(g, attempting, at, []).failures, at)
    ensures Begin(g, attempting, at, []).failures.Keys <= Begin(f, attempting, at, []).failures.Keys
  {
    TryAlike(known, f, g, attempting, at);
    RoomForFewer(f, g, Keys(attempting));
    BegunKeys(f, attempting, at);
    BegunKeys(g, attempting, at);
    forall name | IsStored(known, name)
      ensures && Recent(TimesIn(Begin(f, attempting, at, []).failures, name), at)
                 == Recent(TimesIn(Begin(g, attempting, at, []).failures, name), at)
              && IsTimely(TimesIn(Begin(f, attempting, at, []).failures, name), at)
              && IsTimely(TimesIn(Begin(g, attempting, at, []).failures, name), at)
    {
      BegunTimes(f, attempting, at, name);
      BegunTimes(g, attempting, at, name);
    }
  }

  lemma SucceededTimely(times: seq<int>, clear: bool, at: int, now: int)
    requires IsTimely(times, now)
    ensures IsTimely(SucceededTimes(times, clear, at), now)
    ensures Recent(SucceededTimes(times, clear, at), now)
         == if clear then [] else if now - at < WINDOW then RemoveFirst(Recent(times, now), at) else Recent(times, now)
  {
    if !clear {
      RecentOfRemoved(times, at, now);
      if at in times {
        RemovedTimely(times, at, now);
      } else {
        RemovingNone(times, at);
      }
    }
  }

  lemma RemovedTimely(times: seq<int>, at: int, now: int)
    requires IsTimely(times, now) && at in times
    ensures IsTimely(RemoveFirst(times, at), now)
  {
    var k := RemoveFirstAt(times, at);
    var left := RemoveFirst(times, at);
    forall i | 0 <= i < |left|
      ensures left[i] == times[if i < k then i else i + 1]
    {
    }
  }

  lemma {:induction false} SucceedStaysSimilar(known: set<string>, f: Failures, g: Failures, keys: seq<Key>, at: int,
                                               now: int)
    requires Similar(known, f, g, now) && g.Keys <= f.Keys
    ensures Similar(known, Succeed(f, keys, at).failures, Succeed(g, keys, at).failures, now)
    ensures Succeed(g, keys, at).failures.Keys <= Succeed(f, keys, at).failures.Keys
    decreases |keys|
  {
    if keys != [] {
      var f', g' := SucceedKey(f, keys[0], at).failures, SucceedKey(g, keys[0], at).failures;
      forall name | IsStored(known, name)
        ensures Recent(TimesIn(f', name), now) == Recent(TimesIn(g', name), now)
        ensures IsTimely(TimesIn(f', name), now) && IsTimely(TimesIn(g', name), now)
      {
        SucceedKeyTimes(f, keys[0], at, name);
        SucceedKeyTimes(g, keys[0], at, name);
        SucceededTimely(TimesIn(f, name), keys[0].clear, at, now);
        SucceededTimely(TimesIn(g, name), keys[0].clear, at, now);
      }
      SucceedStaysSimilar(known, f', g', keys[1..], at, now);
    }
  }

  lemma {:induction false} SimilarAnswerAlike(accounts: set<string>, known: set<string>, asked: set<string>,
                                              f: Failures, g: Failures, acts: seq<Act>, now: int)
    requires Similar(known, f, g, now) && g.Keys <= f.Keys
    requires GoesOn(accounts, f, acts, now) && Knows(known, acts)
    ensures Answers(asked, f, acts) == Answers(asked, g, acts)
    decreases |acts|
  {
    if acts != [] {
      assert acts[0] in acts && Knows(known, acts[1..]);
      match acts[0] {
        case Try(attempting, at, evicted) =>
          SimilarLater(known, f, g, now, at);
          TryStaysSimilar(known, f, g, attempting, at);
          SimilarAnswerAlike(accounts, known, asked, Next(f, acts[0]), Next(g, acts[0]), acts[1..], at);
        case Good(attempting, begun) =>
          SucceedStaysSimilar(known, f, g, Keys(attempting), begun, now);
          SimilarAnswerAlike(accounts, known, asked, Next(f, acts[0]), Next(g, acts[0]), acts[1..], now);
      }
    }
  }

  // ---------------------------------------------------------------------
  // The limiter rebuilt

  lemma {:induction false} PushRowsKeys(rows: seq<Row>, name: Name)
    requires name in PushRows(map[], rows)
    ensures TimesIn(PushRows(map[], rows), name) != []
  {
    if name != rows[|rows| - 1].name {
      PushRowsKeys(rows[..|rows| - 1], name);
    }
  }

  /** It tracks no key that the running one does not. */
  lemma RebuiltKeys(accounts: set<string>, s: Tracked, at: int)
    requires Inv(accounts, s) && s.now <= at
    ensures Rebuilt(s.rows, at).Keys <= s.failures.Keys
  {
    forall name | name in Rebuilt(s.rows, at)
      ensures name in s.failures
    {
      PushRowsKeys(ByTime(KeepAfter(s.rows, at - WINDOW)), name);
      RestartOne(accounts, s, at, name);
    }
  }

  /** No name known but not stored is counted in the window. */
  predicate NothingUnstored(accounts: set<string>, known: set<string>, failures: Failures, at: int) {
    forall username :: username in known && username !in accounts ==>
      Recent(TimesIn(failures, OfAccount(username)), at) == []
  }

  lemma RebuiltIsSimilar(accounts: set<string>, known: set<string>, s: Tracked, at: int)
    requires Inv(accounts, s) && s.now <= at && NothingUnstored(accounts, known, s.failures, at)
    ensures Similar(known, s.failures, Rebuilt(s.rows, at), at)
  {
    forall name | IsStored(known, name)
      ensures Recent(TimesIn(s.failures, name), at) == Recent(TimesIn(Rebuilt(s.rows, at), name), at)
      ensures IsTimely(TimesIn(s.failures, name), at) && IsTimely(TimesIn(Rebuilt(s.rows, at), name), at)
    {
      AllCountedInOrder(s.failures, s.past, s.now, name);
      RestartOne(accounts, s, at, name);
      if IsStored(accounts, name) {
        RecentOfExpired(TimesIn(s.failures, name), at);
        ExpireIsTimely(TimesIn(s.failures, name), at);
      }
    }
  }

  /**
   After every run, a limiter rebuilt from the table grants exactly the attempts that the
   running one would, in every run that goes on with room for its keys, under all the
   account names of which none is unstored and counted in the window. Stored names are
   always such.
   */
  lemma RestartAnswersAlike(accounts: set<string>, known: set<string>, asked: set<string>, start: int, acts: seq<Act>,
                            t: Tracked, at: int, more: seq<Act>)
    requires Leads(accounts, New(start), acts, t) && t.now <= at
    requires NothingUnstored(accounts, known, t.failures, at)
    requires GoesOn(accounts, t.failures, more, at) && Knows(known, more)
    ensures Answers(asked, Rebuilt(t.rows, at), more) == Answers(asked, t.failures, more)
  {
    EveryRunKeepsInv(accounts, New(start), acts, t);
    RebuiltIsSimilar(accounts, known, t, at);
    RebuiltKeys(accounts, t, at);
    SimilarAnswerAlike(accounts, known, asked, t.failures, Rebuilt(t.rows, at), more, at);
  }

  // ---------------------------------------------------------------------
  // Attempts repeated

  function Tries(attempting: Attempting, at: int, n: nat): seq<Act> {
    if n == 0 then [] else [Try(attempting, at, [])] + Tries(attempting, at, n - 1)
  }

  /** There is room for the attempt's keys, now and after it. */
  predicate HasRoom(failures: Failures, attempting: Attempting) {
    |failures.Keys + Names(Keys(attempting))| + |Keys(attempting)| <= MAX_KEYS
  }

  lemma TryKeepsRoom(failures: Failures, attempting: Attempting, at: int)
    requires HasRoom(failures, attempting)
    ensures !IsFull(failures, Keys(attempting))
    ensures var after := Begin(failures, attempting, at, []).failures;
            && after.Keys + Names(Keys(attempting)) == failures.Keys + Names(Keys(attempting))
            && HasRoom(after, attempting)
  {
    SubsetIsSmaller(failures.Keys, failures.Keys + Names(Keys(attempting)));
    assert |failures.Keys| == |failures|;
    BegunKeys(failures, attempting, at);
    var after := Begin(failures, attempting, at, []).failures;
    assert after.Keys + Names(Keys(attempting)) == failures.Keys + Names(Keys(attempting));
  }

  lemma TryThenGoesOn(accounts: set<string>, failures: Failures, attempting: Attempting, rest: seq<Act>, at: int)
    requires !IsFull(failures, Keys(attempting)) && FlagsAgree(accounts, attempting)
    requires GoesOn(accounts, Begin(failures, attempting, at, []).failures, rest, at)
    ensures GoesOn(accounts, failures, [Try(attempting, at, [])] + rest, at)
  {
    assert ([Try(attempting, at, [])] + rest)[1..] == rest;
  }

  lemma AfterTry(failures: Failures, attempting: Attempting, rest: seq<Act>, at: int)
    ensures After(failures, [Try(attempting, at, [])] + rest)
            == After(Begin(failures, attempting, at, []).failures, rest)
  {
    assert ([Try(attempting, at, [])] + rest)[1..] == rest;
  }

  lemma {:induction false} TriesGoOn(accounts: set<string>, failures: Failures, attempting: Attempting, at: int, n: nat)
    requires HasRoom(failures, attempting) && FlagsAgree(accounts, attempting)
    ensures GoesOn(accounts, failures, Tries(attempting, at, n), at)
    ensures After(failures, Tries(attempting, at, n)).Keys <= failures.Keys + Names(Keys(attempting))
    decreases n
  {
    hide Begin;
    if n > 0 {
      TryKeepsRoom(failures, attempting, at);
      TriesGoOn(accounts, Begin(failures, attempting, at, []).failures, attempting, at, n - 1);
      TryThenGoesOn(accounts, failures, attempting, Tries(attempting, at, n - 1), at);
      AfterTry(failures, attempting, Tries(attempting, at, n - 1), at);
    }
  }

  /** What the first act asks of a run. */
  ghost predicate MayGoOn(accounts: set<string>, failures: Failures, act: Act, at: int) {
    && act.Try? && act.at == at && act.evicted == []
    && FlagsAgree(accounts, act.attempting) && !IsFull(failures, Keys(act.attempting))
  }

  lemma FirstGoesOn(accounts: set<string>, failures: Failures, acts: seq<Act>, at: int)
    requires acts != [] && acts[0].Try? && acts[0].at == at
    ensures GoesOn(accounts, failures, acts, at)
            <==> MayGoOn(accounts, failures, acts[0], at) && GoesOn(accounts, Next(failures, acts[0]), acts[1..], at)
  {
  }

  predicate AllTriedAt(acts: seq<Act>, at: int) {
    forall act :: act in acts ==> act.Try? && act.at == at
  }

  lemma {:induction false} GoesOnThen(accounts: set<string>, failures: Failures, a: seq<Act>, b: seq<Act>, at: int)
    requires GoesOn(accounts, failures, a, at) && AllTriedAt(a, at)
    requires GoesOn(accounts, After(failures, a), b, at) && AllTriedAt(b, at)
    ensures GoesOn(accounts, failures, a + b, at)
    decreases |a|
  {
    if a == [] {
      assert a + b == b;
    } else {
      assert (a + b)[1..] == a[1..] + b && a[0] in a;
      FirstGoesOn(accounts, failures, a, at);
      FirstGoesOn(accounts, failures, a + b, at);
      GoesOnThen(accounts, Next(failures, a[0]), a[1..], b, at);
    }
  }

  lemma {:induction false} TriesAreTries(attempting: Attempting, at: int, n: nat)
    ensures forall act :: act in Tries(attempting, at, n) ==> act == Try(attempting, at, [])
    decreases n
  {
    if n > 0 {
      TriesAreTries(attempting, at, n - 1);
    }
  }

  lemma {:induction false} AnswersThen(accounts: set<string>, failures: Failures, a: seq<Act>, b: seq<Act>)
    ensures Answers(accounts, failures, a + b)
         == Answers(accounts, failures, a) + Answers(accounts, After(failures, a), b)
    decreases |a|
  {
    if a == [] {
      assert a + b == b;
    } else {
      assert (a + b)[1..] == a[1..] + b;
      AnswersThen(accounts, Next(failures, a[0]), a[1..], b);
    }
  }

  predicate AllTimely(failures: Failures, names: set<Name>, at: int) {
    forall name :: name in names ==> IsTimely(TimesIn(failures, name), at)
  }

  /** One try more counts one more under each of its names, if each is below its limit, or nothing. */
  lemma OneTry(failures: Failures, attempting: Attempting, at: int)
    requires !IsFull(failures, Keys(attempting)) && AllTimely(failures, Names(Keys(attempting)), at)
    ensures var begun := Begin(failures, attempting, at, []);
            && AllTimely(begun.failures, Names(Keys(attempting)), at)
            && (begun.granted <==>
                  forall name :: name in Names(Keys(attempting)) ==> CountNow(failures, name, at) < LimitOf(name))
            && forall name :: name in Names(Keys(attempting)) ==>
                 CountNow(begun.failures, name, at) == CountNow(failures, name, at) + if begun.granted then 1 else 0
  {
    GrantedExactlyBelowLimit(failures, attempting, at, []);
    forall name | name in Names(Keys(attempting))
      ensures IsTimely(TimesIn(Begin(failures, attempting, at, []).failures, name), at)
      ensures CountNow(Begin(failures, attempting, at, []).failures, name, at)
           == CountNow(failures, name, at) + if Begin(failures, attempting, at, []).granted then 1 else 0
    {
      BegunTimes(failures, attempting, at, name);
    }
  }

  function Granted(n: nat): seq<bool> {
    if n == 0 then [] else [true] + Granted(n - 1)
  }

  lemma NamesOfInvitation(address: string)
    ensures Keys(Invitation(address)) == [AddressKey(address)]
    ensures Names(Keys(Invitation(address))) == {OfAddress(address)}
  {
  }

  /** Invitations tried from one address are all granted exactly if they fit below its limit. */
  lemma {:induction false} InvitationsAnswered(accounts: set<string>, failures: Failures, address: string, at: int,
                                               n: nat)
    requires HasRoom(failures, Invitation(address)) && IsTimely(TimesIn(failures, OfAddress(address)), at)
    requires CountNow(failures, OfAddress(address), at) <= PER_ADDRESS
    ensures Answers(accounts, failures, Tries(Invitation(address), at, n)) == Granted(n)
            <==> CountNow(failures, OfAddress(address), at) + n <= PER_ADDRESS
    decreases n
  {
    hide Begin, CountNow, IsTimely;
    NamesOfInvitation(address);
    if n > 0 {
      var attempting, name := Invitation(address), OfAddress(address);
      var tries := Tries(attempting, at, n);
      assert tries[1..] == Tries(attempting, at, n - 1);
      TryKeepsRoom(failures, attempting, at);
      OneTry(failures, attempting, at);
      var begun := Begin(failures, attempting, at, []);
      InvitationsAnswered(accounts, begun.failures, address, at, n - 1);
      var rest := Answers(accounts, begun.failures, tries[1..]);
      assert TriesOnly(accounts, tries[0]);
      assert Answers(accounts, failures, tries) == [begun.granted] + rest;
      assert ([begun.granted] + rest)[0] == begun.granted && ([begun.granted] + rest)[1..] == rest;
      assert ([true] + Granted(n - 1))[0] && ([true] + Granted(n - 1))[1..] == Granted(n - 1);
    }
  }

  lemma {:induction false} UnstoredAnswerNothing(accounts: set<string>, failures: Failures, attempting: Attempting,
                                                 at: int, n: nat)
    requires exists key :: key in Keys(attempting) && !IsStored(accounts, key.name)
    ensures Answers(accounts, failures, Tries(attempting, at, n)) == []
    decreases n
  {
    if n > 0 {
      assert Tries(attempting, at, n)[1..] == Tries(attempting, at, n - 1);
      UnstoredAnswerNothing(accounts, Begin(failures, attempting, at, []).failures, attempting, at, n - 1);
    }
  }

  // ---------------------------------------------------------------------
  // Exactly when a restart shows

  /** Attempts name accounts as they are typed. */
  ghost predicate IsTyped(name: Name) {
    exists username: string :: AccountName(username) == name
  }

  ghost predicate TypedInv(accounts: set<string>, failures: Failures) {
    forall name: Name :: name.OfAccount? && !IsStored(accounts, name) && TimesIn(failures, name) != [] ==> IsTyped(name)
  }

  lemma BegunNames(failures: Failures, attempting: Attempting, at: int, evicted: seq<Name>, name: Name)
    requires TimesIn(Begin(failures, attempting, at, evicted).failures, name) != []
    ensures TimesIn(failures, name) != [] || name in Names(Keys(attempting))
  {
    var keys := Keys(attempting);
    KeysAreRight(attempting);
    CheckedTimes(failures, keys, at, name);
    var check := Checked(failures, keys, at);
    if check.open {
      PushAllIs(Roomy(check.failures, keys, at, evicted), keys, at, name);
    }
  }

  lemma {:induction false} SucceedNames(failures: Failures, keys: seq<Key>, at: int, name: Name)
    requires TimesIn(Succeed(failures, keys, at).failures, name) != []
    ensures TimesIn(failures, name) != []
    decreases |keys|
  {
    if keys != [] {
      SucceedNames(SucceedKey(failures, keys[0], at).failures, keys[1..], at, name);
      SucceedKeyTimes(failures, keys[0], at, name);
    }
  }

  lemma KeyIsTyped(attempting: Attempting, name: Name)
    requires name in Names(Keys(attempting)) && name.OfAccount?
    ensures IsTyped(name)
  {
    assert name == AccountName(attempting.username);
  }

  /** An act counts under no account name but those it counted already and the one typed. */
  lemma ActNames(accounts: set<string>, s: Tracked, act: Act, name: Name)
    requires Inv(accounts, s) && Allowed(accounts, s, act) && !IsStored(accounts, name)
    requires TimesIn(Do(accounts, s, act).failures, name) != []
    ensures TimesIn(s.failures, name) != [] || (act.Try? && name in Names(Keys(act.attempting)))
  {
    match act {
      case Try(attempting, at, evicted) => BegunNames(s.failures, attempting, at, evicted, name);
      case Good(attempting, begun) => SucceedNames(s.failures, Keys(attempting), begun, name);
      case Restart(at) => RestartOne(accounts, s, at, name);
    }
  }

  lemma ActKeepsTyped(accounts: set<string>, s: Tracked, act: Act, t: Tracked)
    requires Inv(accounts, s) && Allowed(accounts, s, act) && t == Do(accounts, s, act)
    requires TypedInv(accounts, s.failures)
    ensures TypedInv(accounts, t.failures)
  {
    forall name: Name | name.OfAccount? && !IsStored(accounts, name) && TimesIn(t.failures, name) != []
      ensures IsTyped(name)
    {
      ActNames(accounts, s, act, name);
      if TimesIn(s.failures, name) == [] {
        KeyIsTyped(act.attempting, name);
      }
    }
  }

  lemma {:induction false} EveryRunKeepsTyped(accounts: set<string>, s: Tracked, acts: seq<Act>, t: Tracked)
    requires Inv(accounts, s) && TypedInv(accounts, s.failures) && Leads(accounts, s, acts, t)
    ensures TypedInv(accounts, t.failures)
    decreases |acts|
  {
    if acts != [] {
      ActKeepsInv(accounts, s, acts[0]);
      ActKeepsTyped(accounts, s, acts[0], Do(accounts, s, acts[0]));
      EveryRunKeepsTyped(accounts, Do(accounts, s, acts[0]), acts[1..], t);
    }
  }

  lemma {:induction false} LongAddress(names: set<Name>) returns (length: nat)
    ensures forall name :: name in names && name.OfAddress? ==> |name.address| < length
    decreases |names|
  {
    length := 0;
    if names != {} {
      var one :| one in names;
      length := LongAddress(names - {one});
      if one.OfAddress? && |one.address| >= length {
        length := |one.address| + 1;
      }
    }
  }

  /** An address nothing is counted under. */
  lemma FreshAddress(failures: Failures) returns (address: string)
    ensures OfAddress(address) !in failures
  {
    var length := LongAddress(failures.Keys);
    address := seq(length, _ => '0');
  }

  /** A limiter to which a sign-in from an address not seen before can be tried until it is refused. */
  predicate CanTry(failures: Failures, attempting: Attempting, account: Name, address: string, at: int) {
    && attempting.SignIn? && AccountName(attempting.username) == account && attempting.address == address
    && OfAddress(address) !in failures && IsTimely(TimesIn(failures, account), at)
    && HasRoom(failures, attempting)
  }

  lemma NamesOfSignIn(attempting: Attempting, account: Name, address: string)
    requires attempting.SignIn? && AccountName(attempting.username) == account && attempting.address == address
    ensures Names(Keys(attempting)) == {account, OfAddress(address)} && |Keys(attempting)| == 2
    ensures LimitOf(account) == PER_ACCOUNT
  {
    var keys := Keys(attempting);
    assert keys == [keys[0], keys[1]];
    assert keys[0] in keys && keys[1] in keys;
    assert forall key :: key in keys <==> key == keys[0] || key == keys[1];
  }

  /** A sign-in of this account from this address, while there is room and the address is below its limit. */
  predicate SignsIn(failures: Failures, attempting: Attempting, account: Name, address: string, at: int, n: nat) {
    && attempting.SignIn? && AccountName(attempting.username) == account && attempting.address == address
    && |failures.Keys + {account, OfAddress(address)}| + 2 <= MAX_KEYS
    && IsTimely(TimesIn(failures, account), at) && IsTimely(TimesIn(failures, OfAddress(address)), at)
    && CountNow(failures, OfAddress(address), at) + n <= PER_ADDRESS
  }

  /** How many of n sign-ins are counted. */
  function Counted(count: nat, n: nat): nat {
    if count >= PER_ACCOUNT then 0 else Min(n, PER_ACCOUNT - count)
  }

  /** It is counted under both names, or under neither once the account is full. */
  lemma OneSignIn(failures: Failures, attempting: Attempting, account: Name, address: string, at: int, n: nat)
    requires SignsIn(failures, attempting, account, address, at, n) && n > 0
    ensures var next := Begin(failures, attempting, at, []).failures;
            var more := Counted(CountNow(failures, account, at), 1);
            && SignsIn(next, attempting, account, address, at, n - 1)
            && CountNow(next, account, at) == CountNow(failures, account, at) + more
            && CountNow(next, OfAddress(address), at) == CountNow(failures, OfAddress(address), at) + more
  {
    hide Begin, CountNow, IsTimely;
    NamesOfSignIn(attempting, account, address);
    TryKeepsRoom(failures, attempting, at);
    OneTry(failures, attempting, at);
  }

  /** The first of n sign-ins, then the others. */
  lemma SignInsThen(failures: Failures, next: Failures, after: Failures, attempting: Attempting, account: Name,
                    address: string, at: int, n: nat)
    requires n > 0
    requires CountNow(next, account, at)
          == CountNow(failures, account, at) + Counted(CountNow(failures, account, at), 1)
    requires CountNow(next, OfAddress(address), at)
          == CountNow(failures, OfAddress(address), at) + Counted(CountNow(failures, account, at), 1)
    requires CountNow(after, OfAddress(address), at)
          == CountNow(next, OfAddress(address), at) + Counted(CountNow(next, account, at), n - 1)
    ensures CountNow(after, OfAddress(address), at)
         == CountNow(failures, OfAddress(address), at) + Counted(CountNow(failures, account, at), n)
  {
  }

  lemma {:induction false} SignInsCount(failures: Failures, attempting: Attempting, account: Name, address: string,
                                        at: int, n: nat)
    requires SignsIn(failures, attempting, account, address, at, n)
    ensures var after := After(failures, Tries(attempting, at, n));
            && SignsIn(after, attempting, account, address, at, 0)
            && CountNow(after, OfAddress(address), at)
               == CountNow(failures, OfAddress(address), at) + Counted(CountNow(failures, account, at), n)
    decreases n
  {
    hide Begin, CountNow, IsTimely;
    if n > 0 {
      var next := Begin(failures, attempting, at, []).failures;
      OneSignIn(failures, attempting, account, address, at, n);
      SignInsCount(next, attempting, account, address, at, n - 1);
      AfterTry(failures, attempting, Tries(attempting, at, n - 1), at);
      SignInsThen(failures, next, After(next, Tries(attempting, at, n - 1)), attempting, account, address, at, n);
    }
  }

  /**
   Sign-ins to the account up to its limit and one more, then invitations from the same
   address up to its limit: a limiter that refuses that one sign-in grants the last
   invitation, and one that grants it does not.
   */
  function Probe(attempting: Attempting, at: int, n: nat): seq<Act>
    requires attempting.SignIn? && n < PER_ACCOUNT
  {
    Tries(attempting, at, n + 1) + Tries(Invitation(attempting.address), at, PER_ADDRESS - n)
  }

  lemma SmallerKeysRoom(failures: Failures, attempting: Attempting, address: string)
    requires attempting.SignIn? && attempting.address == address && HasRoom(failures, attempting)
    ensures HasRoom(failures, Invitation(address))
  {
    NamesOfInvitation(address);
    NamesOfSignIn(attempting, AccountName(attempting.username), address);
    SubsetIsSmaller(failures.Keys + {OfAddress(address)}, failures.Keys + Names(Keys(attempting)));
  }

  lemma ProbeAnswers(accounts: set<string>, failures: Failures, attempting: Attempting, account: Name, address: string,
                     at: int, n: nat)
    requires CanTry(failures, attempting, account, address, at) && !IsStored(accounts, account)
    requires n < PER_ACCOUNT && (CountNow(failures, account, at) + n <= PER_ACCOUNT || n == 0)
    ensures Answers(accounts, failures, Probe(attempting, at, n)) == Granted(PER_ADDRESS - n)
            <==> CountNow(failures, account, at) + n >= PER_ACCOUNT
  {
    hide Begin, Answers, CountNow, CanTry, SignsIn;
    var signIns, invitations := Tries(attempting, at, n + 1), Tries(Invitation(address), at, PER_ADDRESS - n);
    CanTrySignsIn(failures, attempting, account, address, at, n + 1);
    AnswersThen(accounts, failures, signIns, invitations);
    NoAnswers(accounts, failures, attempting, account, at, n + 1);
    SignInsCount(failures, attempting, account, address, at, n + 1);
    InvitationsAfter(accounts, After(failures, signIns), attempting, account, address, at, n);
  }

  lemma CanTrySignsIn(failures: Failures, attempting: Attempting, account: Name, address: string, at: int, n: nat)
    requires CanTry(failures, attempting, account, address, at) && n <= PER_ADDRESS
    ensures SignsIn(failures, attempting, account, address, at, n) && CountNow(failures, OfAddress(address), at) == 0
    ensures attempting.SignIn? && AccountName(attempting.username) == account && attempting.address == address
  {
    NamesOfSignIn(attempting, account, address);
  }

  lemma NoAnswers(accounts: set<string>, failures: Failures, attempting: Attempting, account: Name, at: int, n: nat)
    requires attempting.SignIn? && AccountName(attempting.username) == account && !IsStored(accounts, account)
    ensures Answers(accounts, failures, Tries(attempting, at, n)) == []
  {
    assert Keys(attempting)[0] in Keys(attempting) && Keys(attempting)[0].name == account;
    UnstoredAnswerNothing(accounts, failures, attempting, at, n);
  }

  lemma InvitationsAfter(accounts: set<string>, failures: Failures, attempting: Attempting, account: Name,
                         address: string, at: int, n: nat)
    requires SignsIn(failures, attempting, account, address, at, 0) && n < PER_ACCOUNT
    ensures Answers(accounts, failures, Tries(Invitation(address), at, PER_ADDRESS - n)) == Granted(PER_ADDRESS - n)
            <==> CountNow(failures, OfAddress(address), at) <= n
  {
    NamesOfInvitation(address);
    SubsetIsSmaller(failures.Keys + {OfAddress(address)}, failures.Keys + {account, OfAddress(address)});
    InvitationsAnswered(accounts, failures, address, at, PER_ADDRESS - n);
  }

  lemma ProbeGoesOn(accounts: set<string>, failures: Failures, attempting: Attempting, at: int, n: nat)
    requires attempting.SignIn? && HasRoom(failures, attempting) && FlagsAgree(accounts, attempting) && n < PER_ACCOUNT
    ensures GoesOn(accounts, failures, Probe(attempting, at, n), at)
  {
    var invitation := Invitation(attempting.address);
    var a, b := Tries(attempting, at, n + 1), Tries(invitation, at, PER_ADDRESS - n);
    TriesGoOn(accounts, failures, attempting, at, n + 1);
    TriesAreTries(attempting, at, n + 1);
    TriesAreTries(invitation, at, PER_ADDRESS - n);
    var after := After(failures, a);
    SubsetIsSmaller(after.Keys + Names(Keys(attempting)), failures.Keys + Names(Keys(attempting)));
    SmallerKeysRoom(after, attempting, attempting.address);
    TriesGoOn(accounts, after, invitation, at, PER_ADDRESS - n);
    GoesOnThen(accounts, failures, a, b, at);
  }

  /** A rebuilt limiter answers every attempt on stored names as the running one, whatever else is tried. */
  ghost predicate Transparent(accounts: set<string>, t: Tracked, at: int) {
    forall more :: GoesOn(accounts, t.failures, more, at) ==>
      Answers(accounts, Rebuilt(t.rows, at), more) == Answers(accounts, t.failures, more)
  }

  /** No name that is not stored is counted in the window. */
  ghost predicate NoneForgotten(accounts: set<string>, failures: Failures, at: int) {
    forall name :: !IsStored(accounts, name) ==> Recent(TimesIn(failures, name), at) == []
  }

  function AccountsOf(keys: seq<Key>): set<string> {
    set name | name in Names(keys) && name.OfAccount? :: name.username
  }

  function Accounts(acts: seq<Act>): set<string> {
    if acts == [] then {}
    else
      var last := acts[|acts| - 1];
      Accounts(acts[..|acts| - 1])
      + if last.Restart? then {} else AccountsOf(Keys(last.attempting))
  }

  lemma {:induction false} AccountsKnown(acts: seq<Act>)
    ensures Knows(Accounts(acts), acts)
  {
    if acts != [] {
      var before, last := acts[..|acts| - 1], acts[|acts| - 1];
      AccountsKnown(before);
      forall act, key | act in acts && !act.Restart? && key in Keys(act.attempting)
        ensures IsStored(Accounts(acts), key.name)
      {
        assert act in before || act == last;
        assert act == last ==> key.name in Names(Keys(last.attempting));
      }
    }
  }

  lemma NothingForgottenNothingShows(accounts: set<string>, start: int, acts: seq<Act>, t: Tracked, at: int)
    requires Leads(accounts, New(start), acts, t) && t.now <= at && NoneForgotten(accounts, t.failures, at)
    ensures Transparent(accounts, t, at)
  {
    forall more | GoesOn(accounts, t.failures, more, at)
      ensures Answers(accounts, Rebuilt(t.rows, at), more) == Answers(accounts, t.failures, more)
    {
      AccountsKnown(more);
      RestartAnswersAlike(accounts, Accounts(more), accounts, start, acts, t, at, more);
    }
  }

  /** A name forgotten shows: there is a run in which an attempt on a stored name is answered differently. */
  lemma WhatIsForgottenShows(accounts: set<string>, start: int, acts: seq<Act>, t: Tracked, at: int, account: Name)
    requires Leads(accounts, New(start), acts, t) && t.now <= at && |t.failures| + 3 <= MAX_KEYS
    requires !IsStored(accounts, account) && Recent(TimesIn(t.failures, account), at) != []
    ensures !Transparent(accounts, t, at)
  {
    EveryRunKeepsInv(accounts, New(start), acts, t);
    EveryRunKeepsTyped(accounts, New(start), acts, t);
    assert TimesIn(t.failures, account) != [];
    assert IsTyped(account);
    var username: string :| AccountName(username) == account;
    var address := FreshAddress(t.failures);
    var attempting := SignIn(username, address, false);
    var rebuilt := Rebuilt(t.rows, at);
    CanTryBoth(accounts, t, at, attempting, account, address);
    var c := CountNow(t.failures, account, at);
    var n := if c < PER_ACCOUNT then PER_ACCOUNT - c else 0;
    ProbeGoesOn(accounts, t.failures, attempting, at, n);
    ProbeAnswers(accounts, t.failures, attempting, account, address, at, n);
    ProbeAnswers(accounts, rebuilt, attempting, account, address, at, n);
  }

  lemma CanTryBoth(accounts: set<string>, t: Tracked, at: int, attempting: Attempting, account: Name, address: string)
    requires Inv(accounts, t) && t.now <= at && |t.failures| + 3 <= MAX_KEYS
    requires attempting.SignIn? && AccountName(attempting.username) == account && attempting.address == address
    requires !IsStored(accounts, account) && account in t.failures && OfAddress(address) !in t.failures
    ensures CanTry(t.failures, attempting, account, address, at)
    ensures CanTry(Rebuilt(t.rows, at), attempting, account, address, at)
    ensures CountNow(Rebuilt(t.rows, at), account, at) == 0
  {
    NamesOfSignIn(attempting, account, address);
    AllCountedInOrder(t.failures, t.past, t.now, account);
    RestartOne(accounts, t, at, account);
    RebuiltKeys(accounts, t, at);
    var names := Names(Keys(attempting));
    assert t.failures.Keys + names == t.failures.Keys + {OfAddress(address)};
    assert |t.failures.Keys| == |t.failures|;
    SubsetIsSmaller(Rebuilt(t.rows, at).Keys + names, t.failures.Keys + names);
  }

  /**
   Restart transparency, for every run and every way it goes on, sign-ins to unknown
   accounts among them: while there is room, a limiter rebuilt from the table grants
   exactly the attempts on stored names that the running one would, if and only if no
   account name that is not stored was counted in the window.
   */
  lemma RestartIsTransparent(accounts: set<string>, start: int, acts: seq<Act>, t: Tracked, at: int)
    requires Leads(accounts, New(start), acts, t) && t.now <= at && |t.failures| + 3 <= MAX_KEYS
    ensures Transparent(accounts, t, at) <==> NoneForgotten(accounts, t.failures, at)
  {
    if NoneForgotten(accounts, t.failures, at) {
      NothingForgottenNothingShows(accounts, start, acts, t, at);
    } else {
      var account :| !IsStored(accounts, account) && Recent(TimesIn(t.failures, account), at) != [];
      WhatIsForgottenShows(accounts, start, acts, t, at, account);
    }
  }

  /** With no failures, every attempt is granted. */
  lemma FirstIsGranted(attempting: Attempting)
    ensures !IsFull(map[], Keys(attempting)) && Begin(map[], attempting, 0, []).granted
  {
    hide Begin;
    KeysAreRight(attempting);
    GrantedExactlyBelowLimit(map[], attempting, 0, []);
  }

  lemma FirstSignIn(attempting: Attempting, account: Name, address: string)
    requires attempting.SignIn? && AccountName(attempting.username) == account && attempting.address == address
    ensures var begun := Begin(map[], attempting, 0, []);
            begun.granted && |begun.failures| == 2 && Recent(TimesIn(begun.failures, account), 0) == [0]
  {
    hide Begin, Keys, Names;
    NamesOfSignIn(attempting, account, address);
    FirstIsGranted(attempting);
    BegunTimes(map[], attempting, 0, account);
    BegunKeys(map[], attempting, 0);
    var begun := Begin(map[], attempting, 0, []);
    assert begun.failures.Keys == {account, OfAddress(address)} && |begun.failures.Keys| == |begun.failures|;
  }

  lemma FirstEvictsNothing(attempting: Attempting)
    ensures MayEvict(map[], attempting, 0, [])
  {
    KeysAreRight(attempting);
    CheckedTimes(map[], Keys(attempting), 0, OfUser(0));
    var checked := Checked(map[], Keys(attempting), 0).failures;
    assert |checked.Keys| == |checked|;
  }

  /** One failed sign-in to an account nobody has is enough. */
  lemma AnUnknownAccountShows(username: string, address: string)
    ensures exists t :: Leads({}, New(0), [Try(SignIn(username, address, false), 0, [])], t) && !Transparent({}, t, 0)
  {
    var act := Try(SignIn(username, address, false), 0, []);
    var t := Do({}, New(0), act);
    FirstSignIn(act.attempting, AccountName(username), address);
    FirstEvictsNothing(act.attempting);
    assert [act][1..] == [] && Leads({}, t, [], t);
    assert Leads({}, New(0), [act], t);
    WhatIsForgottenShows({}, 0, [act], t, 0, AccountName(username));
  }
}
