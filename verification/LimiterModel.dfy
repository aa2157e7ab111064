/**
 The sign-in limiter as values: what an attempt and a success do to the counts in memory
 and write to the journal, and what the journal does to the table behind it.
 */
module LimiterModel {

  const MINUTE: nat := 60_000
  const WINDOW: nat := 15 * MINUTE
  const PER_ACCOUNT: nat := 5
  const PER_ADDRESS: nat := 20
  /** Bounds memory: beyond this many keys, expired ones go, then the oldest. */
  const MAX_KEYS: nat := 10_000

  /** What attempts are counted by. The kinds have different prefixes, so they never collide. */
  datatype Name = OfAccount(username: string) | OfAddress(address: string) | OfUser(user: int)

  datatype Attempting =
    | SignIn(username: string, address: string, accountExists: bool)
    | Invitation(address: string)
    | PasswordChange(user: int)

  /** A key, its limit, whether success clears it whole, and whether it is stored. */
  datatype Key = Key(name: Name, limit: nat, clear: bool, stored: bool)

  datatype Attempt = Attempt(keys: seq<Key>, at: int)

  datatype Change =
    | Counted(names: seq<Name>, at: int)
    | Cleared(name: Name)
    | TakenBack(name: Name, at: int)

  type Failures = map<Name, seq<int>>

  // ---------------------------------------------------------------------
  // Keys

  predicate IsSpace(c: char) {
    || '\t' <= c <= '\r' || c == ' ' || c == '\U{85}' || c == '\U{A0}' || c == '\U{1680}'
    || '\U{2000}' <= c <= '\U{200A}' || c == '\U{2028}' || c == '\U{2029}' || c == '\U{202F}'
    || c == '\U{205F}' || c == '\U{3000}'
  }

  function Trim(s: string): string {
    if s != "" && IsSpace(s[0]) then Trim(s[1..])
    else if s != "" && IsSpace(s[|s| - 1]) then Trim(s[..|s| - 1])
    else s
  }

  function LowerChar(c: char): char {
    if 'A' <= c <= 'Z' then c - 'A' + 'a' else c
  }

  function Lower(s: string): string {
    seq(|s|, i requires 0 <= i < |s| => LowerChar(s[i]))
  }

  function AccountName(username: string): Name {
    OfAccount(Lower(Trim(username)))
  }

  function AddressKey(address: string): Key {
    Key(OfAddress(address), PER_ADDRESS, false, true)
  }

  function Keys(attempting: Attempting): seq<Key> {
    match attempting
    case SignIn(username, address, accountExists) =>
      [Key(AccountName(username), PER_ACCOUNT, true, accountExists), AddressKey(address)]
    case Invitation(address) => [AddressKey(address)]
    case PasswordChange(user) => [Key(OfUser(user), PER_ACCOUNT, true, true)]
  }

  // ---------------------------------------------------------------------
  // An attempt

  /** The times from the first that is still in the window on. */
  function Expire(times: seq<int>, now: int): seq<int> {
    if times != [] && now - times[0] >= WINDOW then Expire(times[1..], now) else times
  }

  datatype Check = Check(failures: Failures, open: bool)

  /** Drops each key's expired times, up to the first key that is at its limit. */
  function Checked(failures: Failures, keys: seq<Key>, now: int): Check {
    if keys == [] then Check(failures, true)
    else
      var key := keys[0];
      if key.name !in failures then Checked(failures, keys[1..], now)
      else
        var popped := failures[key.name := Expire(failures[key.name], now)];
        if |popped[key.name]| >= key.limit then Check(popped, false) else Checked(popped, keys[1..], now)
  }

  /** The keys whose newest attempt is in the window. */
  function Unexpired(failures: Failures, now: int): Failures {
    map name | name in failures && failures[name] != [] && now - failures[name][|failures[name]| - 1] < WINDOW
      :: failures[name]
  }

  /** No key's newest attempt is older than this one's. */
  ghost predicate IsOldest(failures: Failures, name: Name) {
    && name in failures && failures[name] != []
    && forall other :: other in failures && failures[other] != [] ==>
                         failures[name][|failures[name]| - 1] <= failures[other][|failures[other]| - 1]
  }

  function Without(failures: Failures, evicted: seq<Name>): Failures {
    failures - set name | name in evicted
  }

  /** The i-th key evicted was the oldest left, and there was no room yet. */
  ghost predicate HadToGo(failures: Failures, room: nat, evicted: seq<Name>, i: nat)
    requires i < |evicted|
  {
    var left := Without(failures, evicted[..i]);
    |left| + room > MAX_KEYS && IsOldest(left, evicted[i])
  }

  /** These keys, each the oldest when it goes, are removed until there is room for more. */
  ghost predicate Evicts(failures: Failures, room: nat, evicted: seq<Name>) {
    && (forall i :: 0 <= i < |evicted| ==> HadToGo(failures, room, evicted, i))
    && (|Without(failures, evicted)| + room <= MAX_KEYS || Without(failures, evicted) == map[])
  }

  predicate IsFull(failures: Failures, keys: seq<Key>) {
    |failures| + |keys| > MAX_KEYS
  }

  function Push(failures: Failures, name: Name, now: int): Failures {
    failures[name := (if name in failures then failures[name] else []) + [now]]
  }

  function PushAll(failures: Failures, keys: seq<Key>, now: int): Failures
    decreases |keys|
  {
    if keys == [] then failures else PushAll(Push(failures, keys[0].name, now), keys[1..], now)
  }

  function StoredNames(keys: seq<Key>): seq<Name> {
    if keys == [] then []
    else if keys[0].stored then [keys[0].name] + StoredNames(keys[1..])
    else StoredNames(keys[1..])
  }

  function Clearings(evicted: seq<Name>): seq<Change> {
    seq(|evicted|, i requires 0 <= i < |evicted| => Cleared(evicted[i]))
  }

  /** What an attempt leaves: the counts, whether it may go on, and the changes journalled. */
  datatype Begun = Begun(failures: Failures, granted: bool, changes: seq<Change>)

  /** The keys left when there must be room for the attempt's own. */
  function Roomy(failures: Failures, keys: seq<Key>, now: int, evicted: seq<Name>): Failures {
    if IsFull(failures, keys) then Without(Unexpired(failures, now), evicted) else failures
  }

  function Begin(failures: Failures, attempting: Attempting, now: int, evicted: seq<Name>): Begun {
    var keys := Keys(attempting);
    var check := Checked(failures, keys, now);
    if !check.open then Begun(check.failures, false, [])
    else
      Begun(PushAll(Roomy(check.failures, keys, now, evicted), keys, now), true,
            (if IsFull(check.failures, keys) then Clearings(evicted) else []) + [Counted(StoredNames(keys), now)])
  }

  /** The keys an attempt may evict: none unless it must make room. */
  ghost predicate MayEvict(failures: Failures, attempting: Attempting, now: int, evicted: seq<Name>) {
    var check := Checked(failures, Keys(attempting), now);
    if check.open && IsFull(check.failures, Keys(attempting))
    then Evicts(Unexpired(check.failures, now), |Keys(attempting)|, evicted)
    else evicted == []
  }

  // ---------------------------------------------------------------------
  // A success

  function RemoveFirst(times: seq<int>, at: int): seq<int> {
    if times == [] then []
    else if times[0] == at then times[1..]
    else [times[0]] + RemoveFirst(times[1..], at)
  }

  datatype Freed = Freed(failures: Failures, changes: seq<Change>)

  function SucceedKey(failures: Failures, key: Key, at: int): Freed {
    if key.clear then Freed(failures - {key.name}, if key.stored then [Cleared(key.name)] else [])
    else if key.name in failures && at in failures[key.name]
    then Freed(failures[key.name := RemoveFirst(failures[key.name], at)],
               if key.stored then [TakenBack(key.name, at)] else [])
    else Freed(failures, [])
  }

  function Succeed(failures: Failures, keys: seq<Key>, at: int): Freed {
    if keys == [] then Freed(failures, [])
    else
      var one := SucceedKey(failures, keys[0], at);
      var rest := Succeed(one.failures, keys[1..], at);
      Freed(rest.failures, one.changes + rest.changes)
  }

  // ---------------------------------------------------------------------
  // The table

  datatype Row = Row(name: Name, at: int)

  function KeepAfter(rows: seq<Row>, bound: int): seq<Row> {
    if rows == [] then []
    else if rows[0].at > bound then [rows[0]] + KeepAfter(rows[1..], bound)
    else KeepAfter(rows[1..], bound)
  }

  function KeepOthers(rows: seq<Row>, name: Name): seq<Row> {
    if rows == [] then []
    else if rows[0].name != name then [rows[0]] + KeepOthers(rows[1..], name)
    else KeepOthers(rows[1..], name)
  }

  function RemoveRow(rows: seq<Row>, row: Row): seq<Row> {
    if rows == [] then []
    else if rows[0] == row then rows[1..]
    else [rows[0]] + RemoveRow(rows[1..], row)
  }

  function RowsFor(names: seq<Name>, at: int): seq<Row> {
    seq(|names|, i requires 0 <= i < |names| => Row(names[i], at))
  }

  /** A change carried out on the table, whose rows are in the order of their ids. */
  function Record(rows: seq<Row>, change: Change): seq<Row> {
    match change
    case Counted(names, at) =>
      if names == [] then rows else KeepAfter(rows + RowsFor(names, at), at - WINDOW)
    case Cleared(name) => KeepOthers(rows, name)
    case TakenBack(name, at) => RemoveRow(rows, Row(name, at))
  }

  function RecordAll(rows: seq<Row>, changes: seq<Change>): seq<Row>
    decreases |changes|
  {
    if changes == [] then rows else RecordAll(Record(rows, changes[0]), changes[1..])
  }

  /** Rows by time, those of one time in the order of their ids. */
  function ByTime(rows: seq<Row>): seq<Row> {
    if rows == [] then [] else Insert(ByTime(rows[..|rows| - 1]), rows[|rows| - 1])
  }

  function Insert(rows: seq<Row>, row: Row): seq<Row> {
    if rows == [] || rows[|rows| - 1].at <= row.at then rows + [row]
    else Insert(rows[..|rows| - 1], row) + [rows[|rows| - 1]]
  }

  function TimesOf(rows: seq<Row>, name: Name): seq<int> {
    if rows == [] then []
    else if rows[0].name == name then [rows[0].at] + TimesOf(rows[1..], name)
    else TimesOf(rows[1..], name)
  }

  function PushRows(failures: Failures, rows: seq<Row>): Failures {
    if rows == [] then failures
    else Push(PushRows(failures, rows[..|rows| - 1]), rows[|rows| - 1].name, rows[|rows| - 1].at)
  }

  /** The counts a new process starts from, at this time. */
  function Rebuilt(rows: seq<Row>, now: int): Failures {
    PushRows(map[], ByTime(KeepAfter(rows, now - WINDOW)))
  }
}
