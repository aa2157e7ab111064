/**
 One user's event log in the gateway, as a state machine: batches that number, store and
 broadcast events under the log's lock, pruning, and restarts of the process.

 `EventLog` carries a batch's steps out in place.
 */
module EventLogModel {
  import opened Protocol

  /** A log is pruned each time its newest number passes a multiple of this. */
  const PRUNE_EVERY: nat := 256

  /** A batch holds the log's lock: while its transaction is open, then while it broadcasts. */
  datatype Batch =
    | Open(first: Seq, previous: Seq, pending: seq<Envelope>)
    | Announcing(first: Seq, previous: Seq, left: seq<Envelope>)

  /**
   What has happened so far: every event committed, in order; how many of them before this
   process started; the highest number pruned; the newest prune due, and whether it failed
   or was lost in a restart.
   */
  datatype History = History(committed: seq<Event>, started: nat, low: nat, due: nat, missed: bool)

  datatype LogState = LogState(
    retention: nat,
    rows: map<Seq, Event>,
    last: Option<Seq>,
    batch: Option<Batch>,
    prunes: set<Seq>,
    live: seq<Envelope>,
    history: History)
  {
    /** Takes the lock. The number cached is taken with it, so only a commit puts one back. */
    ghost function Begin(ok: bool): LogState {
      var first := if last.Some? then last.value else StoredLast(rows);
      this.(last := None, batch := if ok then Some(Open(first, first, [])) else None)
    }

    /** The table's key refuses a number already stored. */
    function Emit(event: Event, ok: bool): LogState
      requires batch.Some? && batch.value.Open?
    {
      var envelope := Envelope(batch.value.previous + 1, event);
      if !ok || envelope.number in rows then this
      else this.(batch := Some(Open(batch.value.first, envelope.number, batch.value.pending + [envelope])))
    }

    function Drop(): LogState {
      this.(batch := None)
    }

    function Commit(ok: bool): LogState
      requires batch.Some? && batch.value.Open?
    {
      var b := batch.value;
      if !ok then Drop()
      else this.(rows := Stored(rows, b.pending),
                 last := Some(b.previous),
                 batch := Some(Announcing(b.first, b.previous, b.pending)),
                 history := Committed(history, b, retention))
    }

    /** Broadcasts the next event, still holding the lock. */
    function Announce(): LogState
      requires batch.Some? && batch.value.Announcing? && batch.value.left != []
    {
      this.(live := live + [batch.value.left[0]], batch := Some(batch.value.(left := batch.value.left[1..])))
    }

    /** Broadcasts every event left. */
    function AnnounceAll(): LogState
      requires batch.Some? && batch.value.Announcing?
    {
      this.(live := live + batch.value.left, batch := Some(batch.value.(left := [])))
    }

    /** Lets the lock go. A prune may be due, and runs some time after. */
    function Release(): LogState
      requires batch.Some? && batch.value.Announcing?
    {
      var due := DuePrune(batch.value.first, batch.value.previous, retention);
      this.(batch := None, prunes := prunes + if due.Some? then {due.value} else {})
    }

    function Prune(bound: Seq, ok: bool): LogState {
      var kept := this.(prunes := prunes - {bound});
      if ok then kept.(rows := map n | n in rows && n > bound :: rows[n],
                       history := history.(low := Max(history.low, bound)))
      else kept.(history := history.(missed := history.missed || (bound == history.due && history.low < bound)))
    }

    /** Reads the newest number, and caches it. */
    ghost function ReadLatest(): LogState {
      this.(last := Some(if last.Some? then last.value else StoredLast(rows)))
    }

    /** The process ends at any point and starts anew: only the table stays. */
    function Restart(): LogState {
      LogState(retention, rows, None, None, {}, [],
               history.(started := |history.committed|, missed := history.missed || history.low < history.due))
    }
  }

  /** A log no event was ever appended to. It keeps at least one event. */
  function NewLog(retention: nat): LogState {
    LogState(Max(retention, 1), map[], None, None, {}, [], History([], 0, 0, 0, false))
  }

  ghost predicate IsGreatest(rows: map<Seq, Event>, n: Seq) {
    n in rows && forall m :: m in rows ==> m <= n
  }

  /** The greatest number stored, or 0. */
  ghost function StoredLast(rows: map<Seq, Event>): Seq {
    if exists n: Seq :: IsGreatest(rows, n) then var n: Seq :| IsGreatest(rows, n); n else 0
  }

  function Stored(rows: map<Seq, Event>, envelopes: seq<Envelope>): map<Seq, Event> {
    if envelopes == [] then rows
    else
      var last := envelopes[|envelopes| - 1];
      Stored(rows, envelopes[..|envelopes| - 1])[last.number := last.event]
  }

  function DuePrune(first: Seq, previous: Seq, retention: nat): Option<Seq> {
    if previous / PRUNE_EVERY > first / PRUNE_EVERY && previous > retention then Some(previous - retention) else None
  }

  function EventsOf(envelopes: seq<Envelope>): seq<Event> {
    seq(|envelopes|, i requires 0 <= i < |envelopes| => envelopes[i].event)
  }

  function Committed(history: History, b: Batch, retention: nat): History
    requires b.Open?
  {
    var all := history.(committed := history.committed + EventsOf(b.pending));
    var due := DuePrune(b.first, b.previous, retention);
    if due.Some? then all.(due := due.value, missed := false) else all
  }

  // ---------------------------------------------------------------------
  // Runs

  datatype LogStep =
    | BeginBatch(ok: bool)
    | EmitEvent(event: Event, ok: bool)
    | CommitBatch(ok: bool)
    | DropBatch
    | AnnounceNext
    | ReleaseBatch
    | PruneTo(bound: Seq, ok: bool)
    | LatestRead
    | ProcessRestart

  /** The lock lets one batch, or one reader of the newest number, in at a time. */
  predicate Allowed(s: LogState, step: LogStep) {
    match step
    case BeginBatch(_) => s.batch.None?
    case EmitEvent(_, _) => s.batch.Some? && s.batch.value.Open?
    case CommitBatch(_) => s.batch.Some? && s.batch.value.Open?
    case DropBatch => s.batch.Some? && s.batch.value.Open?
    case AnnounceNext => s.batch.Some? && s.batch.value.Announcing? && s.batch.value.left != []
    case ReleaseBatch => s.batch.Some? && s.batch.value.Announcing? && s.batch.value.left == []
    case PruneTo(bound, _) => bound in s.prunes
    case LatestRead => s.batch.None?
    case ProcessRestart => true
  }

  ghost function Do(s: LogState, step: LogStep): LogState
    requires Allowed(s, step)
  {
    match step
    case BeginBatch(ok) => s.Begin(ok)
    case EmitEvent(event, ok) => s.Emit(event, ok)
    case CommitBatch(ok) => s.Commit(ok)
    case DropBatch => s.Drop()
    case AnnounceNext => s.Announce()
    case ReleaseBatch => s.Release()
    case PruneTo(bound, ok) => s.Prune(bound, ok)
    case LatestRead => s.ReadLatest()
    case ProcessRestart => s.Restart()
  }

  /** These steps lead from one state to the other, each allowed where it is taken. */
  ghost predicate Leads(s: LogState, steps: seq<LogStep>, t: LogState)
    decreases |steps|
  {
    if steps == [] then s == t
    else Allowed(s, steps[0]) && Leads(Do(s, steps[0]), steps[1..], t)
  }

  /** Broadcasting all at once is broadcasting one by one. */
  lemma {:induction false} AnnouncingLeads(s: LogState)
    requires s.batch.Some? && s.batch.value.Announcing?
    ensures Leads(s, seq(|s.batch.value.left|, _ => AnnounceNext), s.AnnounceAll())
    decreases |Left(s.batch)|
  {
    var left := s.batch.value.left;
    if left == [] {
      assert s.AnnounceAll() == s;
    } else {
      AnnouncingLeads(s.Announce());
      var steps := seq(|left|, _ => AnnounceNext);
      assert steps[1..] == seq(|left| - 1, _ => AnnounceNext);
      assert s.live + [left[0]] + left[1..] == s.live + left;
    }
  }

  // ---------------------------------------------------------------------
  // Reading

  ghost predicate IsNext(rows: map<Seq, Event>, after: Seq, n: Seq) {
    n in rows && n > after && forall m :: m in rows && m > after ==> n <= m
  }

  /** Up to `limit` stored events after a number, by number. */
  ghost function Since(rows: map<Seq, Event>, after: Seq, limit: nat): seq<Envelope>
    decreases limit
  {
    if limit > 0 && exists n: Seq :: IsNext(rows, after, n) then
      var n: Seq :| IsNext(rows, after, n);
      [Envelope(n, rows[n])] + Since(rows, n, limit - 1)
    else []
  }

  // ---------------------------------------------------------------------
  // The invariant

  /** Events from + 1 to the to-th of the log, as they are broadcast. */
  function Numbered(log: seq<Event>, from: nat, to: nat): seq<Envelope>
    requires from <= to <= |log|
  {
    seq(to - from, i requires 0 <= i < to - from => Envelope(from + 1 + i, log[from + i]))
  }

  /** The rows are one gapless run of the log, up to its last event. */
  ghost predicate RowsAre(rows: map<Seq, Event>, log: seq<Event>, low: nat) {
    && low <= |log| && (log != [] ==> low < |log|)
    && (forall n :: n in rows <==> low < n <= |log|)
    && (forall n :: n in rows ==> rows[n] == log[n - 1])
  }

  /** What the holder of the lock has done. */
  ghost predicate BatchInv(s: LogState) {
    var h := |s.history.committed|;
    match s.batch
    case None => s.last in {None, Some(h)}
    case Some(Open(first, previous, pending)) =>
      && s.last.None? && first == h && previous == h + |pending|
      && (forall i :: 0 <= i < |pending| ==> pending[i].number == h + 1 + i)
    case Some(Announcing(first, previous, _)) => s.last == Some(h) && first <= previous == h
  }

  function Left(batch: Option<Batch>): seq<Envelope> {
    if batch.Some? && batch.value.Announcing? then batch.value.left else []
  }

  /** Broadcast so far, and still to be broadcast: exactly what this process committed. */
  ghost predicate LiveInv(s: LogState) {
    && s.history.started <= |s.history.committed|
    && s.live + Left(s.batch) == Numbered(s.history.committed, s.history.started, |s.history.committed|)
  }

  ghost predicate PruneInv(s: LogState) {
    var h := |s.history.committed|;
    && s.retention >= 1
    && (forall bound :: bound in s.prunes ==> bound + s.retention <= h)
    && (s.history.due > 0 ==> s.history.due + s.retention <= h)
    && (s.history.low > 0 ==> s.history.low + s.retention <= h)
    && PRUNE_EVERY * (h / PRUNE_EVERY) <= s.history.due + s.retention
    && (|| s.history.due <= s.history.low || s.history.due in s.prunes || s.history.missed
        || (s.batch.Some? && s.batch.value.Announcing?
            && DuePrune(s.batch.value.first, s.batch.value.previous, s.retention) == Some(s.history.due)))
  }

  ghost predicate LogInv(s: LogState) {
    RowsAre(s.rows, s.history.committed, s.history.low) && BatchInv(s) && LiveInv(s) && PruneInv(s)
  }

  lemma StoredLastIs(rows: map<Seq, Event>, log: seq<Event>, low: nat)
    requires RowsAre(rows, log, low)
    ensures StoredLast(rows) == |log|
  {
    if log != [] {
      assert IsGreatest(rows, |log|);
    }
  }

  lemma {:induction false} StoredIs(rows: map<Seq, Event>, log: seq<Event>, low: nat, pending: seq<Envelope>)
    requires RowsAre(rows, log, low)
    requires forall i :: 0 <= i < |pending| ==> pending[i].number == |log| + 1 + i
    ensures RowsAre(Stored(rows, pending), log + EventsOf(pending), low)
  {
    if pending == [] {
      assert log + EventsOf(pending) == log;
    } else {
      var front, last := pending[..|pending| - 1], pending[|pending| - 1];
      StoredIs(rows, log, low, front);
      assert log + EventsOf(pending) == log + EventsOf(front) + [last.event];
    }
  }

  lemma CommitKeeps(s: LogState)
    requires LogInv(s) && s.batch.Some? && s.batch.value.Open?
    ensures LogInv(s.Commit(true))
  {
    var b := s.batch.value;
    var after := s.Commit(true);
    StoredIs(s.rows, s.history.committed, s.history.low, b.pending);
    var log, h := s.history.committed, |s.history.committed|;
    assert after.history.committed == log + EventsOf(b.pending);
    assert Numbered(after.history.committed, s.history.started, h + |b.pending|)
        == Numbered(log, s.history.started, h) + b.pending;
  }

  lemma BeginKeeps(s: LogState, ok: bool)
    requires LogInv(s) && s.batch.None?
    ensures LogInv(s.Begin(ok)) && LogInv(s.ReadLatest())
  {
    StoredLastIs(s.rows, s.history.committed, s.history.low);
  }

  lemma EmitKeeps(s: LogState, event: Event, ok: bool)
    requires LogInv(s) && s.batch.Some? && s.batch.value.Open?
    ensures LogInv(s.Emit(event, ok))
  {
  }

  lemma AnnounceKeeps(s: LogState)
    requires LogInv(s) && s.batch.Some? && s.batch.value.Announcing? && s.batch.value.left != []
    ensures LogInv(s.Announce())
  {
    var left := s.batch.value.left;
    assert s.live + left == s.live + [left[0]] + left[1..];
  }

  lemma DropKeeps(s: LogState)
    requires LogInv(s) && s.batch.Some? && s.batch.value.Open?
    ensures LogInv(s.Drop())
  {
  }

  lemma RestartKeeps(s: LogState)
    requires LogInv(s)
    ensures LogInv(s.Restart())
  {
  }

  lemma ReleaseKeeps(s: LogState)
    requires LogInv(s) && s.batch.Some? && s.batch.value.Announcing? && s.batch.value.left == []
    ensures LogInv(s.Release())
  {
  }

  lemma PruneKeeps(s: LogState, bound: Seq, ok: bool)
    requires LogInv(s) && bound in s.prunes
    ensures LogInv(s.Prune(bound, ok))
  {
  }

  lemma StepKeepsLogInv(s: LogState, step: LogStep)
    requires LogInv(s) && Allowed(s, step)
    ensures LogInv(Do(s, step))
  {
    hide LiveInv;
    match step {
      case BeginBatch(ok) => BeginKeeps(s, ok);
      case EmitEvent(event, ok) => EmitKeeps(s, event, ok);
      case CommitBatch(ok) =>
        if ok {
          CommitKeeps(s);
        } else {
          DropKeeps(s);
        }
      case DropBatch => DropKeeps(s);
      case AnnounceNext => AnnounceKeeps(s);
      case ReleaseBatch => ReleaseKeeps(s);
      case PruneTo(bound, ok) => PruneKeeps(s, bound, ok);
      case LatestRead => BeginKeeps(s, true);
      case ProcessRestart => RestartKeeps(s);
    }
  }

  lemma {:induction false} EveryRunKeepsLogInv(s: LogState, steps: seq<LogStep>, t: LogState)
    requires LogInv(s) && Leads(s, steps, t)
    ensures LogInv(t)
    ensures s.history.committed <= t.history.committed && s.retention == t.retention
    decreases |steps|
  {
    if steps != [] {
      StepKeepsLogInv(s, steps[0]);
      EveryRunKeepsLogInv(Do(s, steps[0]), steps[1..], t);
    }
  }

  // ---------------------------------------------------------------------
  // What every run guarantees

  /**
   Log integrity, over every interleaving of batches, failures, prunes and restarts: the
   stored numbers are one gapless run ending at the last event committed, each with the
   event committed under it; the cached number is right whenever the lock is free; and
   the process has broadcast its committed events in log order, all of them once the
   lock is free.
   */
  lemma LogIntegrity(retention: nat, steps: seq<LogStep>, t: LogState)
    requires Leads(NewLog(retention), steps, t)
    ensures var h := t.history;
            && RowsAre(t.rows, h.committed, h.low)
            && (t.batch.None? ==> t.last in {None, Some(|h.committed|)})
            && h.started <= |h.committed|
            && t.live <= Numbered(h.committed, h.started, |h.committed|)
            && (t.batch.None? || t.batch.value.Open? ==>
                  t.live == Numbered(h.committed, h.started, |h.committed|))
  {
    EveryRunKeepsLogInv(NewLog(retention), steps, t);
  }

  /**
   Numbering never skips or repeats, across rollbacks and restarts: the next event of a
   batch is numbered one past every event committed and the batch's own, and its number
   is free.
   */
  lemma NextNumberIsNext(retention: nat, steps: seq<LogStep>, t: LogState, event: Event)
    requires Leads(NewLog(retention), steps, t) && t.batch.Some? && t.batch.value.Open?
    ensures var next := |t.history.committed| + |t.batch.value.pending| + 1;
            && next !in t.rows
            && t.Emit(event, true).batch.value.pending == t.batch.value.pending + [Envelope(next, event)]
  {
    EveryRunKeepsLogInv(NewLog(retention), steps, t);
  }

  /** The newest number is known to every reader, even after a restart, whatever was pruned. */
  lemma LatestIsLast(retention: nat, steps: seq<LogStep>, t: LogState)
    requires Leads(NewLog(retention), steps, t) && t.batch.None?
    ensures t.ReadLatest().last == Some(|t.history.committed|)
    ensures t.Restart().ReadLatest().last == Some(|t.history.committed|)
    ensures t.Begin(true).batch == Some(Open(|t.history.committed|, |t.history.committed|, []))
  {
    EveryRunKeepsLogInv(NewLog(retention), steps, t);
    StoredLastIs(t.rows, t.history.committed, t.history.low);
  }

  lemma {:induction false} RunSize(rows: map<Seq, Event>, low: nat, high: nat)
    requires low <= high && forall n :: n in rows <==> low < n <= high
    ensures |rows| == high - low
    decreases high - low
  {
    if low == high {
      assert rows.Keys == {};
    } else {
      RunSize(rows - {high}, low, high - 1);
      assert rows.Keys == (rows - {high}).Keys + {high};
    }
  }

  /**
   The retention bound: the log keeps at least the newest `retention` events, and once
   the newest prune due has run and did not fail, at most `retention` + 255.
   */
  lemma RetentionBound(retention: nat, steps: seq<LogStep>, t: LogState)
    requires Leads(NewLog(retention), steps, t)
    ensures var h, kept := |t.history.committed|, Max(retention, 1);
            && |t.rows| >= (if h < kept then h else kept)
            && (t.batch.None? && t.prunes == {} && !t.history.missed ==> |t.rows| < kept + 256)
  {
    EveryRunKeepsLogInv(NewLog(retention), steps, t);
    RunSize(t.rows, t.history.low, |t.history.committed|);
  }

  /** The commit passed this multiple of 256. */
  predicate Passes(first: Seq, previous: Seq, multiple: nat) {
    first < 256 * multiple <= previous
  }

  /**
   A batch asks for a prune exactly if it passed a multiple of 256 and the log may hold more
   than it keeps; the prune then lets all but the newest `retention` events go.
   */
  lemma WhenAPruneIsDue(first: Seq, previous: Seq, retention: nat)
    ensures var due := DuePrune(first, previous, retention);
            && (due.Some? <==> retention < previous && exists multiple: nat :: Passes(first, previous, multiple))
            && (due.Some? ==> due.value + retention == previous)
  {
    if DuePrune(first, previous, retention).Some? {
      assert Passes(first, previous, previous / 256);
    }
  }
}
