/**
 One user's event log, in place. The fields of the batch that holds the log's lock are
 kept beside it while it does. Whether the database carries out a statement is a
 parameter.
 */
module EventLogs {
  import opened Protocol
  import opened EventLogModel

  class EventLog {
    const retention: nat
    var rows: map<Seq, Event>
    var last: Option<Seq>
    var batch: Option<Batch>
    var prunes: set<Seq>
    var live: seq<Envelope>
    ghost var history: History

    ghost function State(): LogState
      reads this
    {
      LogState(retention, rows, last, batch, prunes, live, history)
    }

    constructor (retention: nat)
      ensures State() == NewLog(retention)
    {
      this.retention := Max(retention, 1);
      rows, last, batch, prunes, live := map[], None, None, {}, [];
      history := History([], 0, 0, 0, false);
    }

    /** The greatest number stored. */
    method ReadStoredLast() returns (greatest: Seq)
      ensures greatest == StoredLast(rows)
    {
      greatest := 0;
      var left := rows.Keys;
      while left != {}
        invariant left <= rows.Keys
        invariant forall n :: n in rows ==> n in left || n <= greatest
        invariant greatest == 0 || greatest in rows
      {
        var n :| n in left;
        if n > greatest {
          greatest := n;
        }
        left := left - {n};
      }
      if greatest in rows {
        assert IsGreatest(rows, greatest);
      } else {
        assert forall n: Seq :: n in rows ==> n == 0;
      }
    }

    method Begin(ok: bool)
      requires batch.None?
      modifies this
      ensures State() == old(State()).Begin(ok)
    {
      var cached := last;
      last := None;
      if !ok {
        return;
      }
      var first: Seq;
      match cached {
        case Some(previous) => first := previous;
        case None => first := ReadStoredLast();
      }
      batch := Some(Open(first, first, []));
    }

    method Emit(event: Event, ok: bool) returns (done: bool)
      requires batch.Some? && batch.value.Open?
      modifies this`batch
      ensures State() == old(State()).Emit(event, ok)
      ensures done <==> ok && old(batch).value.previous + 1 !in rows
    {
      var b := batch.value;
      var number := b.previous + 1;
      done := ok && number !in rows;
      if done {
        batch := Some(Open(b.first, number, b.pending + [Envelope(number, event)]));
      }
    }

    method Drop()
      requires batch.Some? && batch.value.Open?
      modifies this`batch
      ensures State() == old(State()).Drop()
    {
      batch := None;
    }

    /** Commits, broadcasts with the lock held, and lets it go. */
    method Finish(ok: bool) returns (sent: Option<seq<Envelope>>)
      requires batch.Some? && batch.value.Open?
      modifies this
      ensures !ok ==> sent == None && State() == old(State()).Drop()
      ensures ok ==> sent == Some(old(batch).value.pending)
                     && State() == old(State()).Commit(true).AnnounceAll().Release()
    {
      var b := batch.value;
      if !ok {
        batch := None;
        return None;
      }
      rows := Stored(rows, b.pending);
      history := Committed(history, b, retention);
      last := Some(b.previous);
      for i := 0 to |b.pending|
        invariant live == old(live) + b.pending[..i]
        invariant rows == Stored(old(rows), b.pending) && last == Some(b.previous)
        invariant history == Committed(old(history), b, retention) && prunes == old(prunes)
      {
        live := live + [b.pending[i]];
        assert b.pending[..i + 1] == b.pending[..i] + [b.pending[i]];
      }
      assert b.pending[..|b.pending|] == b.pending;
      batch := None;
      if b.previous / PRUNE_EVERY > b.first / PRUNE_EVERY && b.previous > retention {
        prunes := prunes + {b.previous - retention};
      }
      sent := Some(b.pending);
    }

    method Prune(bound: Seq, ok: bool)
      requires bound in prunes
      modifies this
      ensures State() == old(State()).Prune(bound, ok)
    {
      prunes := prunes - {bound};
      history := State().Prune(bound, ok).history;
      if ok {
        rows := map n | n in rows && n > bound :: rows[n];
      }
    }

    method Latest() returns (newest: Seq)
      requires batch.None?
      modifies this`last
      ensures State() == old(State()).ReadLatest() && last == Some(newest)
    {
      match last {
        case Some(value) => newest := value;
        case None =>
          newest := ReadStoredLast();
          last := Some(newest);
      }
    }

    /**
     Appends one event. It is stored under the number after the newest and broadcast, or
     the database failed and neither happens.
     */
    method Append(event: Event, begins: bool, inserts: bool, commits: bool) returns (sent: Option<Envelope>)
      requires LogInv(State()) && batch.None?
      modifies this
      ensures LogInv(State()) && batch.None?
      ensures sent.Some? <==> begins && inserts && commits
      ensures sent.Some? ==> sent.value == Envelope(|old(history).committed| + 1, event)
      ensures HasAppended(old(State()), State(), if sent.Some? then [event] else [])
    {
      ghost var s := State();
      AppendingAppends(s, event);
      Begin(begins);
      if !begins {
        return None;
      }
      var done := Emit(event, inserts);
      if !done {
        Drop();
        return None;
      }
      var envelopes := Finish(commits);
      if !commits {
        return None;
      }
      sent := Some(envelopes.value[|envelopes.value| - 1]);
    }

    /** The oldest number stored, if there is any. */
    method Earliest() returns (first: Option<Seq>)
      ensures first.None? ==> rows == map[]
      ensures first.Some? ==> first.value in rows && forall n :: n in rows ==> first.value <= n
    {
      first := NextRow(None);
      if first.None? {
        assert forall n :: n in rows ==> IsBeyond(None, n);
        assert rows.Keys == {};
      } else {
        assert forall n :: n in rows ==> IsBeyond(None, n);
      }
    }

    /** The first row after a number, or of all. */
    method NextRow(after: Option<Seq>) returns (next: Option<Seq>)
      ensures next.None? ==> forall n :: n in rows ==> !IsBeyond(after, n)
      ensures next.Some? ==> next.value in rows && IsBeyond(after, next.value)
      ensures next.Some? ==> forall n :: n in rows && IsBeyond(after, n) ==> next.value <= n
    {
      next := None;
      var left := rows.Keys;
      while left != {}
        invariant left <= rows.Keys
        invariant next.None? ==> forall n :: n in rows ==> n in left || !IsBeyond(after, n)
        invariant next.Some? ==> next.value in rows && IsBeyond(after, next.value)
        invariant next.Some? ==> forall n :: n in rows && IsBeyond(after, n) ==> n in left || next.value <= n
      {
        var n :| n in left;
        if IsBeyond(after, n) && (next.None? || n < next.value) {
          next := Some(n);
        }
        left := left - {n};
      }
    }

    method ReadSince(after: Seq, limit: nat) returns (page: seq<Envelope>)
      ensures page == Since(rows, after, limit)
    {
      page := [];
      var at := after;
      while |page| < limit
        invariant |page| <= limit
        invariant page + Since(rows, at, limit - |page|) == Since(rows, after, limit)
      {
        var next := NextRow(Some(at));
        match next {
          case None =>
            assert forall m :: IsNext(rows, at, m) ==> IsBeyond(Some(at), m);
            return;
          case Some(n) =>
            assert forall m :: m in rows && m > at ==> IsBeyond(Some(at), m);
            assert IsNext(rows, at, n);
            assert forall m :: IsNext(rows, at, m) ==> m == n;
            page := page + [Envelope(n, rows[n])];
            at := n;
        }
      }
    }
  }

  predicate IsBeyond(after: Option<Seq>, n: Seq) {
    after.None? || n > after.value
  }

  /** Nothing but these events has been added: committed, stored and broadcast, in order. */
  ghost predicate HasAppended(s: LogState, t: LogState, events: seq<Event>) {
    && t.history.committed == s.history.committed + events
    && t.live == s.live + Numbered(t.history.committed, |s.history.committed|, |t.history.committed|)
    && (forall n :: n in t.rows <==> n in s.rows || |s.history.committed| < n <= |t.history.committed|)
    && (forall n :: n in s.rows ==> n in t.rows && t.rows[n] == s.rows[n])
  }

  /** Each way a batch of one event can end, and what it leaves behind. */
  lemma AppendingAppends(s: LogState, event: Event)
    requires LogInv(s) && s.batch.None?
    ensures LogInv(s.Begin(false)) && HasAppended(s, s.Begin(false), [])
    ensures var begun := s.Begin(true);
            var added := begun.Emit(event, true);
            && begun.batch.value.previous + 1 !in s.rows
            && LogInv(begun.Drop()) && HasAppended(s, begun.Drop(), [])
            && LogInv(added.Drop()) && HasAppended(s, added.Drop(), [])
            && added.batch.value.pending == [Envelope(|s.history.committed| + 1, event)]
            && LogInv(Finished(added)) && HasAppended(s, Finished(added), [event])
  {
    BeginningAppendsNothing(s, false);
    BeginningAppendsNothing(s, true);
    var begun := s.Begin(true);
    var added := begun.Emit(event, true);
    AddingOne(s, event);
    DroppingAppendsNothing(s, begun);
    DroppingAppendsNothing(s, added);
    FinishingKeeps(added);
    FinishingAppends(s, added, event);
  }

  /** Beginning and adding change neither what is stored nor what was broadcast. */
  ghost predicate SameEvents(s: LogState, t: LogState) {
    t.rows == s.rows && t.history == s.history && t.live == s.live
  }

  lemma BeginningAppendsNothing(s: LogState, ok: bool)
    requires LogInv(s) && s.batch.None?
    ensures LogInv(s.Begin(ok)) && SameEvents(s, s.Begin(ok)) && HasAppended(s, s.Begin(ok), [])
  {
    StepKeepsLogInv(s, BeginBatch(ok));
  }

  lemma AddingOne(s: LogState, event: Event)
    requires LogInv(s) && s.batch.None? && LogInv(s.Begin(true))
    ensures var begun := s.Begin(true);
            var added := begun.Emit(event, true);
            && begun.batch.value.previous + 1 !in s.rows
            && LogInv(added) && SameEvents(s, added) && added.batch.Some? && added.batch.value.Open?
            && added.batch.value.pending == [Envelope(|s.history.committed| + 1, event)]
  {
    StoredLastIs(s.rows, s.history.committed, s.history.low);
    StepKeepsLogInv(s.Begin(true), EmitEvent(event, true));
  }

  lemma DroppingAppendsNothing(s: LogState, t: LogState)
    requires LogInv(s) && LogInv(t) && SameEvents(s, t) && t.batch.Some? && t.batch.value.Open?
    ensures LogInv(t.Drop()) && HasAppended(s, t.Drop(), [])
  {
    StepKeepsLogInv(t, DropBatch);
  }

  ghost function Finished(s: LogState): LogState
    requires s.batch.Some? && s.batch.value.Open?
  {
    s.Commit(true).AnnounceAll().Release()
  }

  /** Committing, broadcasting and releasing keeps the log's invariant. */
  lemma FinishingKeeps(s: LogState)
    requires LogInv(s) && s.batch.Some? && s.batch.value.Open?
    ensures LogInv(Finished(s))
  {
    CommitKeeps(s);
    var committed := s.Commit(true);
    AnnouncingLeads(committed);
    EveryRunKeepsLogInv(committed, seq(|committed.batch.value.left|, _ => AnnounceNext), committed.AnnounceAll());
    StepKeepsLogInv(committed.AnnounceAll(), ReleaseBatch);
  }

  lemma FinishingAppends(s: LogState, added: LogState, event: Event)
    requires LogInv(s) && LogInv(added) && added.batch.Some? && added.batch.value.Open?
    requires LogInv(Finished(added))
    requires added.rows == s.rows && added.history == s.history && added.live == s.live
    requires added.batch.value.pending == [Envelope(|s.history.committed| + 1, event)]
    ensures HasAppended(s, Finished(added), [event])
  {
    var pending := added.batch.value.pending;
    assert EventsOf(pending) == [event];
    StoredIs(s.rows, s.history.committed, s.history.low, pending);
    assert pending[..0] == [];
    assert Stored(s.rows, pending) == s.rows[pending[0].number := event];
    var t := Finished(added);
    assert Numbered(t.history.committed, |s.history.committed|, |t.history.committed|) == pending;
  }
}
