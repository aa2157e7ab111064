/** Sequences of times, and how many of them a sliding window can hold. */
module Windows {
  predicate Sorted(times: seq<int>) {
    forall i, j :: 0 <= i < j < |times| ==> times[i] <= times[j]
  }

  /** Any `limit` + 1 consecutive times span at least a window. */
  predicate Spaced(times: seq<int>, limit: nat, window: nat) {
    forall i, j :: 0 <= i < |times| && 0 <= j < |times| && j == i + limit ==> times[j] - times[i] >= window
  }

  /** How many of the times lie from `from` on, within a window's length. */
  function CountWithin(times: seq<int>, from: int, window: nat): nat {
    if times == [] then 0
    else
      var last := times[|times| - 1];
      CountWithin(times[..|times| - 1], from, window) + if from <= last < from + window then 1 else 0
  }

  lemma {:induction false} CountIsInside(times: seq<int>, from: int, window: nat, low: nat)
    requires low <= |times| && forall i :: 0 <= i < low ==> times[i] < from
    ensures CountWithin(times, from, window) <= |times| - low
  {
    if |times| > low {
      CountIsInside(times[..|times| - 1], from, window, low);
    } else if times != [] {
      CountIsInside(times[..|times| - 1], from, window, low - 1);
    }
  }

  /** Spaced times never exceed the limit in any window. */
  lemma {:induction false} WindowsAreLimited(times: seq<int>, limit: nat, window: nat, from: int)
    requires Sorted(times) && Spaced(times, limit, window)
    ensures CountWithin(times, from, window) <= limit
  {
    if times != [] {
      var before, last := times[..|times| - 1], times[|times| - 1];
      if from <= last < from + window && |times| > limit {
        var low := |times| - limit;
        assert times[|times| - 1] - times[low - 1] >= window || low == 0;
        CountIsInside(before, from, window, low);
      } else {
        WindowsAreLimited(before, limit, window, from);
        if from <= last < from + window {
          CountIsInside(times, from, window, 0);
        }
      }
    }
  }

  lemma {:induction false} CountFrom(times: seq<int>, from: int, window: nat, i: nat, j: nat)
    requires i <= j <= |times| && forall k :: i <= k < j ==> from <= times[k] < from + window
    ensures CountWithin(times, from, window) >= j - i
  {
    if times != [] {
      var before := times[..|times| - 1];
      if j < |times| {
        CountFrom(before, from, window, i, j);
      } else if i < j {
        CountFrom(before, from, window, i, j - 1);
      }
    }
  }

  /** In order of time, no window holds more than the limit if and only if every `limit` + 1 in a row span one. */
  lemma LimitedExactlyWhenSpaced(times: seq<int>, limit: nat, window: nat)
    requires Sorted(times) && window > 0
    ensures Spaced(times, limit, window) <==> forall from: int :: CountWithin(times, from, window) <= limit
  {
    if Spaced(times, limit, window) {
      forall from: int
        ensures CountWithin(times, from, window) <= limit
      {
        WindowsAreLimited(times, limit, window, from);
      }
    } else {
      var i :| 0 <= i < |times| && i + limit < |times| && times[i + limit] - times[i] < window;
      CountFrom(times, times[i], window, i, i + limit + 1);
      assert CountWithin(times, times[i], window) > limit;
    }
  }

  lemma RemovingKeepsSpaced(times: seq<int>, limit: nat, window: nat, k: nat)
    requires Sorted(times) && Spaced(times, limit, window) && k < |times|
    ensures Sorted(times[..k] + times[k + 1..]) && Spaced(times[..k] + times[k + 1..], limit, window)
  {
    var less := times[..k] + times[k + 1..];
    forall i, j | 0 <= i && j == i + limit && j < |less|
      ensures less[j] - less[i] >= window
    {
      var x := if i < k then i else i + 1;
      assert less[i] == times[x] && times[x + limit] - times[x] >= window;
      assert less[j] == times[if j < k then j else j + 1];
    }
  }

  lemma AddingKeepsSpaced(times: seq<int>, limit: nat, window: nat, now: int)
    requires Sorted(times) && Spaced(times, limit, window)
    requires forall i :: 0 <= i < |times| ==> times[i] <= now
    requires limit > 0 && (|times| >= limit ==> now - times[|times| - limit] >= window)
    ensures Sorted(times + [now]) && Spaced(times + [now], limit, window)
  {
  }

  // ---------------------------------------------------------------------
  // Times counted, and those that have left

  /** The times counted are the newest of the past, and the others are out of the window. */
  ghost predicate Limited(past: seq<int>, counted: seq<int>, limit: nat, window: nat, now: int) {
    && Sorted(past) && Spaced(past, limit, window)
    && |counted| <= |past| && past[|past| - |counted|..] == counted
    && (forall i :: 0 <= i < |past| - |counted| ==> now - past[i] >= window)
    && (forall i :: 0 <= i < |past| ==> past[i] <= now)
  }

  /** The past without what is counted. */
  function Cut(past: seq<int>, counted: seq<int>): seq<int> {
    if |counted| <= |past| then past[..|past| - |counted|] else past
  }

  lemma CutStaysLimited(past: seq<int>, counted: seq<int>, limit: nat, window: nat, now: int)
    requires Limited(past, counted, limit, window, now)
    ensures Limited(Cut(past, counted), [], limit, window, now)
  {
    var cut := Cut(past, counted);
    assert forall i :: 0 <= i < |cut| ==> cut[i] == past[i];
  }

  /** Taking one time back takes it from the past too. */
  lemma RemovingStaysLimited(past: seq<int>, counted: seq<int>, limit: nat, window: nat, now: int, k: nat)
    requires Limited(past, counted, limit, window, now) && k < |counted|
    ensures var left := counted[..k] + counted[k + 1..];
            Limited(Cut(past, counted) + left, left, limit, window, now)
  {
    var j := |past| - |counted| + k;
    var left := Cut(past, counted) + (counted[..k] + counted[k + 1..]);
    assert left == past[..j] + past[j + 1..];
    RemovingKeepsSpaced(past, limit, window, j);
    forall i | 0 <= i < |left|
      ensures left[i] <= now
    {
      assert left[i] in past;
    }
  }
}
