/** src/components/AlertList.tsx: the display order of alerts (a stable sort
    of a copy, unacknowledged first, then newest first) and the relative
    time shown on each alert. */
module AlertList {
  import opened Types

  /** The reference order: `a` is shown strictly before `b`. */
  predicate GoesBefore(a: Alert, b: Alert)
  {
    (!a.acknowledged && b.acknowledged) || (a.acknowledged == b.acknowledged && a.timestamp > b.timestamp)
  }

  /** The two fields the comparator reads. */
  datatype SortKey = SortKey(acknowledged: bool, timestamp: int)

  function Key(a: Alert): SortKey
  {
    SortKey(a.acknowledged, a.timestamp)
  }

  /** The comparator passed to `sort`: negative puts `a` first, positive
      puts `b` first, zero keeps their order. It agrees with `GoesBefore`,
      and returns zero exactly when the two keys are equal. */
  function Compare(a: Alert, b: Alert): (c: int)
    ensures c < 0 <==> GoesBefore(a, b)
    ensures c > 0 <==> GoesBefore(b, a)
    ensures c == 0 <==> Key(a) == Key(b)
  {
    if !a.acknowledged && b.acknowledged then -1
    else if a.acknowledged && !b.acknowledged then 1
    else b.timestamp - a.timestamp
  }

  /** No later element goes strictly before an earlier one. */
  predicate SortedForDisplay(s: seq<Alert>)
  {
    forall i, j :: 0 <= i < j < |s| ==> !GoesBefore(s[j], s[i])
  }

  /** Places `x` after every element of `s` it does not go before: the
      insertion step of a stable insertion sort. */
  function Insert(s: seq<Alert>, x: Alert): seq<Alert>
  {
    if s == [] || !GoesBefore(x, s[|s| - 1]) then s + [x]
    else Insert(s[..|s| - 1], x) + [s[|s| - 1]]
  }

  /** The list `[...alerts].sort(compare)` produces. */
  function DisplayOrder(s: seq<Alert>): seq<Alert>
  {
    if s == [] then [] else Insert(DisplayOrder(s[..|s| - 1]), s[|s| - 1])
  }

  /** The sort of the source over an array copy of the list. The input list
      is a value and cannot change. */
  method SortForDisplay(alerts: seq<Alert>) returns (sorted: seq<Alert>)
    ensures sorted == DisplayOrder(alerts)
  {
    var a := new Alert[|alerts|](k requires 0 <= k < |alerts| => alerts[k]);
    var i := 0;
    while i < a.Length
      invariant 0 <= i <= a.Length
      invariant a[..i] == DisplayOrder(alerts[..i])
      invariant a[i..] == alerts[i..]
    {
      ghost var before := a[..i];
      InsertAt(a, i);
      assert a[..i + 1] == Insert(before, alerts[i]);
      assert alerts[..i + 1][..i] == alerts[..i];
      assert a[i + 1..] == alerts[i + 1..];
      i := i + 1;
    }
    assert alerts[..a.Length] == alerts;
    sorted := a[..];
  }

  /** One pass of the sort: `a[i]` is shifted left past the elements of
      `a[..i]` it goes before. */
  method InsertAt(a: array<Alert>, i: nat)
    requires i < a.Length
    modifies a
    ensures a[..i + 1] == Insert(old(a[..i]), old(a[i]))
    ensures a[i + 1..] == old(a[i + 1..])
  {
    var x := a[i];
    ghost var s := a[..i];
    var j := i;
    while j > 0 && Compare(a[j - 1], x) > 0
      invariant 0 <= j <= i
      invariant forall k :: 0 <= k < j ==> a[k] == s[k]
      invariant forall k :: j < k <= i ==> a[k] == s[k - 1]
      invariant forall k :: i < k < a.Length ==> a[k] == old(a[k])
      invariant forall k :: j <= k < i ==> GoesBefore(x, s[k])
    {
      a[j] := a[j - 1];
      j := j - 1;
    }
    a[j] := x;
    InsertPlaces(s, x, j);
    Reassemble(a[..i + 1], s, x, j);
    assert a[i + 1..] == old(a[i + 1..]);
  }

  /** `Insert` puts `x` right after the last element it does not go before. */
  lemma {:induction false} InsertPlaces(s: seq<Alert>, x: Alert, j: nat)
    requires j <= |s|
    requires j == 0 || !GoesBefore(x, s[j - 1])
    requires forall k :: j <= k < |s| ==> GoesBefore(x, s[k])
    ensures Insert(s, x) == s[..j] + [x] + s[j..]
    decreases |s|
  {
    if j < |s| {
      var t := s[..|s| - 1];
      assert t[..j] == s[..j] && (j == 0 || t[j - 1] == s[j - 1]);
      InsertPlaces(t, x, j);
      assert s[j..] == t[j..] + [s[|s| - 1]];
    } else {
      assert s[..j] == s && s[j..] == [];
    }
  }

  /** The array after the pass, read as a list: the untouched prefix, `x`,
      then the shifted suffix. */
  lemma Reassemble(b: seq<Alert>, s: seq<Alert>, x: Alert, j: nat)
    requires |b| == |s| + 1 && j <= |s|
    requires forall k :: 0 <= k < j ==> b[k] == s[k]
    requires b[j] == x
    requires forall k :: j < k < |b| ==> b[k] == s[k - 1]
    ensures b == s[..j] + [x] + s[j..]
  {
  }

  lemma {:induction false} InsertPermutes(s: seq<Alert>, x: Alert)
    ensures multiset(Insert(s, x)) == multiset(s) + multiset{x}
    decreases |s|
  {
    if s != [] && GoesBefore(x, s[|s| - 1]) {
      InsertPermutes(s[..|s| - 1], x);
      assert s == s[..|s| - 1] + [s[|s| - 1]];
    }
  }

  /** The displayed list holds the same alerts as the input, each as often. */
  lemma {:induction false} DisplayOrderPermutes(s: seq<Alert>)
    ensures multiset(DisplayOrder(s)) == multiset(s)
  {
    if s != [] {
      var t, x := s[..|s| - 1], s[|s| - 1];
      DisplayOrderPermutes(t);
      InsertPermutes(DisplayOrder(t), x);
      assert DisplayOrder(s) == Insert(DisplayOrder(t), x);
      assert s == t + [x];
      assert multiset(s) == multiset(t) + multiset{x};
    }
  }

  /** `GoesBefore` is a strict weak order: if `a` goes before `c`, then any
      `b` goes after `a` or before `c`. */
  lemma GoesBeforeSplits(a: Alert, b: Alert, c: Alert)
    requires GoesBefore(a, c)
    ensures GoesBefore(a, b) || GoesBefore(b, c)
  {
  }

  lemma {:induction false} InsertSorted(s: seq<Alert>, x: Alert)
    requires SortedForDisplay(s)
    ensures SortedForDisplay(Insert(s, x))
    ensures |Insert(s, x)| == |s| + 1
    decreases |s|
  {
    if s == [] {
    } else if !GoesBefore(x, s[|s| - 1]) {
      var r := s + [x];
      forall i, j | 0 <= i < j < |r| ensures !GoesBefore(r[j], r[i]) {
        if j == |s| && GoesBefore(x, s[i]) {
          GoesBeforeSplits(x, s[|s| - 1], s[i]);
        }
      }
    } else {
      var t, l := s[..|s| - 1], s[|s| - 1];
      InsertSorted(t, x);
      InsertPermutes(t, x);
      var u := Insert(t, x);
      var r := u + [l];
      forall i, j | 0 <= i < j < |r| ensures !GoesBefore(r[j], r[i]) {
        if j == |u| {
          assert u[i] in multiset(t) + multiset{x} by {
            assert u[i] in multiset(u);
          }
          if u[i] == x {
          } else {
            assert u[i] in t;
            var k :| 0 <= k < |t| && t[k] == u[i];
            assert s[k] == u[i];
          }
        }
      }
    }
  }

  /** The displayed list is in display order. */
  lemma {:induction false} DisplayOrderSorted(s: seq<Alert>)
    ensures SortedForDisplay(DisplayOrder(s))
    ensures |DisplayOrder(s)| == |s|
  {
    if s != [] {
      DisplayOrderSorted(s[..|s| - 1]);
      InsertSorted(DisplayOrder(s[..|s| - 1]), s[|s| - 1]);
    }
  }

  /** Every unacknowledged alert is shown above every acknowledged one, and
      within each group newer alerts are shown above older ones. */
  lemma DisplayGroupsAndRecency(s: seq<Alert>)
    ensures var r := DisplayOrder(s);
      && (forall i, j :: 0 <= i < |r| && 0 <= j < |r| && !r[i].acknowledged && r[j].acknowledged ==> i < j)
      && (forall i, j :: 0 <= i < j < |r| && r[i].acknowledged == r[j].acknowledged ==> r[i].timestamp >= r[j].timestamp)
  {
    DisplayOrderSorted(s);
  }

  /** The elements of `s` with key `k`, in order. */
  function WithKey(s: seq<Alert>, k: SortKey): seq<Alert>
  {
    if s == [] then []
    else WithKey(s[..|s| - 1], k) + (if Key(s[|s| - 1]) == k then [s[|s| - 1]] else [])
  }

  lemma {:induction false} WithKeyAppend(a: seq<Alert>, b: seq<Alert>, k: SortKey)
    ensures WithKey(a + b, k) == WithKey(a, k) + WithKey(b, k)
    decreases |b|
  {
    if b == [] {
      assert a + b == a;
    } else {
      assert (a + b)[..|a + b| - 1] == a + b[..|b| - 1];
      WithKeyAppend(a, b[..|b| - 1], k);
    }
  }

  lemma WithKeySingle(x: Alert, k: SortKey)
    ensures WithKey([x], k) == if Key(x) == k then [x] else []
  {
    assert [x][..0] == [];
  }

  lemma {:induction false} InsertStable(s: seq<Alert>, x: Alert, k: SortKey)
    ensures WithKey(Insert(s, x), k) == WithKey(s, k) + (if Key(x) == k then [x] else [])
    decreases |s|
  {
    if s == [] || !GoesBefore(x, s[|s| - 1]) {
      WithKeyAppend(s, [x], k);
      WithKeySingle(x, k);
    } else {
      var t, l := s[..|s| - 1], s[|s| - 1];
      var ins := Insert(t, x);
      var xs := if Key(x) == k then [x] else [];
      var ls := if Key(l) == k then [l] else [];
      // `x` goes before `l`, so at most one of them has the key `k`
      assert xs == [] || ls == [];
      calc {
        WithKey(Insert(s, x), k);
        WithKey(ins + [l], k);
        { WithKeyAppend(ins, [l], k); WithKeySingle(l, k); }
        WithKey(ins, k) + ls;
        { InsertStable(t, x, k); }
        WithKey(t, k) + xs + ls;
        WithKey(t, k) + ls + xs;
        WithKey(s, k) + xs;
      }
    }
  }


  /** The sort is stable: alerts with equal keys keep their input order,
      since for each key the alerts carrying it appear in the same sequence
      before and after sorting. */
  lemma {:induction false} DisplayOrderStable(s: seq<Alert>, k: SortKey)
    ensures WithKey(DisplayOrder(s), k) == WithKey(s, k)
  {
    if s != [] {
      DisplayOrderStable(s[..|s| - 1], k);
      InsertStable(DisplayOrder(s[..|s| - 1]), s[|s| - 1], k);
    }
  }

  /** The last element of a list is among the elements with its key. */
  lemma LastKeyPresent(s: seq<Alert>)
    requires s != []
    ensures WithKey(s, Key(s[|s| - 1])) == WithKey(s[..|s| - 1], Key(s[|s| - 1])) + [s[|s| - 1]]
  {
  }

  lemma {:induction false} WithKeyMembers(s: seq<Alert>, k: SortKey, x: Alert)
    requires x in WithKey(s, k)
    ensures x in s && Key(x) == k
  {
    if s != [] {
      var t := s[..|s| - 1];
      if x in WithKey(t, k) {
        WithKeyMembers(t, k, x);
        assert x in s by {
          var i :| 0 <= i < |t| && t[i] == x;
          assert s[i] == x;
        }
      }
    }
  }

  /** In a list in display order the last element goes before none of the
      elements. */
  lemma LastGoesBeforeNothing(s: seq<Alert>, y: Alert)
    requires SortedForDisplay(s) && y in s
    ensures !GoesBefore(s[|s| - 1], y)
  {
    var p :| 0 <= p < |s| && s[p] == y;
    if p < |s| - 1 {
      assert !GoesBefore(s[|s| - 1], s[p]);
    }
  }

  /** A prefix of a list in display order is in display order. */
  lemma SortedPrefix(s: seq<Alert>, n: nat)
    requires SortedForDisplay(s) && n <= |s|
    ensures SortedForDisplay(s[..n])
  {
  }

  /** Two lists in display order with, key by key, the same alerts end with
      alerts of the same key. */
  lemma LastKeysAgree(r1: seq<Alert>, r2: seq<Alert>)
    requires r1 != [] && r2 != []
    requires SortedForDisplay(r1) && SortedForDisplay(r2)
    requires WithKey(r1, Key(r1[|r1| - 1])) == WithKey(r2, Key(r1[|r1| - 1]))
    requires WithKey(r1, Key(r2[|r2| - 1])) == WithKey(r2, Key(r2[|r2| - 1]))
    ensures Key(r1[|r1| - 1]) == Key(r2[|r2| - 1])
  {
    var x1, x2 := r1[|r1| - 1], r2[|r2| - 1];
    LastKeyPresent(r1);
    LastKeyPresent(r2);
    WithKeyMembers(r1, Key(x2), x2);
    WithKeyMembers(r2, Key(x1), x1);
    LastGoesBeforeNothing(r1, x2);
    LastGoesBeforeNothing(r2, x1);
    var c := Compare(x1, x2);
  }

  /** Removing the last alert of each list, when both have the key `k` and
      the lists agree on `k`: the two removed alerts are the same alert and
      the shorter lists still agree on `k`. */
  lemma DropLastSameKey(r1: seq<Alert>, r2: seq<Alert>, k: SortKey)
    requires r1 != [] && r2 != []
    requires Key(r1[|r1| - 1]) == k && Key(r2[|r2| - 1]) == k
    requires WithKey(r1, k) == WithKey(r2, k)
    ensures r1[|r1| - 1] == r2[|r2| - 1]
    ensures WithKey(r1[..|r1| - 1], k) == WithKey(r2[..|r2| - 1], k)
  {
    var w1, w2 := WithKey(r1[..|r1| - 1], k), WithKey(r2[..|r2| - 1], k);
    assert WithKey(r1, k) == w1 + [r1[|r1| - 1]];
    assert WithKey(r2, k) == w2 + [r2[|r2| - 1]];
    assert (w1 + [r1[|r1| - 1]])[..|w1|] == w1;
    assert (w2 + [r2[|r2| - 1]])[..|w2|] == w2;
  }

  /** Removing last alerts of another key than `k` changes nothing for `k`. */
  lemma DropLastOtherKey(r1: seq<Alert>, r2: seq<Alert>, k: SortKey)
    requires r1 != [] && r2 != []
    requires Key(r1[|r1| - 1]) != k && Key(r2[|r2| - 1]) != k
    requires WithKey(r1, k) == WithKey(r2, k)
    ensures WithKey(r1[..|r1| - 1], k) == WithKey(r2[..|r2| - 1], k)
  {
    var w1, w2 := WithKey(r1[..|r1| - 1], k), WithKey(r2[..|r2| - 1], k);
    assert WithKey(r1, k) == w1 + [] == w1;
    assert WithKey(r2, k) == w2 + [] == w2;
  }

  /** Two lists in display order that hold, key by key, the same alerts in
      the same order are the same list. */
  lemma {:induction false} SortedStableUnique(r1: seq<Alert>, r2: seq<Alert>)
    requires SortedForDisplay(r1) && SortedForDisplay(r2)
    requires forall k :: WithKey(r1, k) == WithKey(r2, k)
    ensures r1 == r2
    decreases |r1| + |r2|
  {
    if r1 == [] || r2 == [] {
      // a non-empty list has an element of its last element's key
      if r1 != [] {
        LastKeyPresent(r1);
        assert false;
      } else if r2 != [] {
        LastKeyPresent(r2);
        assert false;
      }
    } else {
      var n1, n2 := |r1| - 1, |r2| - 1;
      var k := Key(r1[n1]);
      LastKeysAgree(r1, r2);
      DropLastSameKey(r1, r2, k);
      forall k' | k' != k
        ensures WithKey(r1[..n1], k') == WithKey(r2[..n2], k')
      {
        DropLastOtherKey(r1, r2, k');
      }
      SortedPrefix(r1, n1);
      SortedPrefix(r2, n2);
      SortedStableUnique(r1[..n1], r2[..n2]);
      assert r1 == r1[..n1] + [r1[n1]] && r2 == r2[..n2] + [r2[n2]];
    }
  }

  /** Whatever stable algorithm the engine's `Array.prototype.sort` uses,
      its result with this comparator is `DisplayOrder`: a list in display
      order that keeps, key by key, the input order of the alerts can only
      be this one. */
  lemma AnyStableSortIsDisplayOrder(s: seq<Alert>, r: seq<Alert>)
    requires SortedForDisplay(r)
    requires forall k :: WithKey(r, k) == WithKey(s, k)
    ensures r == DisplayOrder(s)
  {
    DisplayOrderSorted(s);
    forall k
      ensures WithKey(DisplayOrder(s), k) == WithKey(s, k)
    {
      DisplayOrderStable(s, k);
    }
    SortedStableUnique(r, DisplayOrder(s));
  }

  /** Alerts A (unacknowledged, t=10), B (acknowledged, t=20) and
      C (unacknowledged, t=5) are shown as A, C, B. */
  lemma ThreeAlertExample(a: Alert, b: Alert, c: Alert)
    requires !a.acknowledged && a.timestamp == 10
    requires b.acknowledged && b.timestamp == 20
    requires !c.acknowledged && c.timestamp == 5
    ensures DisplayOrder([a, b, c]) == [a, c, b]
  {
    assert [a, b, c][..2] == [a, b] && [a, b][..1] == [a] && [a][..0] == [];
    assert DisplayOrder([a]) == [a];
    assert DisplayOrder([a, b]) == [a, b];
    assert Insert([a], c) == [a, c];
    assert Insert([a, b], c) == [a, c, b];
  }

  /** What the list shows: "All Clear" for no alerts, otherwise the sorted
      alerts. */
  datatype View = AllClear | Listed(alerts: seq<Alert>)

  function ListView(alerts: seq<Alert>): (v: View)
    ensures v.AllClear? <==> alerts == []
    ensures v.Listed? ==> v.alerts == DisplayOrder(alerts)
  {
    if alerts == [] then AllClear else Listed(DisplayOrder(alerts))
  }

  /** The relative time of `formatTimestamp`; the last case is the locale
      date, which is not modelled beyond the timestamp it formats. */
  datatype RelativeTime = JustNow | MinutesAgo(minutes: int) | HoursAgo(hours: int) | OnDate(timestamp: int)

  /** `formatTimestamp` for an alert at `timestamp` seen at `now`
      (both milliseconds). */
  function FormatTimestamp(timestamp: int, now: int): (r: RelativeTime)
    ensures r.JustNow? <==> now - timestamp < 60000
    ensures r.MinutesAgo? <==> 60000 <= now - timestamp < 3600000
    ensures r.HoursAgo? <==> 3600000 <= now - timestamp < 86400000
    ensures r.OnDate? <==> 86400000 <= now - timestamp
    ensures r.MinutesAgo? ==> 1 <= r.minutes <= 59
    ensures r.MinutesAgo? ==> r.minutes * 60000 <= now - timestamp < (r.minutes + 1) * 60000
    ensures r.HoursAgo? ==> 1 <= r.hours <= 23
    ensures r.HoursAgo? ==> r.hours * 3600000 <= now - timestamp < (r.hours + 1) * 3600000
    ensures r.OnDate? ==> r.timestamp == timestamp
  {
    var diff := now - timestamp;
    if diff < 60000 then JustNow
    else if diff < 3600000 then MinutesAgo(diff / 60000)
    else if diff < 86400000 then HoursAgo(diff / 3600000)
    else OnDate(timestamp)
  }

  /** A timestamp in the future (negative difference) reads "Just now". */
  lemma FutureIsJustNow(timestamp: int, now: int)
    requires timestamp > now
    ensures FormatTimestamp(timestamp, now) == JustNow
  {
  }
}
