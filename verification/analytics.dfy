/**
 State updates of the analytics page: the chart's sensor selection toggle and
 the time-range buttons that choose how many days of history to generate.
 */
module Analytics {
  import opened Aquaculture

  datatype TimeRange = Last24h | Last7d | Last30d | Last90d

  const DefaultTimeRange: TimeRange := Last24h

  /** The sensors charted when the page opens. */
  const InitialSelection: seq<Sensor> := [Temperature, DissolvedOxygen, Ph]

  /** The opening selection charts three distinct sensors: temperature, dissolved oxygen and pH. */
  lemma InitialSelectionDistinct()
    ensures |InitialSelection| == 3 && NoDuplicates(InitialSelection)
    ensures forall s :: s in InitialSelection <==> s == Temperature || s == DissolvedOxygen || s == Ph
  {
  }

  /** Days of history requested for a time range. */
  function Days(r: TimeRange): (n: nat)
    ensures n in {1, 7, 30, 90}
    ensures r == DefaultTimeRange ==> n == 1
  {
    if r == Last24h then 1 else if r == Last7d then 7 else if r == Last30d then 30 else 90
  }

  /** Each time range asks for a different number of days, as its label says. */
  lemma DaysMatchLabels()
    ensures Days(Last24h) == 1 && Days(Last7d) == 7 && Days(Last30d) == 30 && Days(Last90d) == 90
    ensures forall a, b :: Days(a) == Days(b) ==> a == b
  {
  }

  /** `a` is `b` with some elements deleted, order kept. */
  predicate IsSubsequence<T(==)>(a: seq<T>, b: seq<T>)
    decreases |b|
  {
    if a == [] then true
    else if b == [] then false
    else if a[0] == b[0] then IsSubsequence(a[1..], b[1..])
    else IsSubsequence(a, b[1..])
  }

  /** Count of `x` in `s`. */
  function Occurrences<T(==)>(s: seq<T>, x: T): nat {
    multiset(s)[x]
  }

  /** Every occurrence of `x` removed (`filter(s => s !== x)`). */
  function Without(sel: seq<Sensor>, x: Sensor): (r: seq<Sensor>)
    ensures x !in r
    ensures forall y :: y != x ==> (y in r <==> y in sel)
    ensures forall y :: y != x ==> Occurrences(r, y) == Occurrences(sel, y)
    ensures IsSubsequence(r, sel)
    ensures |r| == |sel| - Occurrences(sel, x)
  {
    if sel == [] then []
    else
      assert sel == [sel[0]] + sel[1..];
      var rest := Without(sel[1..], x);
      if sel[0] == x then
        SubsequenceDropHead(rest, sel);
        rest
      else
        assert ([sel[0]] + rest)[1..] == rest;
        [sel[0]] + rest
  }

  /** A leading element of the longer sequence may be skipped. */
  lemma {:induction false} SubsequenceDropHead<T>(a: seq<T>, b: seq<T>)
    requires b != [] && IsSubsequence(a, b[1..])
    ensures IsSubsequence(a, b)
    decreases |b|, 0
  {
    if a != [] && a[0] == b[0] {
      SubsequenceTail(a, b[1..]);
    }
  }

  /** Dropping the first element of a subsequence keeps it a subsequence. */
  lemma {:induction false} SubsequenceTail<T>(a: seq<T>, b: seq<T>)
    requires a != [] && IsSubsequence(a, b)
    ensures IsSubsequence(a[1..], b)
    decreases |b|, 1
  {
    if b != [] {
      if a[0] != b[0] {
        SubsequenceTail(a, b[1..]);
      }
      SubsequenceDropHead(a[1..], b);
    }
  }

  /** A selected sensor is removed everywhere; an unselected one is appended. */
  function ToggleSensor(sel: seq<Sensor>, x: Sensor): (r: seq<Sensor>)
    ensures x in sel ==> x !in r && IsSubsequence(r, sel)
    ensures x !in sel ==> |r| == |sel| + 1 && r[..|sel|] == sel && r[|sel|] == x
    ensures x in r <==> x !in sel
    ensures forall y :: y != x ==> (y in r <==> y in sel)
    ensures forall y :: y != x ==> Occurrences(r, y) == Occurrences(sel, y)
  {
    if x in sel then Without(sel, x) else sel + [x]
  }

  /** A duplicate-free selection stays duplicate-free. */
  lemma ToggleKeepsNoDuplicates(sel: seq<Sensor>, x: Sensor)
    requires NoDuplicates(sel)
    ensures NoDuplicates(ToggleSensor(sel, x))
  {
    var r := ToggleSensor(sel, x);
    forall y ensures Occurrences(sel, y) <= 1 {
      NoDuplicatesCountsAtMostOne(sel, y);
    }
    forall y ensures Occurrences(r, y) <= 1 {
      if y != x {
      } else if x in sel {
        assert Occurrences(r, x) == 0;
      } else {
        assert Occurrences(sel, x) == 0;
        assert multiset(r) == multiset(sel) + multiset{x};
      }
    }
    CountsAtMostOneNoDuplicates(r);
  }

  lemma {:induction false} NoDuplicatesCountsAtMostOne<T>(s: seq<T>, y: T)
    requires NoDuplicates(s)
    ensures Occurrences(s, y) <= 1
  {
    if s != [] {
      assert s == [s[0]] + s[1..];
      assert NoDuplicates(s[1..]) by {
        forall i, j | 0 <= i < j < |s[1..]| ensures s[1..][i] != s[1..][j] {
          assert s[1..][i] == s[i + 1] && s[1..][j] == s[j + 1];
        }
      }
      NoDuplicatesCountsAtMostOne(s[1..], y);
      if y == s[0] {
        assert y !in s[1..] by {
          forall i | 0 <= i < |s[1..]| ensures s[1..][i] != y {
            assert s[1..][i] == s[i + 1];
          }
        }
      }
    }
  }

  lemma CountsAtMostOneNoDuplicates<T>(s: seq<T>)
    requires forall y :: Occurrences(s, y) <= 1
    ensures NoDuplicates(s)
  {
    forall i, j | 0 <= i < j < |s| ensures s[i] != s[j] {
      assert s == s[..i] + [s[i]] + s[i + 1..j] + [s[j]] + s[j + 1..];
      assert multiset(s) == multiset(s[..i]) + multiset{s[i]} + multiset(s[i + 1..j]) + multiset{s[j]} + multiset(s[j + 1..]);
      assert Occurrences(s, s[i]) <= 1;
      assert s[i] == s[j] ==> multiset(s)[s[i]] >= 2;
    }
  }

  /** Toggling an unselected sensor twice restores the selection. */
  lemma ToggleAbsentTwice(sel: seq<Sensor>, x: Sensor)
    requires x !in sel
    ensures ToggleSensor(ToggleSensor(sel, x), x) == sel
  {
    WithoutAbsent(sel, x);
    WithoutAppend(sel, x);
  }

  /** Toggling a selected sensor twice moves it to the end. */
  lemma TogglePresentTwice(sel: seq<Sensor>, x: Sensor)
    requires x in sel
    ensures ToggleSensor(ToggleSensor(sel, x), x) == Without(sel, x) + [x]
  {
  }

  lemma {:induction false} WithoutAbsent(sel: seq<Sensor>, x: Sensor)
    requires x !in sel
    ensures Without(sel, x) == sel
  {
    if sel != [] {
      WithoutAbsent(sel[1..], x);
    }
  }

  lemma {:induction false} WithoutAppend(sel: seq<Sensor>, x: Sensor)
    ensures Without(sel + [x], x) == Without(sel, x)
  {
    if sel == [] {
      assert Without([x], x) == Without([], x);
    } else {
      assert (sel + [x])[1..] == sel[1..] + [x];
      WithoutAppend(sel[1..], x);
    }
  }
}
