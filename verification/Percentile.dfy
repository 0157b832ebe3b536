/** Interpolated percentiles over integer samples, in exact arithmetic. */
module Percentile {
  import opened Wrappers

  ghost predicate Sorted(s: seq<int>) {
    forall i, j :: 0 <= i < j < |s| ==> s[i] <= s[j]
  }

  function Insert(s: seq<int>, x: int): (r: seq<int>)
    requires Sorted(s)
    ensures Sorted(r)
    ensures forall y :: y in r <==> y == x || y in s
  {
    if s == [] then [x]
    else if x <= s[0] then [x] + s
    else
      var rest := Insert(s[1..], x);
      LeastStaysFirst(s, x, rest);
      assert s == [s[0]] + s[1..];
      [s[0]] + rest
  }

  lemma LeastStaysFirst(s: seq<int>, x: int, rest: seq<int>)
    requires Sorted(s) && s != [] && s[0] < x
    requires forall y :: y in rest ==> y == x || y in s[1..]
    ensures forall i :: 0 <= i < |rest| ==> s[0] <= rest[i]
  {
    forall i | 0 <= i < |rest| ensures s[0] <= rest[i] {
      assert rest[i] in rest;
      if rest[i] != x {
        var k :| 0 <= k < |s[1..]| && s[1..][k] == rest[i];
        assert s[k + 1] == rest[i];
      }
    }
  }

  lemma {:induction false} InsertAdds(s: seq<int>, x: int)
    requires Sorted(s)
    ensures multiset(Insert(s, x)) == multiset(s) + multiset{x}
    decreases |s|
  {
    if s != [] && x > s[0] {
      InsertAdds(s[1..], x);
      assert s == [s[0]] + s[1..];
    }
  }

  /** The samples in natural order. */
  function Sort(s: seq<int>): (r: seq<int>)
    ensures Sorted(r) && multiset(r) == multiset(s) && |r| == |s|
  {
    if s == [] then []
    else
      assert s == [s[0]] + s[1..];
      var r := Insert(Sort(s[1..]), s[0]);
      InsertAdds(Sort(s[1..]), s[0]);
      assert |multiset(r)| == |r| && |multiset(s)| == |s|;
      r
  }

  lemma {:induction false} SameLeast(a: seq<int>, b: seq<int>)
    requires Sorted(b) && multiset(a) == multiset(b) && a != [] && b != []
    ensures b[0] <= a[0]
  {
    assert a[0] in multiset(b);
    var k :| 0 <= k < |b| && b[k] == a[0];
  }

  lemma {:induction false} SortedIsUnique(a: seq<int>, b: seq<int>)
    requires Sorted(a) && Sorted(b) && multiset(a) == multiset(b)
    ensures a == b
    decreases |a|
  {
    assert |a| == |multiset(a)| == |multiset(b)| == |b|;
    if a != [] {
      SameLeast(a, b);
      SameLeast(b, a);
      assert a == [a[0]] + a[1..] && b == [b[0]] + b[1..];
      assert multiset(a[1..]) == multiset(a) - multiset{a[0]} == multiset(b[1..]);
      SortedIsUnique(a[1..], b[1..]);
    }
  }

  function Ceil(x: real): int {
    -((-x).Floor)
  }

  /** `Math.round`: the nearest integer, halves upwards. */
  function Round(x: real): int {
    (x + 0.5).Floor
  }

  function Scale(a: real, d: real): real {
    a * d
  }

  /** The value at a fractional position of a sorted list. */
  function At(s: seq<int>, position: real): int
    requires s != [] && 0.0 <= position <= (|s| - 1) as real
  {
    var lower, upper := position.Floor, Ceil(position);
    if lower == upper then s[lower]
    else Round(s[lower] as real + Scale(position - lower as real, (s[upper] - s[lower]) as real))
  }

  function Position(n: nat, p: real): (x: real)
    requires n > 0 && 0.0 <= p <= 1.0
    ensures 0.0 <= x <= (n - 1) as real
  {
    ScaleBounds(p, (n - 1) as real);
    Scale(p, (n - 1) as real)
  }

  function Percentile(samples: seq<int>, p: real): Option<int>
    requires 0.0 <= p <= 1.0
  {
    if samples == [] then None else Some(At(Sort(samples), Position(|samples|, p)))
  }

  // ---- Interpolation ----

  lemma ScaleMonotone(a: real, b: real, d: real)
    requires a <= b && d >= 0.0
    ensures Scale(a, d) <= Scale(b, d)
  {}

  lemma ScaleBounds(a: real, d: real)
    requires 0.0 <= a <= 1.0 && d >= 0.0
    ensures 0.0 <= Scale(a, d) <= d
    ensures Scale(0.0, d) == 0.0 && Scale(1.0, d) == d
  {
    ScaleMonotone(0.0, a, d);
    ScaleMonotone(a, 1.0, d);
  }

  lemma FloorBounds(x: real)
    ensures x.Floor as real <= x < (x.Floor + 1) as real
    ensures Ceil(x) == if x == x.Floor as real then x.Floor else x.Floor + 1
  {}

  lemma FloorMonotone(x: real, y: real)
    requires x <= y
    ensures x.Floor <= y.Floor
  {}

  /** The interpolated value before rounding. */
  function Between(s: seq<int>, i: int, x: real): real
    requires 0 <= i < |s| - 1
  {
    s[i] as real + Scale(x - i as real, (s[i + 1] - s[i]) as real)
  }

  lemma RoundOfInt(n: int)
    ensures Round(n as real) == n
  {}

  /** At a whole position nothing is interpolated. */
  lemma AtWhole(s: seq<int>, i: int)
    requires 0 <= i < |s|
    ensures At(s, i as real) == s[i]
  {
    FloorBounds(i as real);
  }

  /** The ends of a cell, and everything between them. */
  lemma BetweenBounds(s: seq<int>, i: int, x: real)
    requires Sorted(s) && 0 <= i < |s| - 1 && i as real <= x <= (i + 1) as real
    ensures s[i] as real <= Between(s, i, x) <= s[i + 1] as real
    ensures x == i as real ==> Between(s, i, x) == s[i] as real
    ensures x == (i + 1) as real ==> Between(s, i, x) == s[i + 1] as real
  {
    assert s[i] <= s[i + 1];
    ScaleBounds(x - i as real, (s[i + 1] - s[i]) as real);
  }

  /** A position strictly inside a cell is interpolated. */
  lemma AtInside(s: seq<int>, i: int, x: real)
    requires 0 <= i < |s| - 1 && i as real < x < (i + 1) as real
    ensures At(s, x) == Round(Between(s, i, x))
  {
    FloorBounds(x);
    assert x.Floor == i && Ceil(x) == i + 1;
  }

  lemma AtIsRounded(s: seq<int>, i: int, x: real)
    requires Sorted(s) && 0 <= i < |s| - 1 && i as real <= x <= (i + 1) as real
    ensures At(s, x) == Round(Between(s, i, x))
  {
    BetweenBounds(s, i, x);
    if x == i as real {
      AtWhole(s, i);
      RoundOfInt(s[i]);
    } else if x == (i + 1) as real {
      AtWhole(s, i + 1);
      RoundOfInt(s[i + 1]);
    } else {
      AtInside(s, i, x);
    }
  }

  /** Between two neighbours the value stays between them and is the rounded interpolation. */
  lemma AtInCell(s: seq<int>, i: int, x: real)
    requires Sorted(s) && 0 <= i < |s| - 1 && i as real <= x <= (i + 1) as real
    ensures s[i] <= At(s, x) <= s[i + 1]
    ensures At(s, x) == Round(Between(s, i, x))
  {
    AtIsRounded(s, i, x);
    BetweenBounds(s, i, x);
    RoundMonotone(s[i] as real, Between(s, i, x));
    RoundMonotone(Between(s, i, x), s[i + 1] as real);
    RoundOfInt(s[i]);
    RoundOfInt(s[i + 1]);
  }

  lemma RoundMonotone(x: real, y: real)
    requires x <= y
    ensures Round(x) <= Round(y)
  {
    FloorMonotone(x + 0.5, y + 0.5);
  }

  lemma AtMonotoneInCell(s: seq<int>, i: int, x: real, y: real)
    requires Sorted(s) && 0 <= i < |s| - 1 && i as real <= x <= y <= (i + 1) as real
    ensures At(s, x) <= At(s, y)
  {
    AtInCell(s, i, x);
    AtInCell(s, i, y);
    var d := (s[i + 1] - s[i]) as real;
    ScaleMonotone(x - i as real, y - i as real, d);
    RoundMonotone(Between(s, i, x), Between(s, i, y));
  }

  /** The cell a position falls in: the last position belongs to the last cell. */
  lemma CellOf(n: nat, x: real) returns (i: int)
    requires n > 1 && 0.0 <= x <= (n - 1) as real
    ensures 0 <= i < n - 1 && i as real <= x <= (i + 1) as real
    ensures i <= x.Floor
  {
    FloorBounds(x);
    i := if x.Floor == n - 1 then n - 2 else x.Floor;
  }

  lemma AtMonotone(s: seq<int>, x: real, y: real)
    requires s != [] && Sorted(s) && 0.0 <= x <= y <= (|s| - 1) as real
    ensures At(s, x) <= At(s, y)
  {
    if |s| > 1 {
      var i := CellOf(|s|, x);
      var j := CellOf(|s|, y);
      FloorMonotone(x, y);
      if y <= (i + 1) as real {
        AtMonotoneInCell(s, i, x, y);
      } else {
        AtInCell(s, i, x);
        AtInCell(s, j, y);
        assert i + 1 <= j;
        assert s[i + 1] <= s[j];
      }
    }
  }

  // ---- What the percentile means ----

  /** The result lies between the smallest and the largest sample. */
  lemma {:induction false} PercentileInRange(samples: seq<int>, p: real, low: int, high: int)
    requires samples != [] && 0.0 <= p <= 1.0
    requires forall i :: 0 <= i < |samples| ==> low <= samples[i] <= high
    ensures low <= Percentile(samples, p).value <= high
  {
    var s := Sort(samples);
    var x := Position(|s|, p);
    assert forall i :: 0 <= i < |s| ==> s[i] in multiset(samples);
    AtMonotone(s, 0.0, x);
    AtMonotone(s, x, (|s| - 1) as real);
    AtWhole(s, 0);
    AtWhole(s, |s| - 1);
  }

  /** Only the multiset of samples matters. */
  lemma {:induction false} PercentileIgnoresOrder(a: seq<int>, b: seq<int>, p: real)
    requires multiset(a) == multiset(b) && 0.0 <= p <= 1.0
    ensures Percentile(a, p) == Percentile(b, p)
  {
    assert |a| == |multiset(a)| == |multiset(b)| == |b|;
    SortedIsUnique(Sort(a), Sort(b));
  }

  /** A higher percentile is never smaller, after interpolation and rounding. */
  lemma {:induction false} PercentileMonotone(samples: seq<int>, p: real, q: real)
    requires samples != [] && 0.0 <= p <= q <= 1.0
    ensures Percentile(samples, p).value <= Percentile(samples, q).value
  {
    var s := Sort(samples);
    ScaleMonotone(p, q, (|s| - 1) as real);
    assert Position(|s|, p) <= Position(|s|, q);
    AtMonotone(s, Position(|s|, p), Position(|s|, q));
  }

  lemma PositionExtremes(n: nat)
    requires n > 0
    ensures Position(n, 0.0) == 0 as real && Position(n, 1.0) == (n - 1) as real
  {
    ScaleBounds(0.0, (n - 1) as real);
  }

  /** The extremes: percentile 0 is the minimum and percentile 1 the maximum. */
  lemma {:induction false} PercentileExtremes(samples: seq<int>)
    requires samples != []
    ensures Percentile(samples, 0.0) == Some(Sort(samples)[0])
    ensures Percentile(samples, 1.0) == Some(Sort(samples)[|samples| - 1])
  {
    var s := Sort(samples);
    PositionExtremes(|s|);
    AtWhole(s, 0);
    AtWhole(s, |s| - 1);
  }

  // ---- Interpolation, in plain arithmetic ----

  /** The part t of the way from a to b. */
  lemma Mixed(a: int, b: int, t: real)
    ensures a as real + Scale(t, (b - a) as real) == a as real * (1.0 - t) + b as real * t
  {
    assert Scale(t, (b - a) as real) == t * (b as real - a as real);
  }

  /** The integer nearest to a value, of two the larger. */
  predicate Nearest(v: real, r: int) {
    r as real - 0.5 <= v < r as real + 0.5
  }

  lemma NearestIsUnique(v: real, q: int, r: int)
    requires Nearest(v, q) && Nearest(v, r)
    ensures q == r
  {}

  lemma RoundIsNearest(x: real)
    ensures Nearest(x, Round(x))
  {
    FloorBounds(x + 0.5);
  }

  lemma AtIsInterpolated(s: seq<int>, i: int, t: real, x: real)
    requires 0 <= i < |s| - 1 && 0.0 < t < 1.0 && x == i as real + t
    ensures Nearest(s[i] as real * (1.0 - t) + s[i + 1] as real * t, At(s, x))
  {
    AtInside(s, i, x);
    Mixed(s[i], s[i + 1], t);
    RoundIsNearest(Between(s, i, x));
  }

  /** The percentile reads any sorted listing of the samples. */
  lemma {:induction false} PercentileReads(samples: seq<int>, s: seq<int>, p: real) returns (x: real)
    requires samples != [] && Sorted(s) && multiset(s) == multiset(samples) && 0.0 <= p <= 1.0
    ensures |s| == |samples| && x == p * ((|s| - 1) as real) && 0.0 <= x <= (|s| - 1) as real
    ensures Percentile(samples, p) == Some(At(s, x))
  {
    assert |s| == |multiset(s)| == |multiset(samples)| == |samples|;
    SortedIsUnique(s, Sort(samples));
    x := Position(|s|, p);
  }

  /** What a sorted list holds at t past place i: that entry, or the integer nearest to the mix with the next. */
  lemma AtMixes(s: seq<int>, i: int, t: real, x: real)
    requires s != [] && 0.0 <= x <= (|s| - 1) as real && 0.0 <= t < 1.0 && x == i as real + t
    ensures 0 <= i < |s|
    ensures t == 0.0 ==> At(s, x) == s[i]
    ensures t > 0.0 ==> i + 1 < |s| && Nearest(s[i] as real * (1.0 - t) + s[i + 1] as real * t, At(s, x))
  {
    PlaceBounds(|s|, i, t, x);
    if t == 0.0 {
      AtWhole(s, i);
    } else {
      AtIsInterpolated(s, i, t, x);
    }
  }

  lemma PlaceBounds(n: nat, i: int, t: real, x: real)
    requires n > 0 && 0.0 <= x <= (n - 1) as real && 0.0 <= t < 1.0 && x == i as real + t
    ensures 0 <= i < n && (t > 0.0 ==> i + 1 < n)
  {}

  /**
   * What a percentile is. If p of the way through n sorted samples is t past sample i, the result is that
   * sample for t = 0, and else the integer nearest to the mix of samples i and i + 1, halves upwards.
   */
  lemma {:induction false} PercentileInterpolates(samples: seq<int>, s: seq<int>, p: real, i: int, t: real)
    requires samples != [] && Sorted(s) && multiset(s) == multiset(samples) && 0.0 <= p <= 1.0
    requires 0.0 <= t < 1.0 && p * ((|s| - 1) as real) == i as real + t
    ensures 0 <= i < |s| && Percentile(samples, p).Some?
    ensures t == 0.0 ==> Percentile(samples, p).value == s[i]
    ensures t > 0.0 ==>
              i + 1 < |s| && Nearest(s[i] as real * (1.0 - t) + s[i + 1] as real * t, Percentile(samples, p).value)
  {
    var x := PercentileReads(samples, s, p);
    AtMixes(s, i, t, x);
  }

  lemma Halves(m: nat)
    ensures 0.5 * ((2 * m) as real) == m as real && 0.5 * ((2 * m + 1) as real) == m as real + 0.5
  {}

  /** The median of an odd number of samples is the middle one. */
  lemma {:induction false} OddMedian(samples: seq<int>, s: seq<int>, m: nat)
    requires |s| == 2 * m + 1 && Sorted(s) && multiset(s) == multiset(samples)
    ensures samples != [] && Percentile(samples, 0.5) == Some(s[m])
  {
    SameSize(s, samples);
    Halves(m);
    PercentileInterpolates(samples, s, 0.5, m, 0.0);
  }

  /** The median of an even number of samples is the mean of the two middle ones, halves rounded up. */
  lemma {:induction false} EvenMedian(samples: seq<int>, s: seq<int>, m: nat)
    requires |s| == 2 * m + 2 && Sorted(s) && multiset(s) == multiset(samples)
    ensures samples != [] && Percentile(samples, 0.5) == Some((s[m] + s[m + 1] + 1) / 2)
  {
    SameSize(s, samples);
    Halves(m);
    PercentileInterpolates(samples, s, 0.5, m, 0.5);
    HalfUpMean(s[m], s[m + 1], Percentile(samples, 0.5).value);
  }

  lemma SameSize(a: seq<int>, b: seq<int>)
    requires multiset(a) == multiset(b)
    ensures |a| == |b|
  {
    assert |a| == |multiset(a)| == |multiset(b)| == |b|;
  }

  lemma HalfUpMean(a: int, b: int, r: int)
    requires Nearest(a as real * (1.0 - 0.5) + b as real * 0.5, r)
    ensures r == (a + b + 1) / 2
  {
    assert 2 * r - 1 <= a + b < 2 * r + 1;
  }
}
