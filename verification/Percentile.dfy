/** The interpolated percentile and the summary built on it (spikes/harness/metrics.py:8-27),
    over exact reals. */
module Percentile {
  import opened Wrappers

  datatype Outcome = NaN | Value(v: real) | IndexError

  // ---------------------------------------------------------------- `sorted`

  predicate Sorted(xs: seq<real>) {
    forall i, j :: 0 <= i < j < |xs| ==> xs[i] <= xs[j]
  }

  function Insert(x: real, xs: seq<real>): seq<real> {
    if xs == [] || x <= xs[0] then [x] + xs else [xs[0]] + Insert(x, xs[1..])
  }

  function Sort(values: seq<real>): seq<real> {
    if values == [] then [] else Insert(values[0], Sort(values[1..]))
  }

  lemma {:induction false} InsertPermutes(x: real, xs: seq<real>)
    ensures multiset(Insert(x, xs)) == multiset([x] + xs)
  {
    if xs != [] && !(x <= xs[0]) {
      InsertPermutes(x, xs[1..]);
      assert xs == [xs[0]] + xs[1..];
    }
  }

  lemma {:induction false} InsertSorts(x: real, xs: seq<real>)
    requires Sorted(xs)
    ensures Sorted(Insert(x, xs))
  {
    if xs != [] && !(x <= xs[0]) {
      var rest := Insert(x, xs[1..]);
      InsertSorts(x, xs[1..]);
      InsertPermutes(x, xs[1..]);
      forall j | 0 <= j < |rest| ensures xs[0] <= rest[j] {
        assert rest[j] in multiset(rest);
        assert rest[j] in [x] + xs[1..];
      }
    }
  }

  lemma {:induction false} SortSorts(values: seq<real>)
    ensures Sorted(Sort(values)) && multiset(Sort(values)) == multiset(values) && |Sort(values)| == |values|
  {
    if values != [] {
      SortSorts(values[1..]);
      InsertSorts(values[0], Sort(values[1..]));
      InsertPermutes(values[0], Sort(values[1..]));
      assert values == [values[0]] + values[1..];
      assert |multiset(Sort(values))| == |multiset(values)|;
    }
  }

  lemma HeadsAgree(a: seq<real>, b: seq<real>)
    requires Sorted(a) && Sorted(b) && multiset(a) == multiset(b) && a != []
    ensures |a| == |b| && a[0] == b[0]
  {
    assert |multiset(a)| == |multiset(b)|;
    assert a[0] in multiset(b) && b[0] in multiset(a);
    assert a[0] in b && b[0] in a;
  }

  lemma TailBag(a: seq<real>)
    requires a != []
    ensures multiset(a[1..]) == multiset(a) - multiset{a[0]}
  {
    assert a == [a[0]] + a[1..];
  }

  /** Only one order is sorted. */
  lemma {:induction false} SortedIsUnique(a: seq<real>, b: seq<real>)
    requires Sorted(a) && Sorted(b) && multiset(a) == multiset(b)
    ensures a == b
  {
    if a == [] {
      assert |multiset(a)| == |multiset(b)|;
    } else {
      HeadsAgree(a, b);
      TailBag(a);
      TailBag(b);
      SortedIsUnique(a[1..], b[1..]);
    }
  }

  // ---------------------------------------------------------------- `percentile`

  /** `int(k)`: towards zero. */
  function Int(k: real): int {
    if k >= 0.0 then k.Floor else -(-k).Floor
  }

  /** `xs[i]`, counting from the end when negative. */
  function At(xs: seq<real>, i: int): Option<real> {
    if 0 <= i < |xs| then Some(xs[i]) else if -|xs| <= i < 0 then Some(xs[|xs| + i]) else None
  }

  function Rank(n: nat, p: real): real {
    (n - 1) as real * (p / 100.0)
  }

  /** `a + (b - a) * f`. */
  function Between(a: real, b: real, f: real): real {
    a + (b - a) * f
  }

  function Next(n: nat, lo: int): int {
    if lo + 1 <= n - 1 then lo + 1 else n - 1
  }

  function Pick(xs: seq<real>, k: real): Outcome {
    if |xs| == 1 then Value(xs[0]) else
      var lo := Int(k);
      match (At(xs, lo), At(xs, Next(|xs|, lo)))
      case (Some(a), Some(b)) => Value(Between(a, b, k - lo as real))
      case _ => IndexError
  }

  function Percentile(values: seq<real>, p: real): Outcome {
    if values == [] then NaN else Pick(Sort(values), Rank(|values|, p))
  }

  // ---------------------------------------------------------------- interpolation

  /** The point `k` of the broken line through (0, xs[0]), (1, xs[1]), ... */
  function Line(xs: seq<real>, k: real): real
    requires 0.0 <= k <= (|xs| - 1) as real
  {
    var lo := k.Floor;
    Between(xs[lo], xs[Next(|xs|, lo)], k - lo as real)
  }

  lemma Share(d: real, f: real, g: real)
    requires d >= 0.0 && 0.0 <= f <= g <= 1.0
    ensures 0.0 <= d * f <= d * g <= d
  {
    assert d * (g - f) >= 0.0 && d * (1.0 - g) >= 0.0;
  }

  lemma BetweenRises(a: real, b: real, f: real, g: real)
    requires a <= b && 0.0 <= f <= g <= 1.0
    ensures a <= Between(a, b, f) <= Between(a, b, g) <= b
  {
    Share(b - a, f, g);
  }

  lemma LineIsBetween(xs: seq<real>, k: real)
    requires Sorted(xs) && 0.0 <= k <= (|xs| - 1) as real
    ensures xs[k.Floor] <= Line(xs, k) <= xs[Next(|xs|, k.Floor)]
  {
    var lo := k.Floor;
    BetweenRises(xs[lo], xs[Next(|xs|, lo)], k - lo as real, k - lo as real);
  }

  lemma LineRises(xs: seq<real>, k: real, m: real)
    requires Sorted(xs) && 0.0 <= k <= m <= (|xs| - 1) as real
    ensures Line(xs, k) <= Line(xs, m)
  {
    var lo := k.Floor;
    if lo == m.Floor {
      BetweenRises(xs[lo], xs[Next(|xs|, lo)], k - lo as real, m - lo as real);
    } else {
      LineIsBetween(xs, k);
      LineIsBetween(xs, m);
    }
  }

  lemma RankRises(n: nat, p: real, q: real)
    requires n > 0 && 0.0 <= p <= q <= 100.0
    ensures 0.0 <= Rank(n, p) <= Rank(n, q) <= (n - 1) as real
  {
    Share((n - 1) as real, p / 100.0, q / 100.0);
  }

  lemma PickIsOnTheLine(xs: seq<real>, k: real)
    requires xs != [] && Sorted(xs) && 0.0 <= k <= (|xs| - 1) as real
    ensures Pick(xs, k) == Value(Line(xs, k))
  {
    LineIsBetween(xs, k);
  }

  /** Between 0 and 100 the percentile is a point of the line through the sorted values. */
  lemma PercentileIsOnTheLine(values: seq<real>, p: real)
    requires values != [] && 0.0 <= p <= 100.0
    ensures
      var xs := Sort(values);
      && |xs| == |values| && 0.0 <= Rank(|xs|, p) <= (|xs| - 1) as real
      && Percentile(values, p) == Value(Line(xs, Rank(|xs|, p)))
  {
    SortSorts(values);
    RankRises(|values|, p, p);
    PickIsOnTheLine(Sort(values), Rank(|values|, p));
  }

  lemma SharesAddUp(a: real, b: real, f: real)
    ensures Between(a, b, f) == (1.0 - f) * a + f * b
  {
  }

  lemma RankOf(n: nat, x: real)
    requires n > 1
    ensures Rank(n, 100.0 * x / (n - 1) as real) == x
  {
    var d := (n - 1) as real;
    assert 100.0 * x / d / 100.0 == x / d;
    assert d * (x / d) == x;
  }

  lemma SortedIs(values: seq<real>, xs: seq<real>)
    requires Sorted(xs) && multiset(xs) == multiset(values)
    ensures Sort(values) == xs && |xs| == |values|
  {
    SortSorts(values);
    SortedIsUnique(Sort(values), xs);
  }

  /** A fraction `f` of the way from the `j`-th smallest value to the next, the percentile is that
      share of the two. */
  lemma PercentileInterpolates(values: seq<real>, xs: seq<real>, j: nat, f: real)
    requires Sorted(xs) && multiset(xs) == multiset(values) && j + 1 < |xs| && 0.0 <= f <= 1.0
    ensures Percentile(values, 100.0 * (j as real + f) / (|xs| - 1) as real)
         == Value((1.0 - f) * xs[j] + f * xs[j + 1])
  {
    SortedIs(values, xs);
    RankOf(|xs|, j as real + f);
    PickInterpolates(xs, j, f);
  }

  lemma PickInterpolates(xs: seq<real>, j: nat, f: real)
    requires j + 1 < |xs| && 0.0 <= f <= 1.0
    ensures Pick(xs, j as real + f) == Value((1.0 - f) * xs[j] + f * xs[j + 1])
  {
    var k := j as real + f;
    if f < 1.0 {
      assert k.Floor == j;
      SharesAddUp(xs[j], xs[j + 1], f);
    } else {
      assert k.Floor == j + 1;
      SharesAddUp(xs[j + 1], xs[Next(|xs|, j + 1)], 0.0);
    }
  }

  /** A negative rank counts from the end, as Python's indices do. */
  lemma NegativeRanksCountFromTheEnd(values: seq<real>, xs: seq<real>, m: nat)
    requires Sorted(xs) && multiset(xs) == multiset(values) && |xs| > 1 && 0 < m <= |xs|
    ensures Percentile(values, 100.0 * -(m as real) / (|xs| - 1) as real) == Value(xs[|xs| - m])
  {
    SortedIs(values, xs);
    RankOf(|xs|, -(m as real));
    assert Int(-(m as real)) == 0 - m;
  }

  // ---------------------------------------------------------------- the laws

  function Least(values: seq<real>): real
    requires values != []
  {
    if |values| == 1 then values[0] else
      var m := Least(values[1..]);
      if values[0] <= m then values[0] else m
  }

  function Greatest(values: seq<real>): real
    requires values != []
  {
    if |values| == 1 then values[0] else
      var m := Greatest(values[1..]);
      if values[0] >= m then values[0] else m
  }

  lemma {:induction false} Extremes(values: seq<real>)
    requires values != []
    ensures Least(values) in values && Greatest(values) in values
    ensures forall x :: x in values ==> Least(values) <= x <= Greatest(values)
  {
    if |values| > 1 {
      Extremes(values[1..]);
      assert forall x :: x in values ==> x == values[0] || x in values[1..];
    }
  }

  lemma EndsOfSorted(values: seq<real>)
    requires values != []
    ensures var xs := Sort(values); |xs| == |values| && xs[0] == Least(values) && xs[|xs| - 1] == Greatest(values)
  {
    SortSorts(values);
    Extremes(values);
    var xs := Sort(values);
    assert xs[0] in multiset(xs) && xs[|xs| - 1] in multiset(xs);
    assert xs[0] in values && xs[|xs| - 1] in values;
    assert Least(values) in multiset(values) && Greatest(values) in multiset(values);
    assert Least(values) in xs && Greatest(values) in xs;
  }

  /** Rising in `p`, and never outside the values. */
  lemma PercentilesRise(values: seq<real>, p: real, q: real)
    requires values != [] && 0.0 <= p <= q <= 100.0
    ensures Percentile(values, p).Value? && Percentile(values, q).Value?
    ensures Least(values) <= Percentile(values, p).v <= Percentile(values, q).v <= Greatest(values)
  {
    var xs, n := Sort(values), |values|;
    SortSorts(values);
    EndsOfSorted(values);
    RankRises(n, p, q);
    PercentileIsOnTheLine(values, p);
    PercentileIsOnTheLine(values, q);
    LineStaysInside(xs, Rank(n, p), Rank(n, q));
  }

  lemma LineStaysInside(xs: seq<real>, k: real, m: real)
    requires xs != [] && Sorted(xs) && 0.0 <= k <= m <= (|xs| - 1) as real
    ensures xs[0] <= Line(xs, k) <= Line(xs, m) <= xs[|xs| - 1]
  {
    LineRises(xs, k, m);
    LineIsBetween(xs, k);
    LineIsBetween(xs, m);
  }

  lemma WholeRank(n: nat)
    ensures Rank(n, 0.0) == 0.0 && Rank(n, 100.0) == (n - 1) as real
  {
  }

  /** The line starts at the least value and ends at the greatest. */
  lemma PercentileMeetsTheEnds(values: seq<real>)
    requires values != []
    ensures Percentile(values, 0.0) == Value(Least(values)) && Percentile(values, 100.0) == Value(Greatest(values))
  {
    var xs := Sort(values);
    EndsOfSorted(values);
    SortSorts(values);
    WholeRank(|values|);
    PickIsOnTheLine(xs, 0.0);
    PickIsOnTheLine(xs, (|xs| - 1) as real);
    LineIsBetween(xs, (|xs| - 1) as real);
    BetweenRises(xs[0], xs[Next(|xs|, 0)], 0.0, 0.0);
  }

  /** The order of the measurements does not matter, for any `p` at all. */
  lemma PercentileForgetsOrder(a: seq<real>, b: seq<real>, p: real)
    requires multiset(a) == multiset(b)
    ensures Percentile(a, p) == Percentile(b, p)
  {
    SortSorts(a);
    SortSorts(b);
    SortedIsUnique(Sort(a), Sort(b));
    assert |multiset(a)| == |multiset(b)|;
  }

  /** Above 100 the list is left exactly when the rank reaches its length. */
  lemma TooHighRaisesExactlyPastTheEnd(values: seq<real>, p: real)
    requires |values| > 1 && p >= 0.0
    ensures Percentile(values, p) == IndexError <==> Rank(|values|, p) >= |values| as real
  {
    SortSorts(values);
    assert Rank(|values|, p) >= 0.0 by {
      assert (|values| - 1) as real >= 0.0 && p / 100.0 >= 0.0;
    }
  }

  /** Below 0 exactly when it lies a whole step before the first one counted from the end. */
  lemma TooLowRaisesExactlyPastTheStart(values: seq<real>, p: real)
    requires |values| > 1 && p < 0.0
    ensures Percentile(values, p) == IndexError <==> Rank(|values|, p) <= -((|values| + 1) as real)
  {
    SortSorts(values);
    assert Rank(|values|, p) < 0.0 by {
      assert (|values| - 1) as real > 0.0 && p / 100.0 < 0.0;
    }
  }

  // ---------------------------------------------------------------- `summary`

  /** `round(x, 2)`: to the nearest hundredth, halves to the even one. */
  function Round2(x: real): real {
    var h := x * 100.0;
    var f := h.Floor;
    var d := h - f as real;
    (if d < 0.5 || (d == 0.5 && f % 2 == 0) then f else f + 1) as real / 100.0
  }

  /** A whole number of hundredths, none nearer, and the even one of two equally near. */
  lemma RoundIsNearest(x: real) returns (m: int)
    ensures Round2(x) == m as real / 100.0 && -0.5 <= 100.0 * x - m as real <= 0.5
    ensures 100.0 * x - m as real == 0.5 || 100.0 * x - m as real == -0.5 ==> m % 2 == 0
  {
    var f := (x * 100.0).Floor;
    var d := x * 100.0 - f as real;
    m := if d < 0.5 || (d == 0.5 && f % 2 == 0) then f else f + 1;
  }

  lemma RoundRises(x: real, y: real)
    requires x <= y
    ensures Round2(x) <= Round2(y)
  {
    var f, g := (x * 100.0).Floor, (y * 100.0).Floor;
    assert f <= g;
  }

  function Sum(values: seq<real>): real {
    if values == [] then 0.0 else values[0] + Sum(values[1..])
  }

  function Mean(values: seq<real>): real
    requires values != []
  {
    Sum(values) / |values| as real
  }

  datatype Summary = Summary(n: nat, min: Option<real>, p50: Outcome, p99: Outcome, max: Option<real>,
                             mean: Option<real>)

  function Rounded(o: Outcome): Outcome {
    if o.Value? then Value(Round2(o.v)) else o
  }

  function Summarize(values: seq<real>): Summary {
    var ok := values != [];
    Summary(|values|,
            if ok then Some(Round2(Least(values))) else None,
            Rounded(Percentile(values, 50.0)), Rounded(Percentile(values, 99.0)),
            if ok then Some(Round2(Greatest(values))) else None,
            if ok then Some(Round2(Mean(values))) else None)
  }

  /** `x` added up `n` times. */
  function Copies(n: nat, x: real): real {
    if n == 0 then 0.0 else Copies(n - 1, x) + x
  }

  lemma {:induction false} CopiesMultiply(n: nat, x: real)
    ensures Copies(n, x) == n as real * x
  {
    if n > 0 {
      CopiesMultiply(n - 1, x);
      assert (n - 1) as real == n as real - 1.0;
    }
  }

  lemma {:induction false} SumIsBetween(values: seq<real>, lo: real, hi: real)
    requires forall k :: 0 <= k < |values| ==> lo <= values[k] <= hi
    ensures Copies(|values|, lo) <= Sum(values) <= Copies(|values|, hi)
  {
    if values != [] {
      SumIsBetween(values[1..], lo, hi);
    }
  }

  lemma Quotient(x: real, n: real)
    requires n > 0.0
    ensures n * x / n == x
  {
  }

  lemma QuotientRises(s: real, t: real, n: real)
    requires n > 0.0 && s <= t
    ensures s / n <= t / n
  {
  }

  lemma QuotientIsBetween(n: nat, lo: real, s: real, hi: real)
    requires n > 0 && Copies(n, lo) <= s <= Copies(n, hi)
    ensures lo <= s / n as real <= hi
  {
    CopiesMultiply(n, lo);
    CopiesMultiply(n, hi);
    Quotient(lo, n as real);
    Quotient(hi, n as real);
    QuotientRises(Copies(n, lo), s, n as real);
    QuotientRises(s, Copies(n, hi), n as real);
  }

  lemma MeanIsBetween(values: seq<real>)
    requires values != []
    ensures Least(values) <= Mean(values) <= Greatest(values)
  {
    Extremes(values);
    forall k | 0 <= k < |values| ensures Least(values) <= values[k] <= Greatest(values) {
      assert values[k] in values;
    }
    SumIsBetween(values, Least(values), Greatest(values));
    QuotientIsBetween(|values|, Least(values), Sum(values), Greatest(values));
  }

  /** What `summary` reports is in order, after rounding too. */
  lemma SummariesAreOrdered(values: seq<real>)
    requires values != []
    ensures
      var s := Summarize(values);
      && s.min.Some? && s.max.Some? && s.mean.Some? && s.p50.Value? && s.p99.Value?
      && s.min.value <= s.p50.v <= s.p99.v <= s.max.value
      && s.min.value <= s.mean.value <= s.max.value
  {
    PercentilesRise(values, 50.0, 99.0);
    var p50, p99 := Percentile(values, 50.0).v, Percentile(values, 99.0).v;
    RoundRises(Least(values), p50);
    RoundRises(p50, p99);
    RoundRises(p99, Greatest(values));
    MeanIsBetween(values);
    RoundRises(Least(values), Mean(values));
    RoundRises(Mean(values), Greatest(values));
  }

  /** `sum` of one value is the value, and sums of parts add up. */
  lemma {:induction false} SumsAddUp(a: seq<real>, b: seq<real>)
    ensures Sum(a + b) == Sum(a) + Sum(b)
    ensures forall x :: Sum([x]) == x
  {
    if a == [] {
      assert a + b == b;
    } else {
      assert (a + b)[1..] == a[1..] + b;
      SumsAddUp(a[1..], b);
    }
  }

  function Median(xs: seq<real>): real
    requires xs != []
  {
    if |xs| % 2 == 1 then xs[|xs| / 2] else (xs[|xs| / 2 - 1] + xs[|xs| / 2]) / 2.0
  }

  lemma MiddleIsMedian(values: seq<real>, xs: seq<real>)
    requires xs != [] && Sorted(xs) && multiset(xs) == multiset(values)
    ensures Percentile(values, 50.0) == Value(Median(xs))
  {
    SortedIs(values, xs);
    if |xs| > 1 {
      var h := (|xs| - 1) / 2;
      HalfRank(|xs|);
      if |xs| % 2 == 1 {
        PickInterpolates(xs, h, 0.0);
      } else {
        PickInterpolates(xs, h, 0.5);
      }
    }
  }

  lemma HalfRank(n: nat)
    requires n > 0
    ensures Rank(n, 50.0) == ((n - 1) / 2) as real + if n % 2 == 1 then 0.0 else 0.5
  {
    var h := (n - 1) / 2;
    assert n - 1 == 2 * h + if n % 2 == 1 then 0 else 1;
    assert (n - 1) as real == 2.0 * h as real + if n % 2 == 1 then 0.0 else 1.0;
  }

  /** What `summary` reports of a nonempty list, in terms of the sorted one. */
  lemma SummaryReports(values: seq<real>, xs: seq<real>)
    requires xs != [] && Sorted(xs) && multiset(xs) == multiset(values)
    ensures
      var s, n := Summarize(values), |values|;
      && s.n == n == |xs|
      && s.min == Some(Round2(xs[0])) && s.max == Some(Round2(xs[n - 1]))
      && s.p50 == Value(Round2(Median(xs)))
      && s.p99 == Rounded(Percentile(values, 99.0))
      && s.mean == Some(Round2(Sum(values) / n as real))
  {
    SortedIs(values, xs);
    EndsOfSorted(values);
    MiddleIsMedian(values, xs);
  }

  lemma SummaryOfNothing()
    ensures Summarize([]) == Summary(0, None, NaN, NaN, None, None)
  {
  }
}
