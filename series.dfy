/** The three pandas column operations the gold layer applies to one
    symbol's series: `pct_change()`, `diff()` and
    `rolling(window, min_periods=1).mean()`, on exact reals. */
module Series {
  import opened Wrappers

  function Min(a: nat, b: nat): nat {
    if a <= b then a else b
  }

  function Sum(xs: seq<real>): real {
    if xs == [] then 0.0 else Sum(xs[..|xs| - 1]) + xs[|xs| - 1]
  }

  function Mean(xs: seq<real>): real
    requires |xs| > 0
  {
    Sum(xs) / (|xs| as real)
  }

  function MinOf(xs: seq<real>): real
    requires |xs| > 0
  {
    if |xs| == 1 then xs[0]
    else var m := MinOf(xs[..|xs| - 1]); if xs[|xs| - 1] < m then xs[|xs| - 1] else m
  }

  function MaxOf(xs: seq<real>): real
    requires |xs| > 0
  {
    if |xs| == 1 then xs[0]
    else var m := MaxOf(xs[..|xs| - 1]); if xs[|xs| - 1] > m then xs[|xs| - 1] else m
  }

  /** One element of `pct_change`, as pandas computes it: `cur / prev - 1`.
      A zero `prev` gives inf or NaN in pandas; here it is undefined. */
  function Ratio(prev: real, cur: real): Option<real> {
    if prev == 0.0 then None else Some(cur / prev - 1.0)
  }

  /** The relative change `(cur - prev) / prev`, undefined when `prev` is 0. */
  function RelativeChange(prev: real, cur: real): Option<real> {
    if prev == 0.0 then None else Some((cur - prev) / prev)
  }

  /** `series.pct_change()`: undefined for the first element; otherwise the
      relative change from the previous element, undefined after a zero. */
  function PctChange(xs: seq<real>): (r: seq<Option<real>>)
    ensures |r| == |xs|
    ensures |xs| > 0 ==> r[0] == None
    ensures forall i :: 0 < i < |xs| ==> r[i] == RelativeChange(xs[i - 1], xs[i])
  {
    if |xs| <= 1 then seq(|xs|, _ => None)
    else
      var n := |xs|;
      RatioIsRelativeChange(xs[n - 2], xs[n - 1]);
      PctChange(xs[..n - 1]) + [Ratio(xs[n - 2], xs[n - 1])]
  }

  /** pandas' `cur / prev - 1` is the relative change `(cur - prev) / prev`. */
  lemma {:induction false} RatioIsRelativeChange(prev: real, cur: real)
    ensures Ratio(prev, cur) == RelativeChange(prev, cur)
  {
    if prev != 0.0 {
      var q := cur / prev;
      var q2 := (cur - prev) / prev;
      MulDivCancel(cur, prev);
      MulDivCancel(cur - prev, prev);
      assert q2 * prev == cur - prev;
      assert q * prev == cur;
      assert (q2 - (q - 1.0)) * prev == q2 * prev - q * prev + prev;
      ZeroProduct(q2 - (q - 1.0), prev);
    }
  }

  lemma {:induction false} MulDivCancel(a: real, b: real)
    requires b != 0.0
    ensures a / b * b == a
  {
  }

  lemma {:induction false} ZeroProduct(x: real, b: real)
    requires b != 0.0 && x * b == 0.0
    ensures x == 0.0
  {
    MulDivCancel(x * b, b);
  }

  lemma {:induction false} StrictScale(n: real, a: real, b: real)
    requires n > 0.0 && a < b
    ensures a * n < b * n
  {
  }

  lemma {:induction false} DivLowerBound(s: real, n: real, lo: real)
    requires n > 0.0 && n * lo <= s
    ensures lo <= s / n
  {
    MulDivCancel(s, n);
    if s / n < lo { StrictScale(n, s / n, lo); }
  }

  lemma {:induction false} DivUpperBound(s: real, n: real, hi: real)
    requires n > 0.0 && s <= n * hi
    ensures s / n <= hi
  {
    MulDivCancel(s, n);
    if s / n > hi { StrictScale(n, hi, s / n); }
  }

  /** `series.diff()`: undefined for the first element; otherwise the
      change from the previous element. */
  function Diff(xs: seq<real>): (r: seq<Option<real>>)
    ensures |r| == |xs|
    ensures |xs| > 0 ==> r[0] == None
    ensures forall i :: 0 < i < |xs| ==> r[i] == Some(xs[i] - xs[i - 1])
  {
    if |xs| <= 1 then seq(|xs|, _ => None)
    else Diff(xs[..|xs| - 1]) + [Some(xs[|xs| - 1] - xs[|xs| - 2])]
  }

  lemma {:induction false} DiffAt(xs: seq<real>, i: nat)
    requires i < |xs|
    ensures Diff(xs)[i] == if i > 0 then Some(xs[i] - xs[i - 1]) else None
  {
  }

  /** `series.rolling(window, min_periods=1).mean()`: at each position the
      mean of the last `window` elements ending there, or of all elements so
      far while fewer than `window` exist; never undefined. */
  function RollingMean(xs: seq<real>, window: nat): (r: seq<real>)
    requires window >= 1
    ensures |r| == |xs|
    ensures forall i :: 0 <= i < |xs| ==> r[i] == Mean(Window(xs, window, i))
  {
    if xs == [] then []
    else
      var n := |xs|;
      WindowOfPrefix(xs, window);
      assert Window(xs, window, n - 1) == xs[n - Min(window, n) ..];
      RollingMean(xs[..n - 1], window) + [Mean(xs[n - Min(window, n) ..])]
  }

  /** The last `window` elements ending at position `i` (fewer near the start). */
  function Window(xs: seq<real>, window: nat, i: nat): (w: seq<real>)
    requires window >= 1 && i < |xs|
    ensures 1 <= |w| <= window
  {
    xs[i + 1 - Min(window, i + 1) .. i + 1]
  }

  lemma {:induction false} WindowOfPrefix(xs: seq<real>, window: nat)
    requires window >= 1 && |xs| > 0
    ensures forall i :: 0 <= i < |xs| - 1 ==> Window(xs[..|xs| - 1], window, i) == Window(xs, window, i)
  {
  }

  /** A defined relative change times the previous value is the absolute
      change. */
  lemma {:induction false} ChangeIsReturnTimesPrevious(prev: real, cur: real)
    requires prev != 0.0
    ensures RelativeChange(prev, cur).value * prev == cur - prev
  {
    var q := (cur - prev) / prev;
    MulDivCancel(cur - prev, prev);
    assert q * prev == cur - prev;
  }

  /** Where both are defined, the absolute change is the relative change
      times the previous value. */
  lemma {:induction false} PriceChangeIsReturnTimesPrevious(xs: seq<real>, i: nat)
    requires 0 < i < |xs|
    requires PctChange(xs)[i].Some?
    ensures Diff(xs)[i] == Some(PctChange(xs)[i].value * xs[i - 1])
  {
    var prev, cur := xs[i - 1], xs[i];
    var r := PctChange(xs)[i];
    assert r == RelativeChange(prev, cur);
    ChangeIsReturnTimesPrevious(prev, cur);
    assert r.value * prev == cur - prev;
    assert Diff(xs)[i] == Some(cur - prev);
    assert PctChange(xs)[i].value * xs[i - 1] == cur - prev;
  }

  /** The relative change is defined exactly after a nonzero value; the
      absolute change exactly after any value. */
  lemma {:induction false} DefinedExactlyAfterNonzero(xs: seq<real>, i: nat)
    requires i < |xs|
    ensures PctChange(xs)[i].Some? <==> i > 0 && xs[i - 1] != 0.0
    ensures Diff(xs)[i].Some? <==> i > 0
  {
  }

  lemma {:induction false} SumBounds(xs: seq<real>)
    requires |xs| > 0
    ensures (|xs| as real) * MinOf(xs) <= Sum(xs) <= (|xs| as real) * MaxOf(xs)
  {
    if |xs| > 1 {
      var init, x := xs[..|xs| - 1], xs[|xs| - 1];
      SumBounds(init);
      MinMaxOfInit(xs);
      assert Sum(xs) == Sum(init) + x;
      LowerStep(|init| as real, |xs| as real, Sum(init), x, MinOf(xs), MinOf(init));
      UpperStep(|init| as real, |xs| as real, Sum(init), x, MaxOf(xs), MaxOf(init));
    }
  }

  lemma {:induction false} MinMaxOfInit(xs: seq<real>)
    requires |xs| > 1
    ensures MinOf(xs) <= MinOf(xs[..|xs| - 1]) && MinOf(xs) <= xs[|xs| - 1]
    ensures MaxOf(xs[..|xs| - 1]) <= MaxOf(xs) && xs[|xs| - 1] <= MaxOf(xs)
  {
  }

  /** One more element at least `lo` keeps `m * lo` below the sum. */
  lemma {:induction false} LowerStep(n: real, m: real, sum: real, x: real, lo: real, loInit: real)
    requires n >= 0.0 && m == n + 1.0
    requires n * loInit <= sum && lo <= loInit && lo <= x
    ensures m * lo <= sum + x
  {
    MonotoneScale(n, lo, loInit);
    assert m * lo == n * lo + lo;
  }

  /** One more element at most `hi` keeps the sum below `m * hi`. */
  lemma {:induction false} UpperStep(n: real, m: real, sum: real, x: real, hi: real, hiInit: real)
    requires n >= 0.0 && m == n + 1.0
    requires sum <= n * hiInit && hiInit <= hi && x <= hi
    ensures sum + x <= m * hi
  {
    MonotoneScale(n, hiInit, hi);
    assert m * hi == n * hi + hi;
  }

  lemma {:induction false} MonotoneScale(n: real, a: real, b: real)
    requires n >= 0.0 && a <= b
    ensures n * a <= n * b
  {
  }

  /** A mean lies between the smallest and the largest value averaged. */
  lemma {:induction false} MeanBounds(xs: seq<real>)
    requires |xs| > 0
    ensures MinOf(xs) <= Mean(xs) <= MaxOf(xs)
  {
    SumBounds(xs);
    DivLowerBound(Sum(xs), |xs| as real, MinOf(xs));
    DivUpperBound(Sum(xs), |xs| as real, MaxOf(xs));
  }

  /** Every rolling mean lies between the smallest and the largest value of
      its window. */
  lemma {:induction false} RollingMeanWithinWindow(xs: seq<real>, window: nat, i: nat)
    requires window >= 1 && i < |xs|
    ensures MinOf(Window(xs, window, i)) <= RollingMean(xs, window)[i] <= MaxOf(Window(xs, window, i))
  {
    MeanBounds(Window(xs, window, i));
  }

  /** The volumes 10, 20, 30, 40 have 3-row rolling means 10, 15, 20, 30. */
  lemma {:induction false} RollingMeanExample()
    ensures RollingMean([10.0, 20.0, 30.0, 40.0], 3) == [10.0, 15.0, 20.0, 30.0]
  {
    var xs := [10.0, 20.0, 30.0, 40.0];
    ExampleWindows(xs);
    ExampleMeans();
    var r := RollingMean(xs, 3);
    assert r[0] == 10.0 && r[1] == 15.0 && r[2] == 20.0 && r[3] == 30.0;
  }

  lemma {:induction false} ExampleWindows(xs: seq<real>)
    requires xs == [10.0, 20.0, 30.0, 40.0]
    ensures Window(xs, 3, 0) == [10.0]
    ensures Window(xs, 3, 1) == [10.0, 20.0]
    ensures Window(xs, 3, 2) == [10.0, 20.0, 30.0]
    ensures Window(xs, 3, 3) == [20.0, 30.0, 40.0]
  {
  }

  lemma {:induction false} ExampleMeans()
    ensures Mean([10.0]) == 10.0
    ensures Mean([10.0, 20.0]) == 15.0
    ensures Mean([10.0, 20.0, 30.0]) == 20.0
    ensures Mean([20.0, 30.0, 40.0]) == 30.0
  {
    assert [10.0][..0] == [];
    assert [10.0, 20.0][..1] == [10.0];
    assert [10.0, 20.0, 30.0][..2] == [10.0, 20.0];
    assert [20.0][..0] == [];
    assert [20.0, 30.0][..1] == [20.0];
    assert [20.0, 30.0, 40.0][..2] == [20.0, 30.0];
  }

  /** The closes 100, 110, 99 have returns -, 0.1, -0.1 and changes -, 10, -11. */
  lemma {:induction false} ReturnExample()
    ensures PctChange([100.0, 110.0, 99.0]) == [None, Some(0.1), Some(-0.1)]
    ensures Diff([100.0, 110.0, 99.0]) == [None, Some(10.0), Some(-11.0)]
  {
  }
}
