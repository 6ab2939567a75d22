/** Closed-trade drawdown, computed twice in the repository (app/services/analytics.py in one pass,
    app/backtesting/engine.py over prefix maxima). */
module Drawdown {
  import opened Records

  // The equity after the first n results, starting from zero.
  function Equity(values: seq<real>, n: nat): real
    requires n <= |values|
  {
    if n == 0 then 0.0 else Equity(values, n - 1) + values[n - 1]
  }

  // How far the equity fell from the i-th point to the j-th.
  function Fall(values: seq<real>, i: nat, j: nat): real
    requires i <= j <= |values|
  {
    Equity(values, i) - Equity(values, j)
  }

  // m is the greatest fall within the first n results, from any point to any later one.
  ghost predicate GreatestFall(values: seq<real>, n: nat, m: real)
    requires n <= |values|
  {
    && (forall i, j :: 0 <= i <= j <= n ==> Fall(values, i, j) <= m)
    && (exists i, j :: 0 <= i <= j <= n && Fall(values, i, j) == m)
  }

  ghost predicate PeakOf(values: seq<real>, n: nat, peak: real)
    requires n <= |values|
  {
    (forall i :: 0 <= i <= n ==> Equity(values, i) <= peak) && exists i :: 0 <= i <= n && Equity(values, i) == peak
  }

  lemma PeakGrows(values: seq<real>, n: nat, peak: real)
    requires n < |values| && PeakOf(values, n, peak)
    ensures PeakOf(values, n + 1, Max(peak, Equity(values, n + 1)))
  {
    if peak >= Equity(values, n + 1) {
      var i :| 0 <= i <= n && Equity(values, i) == peak;
    }
  }

  lemma FallGrows(values: seq<real>, n: nat, peak: real, m: real)
    requires n < |values| && GreatestFall(values, n, m) && PeakOf(values, n + 1, peak)
    ensures GreatestFall(values, n + 1, Max(m, peak - Equity(values, n + 1)))
  {
    if m >= peak - Equity(values, n + 1) {
      var i, j :| 0 <= i <= j <= n && Fall(values, i, j) == m;
    } else {
      var i :| 0 <= i <= n + 1 && Equity(values, i) == peak;
      assert Fall(values, i, n + 1) == peak - Equity(values, n + 1);
    }
  }

  // One pass finds the greatest fall, the same as the array form, and the fall from the peak to the end.
  method OnePass(values: seq<real>) returns (current: real, maximum: real)
    ensures GreatestFall(values, |values|, maximum) && maximum == ArrayForm(values)
    ensures exists peak :: PeakOf(values, |values|, peak) && current == peak - Equity(values, |values|)
  {
    var equity, peak, n := 0.0, 0.0, 0;
    current, maximum := 0.0, 0.0;
    assert Fall(values, 0, 0) == 0.0;
    while n < |values|
      invariant 0 <= n <= |values| && equity == Equity(values, n)
      invariant PeakOf(values, n, peak) && current == peak - equity && GreatestFall(values, n, maximum)
    {
      equity := equity + values[n];
      PeakGrows(values, n, peak);
      peak := Max(peak, equity);
      current := peak - equity;
      FallGrows(values, n, peak, maximum);
      maximum := Max(maximum, current);
      n := n + 1;
    }
    ArrayFormIsGreatestFall(values);
    GreatestFallIsUnique(values, maximum, ArrayForm(values));
  }

  // ------------------------------------------------------------------ the array form

  // np.cumsum
  function CumSum(values: seq<real>): (r: seq<real>)
    ensures |r| == |values|
  {
    if values == [] then [] else
      var before := CumSum(values[..|values| - 1]);
      before + [(if before == [] then 0.0 else before[|before| - 1]) + values[|values| - 1]]
  }

  // np.maximum.accumulate
  function Accumulate(xs: seq<real>): (r: seq<real>)
    ensures |r| == |xs|
  {
    if xs == [] then [] else
      var before, last := Accumulate(xs[..|xs| - 1]), xs[|xs| - 1];
      before + [if before == [] then last else Max(before[|before| - 1], last)]
  }

  function Greatest(xs: seq<real>): (r: real)
    requires xs != []
    ensures r in xs && forall k :: 0 <= k < |xs| ==> xs[k] <= r
  {
    if |xs| == 1 then xs[0] else Max(Greatest(xs[..|xs| - 1]), xs[|xs| - 1])
  }

  function Difference(xs: seq<real>, ys: seq<real>): (r: seq<real>)
    requires |xs| == |ys|
    ensures |r| == |xs| && forall k :: 0 <= k < |xs| ==> r[k] == xs[k] - ys[k]
  {
    seq(|xs|, k requires 0 <= k < |xs| => xs[k] - ys[k])
  }

  // max_drawdown of metrics().
  function ArrayForm(values: seq<real>): real {
    if values == [] then 0.0
    else
      var equity := CumSum(values);
      Greatest(Difference(Accumulate([0.0] + equity)[1..], equity))
  }

  lemma {:induction false} EquityOfPrefix(values: seq<real>, m: nat, n: nat)
    requires n <= m <= |values|
    ensures Equity(values[..m], n) == Equity(values, n)
  {
    if n > 0 { EquityOfPrefix(values, m, n - 1); }
  }

  lemma {:induction false} CumSumIsEquity(values: seq<real>, k: nat)
    requires k < |values|
    ensures CumSum(values)[k] == Equity(values, k + 1)
  {
    var front := values[..|values| - 1];
    if k < |front| {
      CumSumIsEquity(front, k);
      EquityOfPrefix(values, |front|, k + 1);
    } else if front != [] {
      CumSumIsEquity(front, k - 1);
      EquityOfPrefix(values, |front|, k);
    }
  }

  lemma {:induction false} AccumulateIsPeak(values: seq<real>, xs: seq<real>, k: nat)
    requires |xs| == |values| + 1 && k < |xs| && forall j :: 0 <= j < |xs| ==> xs[j] == Equity(values, j)
    ensures PeakOf(values, k, Accumulate(xs)[k])
  {
    AccumulateOfPrefix(xs, k + 1);
    PeakAtTheEnd(values, xs[..k + 1], k);
  }

  lemma {:induction false} AccumulateOfPrefix(xs: seq<real>, n: nat)
    requires n <= |xs|
    ensures forall k :: 0 <= k < n ==> Accumulate(xs)[k] == Accumulate(xs[..n])[k]
    decreases |xs|
  {
    if n < |xs| {
      var front := xs[..|xs| - 1];
      AccumulateOfPrefix(front, n);
      assert front[..n] == xs[..n];
    } else {
      assert xs[..n] == xs;
    }
  }

  lemma {:induction false} PeakAtTheEnd(values: seq<real>, xs: seq<real>, k: nat)
    requires k <= |values| && |xs| == k + 1 && forall j :: 0 <= j <= k ==> xs[j] == Equity(values, j)
    ensures PeakOf(values, k, Accumulate(xs)[k])
  {
    if k > 0 {
      PeakAtTheEnd(values, xs[..k], k - 1);
      PeakGrows(values, k - 1, Accumulate(xs[..k])[k - 1]);
    } else {
      assert Equity(values, 0) == xs[0];
    }
  }

  // The greatest fall is one number, so any two ways of finding it agree.
  lemma GreatestFallIsUnique(values: seq<real>, m: real, k: real)
    requires GreatestFall(values, |values|, m) && GreatestFall(values, |values|, k)
    ensures m == k
  {
  }

  lemma FromZero(values: seq<real>, xs: seq<real>, k: nat)
    requires xs == [0.0] + CumSum(values) && k < |xs|
    ensures xs[k] == Equity(values, k)
  {
    if k > 0 { CumSumIsEquity(values, k - 1); }
  }

  // `peak` at the j-th point: the fall from it is the greatest fall ending there.
  lemma FallFromPeak(values: seq<real>, j: nat, peak: real)
    requires j <= |values| && PeakOf(values, j, peak)
    ensures forall i :: 0 <= i <= j ==> Fall(values, i, j) <= peak - Equity(values, j)
    ensures exists i :: 0 <= i <= j && Fall(values, i, j) == peak - Equity(values, j)
  {
    var i :| 0 <= i <= j && Equity(values, i) == peak;
    assert Fall(values, i, j) == peak - Equity(values, j);
  }

  lemma FallAt(values: seq<real>, j: nat)
    requires 0 < j <= |values|
    ensures var fall := Difference(Accumulate([0.0] + CumSum(values))[1..], CumSum(values))[j - 1];
      (forall i :: 0 <= i <= j ==> Fall(values, i, j) <= fall) && exists i :: 0 <= i <= j && Fall(values, i, j) == fall
  {
    var xs := [0.0] + CumSum(values);
    forall k | 0 <= k < |xs| ensures xs[k] == Equity(values, k) { FromZero(values, xs, k); }
    AccumulateIsPeak(values, xs, j);
    CumSumIsEquity(values, j - 1);
    FallFromPeak(values, j, Accumulate(xs)[j]);
  }

  lemma NoFallAtTheStart(values: seq<real>, falls: seq<real>, m: real)
    requires values != [] && falls == Difference(Accumulate([0.0] + CumSum(values))[1..], CumSum(values))
      && m >= falls[0]
    ensures m >= 0.0
  {
    FallAt(values, 1);
    assert Fall(values, 1, 1) <= falls[0];
  }

  // The prefix-maximum form finds the same number as the one pass, on every list.
  lemma ArrayFormIsGreatestFall(values: seq<real>)
    ensures GreatestFall(values, |values|, ArrayForm(values))
  {
    var m := ArrayForm(values);
    if values == [] {
      assert Fall(values, 0, 0) == m;
    } else {
      var falls := Difference(Accumulate([0.0] + CumSum(values))[1..], CumSum(values));
      forall i, j | 0 <= i <= j <= |values| ensures Fall(values, i, j) <= m {
        if j > 0 { FallAt(values, j); assert falls[j - 1] <= m; } else { NoFallAtTheStart(values, falls, m); }
      }
      var k :| 0 <= k < |falls| && falls[k] == m;
      FallAt(values, k + 1);
      var i :| 0 <= i <= k + 1 && Fall(values, i, k + 1) == falls[k];
    }
  }
}
