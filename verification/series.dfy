/** Arithmetic over finite numeric series: sums, means, trailing windows and
    extrema. These are the building blocks that pandas' `rolling(...)` calls
    provide to the indicator engine; every window here ends at (and includes)
    the bar it belongs to. */
module Series {

  import opened Outcomes

  /** Sum of a series, accumulated left to right (the last element is added last). */
  function Sum(xs: seq<real>): real
    decreases |xs|
  {
    if |xs| == 0 then 0.0 else Sum(xs[..|xs| - 1]) + xs[|xs| - 1]
  }

  lemma {:induction false} SumAppend(a: seq<real>, b: seq<real>)
    ensures Sum(a + b) == Sum(a) + Sum(b)
    decreases |b|
  {
    if |b| == 0 {
      assert a + b == a;
    } else {
      var b' := b[..|b| - 1];
      assert (a + b)[..|a + b| - 1] == a + b';
      SumAppend(a, b');
    }
  }

  /** Removing the first element of a non-empty series removes it from the sum. */
  lemma {:induction false} SumDropFirst(xs: seq<real>)
    requires |xs| > 0
    ensures Sum(xs) == xs[0] + Sum(xs[1..])
  {
    var head := [xs[0]];
    assert Sum(head) == xs[0] by {
      assert head[..0] == [];
    }
    assert xs == head + xs[1..];
    SumAppend(head, xs[1..]);
  }

  /** A sum of `n` terms that all lie in `[lo, hi]` lies in `[n * lo, n * hi]`. */
  lemma {:induction false} SumBounds(xs: seq<real>, lo: real, hi: real)
    requires forall i :: 0 <= i < |xs| ==> lo <= xs[i] <= hi
    ensures |xs| as real * lo <= Sum(xs) <= |xs| as real * hi
    decreases |xs|
  {
    if |xs| > 0 {
      var n := |xs| as real;
      var init := xs[..|xs| - 1];
      SumBounds(init, lo, hi);
      assert |init| as real == n - 1.0;
      assert Sum(xs) == Sum(init) + xs[|xs| - 1];
      assert lo <= xs[|xs| - 1] <= hi;
      assert (n - 1.0) * lo + lo == n * lo;
      assert (n - 1.0) * hi + hi == n * hi;
    }
  }

  /** Arithmetic mean of a non-empty series. */
  function Mean(xs: seq<real>): real
    requires |xs| > 0
  {
    Sum(xs) / |xs| as real
  }

  /** The mean of terms that all lie in `[lo, hi]` lies in `[lo, hi]`. */
  lemma MeanBounds(xs: seq<real>, lo: real, hi: real)
    requires |xs| > 0
    requires forall i :: 0 <= i < |xs| ==> lo <= xs[i] <= hi
    ensures lo <= Mean(xs) <= hi
  {
    SumBounds(xs, lo, hi);
    var n := |xs| as real;
    assert Sum(xs) / n >= lo by {
      assert Sum(xs) >= n * lo;
    }
    assert Sum(xs) / n <= hi by {
      assert Sum(xs) <= n * hi;
    }
  }

  /** The `w` values that end at (and include) index `i`. */
  function Window(xs: seq<real>, w: nat, i: nat): seq<real>
    requires 1 <= w <= i + 1 <= |xs|
  {
    xs[i + 1 - w..i + 1]
  }

  /** pandas `xs.rolling(window=w).mean()` at index `i`: undefined (`None`, a
      NaN in pandas) until `w` values are available, the window mean after. */
  function RollingMean(xs: seq<real>, w: nat, i: nat): (r: Option<real>)
    requires 1 <= w && i < |xs|
    ensures r.Some? <==> i + 1 >= w
  {
    if i + 1 < w then None else Some(Mean(Window(xs, w, i)))
  }

  /** A defined rolling mean lies between any bounds of its window. */
  lemma RollingMeanBounds(xs: seq<real>, w: nat, i: nat, lo: real, hi: real)
    requires 1 <= w <= i + 1 <= |xs|
    requires forall j :: i + 1 - w <= j <= i ==> lo <= xs[j] <= hi
    ensures lo <= RollingMean(xs, w, i).value <= hi
  {
    var win := Window(xs, w, i);
    forall k | 0 <= k < |win|
      ensures lo <= win[k] <= hi
    {
      assert win[k] == xs[i + 1 - w + k];
    }
    MeanBounds(win, lo, hi);
  }

  /** The first index of the running window before bar `i` is added. */
  function RunningStart(w: nat, i: nat): nat
  {
    if i < w then 0 else i - w
  }

  /** One step of the running window total: add the new bar, drop the bar
      that leaves the window. */
  lemma SlideTotal(xs: seq<real>, w: nat, i: nat)
    requires 1 <= w && i < |xs|
    ensures Sum(xs[RunningStart(w, i + 1)..i + 1])
         == Sum(xs[RunningStart(w, i)..i]) + xs[i] - (if i >= w then xs[i - w] else 0.0)
  {
    var lo := RunningStart(w, i);
    assert xs[lo..i + 1][..i - lo] == xs[lo..i];
    assert Sum(xs[lo..i + 1]) == Sum(xs[lo..i]) + xs[i];
    if i >= w {
      SumDropFirst(xs[lo..i + 1]);
      assert xs[lo..i + 1][1..] == xs[lo + 1..i + 1];
    }
  }

  /** All rolling means of a series in one left-to-right pass that keeps a
      running window total, as pandas' rolling aggregation does. */
  method SlidingMeans(xs: seq<real>, w: nat) returns (r: seq<Option<real>>)
    requires w >= 1
    ensures |r| == |xs|
    ensures forall i :: 0 <= i < |xs| ==> r[i] == RollingMean(xs, w, i)
  {
    r := [];
    var total := 0.0;
    var i := 0;
    while i < |xs|
      invariant 0 <= i <= |xs|
      invariant |r| == i
      invariant forall j :: 0 <= j < i ==> r[j] == RollingMean(xs, w, j)
      invariant total == Sum(xs[RunningStart(w, i)..i])
    {
      SlideTotal(xs, w, i);
      total := total + xs[i];
      if i >= w {
        total := total - xs[i - w];
      }
      var next: Option<real> := if i + 1 < w then None else Some(total / w as real);
      FullWindowMean(xs, w, i, total);
      r := r + [next];
      i := i + 1;
    }
  }

  /** A full running window's total over `w` is the rolling mean. */
  lemma FullWindowMean(xs: seq<real>, w: nat, i: nat, total: real)
    requires 1 <= w && i < |xs|
    requires total == Sum(xs[RunningStart(w, i + 1)..i + 1])
    ensures RollingMean(xs, w, i) == if i + 1 < w then None else Some(total / w as real)
  {
    if i + 1 >= w {
      assert xs[RunningStart(w, i + 1)..i + 1] == Window(xs, w, i);
    }
  }

  /** Smallest element of a non-empty series. */
  function SeqMin(xs: seq<real>): (r: real)
    requires |xs| > 0
    ensures forall i :: 0 <= i < |xs| ==> r <= xs[i]
    ensures exists i :: 0 <= i < |xs| && r == xs[i]
    decreases |xs|
  {
    if |xs| == 1 then xs[0]
    else
      var m := SeqMin(xs[..|xs| - 1]);
      if xs[|xs| - 1] < m then xs[|xs| - 1] else m
  }

  /** Largest element of a non-empty series. */
  function SeqMax(xs: seq<real>): (r: real)
    requires |xs| > 0
    ensures forall i :: 0 <= i < |xs| ==> xs[i] <= r
    ensures exists i :: 0 <= i < |xs| && r == xs[i]
    decreases |xs|
  {
    if |xs| == 1 then xs[0]
    else
      var m := SeqMax(xs[..|xs| - 1]);
      if xs[|xs| - 1] > m then xs[|xs| - 1] else m
  }

  /** First index of the trailing window of at most `w` values ending at `i`
      (pandas `rolling(window=w, min_periods=1)`: shorter at the start). */
  function WindowStart(w: nat, i: nat): nat
  {
    if i + 1 < w then 0 else i + 1 - w
  }

  /** pandas `rolling(window=w, min_periods=1).min()` at index `i`. */
  function RollingMin(xs: seq<real>, w: nat, i: nat): real
    requires 1 <= w && i < |xs|
  {
    SeqMin(xs[WindowStart(w, i)..i + 1])
  }

  /** pandas `rolling(window=w, min_periods=1).max()` at index `i`. */
  function RollingMax(xs: seq<real>, w: nat, i: nat): real
    requires 1 <= w && i < |xs|
  {
    SeqMax(xs[WindowStart(w, i)..i + 1])
  }

  function Abs(x: real): real
  {
    if x < 0.0 then -x else x
  }

  function Max(a: real, b: real): real
  {
    if a >= b then a else b
  }

  function Min(a: real, b: real): real
  {
    if a <= b then a else b
  }
}
