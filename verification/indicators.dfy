/** The indicator engine of `StockTrendAnalyzer` (src/stock_analyzer.py):
    moving averages, MACD, RSI, ATR, KDJ and OBV, each as a value per bar of a
    date-sorted price series. Prices are exact reals; where pandas would
    produce NaN the model says so with `Option` or with the constant pandas'
    `fillna` substitutes. */
module Indicators {

  import opened Outcomes
  import opened Series

  /** One daily (or intraday) bar; the series is already sorted by date. */
  datatype Bar = Bar(open: real, high: real, low: real, close: real, volume: real)

  /** A bar whose close lies within its own low/high range. */
  predicate Consistent(b: Bar)
  {
    b.low <= b.close <= b.high
  }

  function Closes(bars: seq<Bar>): (r: seq<real>)
    ensures |r| == |bars|
    ensures forall i :: 0 <= i < |bars| ==> r[i] == bars[i].close
  {
    seq(|bars|, i requires 0 <= i < |bars| => bars[i].close)
  }

  function Highs(bars: seq<Bar>): (r: seq<real>)
    ensures |r| == |bars|
    ensures forall i :: 0 <= i < |bars| ==> r[i] == bars[i].high
  {
    seq(|bars|, i requires 0 <= i < |bars| => bars[i].high)
  }

  function Lows(bars: seq<Bar>): (r: seq<real>)
    ensures |r| == |bars|
    ensures forall i :: 0 <= i < |bars| ==> r[i] == bars[i].low
  {
    seq(|bars|, i requires 0 <= i < |bars| => bars[i].low)
  }

  function Volumes(bars: seq<Bar>): (r: seq<real>)
    ensures |r| == |bars|
    ensures forall i :: 0 <= i < |bars| ==> r[i] == bars[i].volume
  {
    seq(|bars|, i requires 0 <= i < |bars| => bars[i].volume)
  }

  // ---------------------------------------------------------------- moving averages

  /** The four moving averages at the latest bar (`_calculate_mas`). */
  datatype MaSnapshot = MaSnapshot(ma5: real, ma10: real, ma20: real, ma60: real)

  /** `_calculate_mas` read at the last bar: MA5/10/20 are full-window means;
      MA60 falls back to the MA20 value when fewer than 60 bars exist. */
  function LatestMas(closes: seq<real>): (r: MaSnapshot)
    requires |closes| >= 20
    ensures r.ma60 == if |closes| >= 60 then Mean(closes[|closes| - 60..]) else r.ma20
    ensures r.ma5 == Mean(closes[|closes| - 5..])
    ensures r.ma10 == Mean(closes[|closes| - 10..])
    ensures r.ma20 == Mean(closes[|closes| - 20..])
  {
    var last := |closes| - 1;
    assert Window(closes, 5, last) == closes[|closes| - 5..];
    assert Window(closes, 10, last) == closes[|closes| - 10..];
    assert Window(closes, 20, last) == closes[|closes| - 20..];
    assert |closes| >= 60 ==> Window(closes, 60, last) == closes[|closes| - 60..];
    var ma20 := RollingMean(closes, 20, last).value;
    MaSnapshot(
      RollingMean(closes, 5, last).value,
      RollingMean(closes, 10, last).value,
      ma20,
      if |closes| >= 60 then RollingMean(closes, 60, last).value else ma20)
  }

  // ---------------------------------------------------------------- exponential averages

  /** pandas `ewm(alpha=a, adjust=False).mean()`: seeded with the first value,
      then `y[i] = y[i-1] + a * (x[i] - y[i-1])`. */
  function Ema(xs: seq<real>, alpha: real, i: nat): real
    requires i < |xs|
    decreases i
  {
    if i == 0 then xs[0]
    else
      var prev := Ema(xs, alpha, i - 1);
      prev + alpha * (xs[i] - prev)
  }

  /** The smoothing factor of `ewm(span=s)`. */
  function SpanAlpha(span: real): (a: real)
    requires span >= 1.0
    ensures 0.0 < a <= 1.0
  {
    2.0 / (span + 1.0)
  }

  /** One smoothing step moves from `prev` toward `x` without passing it. */
  lemma StepWithin(prev: real, x: real, alpha: real, lo: real, hi: real)
    requires 0.0 <= alpha <= 1.0
    requires lo <= prev <= hi && lo <= x <= hi
    ensures lo <= prev + alpha * (x - prev) <= hi
  {
    var d := x - prev;
    var step := alpha * d;
    assert prev + alpha * (x - prev) == prev + step;
    var rest := (1.0 - alpha) * d;
    assert step + rest == d;
    if d >= 0.0 {
      assert rest >= 0.0;
      assert 0.0 <= step <= d;
    } else {
      assert rest <= 0.0;
      assert d <= step <= 0.0;
    }
    assert prev + d == x;
  }

  /** With a smoothing factor in [0, 1] each step is a convex combination, so
      the average never leaves the range of the values seen so far. */
  lemma {:induction false} EmaWithin(xs: seq<real>, alpha: real, i: nat, lo: real, hi: real)
    requires i < |xs|
    requires 0.0 <= alpha <= 1.0
    requires forall j :: 0 <= j <= i ==> lo <= xs[j] <= hi
    ensures lo <= Ema(xs, alpha, i) <= hi
    decreases i
  {
    if i > 0 {
      EmaWithin(xs, alpha, i - 1, lo, hi);
      StepWithin(Ema(xs, alpha, i - 1), xs[i], alpha, lo, hi);
    }
  }

  /** The whole exponential-average series in one pass. */
  method EmaSeries(xs: seq<real>, alpha: real) returns (ys: seq<real>)
    ensures |ys| == |xs|
    ensures forall i :: 0 <= i < |xs| ==> ys[i] == Ema(xs, alpha, i)
  {
    ys := [];
    var i := 0;
    while i < |xs|
      invariant 0 <= i <= |xs|
      invariant |ys| == i
      invariant forall j :: 0 <= j < i ==> ys[j] == Ema(xs, alpha, j)
    {
      var y := if i == 0 then xs[0] else ys[i - 1] + alpha * (xs[i] - ys[i - 1]);
      assert y == Ema(xs, alpha, i);
      ys := ys + [y];
      i := i + 1;
    }
  }

  // ---------------------------------------------------------------- MACD

  /** DIF = EMA(fast) - EMA(slow) of the closes at bar `i`. */
  function Dif(closes: seq<real>, fast: real, slow: real, i: nat): real
    requires i < |closes|
    requires fast >= 1.0 && slow >= 1.0
  {
    Ema(closes, SpanAlpha(fast), i) - Ema(closes, SpanAlpha(slow), i)
  }

  function DifSeries(closes: seq<real>, fast: real, slow: real): (r: seq<real>)
    requires fast >= 1.0 && slow >= 1.0
    ensures |r| == |closes|
    ensures forall i :: 0 <= i < |closes| ==> r[i] == Dif(closes, fast, slow, i)
  {
    seq(|closes|, i requires 0 <= i < |closes| => Dif(closes, fast, slow, i))
  }

  /** Both averages stay within the price range, so every DIF is at most
      the width of that range; a flat series has DIF 0 throughout. */
  lemma DifBounded(closes: seq<real>, fast: real, slow: real)
    requires fast >= 1.0 && slow >= 1.0
    ensures |closes| > 0 ==> forall i :: 0 <= i < |closes| ==>
      -(SeqMax(closes) - SeqMin(closes)) <= DifSeries(closes, fast, slow)[i] <= SeqMax(closes) - SeqMin(closes)
  {
    if |closes| > 0 {
      var lo, hi := SeqMin(closes), SeqMax(closes);
      forall i | 0 <= i < |closes|
        ensures -(hi - lo) <= Dif(closes, fast, slow, i) <= hi - lo
      {
        EmaWithin(closes, SpanAlpha(fast), i, lo, hi);
        EmaWithin(closes, SpanAlpha(slow), i, lo, hi);
      }
    }
  }

  /** DEA = EMA(DIF, signal) at bar `i`. */
  function Dea(closes: seq<real>, fast: real, slow: real, signal: real, i: nat): real
    requires i < |closes|
    requires fast >= 1.0 && slow >= 1.0 && signal >= 1.0
  {
    Ema(DifSeries(closes, fast, slow), SpanAlpha(signal), i)
  }

  function DeaSeries(closes: seq<real>, fast: real, slow: real, signal: real): (r: seq<real>)
    requires fast >= 1.0 && slow >= 1.0 && signal >= 1.0
    ensures |r| == |closes|
    ensures forall i :: 0 <= i < |closes| ==> r[i] == Dea(closes, fast, slow, signal, i)
  {
    seq(|closes|, i requires 0 <= i < |closes| => Dea(closes, fast, slow, signal, i))
  }

  /** DEA averages DIF values, so it keeps their bound. */
  lemma DeaBounded(closes: seq<real>, fast: real, slow: real, signal: real)
    requires fast >= 1.0 && slow >= 1.0 && signal >= 1.0
    ensures |closes| > 0 ==> forall i :: 0 <= i < |closes| ==>
      -(SeqMax(closes) - SeqMin(closes)) <= DeaSeries(closes, fast, slow, signal)[i] <= SeqMax(closes) - SeqMin(closes)
  {
    if |closes| > 0 {
      var w := SeqMax(closes) - SeqMin(closes);
      var difs := DifSeries(closes, fast, slow);
      DifBounded(closes, fast, slow);
      forall i | 0 <= i < |closes|
        ensures -w <= Dea(closes, fast, slow, signal, i) <= w
      {
        EmaWithin(difs, SpanAlpha(signal), i, -w, w);
      }
    }
  }

  /** BAR = (DIF - DEA) * 2. */
  function MacdBar(dif: real, dea: real): real
  {
    (dif - dea) * 2.0
  }

  /** A flat price series has no momentum: DIF, DEA and the bar are all zero. */
  lemma FlatPricesNoMacd(closes: seq<real>, c: real, fast: real, slow: real, signal: real, i: nat)
    requires i < |closes|
    requires forall j :: 0 <= j < |closes| ==> closes[j] == c
    requires fast >= 1.0 && slow >= 1.0 && signal >= 1.0
    ensures Dif(closes, fast, slow, i) == 0.0
    ensures Dea(closes, fast, slow, signal, i) == 0.0
    ensures MacdBar(Dif(closes, fast, slow, i), Dea(closes, fast, slow, signal, i)) == 0.0
  {
    EmaWithin(closes, SpanAlpha(fast), i, c, c);
    EmaWithin(closes, SpanAlpha(slow), i, c, c);
    var difs := DifSeries(closes, fast, slow);
    forall j | 0 <= j <= i
      ensures difs[j] == 0.0
    {
      EmaWithin(closes, SpanAlpha(fast), j, c, c);
      EmaWithin(closes, SpanAlpha(slow), j, c, c);
    }
    EmaWithin(difs, SpanAlpha(signal), i, 0.0, 0.0);
  }

  // ---------------------------------------------------------------- RSI

  /** `delta.where(delta > 0, 0)`: the first bar's NaN delta fails the test and becomes 0. */
  function Gain(closes: seq<real>, i: nat): real
    requires i < |closes|
  {
    if i == 0 then 0.0
    else if closes[i] - closes[i - 1] > 0.0 then closes[i] - closes[i - 1]
    else 0.0
  }

  /** `-delta.where(delta < 0, 0)`. */
  function Loss(closes: seq<real>, i: nat): real
    requires i < |closes|
  {
    if i == 0 then 0.0
    else if closes[i] - closes[i - 1] < 0.0 then closes[i - 1] - closes[i]
    else 0.0
  }

  function Gains(closes: seq<real>): (r: seq<real>)
    ensures |r| == |closes|
    ensures forall i :: 0 <= i < |closes| ==> r[i] == Gain(closes, i) && r[i] >= 0.0
  {
    seq(|closes|, i requires 0 <= i < |closes| => Gain(closes, i))
  }

  function Losses(closes: seq<real>): (r: seq<real>)
    ensures |r| == |closes|
    ensures forall i :: 0 <= i < |closes| ==> r[i] == Loss(closes, i) && r[i] >= 0.0
  {
    seq(|closes|, i requires 0 <= i < |closes| => Loss(closes, i))
  }

  /** Gain and loss split each day's change: both are 0 on the first bar;
      later, at most one is non-zero, the gain is the rise and the loss the
      fall, so their difference is the change itself. */
  lemma GainLossSplit(closes: seq<real>, i: nat)
    requires i < |closes|
    ensures i == 0 ==> Gains(closes)[i] == 0.0 && Losses(closes)[i] == 0.0
    ensures i > 0 ==> Gains(closes)[i] - Losses(closes)[i] == closes[i] - closes[i - 1]
    ensures Gains(closes)[i] == 0.0 || Losses(closes)[i] == 0.0
    ensures i > 0 ==> Gains(closes)[i] >= closes[i] - closes[i - 1] && Losses(closes)[i] >= closes[i - 1] - closes[i]
  {
  }

  lemma SumNonNegative(xs: seq<real>)
    requires forall i :: 0 <= i < |xs| ==> xs[i] >= 0.0
    ensures Sum(xs) >= 0.0
  {
    SumBounds(xs, 0.0, 0.0 + if |xs| == 0 then 0.0 else SeqMax(xs));
  }

  /** `100 - 100 / (1 + RS)` with RS = avgGain / avgLoss. */
  function RsiOfAverages(avgGain: real, avgLoss: real): (r: real)
    requires avgGain >= 0.0 && avgLoss > 0.0
    ensures 0.0 <= r < 100.0
    ensures r == 0.0 <==> avgGain == 0.0
  {
    var rs := avgGain / avgLoss;
    assert rs >= 0.0;
    assert rs == 0.0 <==> avgGain == 0.0;
    100.0 - 100.0 / (1.0 + rs)
  }

  /** RSI of `period` at bar `i` after `fillna(50)`. An incomplete (or
      zero-length) window and the 0/0 case are NaN and become 50; a window with
      gains but no losses divides by zero to +inf in pandas, so RS is infinite
      and RSI is 100. */
  function Rsi(closes: seq<real>, period: nat, i: nat): (r: real)
    requires i < |closes|
    ensures 0.0 <= r <= 100.0
    ensures period == 0 || i + 1 < period ==> r == 50.0
  {
    if period == 0 || i + 1 < period then 50.0
    else
      var avgGain := Mean(Window(Gains(closes), period, i));
      var avgLoss := Mean(Window(Losses(closes), period, i));
      WindowMeanNonNegative(Gains(closes), period, i);
      WindowMeanNonNegative(Losses(closes), period, i);
      if avgLoss == 0.0 then
        (if avgGain == 0.0 then 50.0 else 100.0)
      else
        RsiOfAverages(avgGain, avgLoss)
  }

  lemma WindowMeanNonNegative(xs: seq<real>, w: nat, i: nat)
    requires 1 <= w <= i + 1 <= |xs|
    requires forall j :: 0 <= j < |xs| ==> xs[j] >= 0.0
    ensures Mean(Window(xs, w, i)) >= 0.0
  {
    var win := Window(xs, w, i);
    SumNonNegative(win);
  }

  /** On a strictly rising series every complete window holds gains and no
      losses, so RSI is exactly 100 (not the neutral 50) once the window is
      full and reaches past the first bar. */
  lemma RisingSeriesRsi(closes: seq<real>, period: nat, i: nat)
    requires 1 <= period && i < |closes|
    requires forall j :: 0 < j < |closes| ==> closes[j - 1] < closes[j]
    requires i + 1 >= period && i >= 1
    ensures Rsi(closes, period, i) == 100.0
  {
    RisingWindowHasNoLoss(closes, period, i);
    RisingWindowGains(closes, period, i);
  }

  lemma RisingWindowHasNoLoss(closes: seq<real>, period: nat, i: nat)
    requires 1 <= period <= i + 1 <= |closes|
    requires forall j :: 0 < j < |closes| ==> closes[j - 1] < closes[j]
    ensures Mean(Window(Losses(closes), period, i)) == 0.0
  {
    var losses := Window(Losses(closes), period, i);
    forall k | 0 <= k < |losses|
      ensures losses[k] == 0.0
    {
      assert losses[k] == Loss(closes, i + 1 - period + k);
    }
    SumBounds(losses, 0.0, 0.0);
  }

  lemma RisingWindowGains(closes: seq<real>, period: nat, i: nat)
    requires 1 <= period <= i + 1 <= |closes| && i >= 1
    requires closes[i - 1] < closes[i]
    ensures Mean(Window(Gains(closes), period, i)) > 0.0
  {
    var gains := Window(Gains(closes), period, i);
    var last := |gains| - 1;
    assert gains[last] == Gain(closes, i) > 0.0;
    assert forall k :: 0 <= k < last ==> gains[..last][k] >= 0.0;
    SumNonNegative(gains[..last]);
    assert Sum(gains) == Sum(gains[..last]) + gains[last];
  }

  // ---------------------------------------------------------------- ATR

  /** True range: the first bar has no previous close and pandas' row-wise max
      skips the NaN terms, leaving high - low. */
  function TrueRange(bars: seq<Bar>, i: nat): real
    requires i < |bars|
  {
    var hl := bars[i].high - bars[i].low;
    if i == 0 then hl
    else
      var pc := bars[i - 1].close;
      Max(hl, Max(Abs(bars[i].high - pc), Abs(bars[i].low - pc)))
  }

  function TrueRanges(bars: seq<Bar>): (r: seq<real>)
    ensures |r| == |bars|
    ensures forall i :: 0 <= i < |bars| ==> r[i] == TrueRange(bars, i)
  {
    seq(|bars|, i requires 0 <= i < |bars| => TrueRange(bars, i))
  }

  /** The true range is the largest of the day's range and the two gaps to
      the previous close; the first bar has only its range. */
  lemma TrueRangeIsLargestMove(bars: seq<Bar>, i: nat)
    requires i < |bars|
    ensures TrueRanges(bars)[i] >= bars[i].high - bars[i].low
    ensures i == 0 ==> TrueRanges(bars)[i] == bars[i].high - bars[i].low
    ensures i > 0 ==>
      var pc := bars[i - 1].close;
      && TrueRanges(bars)[i] >= Abs(bars[i].high - pc) && TrueRanges(bars)[i] >= Abs(bars[i].low - pc)
      && TrueRanges(bars)[i] in {bars[i].high - bars[i].low, Abs(bars[i].high - pc), Abs(bars[i].low - pc)}
  {
  }

  const AtrPeriod: nat := 14

  /** ATR(14): the 14-bar mean of the true range, 0 while undefined. */
  function Atr(bars: seq<Bar>, i: nat): real
    requires i < |bars|
  {
    RollingMean(TrueRanges(bars), AtrPeriod, i).GetOr(0.0)
  }

  /** The true range is never negative once the bar's high is at least its low. */
  lemma AtrNonNegative(bars: seq<Bar>, i: nat)
    requires i < |bars|
    requires forall j :: 0 <= j < |bars| ==> bars[j].low <= bars[j].high
    ensures Atr(bars, i) >= 0.0
  {
    if i + 1 >= AtrPeriod {
      var trs := TrueRanges(bars);
      forall j | i + 1 - AtrPeriod <= j <= i
        ensures 0.0 <= trs[j]
      {
      }
      RollingMeanBounds(trs, AtrPeriod, i, 0.0, SeqMax(trs));
    }
  }

  // ---------------------------------------------------------------- KDJ

  /** `1e-9`, added to the range so that a flat window does not divide by zero. */
  const KdjEpsilon: real := 0.000000001

  /** RSV over the last (up to) 9 bars, `fillna(50)`. The denominator is zero
      only for bars whose low exceeds their high; the model takes 50 there. */
  function Rsv(bars: seq<Bar>, i: nat): real
    requires i < |bars|
  {
    var lowN := RollingMin(Lows(bars), 9, i);
    var highN := RollingMax(Highs(bars), 9, i);
    var denom := highN - lowN + KdjEpsilon;
    if denom == 0.0 then 50.0 else (bars[i].close - lowN) / denom * 100.0
  }

  function RsvSeries(bars: seq<Bar>): (r: seq<real>)
    ensures |r| == |bars|
    ensures forall i :: 0 <= i < |bars| ==> r[i] == Rsv(bars, i)
  {
    seq(|bars|, i requires 0 <= i < |bars| => Rsv(bars, i))
  }

  /** K = RSV smoothed with alpha 1/3. */
  function K(bars: seq<Bar>, i: nat): real
    requires i < |bars|
  {
    Ema(RsvSeries(bars), 1.0 / 3.0, i)
  }

  function KSeries(bars: seq<Bar>): (r: seq<real>)
    ensures |r| == |bars|
    ensures forall i :: 0 <= i < |bars| ==> r[i] == K(bars, i)
  {
    seq(|bars|, i requires 0 <= i < |bars| => K(bars, i))
  }

  /** D = K smoothed with alpha 1/3. */
  function D(bars: seq<Bar>, i: nat): real
    requires i < |bars|
  {
    Ema(KSeries(bars), 1.0 / 3.0, i)
  }

  /** J = 3K - 2D. */
  function J(bars: seq<Bar>, i: nat): real
    requires i < |bars|
  {
    3.0 * K(bars, i) - 2.0 * D(bars, i)
  }

  /** A bar's own low and high bracket the window extremes it belongs to. */
  lemma WindowExtremes(bars: seq<Bar>, i: nat)
    requires i < |bars|
    ensures RollingMin(Lows(bars), 9, i) <= bars[i].low
    ensures bars[i].high <= RollingMax(Highs(bars), 9, i)
  {
    var s := WindowStart(9, i);
    assert Lows(bars)[s..i + 1][i - s] == bars[i].low;
    assert Highs(bars)[s..i + 1][i - s] == bars[i].high;
  }

  lemma FractionBelowOne(num: real, denom: real)
    requires 0.0 <= num < denom
    ensures 0.0 <= num / denom * 100.0 < 100.0
  {
    assert num / denom < 1.0;
  }

  /** With every close inside its bar's range, RSV lies in [0, 100). */
  lemma RsvWithin(bars: seq<Bar>, i: nat)
    requires i < |bars|
    requires forall j :: 0 <= j < |bars| ==> Consistent(bars[j])
    ensures 0.0 <= Rsv(bars, i) < 100.0
  {
    WindowExtremes(bars, i);
    assert Consistent(bars[i]);
    var lowN := RollingMin(Lows(bars), 9, i);
    var highN := RollingMax(Highs(bars), 9, i);
    FractionBelowOne(bars[i].close - lowN, highN - lowN + KdjEpsilon);
  }

  /** The RSV column of consistent bars lies in [0, 100). */
  lemma RsvSeriesWithin(bars: seq<Bar>)
    requires forall j :: 0 <= j < |bars| ==> Consistent(bars[j])
    ensures forall i :: 0 <= i < |bars| ==> 0.0 <= RsvSeries(bars)[i] < 100.0
  {
    forall i | 0 <= i < |bars|
      ensures 0.0 <= Rsv(bars, i) < 100.0
    {
      RsvWithin(bars, i);
    }
  }

  /** The K column of consistent bars lies in [0, 100]: it averages RSVs. */
  lemma KSeriesWithin(bars: seq<Bar>)
    requires forall j :: 0 <= j < |bars| ==> Consistent(bars[j])
    ensures forall i :: 0 <= i < |bars| ==> 0.0 <= KSeries(bars)[i] <= 100.0
  {
    var rsv := RsvSeries(bars);
    RsvSeriesWithin(bars);
    forall i | 0 <= i < |bars|
      ensures 0.0 <= K(bars, i) <= 100.0
    {
      EmaWithin(rsv, 1.0 / 3.0, i, 0.0, 100.0);
    }
  }

  /** K and D stay within [0, 100] for consistent bars. */
  lemma KdWithin(bars: seq<Bar>, i: nat)
    requires i < |bars|
    requires forall j :: 0 <= j < |bars| ==> Consistent(bars[j])
    ensures 0.0 <= K(bars, i) <= 100.0
    ensures 0.0 <= D(bars, i) <= 100.0
  {
    var ks := KSeries(bars);
    KSeriesWithin(bars);
    EmaWithin(ks, 1.0 / 3.0, i, 0.0, 100.0);
  }

  // ---------------------------------------------------------------- OBV

  /** The sign pandas derives from the filled close difference: +1, -1 or 0. */
  function Direction(bars: seq<Bar>, i: nat): real
    requires i < |bars|
  {
    if i == 0 then 0.0
    else if bars[i].close > bars[i - 1].close then 1.0
    else if bars[i].close < bars[i - 1].close then -1.0
    else 0.0
  }

  /** `(volume * direction).cumsum()`: a running total of signed volume. */
  function Obv(bars: seq<Bar>, i: nat): real
    requires i < |bars|
  {
    Sum(seq(i + 1, j requires 0 <= j <= i => bars[j].volume * Direction(bars, j)))
  }

  /** The signed volume a bar adds to OBV: its volume when the close rose,
      minus it when the close fell, nothing otherwise. */
  function SignedVolume(bars: seq<Bar>, i: nat): real
    requires 0 < i < |bars|
  {
    if bars[i].close > bars[i - 1].close then bars[i].volume
    else if bars[i].close < bars[i - 1].close then -bars[i].volume
    else 0.0
  }

  /** The on-balance-volume recurrence: OBV starts at 0 and each bar adds its
      volume when the close rose, subtracts it when it fell. */
  lemma {:induction false} ObvRecurrence(bars: seq<Bar>, i: nat)
    requires i < |bars|
    ensures i == 0 ==> Obv(bars, i) == 0.0
    ensures i > 0 ==> Obv(bars, i) == Obv(bars, i - 1) + SignedVolume(bars, i)
  {
    var signed := seq(i + 1, j requires 0 <= j <= i => bars[j].volume * Direction(bars, j));
    if i > 0 {
      assert signed[..i] == seq(i, j requires 0 <= j <= i - 1 => bars[j].volume * Direction(bars, j));
    } else {
      assert signed[..0] == [];
      assert signed[0] == bars[0].volume * 0.0 == 0.0;
      assert Sum(signed) == Sum(signed[..0]) + signed[0];
    }
  }

  /** OBV over the whole series, accumulated in one pass. */
  method ObvSeries(bars: seq<Bar>) returns (obv: seq<real>)
    ensures |obv| == |bars|
    ensures forall i :: 0 <= i < |bars| ==> obv[i] == Obv(bars, i)
  {
    obv := [];
    var total := 0.0;
    var i := 0;
    while i < |bars|
      invariant 0 <= i <= |bars|
      invariant |obv| == i
      invariant forall j :: 0 <= j < i ==> obv[j] == Obv(bars, j)
      invariant i > 0 ==> total == Obv(bars, i - 1)
    {
      ObvRecurrence(bars, i);
      if i == 0 {
        total := 0.0;
      } else if bars[i].close > bars[i - 1].close {
        total := total + bars[i].volume;
      } else if bars[i].close < bars[i - 1].close {
        total := total - bars[i].volume;
      }
      obv := obv + [total];
      i := i + 1;
    }
  }
}
