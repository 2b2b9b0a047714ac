/** The regime classifiers of `StockTrendAnalyzer` (src/stock_analyzer.py):
    each reads indicator values at the latest bar (and, where the Python code
    looks back, at an earlier one) and picks one regime. */
module Classifiers {

  import opened Outcomes
  import opened Series
  import opened Regimes
  import Indicators

  // ---------------------------------------------------------------- trend

  /** `(hi - lo) / lo * 100`, or 0 when `lo` is not positive. */
  function Spread(hi: real, lo: real): (r: real)
    ensures lo > 0.0 ==> (r > 0.0 <==> hi > lo)
    ensures lo <= 0.0 ==> r == 0.0
  {
    if lo > 0.0 then
      assert (hi - lo) / lo > 0.0 <==> hi - lo > 0.0;
      (hi - lo) / lo * 100.0
    else 0.0
  }

  /** The earlier MA5-over-MA20 spread in the bullish branch. A missing
      earlier MA20 (NaN in pandas) fails the `> 0` test, so the spread is 0. */
  function BullPrevSpread(prevMa5: real, prevMa20: Option<real>): real
  {
    if prevMa20.Some? then Spread(prevMa5, prevMa20.value) else 0.0
  }

  /** The earlier MA20-over-MA5 spread in the bearish branch. With a positive
      earlier MA5 and a missing earlier MA20 the spread is NaN, here `None`. */
  function BearPrevSpread(prevMa5: real, prevMa20: Option<real>): Option<real>
  {
    if prevMa5 > 0.0 then
      (if prevMa20.Some? then Some(Spread(prevMa20.value, prevMa5)) else None)
    else Some(0.0)
  }

  /** `curr > prev and curr > 5`; any comparison with NaN is false. */
  predicate Widening(curr: real, prev: Option<real>)
  {
    prev.Some? && curr > prev.value && curr > 5.0
  }

  /** `_analyze_trend`. `prevMa5`/`prevMa20` are the averages four bars back
      (`df.iloc[-5]`); the earlier MA20 is missing while fewer than 24 bars exist. */
  function ClassifyTrend(ma5: real, ma10: real, ma20: real, prevMa5: real, prevMa20: Option<real>): (r: TrendStatus)
    ensures r.IsBullish() <==> ma5 > ma10 > ma20
    ensures r == WeakBull <==> ma5 > ma10 && ma10 <= ma20
    ensures r.IsBearish() <==> ma5 < ma10 < ma20
    ensures r == WeakBear <==> ma5 < ma10 && ma10 >= ma20
    ensures r == Consolidation <==> ma5 == ma10
    ensures r == StrongBull ==> ma20 > 0.0 && (ma5 - ma20) / ma20 * 100.0 > 5.0
    ensures r == StrongBear ==> ma5 > 0.0 && (ma20 - ma5) / ma5 * 100.0 > 5.0
    ensures r == StrongBear ==> prevMa5 <= 0.0 || prevMa20.Some?
    ensures r == StrongBull <==>
      ma5 > ma10 > ma20 && Spread(ma5, ma20) > 5.0 && Spread(ma5, ma20) > BullPrevSpread(prevMa5, prevMa20)
    ensures r == StrongBear <==>
      ma5 < ma10 < ma20 && Spread(ma20, ma5) > 5.0 &&
      BearPrevSpread(prevMa5, prevMa20).Some? && Spread(ma20, ma5) > BearPrevSpread(prevMa5, prevMa20).value
  {
    if ma5 > ma10 > ma20 then
      if Widening(Spread(ma5, ma20), Some(BullPrevSpread(prevMa5, prevMa20))) then StrongBull else Bull
    else if ma5 > ma10 && ma10 <= ma20 then WeakBull
    else if ma5 < ma10 < ma20 then
      if Widening(Spread(ma20, ma5), BearPrevSpread(prevMa5, prevMa20)) then StrongBear else Bear
    else if ma5 < ma10 && ma10 >= ma20 then WeakBear
    else Consolidation
  }

  /** `trend_strength` for each status. */
  function TrendStrength(s: TrendStatus): (r: real)
    ensures 10.0 <= r <= 90.0
    ensures s.IsBullish() ==> r >= 75.0
    ensures s.IsBearish() ==> r <= 25.0
  {
    match s
    case StrongBull => 90.0
    case Bull => 75.0
    case WeakBull => 55.0
    case Consolidation => 50.0
    case WeakBear => 40.0
    case Bear => 25.0
    case StrongBear => 10.0
  }

  /** While the MA20 four bars back is undefined, a bullish alignment can be
      STRONG_BULL (its earlier spread counts as 0) but a bearish one with a
      positive earlier MA5 is never STRONG_BEAR (its earlier spread is NaN). */
  lemma MissingHistoryAsymmetry(ma5: real, ma10: real, ma20: real, prevMa5: real)
    requires prevMa5 > 0.0
    ensures ClassifyTrend(ma5, ma10, ma20, prevMa5, None) != StrongBear
    ensures ma5 > ma10 > ma20 > 0.0 && (ma5 - ma20) / ma20 * 100.0 > 5.0 ==>
      ClassifyTrend(ma5, ma10, ma20, prevMa5, None) == StrongBull
  {
  }

  // ---------------------------------------------------------------- bias

  /** `_calculate_bias`: percentage distance of the price from an average,
      left at 0 when the average is not positive. */
  function Bias(price: real, ma: real): (r: real)
    ensures ma > 0.0 ==> (r > 0.0 <==> price > ma) && (r < 0.0 <==> price < ma)
    ensures ma <= 0.0 ==> r == 0.0
  {
    if ma > 0.0 then
      assert (price - ma) / ma > 0.0 <==> price - ma > 0.0;
      assert (price - ma) / ma < 0.0 <==> price - ma < 0.0;
      (price - ma) / ma * 100.0
    else 0.0
  }

  // ---------------------------------------------------------------- volume

  datatype VolumeReading = VolumeReading(status: VolumeStatus, ratio: real)

  /** The numpy division `(close - prev) / prev * 100 > 0`. A zero previous
      close gives +inf, -inf or NaN, so only the sign of `close` matters then. */
  function PriceRose(close: real, prevClose: real): (r: bool)
    ensures prevClose > 0.0 ==> (r <==> close > prevClose)
    ensures prevClose < 0.0 ==> (r <==> close < prevClose)
    ensures prevClose == 0.0 ==> (r <==> close > 0.0)
  {
    if prevClose == 0.0 then close > 0.0
    else
      assert (close - prevClose) / prevClose > 0.0 <==>
        (prevClose > 0.0 && close > prevClose) || (prevClose < 0.0 && close < prevClose);
      (close - prevClose) / prevClose * 100.0 > 0.0
  }

  /** The five volumes before today (`iloc[-6:-1]`, fewer at the very start). */
  function PriorVolumes(volumes: seq<real>): (r: seq<real>)
    requires |volumes| >= 5
    ensures |r| == if |volumes| >= 6 then 5 else |volumes| - 1
    ensures forall k :: 0 <= k < |r| ==> r[k] == volumes[|volumes| - 1 - |r| + k]
  {
    volumes[(if |volumes| >= 6 then |volumes| - 6 else 0)..|volumes| - 1]
  }

  /** Today's volume over the prior five-day average, or 0 when that average
      is not positive. */
  function VolumeRatio(volumes: seq<real>): (r: real)
    requires |volumes| >= 5
    ensures Mean(PriorVolumes(volumes)) > 0.0 ==> r * Mean(PriorVolumes(volumes)) == volumes[|volumes| - 1]
    ensures Mean(PriorVolumes(volumes)) <= 0.0 ==> r == 0.0
    ensures volumes[|volumes| - 1] >= 0.0 ==> r >= 0.0
  {
    var avg := Mean(PriorVolumes(volumes));
    if avg > 0.0 then volumes[|volumes| - 1] / avg else 0.0
  }

  /** `_analyze_volume` with the heavy and shrink ratios of the configuration. */
  function ClassifyVolume(volumes: seq<real>, closes: seq<real>, heavy: real, shrink: real): (r: VolumeReading)
    requires |volumes| == |closes|
    ensures |closes| < 5 ==> r == VolumeReading(NormalVolume, 0.0)
    ensures |closes| >= 5 ==> r.ratio == VolumeRatio(volumes)
    ensures |closes| >= 5 ==>
      (r.status in {HeavyVolumeUp, HeavyVolumeDown} <==> r.ratio >= heavy)
    ensures |closes| >= 5 ==>
      (r.status in {ShrinkVolumeUp, ShrinkVolumeDown} <==> r.ratio < heavy && r.ratio <= shrink)
    ensures |closes| >= 5 && r.status != NormalVolume ==>
      (r.status in {HeavyVolumeUp, ShrinkVolumeUp} <==> PriceRose(closes[|closes| - 1], closes[|closes| - 2]))
  {
    var n := |closes|;
    if n < 5 then VolumeReading(NormalVolume, 0.0)
    else
      var ratio := VolumeRatio(volumes);
      var up := PriceRose(closes[n - 1], closes[n - 2]);
      var status :=
        if ratio >= heavy then (if up then HeavyVolumeUp else HeavyVolumeDown)
        else if ratio <= shrink then (if up then ShrinkVolumeUp else ShrinkVolumeDown)
        else NormalVolume;
      VolumeReading(status, ratio)
  }

  // ---------------------------------------------------------------- support and resistance

  /** `MA_SUPPORT_TOLERANCE`, 2%. */
  const SupportTolerance: real := 0.02

  /** `abs(price - ma) / ma <= 0.02 and price >= ma`, for a positive average. */
  predicate NearSupport(price: real, ma: real)
  {
    ma > 0.0 && Abs(price - ma) / ma <= SupportTolerance && price >= ma
  }

  /** The support test means: the price sits at or above the average by at most 2%. */
  lemma NearSupportMeaning(price: real, ma: real)
    ensures NearSupport(price, ma) <==> ma > 0.0 && ma <= price <= 1.02 * ma
  {
    if ma > 0.0 && price >= ma {
      assert Abs(price - ma) == price - ma;
      assert (price - ma) / ma <= SupportTolerance <==> price - ma <= SupportTolerance * ma;
    }
  }

  datatype SupportReading = SupportReading(supportMa5: bool, supportMa10: bool, supports: seq<real>, resistances: seq<real>)

  /** A level that is listed only when its condition holds. */
  function Guarded(holds: bool, level: real): seq<real>
  {
    if holds then [level] else []
  }

  /** The support levels of `_analyze_support_resistance`: MA5 and MA10 when
      the price sits within 2% above them (MA10 not repeated when it equals a
      listed MA5), then MA20 whenever the price is at or above it. */
  function SupportLevels(price: real, ma5: real, ma10: real, ma20: real): (r: seq<real>)
    ensures var s5 := ma5 > 0.0 && ma5 <= price <= 1.02 * ma5;
            var s10 := ma10 > 0.0 && ma10 <= price <= 1.02 * ma10;
      r == Guarded(s5, ma5) + Guarded(s10 && !(s5 && ma10 == ma5), ma10) + Guarded(ma20 > 0.0 && price >= ma20, ma20)
    ensures forall k :: 0 <= k < |r| ==> 0.0 < r[k] <= price
    ensures |r| <= 3
  {
    NearSupportMeaning(price, ma5);
    NearSupportMeaning(price, ma10);
    var s5 := NearSupport(price, ma5);
    var s10 := NearSupport(price, ma10);
    var levels5 := if s5 then [ma5] else [];
    var levels10 := if s10 && ma10 !in levels5 then levels5 + [ma10] else levels5;
    assert levels10 == Guarded(s5, ma5) + Guarded(s10 && !(s5 && ma10 == ma5), ma10);
    if ma20 > 0.0 && price >= ma20 then levels10 + [ma20] else levels10
  }

  /** `_analyze_support_resistance`: the supports above, and the 20-bar high
      as resistance when it is above the price. */
  function AnalyzeSupport(price: real, ma5: real, ma10: real, ma20: real, highs: seq<real>): (r: SupportReading)
    ensures r.supportMa5 <==> ma5 > 0.0 && ma5 <= price <= 1.02 * ma5
    ensures r.supportMa10 <==> ma10 > 0.0 && ma10 <= price <= 1.02 * ma10
    ensures r.supports == SupportLevels(price, ma5, ma10, ma20)
    ensures forall k :: 0 <= k < |r.resistances| ==> r.resistances[k] > price
    ensures |r.resistances| <= 1
    ensures |r.resistances| == 1 <==> |highs| >= 20 && SeqMax(highs[|highs| - 20..]) > price
    ensures |r.resistances| == 1 ==> |highs| >= 20 && r.resistances[0] == SeqMax(highs[|highs| - 20..])
  {
    NearSupportMeaning(price, ma5);
    NearSupportMeaning(price, ma10);
    var resist :=
      if |highs| >= 20 && SeqMax(highs[|highs| - 20..]) > price then [SeqMax(highs[|highs| - 20..])] else [];
    SupportReading(NearSupport(price, ma5), NearSupport(price, ma10), SupportLevels(price, ma5, ma10, ma20), resist)
  }

  /** Which levels are supports: each listed MA holds, MA5 comes first and
      MA20 last when they are listed. */
  lemma SupportLevelsFacts(price: real, ma5: real, ma10: real, ma20: real)
    ensures var r := SupportLevels(price, ma5, ma10, ma20);
            var s5 := ma5 > 0.0 && ma5 <= price <= 1.02 * ma5;
            var s10 := ma10 > 0.0 && ma10 <= price <= 1.02 * ma10;
      && (s5 ==> ma5 in r && r[0] == ma5)
      && (s10 ==> ma10 in r)
      && (ma20 > 0.0 && price >= ma20 ==> ma20 in r && r[|r| - 1] == ma20)
      && (forall v :: v in r ==> (s5 && v == ma5) || (s10 && v == ma10) || (ma20 > 0.0 && price >= ma20 && v == ma20))
  {
  }

  // ---------------------------------------------------------------- MACD

  /** DIF crosses above DEA between the two bars. */
  predicate DifCrossesAbove(prevDif: real, prevDea: real, dif: real, dea: real)
  {
    prevDif - prevDea <= 0.0 && dif - dea > 0.0
  }

  /** DIF crosses below DEA between the two bars. */
  predicate DifCrossesBelow(prevDif: real, prevDea: real, dif: real, dea: real)
  {
    prevDif - prevDea >= 0.0 && dif - dea < 0.0
  }

  predicate ZeroCrossUp(prevDif: real, dif: real)
  {
    prevDif <= 0.0 && dif > 0.0
  }

  predicate ZeroCrossDown(prevDif: real, dif: real)
  {
    prevDif >= 0.0 && dif < 0.0
  }

  /** The priority chain of `_analyze_macd`, stated per outcome: each status
      holds exactly when its own event happens and no earlier one does. */
  function ClassifyMacd(prevDif: real, prevDea: real, dif: real, dea: real): (r: MacdStatus)
    ensures r == GoldenCrossZero <==> DifCrossesAbove(prevDif, prevDea, dif, dea) && dif > 0.0
    ensures r == CrossingUp <==> ZeroCrossUp(prevDif, dif) && !DifCrossesAbove(prevDif, prevDea, dif, dea)
    ensures r == GoldenCross <==> DifCrossesAbove(prevDif, prevDea, dif, dea) && dif <= 0.0
    ensures r == DeathCross <==> DifCrossesBelow(prevDif, prevDea, dif, dea) && !ZeroCrossUp(prevDif, dif)
    ensures r == CrossingDown <==>
      ZeroCrossDown(prevDif, dif) && !DifCrossesAbove(prevDif, prevDea, dif, dea) && !DifCrossesBelow(prevDif, prevDea, dif, dea)
    ensures r == MacdBearish <==>
      !DifCrossesAbove(prevDif, prevDea, dif, dea) && !DifCrossesBelow(prevDif, prevDea, dif, dea) &&
      !ZeroCrossUp(prevDif, dif) && !ZeroCrossDown(prevDif, dif) && dif < 0.0 && dea < 0.0
  {
    var golden := DifCrossesAbove(prevDif, prevDea, dif, dea);
    var death := DifCrossesBelow(prevDif, prevDea, dif, dea);
    if golden && dif > 0.0 then GoldenCrossZero
    else if ZeroCrossUp(prevDif, dif) then CrossingUp
    else if golden then GoldenCross
    else if death then DeathCross
    else if ZeroCrossDown(prevDif, dif) then CrossingDown
    else if dif > 0.0 && dea > 0.0 then MacdBullish
    else if dif < 0.0 && dea < 0.0 then MacdBearish
    else MacdBullish
  }

  /** `MACD_SLOW`: the class constant, not the configured slow span. */
  const MacdMinBars: nat := 26

  /** The MACD fields of the result; `insufficient` stands for the signal text "数据不足". */
  datatype MacdReading = MacdReading(status: MacdStatus, dif: real, dea: real, bar: real, insufficient: bool)

  /** `_analyze_macd` over the DIF and DEA series. */
  function ReadMacd(difs: seq<real>, deas: seq<real>): (r: MacdReading)
    requires |difs| == |deas|
    ensures |difs| < MacdMinBars <==> r.insufficient
    ensures r.insufficient ==> r == MacdReading(MacdBullish, 0.0, 0.0, 0.0, true)
    ensures !r.insufficient ==>
      var n := |difs|;
      r.dif == difs[n - 1] && r.dea == deas[n - 1] &&
      r.bar == Indicators.MacdBar(difs[n - 1], deas[n - 1]) &&
      r.status == ClassifyMacd(difs[n - 2], deas[n - 2], difs[n - 1], deas[n - 1])
  {
    var n := |difs|;
    if n < MacdMinBars then MacdReading(MacdBullish, 0.0, 0.0, 0.0, true)
    else
      MacdReading(ClassifyMacd(difs[n - 2], deas[n - 2], difs[n - 1], deas[n - 1]),
                  difs[n - 1], deas[n - 1], Indicators.MacdBar(difs[n - 1], deas[n - 1]), false)
  }

  // ---------------------------------------------------------------- RSI

  /** `_analyze_rsi`'s banding of the middle RSI; 60 and 40 are fixed, the
      outer bounds come from the configuration. */
  function ClassifyRsi(rsi: real, overbought: real, oversold: real): (r: RsiStatus)
    ensures r == Overbought <==> rsi > overbought
    ensures r == RsiStrongBuy <==> 60.0 < rsi <= overbought
    ensures r == RsiNeutral <==> 40.0 <= rsi <= 60.0 && rsi <= overbought
    ensures r == RsiWeak <==> oversold <= rsi < 40.0 && rsi <= overbought
    ensures r == Oversold <==> rsi < oversold && rsi < 40.0 && rsi <= overbought
  {
    if rsi > overbought then Overbought
    else if rsi > 60.0 then RsiStrongBuy
    else if rsi >= 40.0 then RsiNeutral
    else if rsi >= oversold then RsiWeak
    else Oversold
  }

  /** A higher RSI never lands in a lower band, whatever the thresholds. */
  lemma RsiBandMonotone(x: real, y: real, overbought: real, oversold: real)
    requires x <= y
    ensures ClassifyRsi(x, overbought, oversold).Band() <= ClassifyRsi(y, overbought, oversold).Band()
  {
  }

  /** The RSI fields of the result; `insufficient` stands for "数据不足". */
  datatype RsiReading = RsiReading(rsiShort: real, rsiMid: real, rsiLong: real, status: RsiStatus, insufficient: bool)

  /** The configured period at `k`, or its default when the list is shorter. */
  function PeriodAt(periods: seq<nat>, k: nat, default: nat): nat
  {
    if k < |periods| then periods[k] else default
  }

  /** The longest window `_analyze_rsi` waits for: the last period, or 24. */
  function LongestPeriod(periods: seq<nat>): nat
  {
    if |periods| > 0 then periods[|periods| - 1] else 24
  }

  /** `_analyze_rsi`. RSI columns exist only for the configured periods, so a
      defaulted period that is not configured is a missing column (KeyError). */
  function ReadRsi(closes: seq<real>, periods: seq<nat>, overbought: real, oversold: real): (r: Result<RsiReading>)
    requires |closes| > 0
    ensures |closes| < LongestPeriod(periods) ==> r == Ok(RsiReading(0.0, 0.0, 0.0, RsiNeutral, true))
    ensures r.Err? <==>
      |closes| >= LongestPeriod(periods) &&
      (PeriodAt(periods, 0, 6) !in periods || PeriodAt(periods, 1, 12) !in periods || PeriodAt(periods, 2, 24) !in periods)
    ensures |periods| >= 3 ==> r.Ok?
    ensures r.Ok? ==> 0.0 <= r.value.rsiShort <= 100.0 && 0.0 <= r.value.rsiMid <= 100.0 && 0.0 <= r.value.rsiLong <= 100.0
    ensures r.Ok? && !r.value.insufficient ==>
      r.value.status == ClassifyRsi(r.value.rsiMid, overbought, oversold) &&
      r.value.rsiMid == Indicators.Rsi(closes, PeriodAt(periods, 1, 12), |closes| - 1)
  {
    var n := |closes|;
    if n < LongestPeriod(periods) then Ok(RsiReading(0.0, 0.0, 0.0, RsiNeutral, true))
    else
      var p1 := PeriodAt(periods, 0, 6);
      var p2 := PeriodAt(periods, 1, 12);
      var p3 := PeriodAt(periods, 2, 24);
      if p1 !in periods || p2 !in periods || p3 !in periods then Err("KeyError")
      else
        var mid := Indicators.Rsi(closes, p2, n - 1);
        Ok(RsiReading(Indicators.Rsi(closes, p1, n - 1), mid, Indicators.Rsi(closes, p3, n - 1),
                      ClassifyRsi(mid, overbought, oversold), false))
  }

  // ---------------------------------------------------------------- Bollinger

  /** `_analyze_bollinger` on the band values of the latest bar. */
  function ClassifyBollinger(price: real, upper: real, lower: real): (r: BollPosition)
    ensures upper <= 0.0 || lower <= 0.0 ==> r == NearMiddle
    ensures upper > 0.0 && lower > 0.0 ==> (r == UpperBreakout <==> price > upper)
    ensures upper > 0.0 && lower > 0.0 && r == NearMiddle ==> lower < price < upper
  {
    if upper <= 0.0 || lower <= 0.0 then NearMiddle
    else
      var width := Max(upper - lower, 0.000001);
      if price > upper then UpperBreakout
      else if price >= upper - width * 0.1 then UpperPressure
      else if price < lower then LowerBreakdown
      else if price <= lower + width * 0.1 then LowerSupport
      else NearMiddle
  }

  /** For positive bands at least 1e-6 apart the edges mean what they say:
      below the lower band is a breakdown, and each "near" zone is the outer
      tenth of the band on its side. */
  lemma BollingerZones(price: real, upper: real, lower: real)
    requires 0.0 < lower && upper - lower >= 0.000001
    ensures ClassifyBollinger(price, upper, lower) == LowerBreakdown <==> price < lower
    ensures ClassifyBollinger(price, upper, lower) == UpperPressure <==>
      upper - (upper - lower) * 0.1 <= price <= upper
    ensures ClassifyBollinger(price, upper, lower) == LowerSupport <==>
      lower <= price <= lower + (upper - lower) * 0.1
  {
    assert Max(upper - lower, 0.000001) == upper - lower;
  }

  // ---------------------------------------------------------------- KDJ

  /** `_analyze_kdj` from the K and D of the previous and the latest bar. */
  function ClassifyKdj(n: nat, prevK: real, prevD: real, k: real, d: real): (r: KdjStatus)
    ensures n < 2 ==> r == KdjNeutral
    ensures n >= 2 ==> (r in {LowGoldenCross, KdjGoldenCross} <==> prevK <= prevD && k > d)
    ensures n >= 2 ==> (r == LowGoldenCross <==> prevK <= prevD && k > d && k < 30.0)
    ensures n >= 2 ==> (r in {HighDeathCross, KdjDeathCross} <==> prevK >= prevD && k < d)
    ensures n >= 2 ==> (r == HighDeathCross <==> prevK >= prevD && k < d && k > 70.0)
    ensures r == KdjOverbought ==> k > 80.0 && d > 80.0
    ensures r == KdjOversold ==> k < 20.0 && d < 20.0
    ensures n >= 2 ==> (r == KdjOverbought <==>
      !(prevK <= prevD && k > d) && !(prevK >= prevD && k < d) && k > 80.0 && d > 80.0)
    ensures n >= 2 ==> (r == KdjOversold <==>
      !(prevK <= prevD && k > d) && !(prevK >= prevD && k < d) && k < 20.0 && d < 20.0)
    ensures n >= 2 ==> (r == KdjNeutral <==>
      && !(prevK <= prevD && k > d) && !(prevK >= prevD && k < d)
      && !(k > 80.0 && d > 80.0) && !(k < 20.0 && d < 20.0))
  {
    if n < 2 then KdjNeutral
    else
      var golden := prevK <= prevD && k > d;
      var death := prevK >= prevD && k < d;
      if golden && k < 30.0 then LowGoldenCross
      else if golden then KdjGoldenCross
      else if death && k > 70.0 then HighDeathCross
      else if death then KdjDeathCross
      else if k > 80.0 && d > 80.0 then KdjOverbought
      else if k < 20.0 && d < 20.0 then KdjOversold
      else KdjNeutral
  }

  // ---------------------------------------------------------------- OBV

  /** `_analyze_obv`: OBV and close now against five bars earlier. */
  function ClassifyObv(obvs: seq<real>, closes: seq<real>): (r: ObvTrend)
    requires |obvs| == |closes|
    ensures r == ObvNeutral <==> |closes| < 6
    ensures |closes| >= 6 ==>
      (r in {BothRising, VolumeUpPriceWeak} <==> obvs[|obvs| - 1] > obvs[|obvs| - 6])
    ensures |closes| >= 6 ==>
      (r in {BothRising, PriceUpVolumeWeak} <==> closes[|closes| - 1] > closes[|closes| - 6])
  {
    var n := |closes|;
    if n < 6 then ObvNeutral
    else
      var obvUp := obvs[n - 1] > obvs[n - 6];
      var priceUp := closes[n - 1] > closes[n - 6];
      if obvUp && priceUp then BothRising
      else if obvUp then VolumeUpPriceWeak
      else if priceUp then PriceUpVolumeWeak
      else BothWeak
  }
}
