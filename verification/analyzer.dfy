/** `StockTrendAnalyzer.analyze` (src/stock_analyzer.py): the indicators of
    the daily bars, the regime classifiers, the composite signal, the four
    post-filters, the trade plan and the evidence summary, in the order the
    Python method runs them. */
module Analyzer {

  import opened Outcomes
  import opened Series
  import opened Regimes
  import opened Indicators
  import opened Classifiers
  import opened Scoring
  import opened Filters
  import opened TradePlans
  import Evidence

  /** The tunables `analyze` reads through the `_get_*` accessors. */
  datatype AnalyzerParams = AnalyzerParams(
    biasThreshold: real,
    volumeShrink: real,
    volumeHeavy: real,
    rsiOverbought: real,
    rsiOversold: real,
    rsiPeriods: seq<int>,
    macdFast: int,
    macdSlow: int,
    macdSignal: int,
    maxPosition: real,
    maxSinglePosition: real)

  /** The class attributes used when no rule configuration is loaded. */
  const DefaultParams: AnalyzerParams := AnalyzerParams(
    5.0, 0.7, 1.5, 70.0, 30.0, [6, 12, 24], 12, 26, 9,
    DefaultMaxPosition, DefaultMaxSinglePosition)

  /** Fewer bars than this and `analyze` returns the empty result. */
  const MinimumBars: nat := 20

  /** Bollinger band width in standard deviations (`BOLL_STD`). */
  const BollingerWidth: real := 2.0

  /** `TrendAnalysisResult`, with the display-only texts left out. */
  datatype AnalysisResult = AnalysisResult(
    code: string,
    price: real,
    mas: MaSnapshot,
    trend: TrendStatus,
    trendStrength: real,
    biasMa5: real,
    biasMa10: real,
    biasMa20: real,
    volume: VolumeReading,
    support: SupportReading,
    macd: MacdReading,
    signalAge: int,
    signalValid: bool,
    rsi: RsiReading,
    atr: real,
    bollUpper: real,
    bollLower: real,
    boll: BollPosition,
    k: real,
    d: real,
    j: real,
    kdj: KdjStatus,
    obv: real,
    obvTrend: ObvTrend,
    verdict: Verdict,
    aligned: bool,
    flow: FlowReading,
    resonanceCount: nat,
    resonancePassed: bool,
    plan: TradePlan,
    evidence: Option<Evidence.EvidenceSummary>)

  /** The result `analyze` returns for missing or short data: every field at
      its default, WAIT with score 0 and the one "insufficient data" risk. */
  function ShortResult(code: string): (r: AnalysisResult)
    ensures r.verdict == Verdict(0, Wait, [], [InsufficientData])
    ensures r.evidence.None? && r.signalValid && !r.resonancePassed
  {
    AnalysisResult(code, 0.0, MaSnapshot(0.0, 0.0, 0.0, 0.0), Consolidation, 0.0, 0.0, 0.0, 0.0,
      VolumeReading(NormalVolume, 0.0), SupportReading(false, false, [], []),
      MacdReading(MacdBullish, 0.0, 0.0, 0.0, false), 0, true,
      RsiReading(0.0, 0.0, 0.0, RsiNeutral, false), 0.0, 0.0, 0.0, NearMiddle,
      0.0, 0.0, 0.0, KdjNeutral, 0.0, ObvNeutral,
      Verdict(0, Wait, [], [InsufficientData]), false, FlowReading(0.0, 0.0, 0.0), 0, false,
      TradePlan(0.0, 0.0, 0.0, 0.0, 0.0, 0.0), None)
  }

  /** pandas rejects an `ewm` span below 1. */
  predicate SpansValid(p: AnalyzerParams)
  {
    p.macdFast >= 1 && p.macdSlow >= 1 && p.macdSignal >= 1
  }

  /** pandas rejects a negative `rolling` window. */
  predicate WindowsValid(p: AnalyzerParams)
  {
    forall k :: 0 <= k < |p.rsiPeriods| ==> p.rsiPeriods[k] >= 0
  }

  /** The RSI windows, once known not to be negative. */
  function RsiWindows(p: AnalyzerParams): (r: seq<nat>)
    requires WindowsValid(p)
    ensures r == p.rsiPeriods
  {
    seq(|p.rsiPeriods|, k requires 0 <= k < |p.rsiPeriods| => p.rsiPeriods[k] as nat)
  }

  /** The RSI columns `_analyze_rsi` reads exist: each defaulted period is configured. */
  predicate RsiColumnsPresent(p: AnalyzerParams)
    requires WindowsValid(p)
  {
    var periods := RsiWindows(p);
    PeriodAt(periods, 0, 6) in periods
      && PeriodAt(periods, 1, 12) in periods
      && PeriodAt(periods, 2, 24) in periods
  }

  /** OBV at every bar. */
  function ObvValues(bars: seq<Bar>): (r: seq<real>)
    ensures |r| == |bars|
    ensures forall i :: 0 <= i < |bars| ==> r[i] == Obv(bars, i)
  {
    seq(|bars|, i requires 0 <= i < |bars| => Obv(bars, i))
  }

  /** The OBV column starts at 0 and each bar adds its signed volume. */
  lemma ObvValuesAccumulate(bars: seq<Bar>, i: nat)
    requires i < |bars|
    ensures i == 0 ==> ObvValues(bars)[i] == 0.0
    ensures i > 0 ==> ObvValues(bars)[i] == ObvValues(bars)[i - 1] + SignedVolume(bars, i)
  {
    ObvRecurrence(bars, i);
  }

  /** Everything `analyze` computes before `_generate_signal`, for at least 20 bars. */
  datatype Indications = Indications(
    price: real,
    mas: MaSnapshot,
    trend: TrendStatus,
    volume: VolumeReading,
    support: SupportReading,
    macd: MacdReading,
    signalAge: int,
    rsi: RsiReading,
    atr: real,
    bollUpper: real,
    bollLower: real,
    boll: BollPosition,
    k: real,
    d: real,
    j: real,
    kdj: KdjStatus,
    obvTrend: ObvTrend,
    obv: real)

  /** The MACD reading and the age of its latest golden cross. */
  function MacdOf(closes: seq<real>, p: AnalyzerParams): (MacdReading, int)
    requires SpansValid(p)
  {
    var difs := DifSeries(closes, p.macdFast as real, p.macdSlow as real);
    var deas := DeaSeries(closes, p.macdFast as real, p.macdSlow as real, p.macdSignal as real);
    (ReadMacd(difs, deas), SignalAge(difs, deas))
  }

  /** The latest K, D and J and the KDJ state. */
  function KdjOf(bars: seq<Bar>): (real, real, real, KdjStatus)
    requires |bars| >= 2
  {
    var n := |bars|;
    var k := K(bars, n - 1);
    var d := D(bars, n - 1);
    (k, d, J(bars, n - 1), ClassifyKdj(n, K(bars, n - 2), D(bars, n - 2), k, d))
  }

  /** The OBV trend and the latest OBV. */
  function ObvOf(bars: seq<Bar>): (ObvTrend, real)
    requires |bars| >= 1
  {
    (ClassifyObv(ObvValues(bars), Closes(bars)), Obv(bars, |bars| - 1))
  }

  /** Steps 1 to 9 of `analyze`. The trend looks back four bars (`iloc[-5]`);
      the sample standard deviation of the last 20 closes is an input. */
  function Indicate(bars: seq<Bar>, bollStd: real, p: AnalyzerParams, rsi: RsiReading): (r: Indications)
    requires |bars| >= MinimumBars && SpansValid(p)
    ensures r.price == bars[|bars| - 1].close
    ensures r.mas == LatestMas(Closes(bars))
    ensures r.trend == ClassifyTrend(r.mas.ma5, r.mas.ma10, r.mas.ma20,
      RollingMean(Closes(bars), 5, |bars| - 5).value, RollingMean(Closes(bars), 20, |bars| - 5))
    ensures r.rsi == rsi
    ensures r.bollUpper - r.mas.ma20 == r.mas.ma20 - r.bollLower == BollingerWidth * bollStd
    ensures bollStd >= 0.0 ==> r.bollLower <= r.mas.ma20 <= r.bollUpper
  {
    var n := |bars|;
    var closes := Closes(bars);
    var mas := LatestMas(closes);
    var trend := ClassifyTrend(mas.ma5, mas.ma10, mas.ma20,
      RollingMean(closes, 5, n - 5).value, RollingMean(closes, 20, n - 5));
    Complete(bars, bollStd, p, rsi, closes[n - 1], mas, trend)
  }

  /** The steps after the averages and the trend: volume, support, MACD,
      ATR, Bollinger, KDJ and OBV around the given price, MAs and trend. */
  function Complete(bars: seq<Bar>, bollStd: real, p: AnalyzerParams, rsi: RsiReading,
                    price: real, mas: MaSnapshot, trend: TrendStatus): (r: Indications)
    requires |bars| >= MinimumBars && SpansValid(p)
    ensures r.price == price && r.mas == mas && r.trend == trend && r.rsi == rsi
    ensures r.bollUpper == mas.ma20 + BollingerWidth * bollStd && r.bollLower == mas.ma20 - BollingerWidth * bollStd
  {
    var n := |bars|;
    var closes := Closes(bars);
    var (macd, age) := MacdOf(closes, p);
    var upper := mas.ma20 + BollingerWidth * bollStd;
    var lower := mas.ma20 - BollingerWidth * bollStd;
    var kdj := KdjOf(bars);
    Indications(
      price, mas, trend,
      ClassifyVolume(Volumes(bars), closes, p.volumeHeavy, p.volumeShrink),
      AnalyzeSupport(price, mas.ma5, mas.ma10, mas.ma20, Highs(bars)),
      macd,
      age,
      rsi,
      Atr(bars, n - 1),
      upper, lower, ClassifyBollinger(price, upper, lower),
      kdj.0, kdj.1, kdj.2, kdj.3,
      ObvOf(bars).0, ObvOf(bars).1)
  }

  /** What `_generate_signal` reads. */
  function ReadingsOf(x: Indications, p: AnalyzerParams): Readings
  {
    Readings(x.trend, Bias(x.price, x.mas.ma5), x.volume.status, x.support.supportMa5, x.support.supportMa10,
      x.macd, x.rsi, x.boll, x.kdj, x.obvTrend)
  }

  /** The verdict after the post-filters, with what the filters read. */
  datatype Decision = Decision(verdict: Verdict, aligned: bool, flow: FlowReading, count: nat)

  /** Steps 9 and 10: the signal from the indicators, then the timeframe
      bonus. The score grows by the capped 5 points exactly when the two
      timeframes align; the misalignment risk is written only when the
      30-minute series was usable. */
  function Signalled(x: Indications, intraday: Option<seq<real>>, p: AnalyzerParams): (r: Verdict)
    ensures 4 <= r.score <= 100
    ensures r.signal == GenerateSignal(ReadingsOf(x, p), p.biasThreshold).signal
    ensures r.score ==
      if TimeframeAlignment(intraday, x.trend) then AlignmentBonus(Score(ReadingsOf(x, p), p.biasThreshold))
      else Score(ReadingsOf(x, p), p.biasThreshold)
    ensures TimeframeAligned in r.reasons <==> TimeframeAlignment(intraday, x.trend)
    ensures TimeframeNotAligned in r.risks <==> IntradayUsable(intraday) && !TimeframeAlignment(intraday, x.trend)
  {
    var v0 := GenerateSignal(ReadingsOf(x, p), p.biasThreshold);
    assert !TimeframeAligned.FromIndicators() && !TimeframeNotAligned.FromIndicators();
    assert TimeframeAligned !in v0.reasons && TimeframeNotAligned !in v0.risks;
    ApplyTimeframe(v0, intraday, x.trend)
  }

  /** Steps 9 to 11: signal, timeframe, fund flows, resonance and decay. */
  function Decide(x: Indications, intraday: Option<seq<real>>, latest: map<string, real>,
                  p: AnalyzerParams): (r: Decision)
    ensures 4 <= r.verdict.score <= 100
    ensures r.verdict.signal == StrongBuy ==>
      r.count >= ResonanceMinimum && x.signalAge <= SignalExpiryDays && x.trend.IsBullish() && r.verdict.score >= 75
    ensures r.verdict.signal in {StrongBuy, Buy} ==> BuyableTrend(x.trend) && r.verdict.score >= 60
    ensures r.verdict.signal == StrongSell ==> x.trend.IsBearish() && r.verdict.score < 30
    ensures r.verdict.signal.Rank() <= GenerateSignal(ReadingsOf(x, p), p.biasThreshold).signal.Rank()
    ensures r.count <= 7
    ensures r.aligned <==> TimeframeAlignment(intraday, x.trend)
    ensures r.verdict.score ==
      if r.aligned then AlignmentBonus(Score(ReadingsOf(x, p), p.biasThreshold))
      else Score(ReadingsOf(x, p), p.biasThreshold)
    ensures TimeframeAligned in r.verdict.reasons <==> r.aligned
    ensures TimeframeNotAligned in r.verdict.risks <==> IntradayUsable(intraday) && !r.aligned
  {
    var aligned := TimeframeAlignment(intraday, x.trend);
    var v1 := Signalled(x, intraday, p);
    var flow := ApplyFundFlows(v1, latest).0;
    var v2 := ApplyFundFlows(v1, latest).1;
    var count := CountTrue(ResonanceSignals(x.trend, x.volume.status, x.macd.status, x.rsi.status, aligned, flow));
    var v3 := ApplyResonance(v2, count);
    var v4 := ApplyDecay(v3, x.signalAge);
    LaterStepsKeepTimeframe(v1, latest, count, x.signalAge);
    Decision(v4, aligned, flow, count)
  }

  /** Step 12: the trade plan and the evidence around the decision. */
  function Conclude(code: string, x: Indications, intraday: Option<seq<real>>, latest: map<string, real>,
                    p: AnalyzerParams): (r: AnalysisResult)
    ensures 4 <= r.verdict.score <= 100
    ensures r.verdict.signal == StrongBuy ==>
      r.resonancePassed && r.signalValid && x.trend.IsBullish() && r.verdict.score >= 75
    ensures r.verdict.signal in {StrongBuy, Buy} ==> BuyableTrend(x.trend) && r.verdict.score >= 60
    ensures r.verdict.signal == StrongSell ==> x.trend.IsBearish() && r.verdict.score < 30
    ensures r.verdict.signal.Rank() <= GenerateSignal(ReadingsOf(x, p), p.biasThreshold).signal.Rank()
    ensures r.resonanceCount <= 7 && (r.resonancePassed <==> r.resonanceCount >= ResonanceMinimum)
    ensures r.signalValid <==> x.signalAge <= SignalExpiryDays
    ensures r.aligned <==> TimeframeAlignment(intraday, x.trend)
    ensures r.verdict.score ==
      if r.aligned then AlignmentBonus(Score(ReadingsOf(x, p), p.biasThreshold))
      else Score(ReadingsOf(x, p), p.biasThreshold)
    ensures TimeframeAligned in r.verdict.reasons <==> r.aligned
    ensures TimeframeNotAligned in r.verdict.risks <==> IntradayUsable(intraday) && !r.aligned
    ensures r.plan.entry == x.price && r.plan.position <= 25.0
    ensures r.plan.position <= p.maxPosition && r.plan.position <= p.maxSinglePosition
    ensures x.price > 0.0 ==> r.plan.stop < r.plan.entry < r.plan.target
    ensures r.evidence.Some?
    ensures r.price == x.price && r.trend == x.trend && r.signalAge == x.signalAge
    ensures KeepsPromises(r)
  {
    var biasMa5 := Bias(x.price, x.mas.ma5);
    var decision := Decide(x, intraday, latest, p);
    var plan := BuildTradePlan(x.price, x.atr, decision.verdict.score, p.maxPosition, p.maxSinglePosition);
    var evidence := Evidence.GenerateEvidence(x.trend.Label(), biasMa5, x.volume.status.Label(),
      x.support.supportMa5, x.support.supportMa10, None);
    AnalysisResult(
      code, x.price, x.mas, x.trend, TrendStrength(x.trend),
      biasMa5, Bias(x.price, x.mas.ma10), Bias(x.price, x.mas.ma20),
      x.volume, x.support, x.macd, x.signalAge, x.signalAge <= SignalExpiryDays,
      x.rsi, x.atr, x.bollUpper, x.bollLower, x.boll, x.k, x.d, x.j, x.kdj, x.obv, x.obvTrend,
      decision.verdict, decision.aligned, decision.flow, decision.count, decision.count >= ResonanceMinimum,
      plan, Some(evidence))
  }

  /** The indicator steps of `analyze` on at least 20 bars: the MACD spans
      and the RSI windows must be valid for pandas, and the RSI columns the
      classifier reads must exist once the window is full. */
  function Prepare(bars: seq<Bar>, bollStd: real, p: AnalyzerParams): (r: Result<Indications>)
    requires |bars| >= MinimumBars
    ensures r.Err? <==>
      !SpansValid(p) || !WindowsValid(p) || (|bars| >= LongestPeriod(RsiWindows(p)) && !RsiColumnsPresent(p))
    ensures r.Ok? ==> r.value.price == bars[|bars| - 1].close
  {
    if !SpansValid(p) || !WindowsValid(p) then Err("ValueError")
    else
      var rsi := ReadRsi(Closes(bars), RsiWindows(p), p.rsiOverbought, p.rsiOversold);
      if rsi.Err? then Err(rsi.reason)
      else Ok(Indicate(bars, bollStd, p, rsi.value))
  }

  /** `analyze` on bars sorted by date. `intraday` holds the 30-minute closes,
      `latest` the extra columns of the last daily row (the fund-flow data). */
  function Analyze(code: string, bars: seq<Bar>, intraday: Option<seq<real>>, latest: map<string, real>,
                   bollStd: real, p: AnalyzerParams): (r: Result<AnalysisResult>)
    ensures |bars| < MinimumBars ==> r == Ok(ShortResult(code))
    ensures r.Err? <==> (|bars| >= MinimumBars &&
      (!SpansValid(p) || !WindowsValid(p) || (|bars| >= LongestPeriod(RsiWindows(p)) && !RsiColumnsPresent(p))))
    ensures r.Ok? && |bars| >= MinimumBars ==> r.value.price == bars[|bars| - 1].close
    ensures r.Ok? && |bars| >= MinimumBars ==>
      (r.value.aligned ==> IntradayUsable(intraday) && r.value.trend.IsBullish()) &&
      (TimeframeNotAligned in r.value.verdict.risks <==> IntradayUsable(intraday) && !r.value.aligned) &&
      (TimeframeAligned in r.value.verdict.reasons <==> r.value.aligned)
  {
    if |bars| < MinimumBars then Ok(ShortResult(code))
    else
      match Prepare(bars, bollStd, p)
      case Err(e) => Err(e)
      case Ok(x) => Ok(Conclude(code, x, intraday, latest, p))
  }

  /** What a full analysis promises: a strong buy passed resonance on a
      fresh signal in a bullish trend, a buy stands in a buyable trend, a
      strong sell in a bearish one, the score stays in range and the
      evidence is attached. */
  predicate KeepsPromises(a: AnalysisResult)
  {
    && 4 <= a.verdict.score <= 100
    && a.evidence.Some?
    && (a.verdict.signal == StrongBuy ==>
          a.resonancePassed && a.signalValid && a.trend.IsBullish() && a.verdict.score >= 75)
    && (a.verdict.signal in {StrongBuy, Buy} ==> BuyableTrend(a.trend) && a.verdict.score >= 60)
    && (a.verdict.signal == StrongSell ==> a.trend.IsBearish() && a.verdict.score < 30)
    && (a.resonancePassed <==> a.resonanceCount >= ResonanceMinimum)
    && (a.signalValid <==> a.signalAge <= SignalExpiryDays)
  }

  /** Every full analysis keeps those promises. */
  lemma AnalyzeSound(code: string, bars: seq<Bar>, intraday: Option<seq<real>>, latest: map<string, real>,
                     bollStd: real, p: AnalyzerParams)
    requires |bars| >= MinimumBars
    ensures var r := Analyze(code, bars, intraday, latest, bollStd, p);
      r.Ok? ==> KeepsPromises(r.value)
  {
  }

  /** With the built-in parameters `analyze` never fails. */
  lemma DefaultsNeverFail(code: string, bars: seq<Bar>, intraday: Option<seq<real>>, latest: map<string, real>,
                          bollStd: real)
    ensures Analyze(code, bars, intraday, latest, bollStd, DefaultParams).Ok?
  {
    assert WindowsValid(DefaultParams);
    assert RsiColumnsPresent(DefaultParams);
    assert SpansValid(DefaultParams);
  }
}
