/** The composite scorer `_generate_signal` (src/stock_analyzer.py): six
    fixed point tables add up to a 0-100 score, which together with the trend
    picks the buy signal. Reasons and risks are kept as structured notes
    rather than the formatted strings the Python code builds. */
module Scoring {

  import opened Regimes
  import opened Classifiers

  /** One line of `signal_reasons` or `risk_factors`, identified by what it
      reports; the numbers a message prints are carried where they matter. */
  datatype Note =
    | TrendNote(trend: TrendStatus)
    | BiasNote(points: int)
    | VolumeNote(volume: VolumeStatus)
    | SupportNote(period: nat)
    | MacdNote(macd: MacdStatus, macdInsufficient: bool)
    | RsiNote(rsi: RsiStatus, rsiInsufficient: bool)
    | BollingerNote(position: BollPosition)
    | KdjNote(kdj: KdjStatus)
    | ObvNote(obv: ObvTrend)
    | TimeframeAligned
    | TimeframeNotAligned
    | MainFundInflow
    | MainFundOutflow
    | NorthboundInflow
    | NorthboundOutflow
    | ResonanceShort(count: nat)
    | SignalDecayed(age: int)
    | InsufficientData
  {
    /** A note `_generate_signal` itself writes, as opposed to one a later
        filter appends. */
    predicate FromIndicators()
    {
      TrendNote? || BiasNote? || VolumeNote? || SupportNote? || MacdNote? || RsiNote?
        || BollingerNote? || KdjNote? || ObvNote?
    }
  }

  /** What `_generate_signal` reads from the analysis so far. */
  datatype Readings = Readings(
    trend: TrendStatus,
    biasMa5: real,
    volume: VolumeStatus,
    supportMa5: bool,
    supportMa10: bool,
    macd: MacdReading,
    rsi: RsiReading,
    boll: BollPosition,
    kdj: KdjStatus,
    obv: ObvTrend)

  /** The score, signal and notes an analysis carries from `_generate_signal` on. */
  datatype Verdict = Verdict(score: int, signal: BuySignal, reasons: seq<Note>, risks: seq<Note>)

  // ---------------------------------------------------------------- point tables

  /** Trend table, 30 points at most. */
  function TrendPoints(t: TrendStatus): (r: int)
    ensures 0 <= r <= 30
    ensures t.IsBullish() <==> r >= 26
    ensures t == StrongBear <==> r == 0
  {
    match t
    case StrongBull => 30
    case Bull => 26
    case WeakBull => 18
    case Consolidation => 12
    case WeakBear => 8
    case Bear => 4
    case StrongBear => 0
  }

  /** Bias table, 20 points at most: a small pull-back below MA5 scores best,
      anything at or above the configured threshold scores 4. */
  function BiasPoints(bias: real, threshold: real): (r: int)
    ensures 4 <= r <= 20
    ensures r == 20 <==> -3.0 < bias < 0.0
    ensures r == 18 <==> 0.0 <= bias < 2.0
    ensures r == 4 <==> bias >= 2.0 && bias >= threshold
    ensures r == 8 <==> bias <= -5.0
  {
    if bias < 0.0 then
      if bias > -3.0 then 20
      else if bias > -5.0 then 16
      else 8
    else if bias < 2.0 then 18
    else if bias < threshold then 14
    else 4
  }

  /** The bias bands whose message is a risk rather than a reason. */
  predicate BiasIsRisk(points: int)
  {
    points == 8 || points == 4
  }

  /** Volume table, 15 points at most. */
  function VolumePoints(v: VolumeStatus): (r: int)
    ensures 0 <= r <= 15
    ensures r == 15 <==> v == ShrinkVolumeDown
    ensures r == 0 <==> v == HeavyVolumeDown
  {
    match v
    case ShrinkVolumeDown => 15
    case HeavyVolumeUp => 12
    case NormalVolume => 10
    case ShrinkVolumeUp => 6
    case HeavyVolumeDown => 0
  }

  /** Support table: 5 points for each moving-average support. */
  function SupportPoints(ma5: bool, ma10: bool): (r: int)
    ensures 0 <= r <= 10
    ensures r == 0 <==> !ma5 && !ma10
  {
    (if ma5 then 5 else 0) + (if ma10 then 5 else 0)
  }

  /** MACD table, 15 points at most. */
  function MacdPoints(m: MacdStatus): (r: int)
    ensures 0 <= r <= 15
    ensures r == 0 <==> m in {DeathCross, CrossingDown}
  {
    match m
    case GoldenCrossZero => 15
    case GoldenCross => 12
    case CrossingUp => 10
    case MacdBullish => 8
    case MacdBearish => 2
    case CrossingDown => 0
    case DeathCross => 0
  }

  /** RSI table, 10 points at most. */
  function RsiPoints(s: RsiStatus): (r: int)
    ensures 0 <= r <= 10
    ensures r == 0 <==> s == Overbought
  {
    match s
    case Oversold => 10
    case RsiStrongBuy => 8
    case RsiNeutral => 5
    case RsiWeak => 3
    case Overbought => 0
  }

  /** The composite score. */
  function Score(x: Readings, biasThreshold: real): (r: int)
    ensures 4 <= r <= 100
  {
    TrendPoints(x.trend) + BiasPoints(x.biasMa5, biasThreshold) + VolumePoints(x.volume)
      + SupportPoints(x.supportMa5, x.supportMa10) + MacdPoints(x.macd.status) + RsiPoints(x.rsi.status)
  }

  /** The score reaches 100 exactly when every table gives its maximum. */
  lemma PerfectScore(x: Readings, biasThreshold: real)
    ensures Score(x, biasThreshold) == 100 <==>
      x.trend == StrongBull && -3.0 < x.biasMa5 < 0.0 && x.volume == ShrinkVolumeDown &&
      x.supportMa5 && x.supportMa10 && x.macd.status == GoldenCrossZero && x.rsi.status == Oversold
  {
  }

  // ---------------------------------------------------------------- signal

  /** Bullish-family trends for BUY: aligned, or MA5 above MA10 only. */
  predicate BuyableTrend(t: TrendStatus)
  {
    t.IsBullish() || t == WeakBull
  }

  /** The score-and-trend to signal mapping at the end of `_generate_signal`. */
  function MapSignal(score: int, t: TrendStatus): (r: BuySignal)
    ensures r == StrongBuy <==> score >= 75 && t.IsBullish()
    ensures r == Buy <==> score >= 60 && BuyableTrend(t) && !(score >= 75 && t.IsBullish())
    ensures r == Hold <==> score >= 45 && !(score >= 60 && BuyableTrend(t))
    ensures r == Wait <==> 30 <= score < 45
    ensures r == StrongSell <==> score < 30 && t.IsBearish()
    ensures r == Sell <==> score < 30 && !t.IsBearish()
  {
    if score >= 75 && t.IsBullish() then StrongBuy
    else if score >= 60 && BuyableTrend(t) then Buy
    else if score >= 45 then Hold
    else if score >= 30 then Wait
    else if t.IsBearish() then StrongSell
    else Sell
  }

  /** For a fixed trend a higher score never maps to a weaker signal. */
  lemma MapSignalMonotone(s1: int, s2: int, t: TrendStatus)
    requires s1 <= s2
    ensures MapSignal(s1, t).Rank() <= MapSignal(s2, t).Rank()
  {
  }

  // ---------------------------------------------------------------- notes

  function When(c: bool, n: Note): (r: seq<Note>)
    ensures c ==> r == [n]
    ensures !c ==> r == []
  {
    if c then [n] else []
  }

  predicate KdjFavourable(k: KdjStatus)
  {
    k in {LowGoldenCross, KdjGoldenCross, KdjOversold}
  }

  predicate KdjUnfavourable(k: KdjStatus)
  {
    k in {HighDeathCross, KdjDeathCross, KdjOverbought}
  }

  /** `signal_reasons` as `_generate_signal` writes it, in order. */
  function Reasons(x: Readings, biasPoints: int): seq<Note>
  {
    When(x.trend.IsBullish(), TrendNote(x.trend))
      + When(!BiasIsRisk(biasPoints), BiasNote(biasPoints))
      + When(x.volume == ShrinkVolumeDown, VolumeNote(x.volume))
      + When(x.supportMa5, SupportNote(5))
      + When(x.supportMa10, SupportNote(10))
      + When(x.macd.status !in {DeathCross, CrossingDown}, MacdNote(x.macd.status, x.macd.insufficient))
      + When(x.rsi.status != Overbought, RsiNote(x.rsi.status, x.rsi.insufficient))
      + When(x.boll in {LowerSupport, UpperBreakout}, BollingerNote(x.boll))
      + When(KdjFavourable(x.kdj), KdjNote(x.kdj))
      + When(x.obv in {BothRising, VolumeUpPriceWeak}, ObvNote(x.obv))
  }

  /** `risk_factors` as `_generate_signal` writes it, in order. */
  function Risks(x: Readings, biasPoints: int): seq<Note>
  {
    When(x.trend.IsBearish(), TrendNote(x.trend))
      + When(BiasIsRisk(biasPoints), BiasNote(biasPoints))
      + When(x.volume == HeavyVolumeDown, VolumeNote(x.volume))
      + When(x.macd.status in {DeathCross, CrossingDown}, MacdNote(x.macd.status, x.macd.insufficient))
      + When(x.rsi.status == Overbought, RsiNote(x.rsi.status, x.rsi.insufficient))
      + When(x.boll in {UpperPressure, LowerBreakdown}, BollingerNote(x.boll))
      + When(KdjUnfavourable(x.kdj), KdjNote(x.kdj))
      + When(x.obv in {PriceUpVolumeWeak, BothWeak}, ObvNote(x.obv))
  }

  /** `_generate_signal`: score, signal, and fresh reason and risk lists. */
  function GenerateSignal(x: Readings, biasThreshold: real): (r: Verdict)
    ensures r.score == Score(x, biasThreshold)
    ensures 4 <= r.score <= 100
    ensures r.signal == MapSignal(r.score, x.trend)
    ensures r.signal == StrongBuy ==> r.score >= 75 && x.trend.IsBullish()
    ensures r.signal == StrongSell ==> r.score < 30 && x.trend.IsBearish()
    ensures TrendNote(x.trend) in r.reasons <==> x.trend.IsBullish()
    ensures TrendNote(x.trend) in r.risks <==> x.trend.IsBearish()
    ensures MacdNote(x.macd.status, x.macd.insufficient) in r.reasons + r.risks
    ensures RsiNote(x.rsi.status, x.rsi.insufficient) in r.reasons + r.risks
    ensures BiasNote(BiasPoints(x.biasMa5, biasThreshold)) in r.risks <==>
      x.biasMa5 <= -5.0 || (x.biasMa5 >= 2.0 && x.biasMa5 >= biasThreshold)
    ensures forall n :: n in r.reasons ==> n.FromIndicators()
    ensures forall n :: n in r.risks ==> n.FromIndicators()
  {
    var bp := BiasPoints(x.biasMa5, biasThreshold);
    var score := Score(x, biasThreshold);
    var reasons := Reasons(x, bp);
    var risks := Risks(x, bp);
    ReasonsFacts(x, bp);
    RisksFacts(x, bp);
    NotesFromIndicators(x, bp);
    Verdict(score, MapSignal(score, x.trend), reasons, risks)
  }

  /** Every note of the fresh lists comes from one of the indicator clauses. */
  lemma NotesFromIndicators(x: Readings, bp: int)
    ensures forall n :: n in Reasons(x, bp) ==> n.FromIndicators()
    ensures forall n :: n in Risks(x, bp) ==> n.FromIndicators()
  {
    forall n | n in Reasons(x, bp)
      ensures n.FromIndicators()
    {
    }
    forall n | n in Risks(x, bp)
      ensures n.FromIndicators()
    {
    }
  }

  /** Appending a note other than `m` does not change whether `m` is listed. */
  lemma AppendOther(s: seq<Note>, c: bool, n: Note, m: Note)
    requires m != n
    ensures m in s + When(c, n) <==> m in s
  {
  }

  /** The trend note is a reason exactly for an aligned bull trend; the MACD
      and RSI notes are reasons unless they are risks. */
  lemma ReasonsFacts(x: Readings, bp: int)
    ensures TrendNote(x.trend) in Reasons(x, bp) <==> x.trend.IsBullish()
    ensures x.macd.status !in {DeathCross, CrossingDown} ==> MacdNote(x.macd.status, x.macd.insufficient) in Reasons(x, bp)
    ensures x.rsi.status != Overbought ==> RsiNote(x.rsi.status, x.rsi.insufficient) in Reasons(x, bp)
  {
    var t := TrendNote(x.trend);
    var p1 := When(x.trend.IsBullish(), t);
    var p2 := p1 + When(!BiasIsRisk(bp), BiasNote(bp));
    AppendOther(p1, !BiasIsRisk(bp), BiasNote(bp), t);
    var p3 := p2 + When(x.volume == ShrinkVolumeDown, VolumeNote(x.volume));
    AppendOther(p2, x.volume == ShrinkVolumeDown, VolumeNote(x.volume), t);
    var p4 := p3 + When(x.supportMa5, SupportNote(5));
    AppendOther(p3, x.supportMa5, SupportNote(5), t);
    var p5 := p4 + When(x.supportMa10, SupportNote(10));
    AppendOther(p4, x.supportMa10, SupportNote(10), t);
    var p6 := p5 + When(x.macd.status !in {DeathCross, CrossingDown}, MacdNote(x.macd.status, x.macd.insufficient));
    AppendOther(p5, x.macd.status !in {DeathCross, CrossingDown}, MacdNote(x.macd.status, x.macd.insufficient), t);
    var p7 := p6 + When(x.rsi.status != Overbought, RsiNote(x.rsi.status, x.rsi.insufficient));
    AppendOther(p6, x.rsi.status != Overbought, RsiNote(x.rsi.status, x.rsi.insufficient), t);
    var p8 := p7 + When(x.boll in {LowerSupport, UpperBreakout}, BollingerNote(x.boll));
    AppendOther(p7, x.boll in {LowerSupport, UpperBreakout}, BollingerNote(x.boll), t);
    var p9 := p8 + When(KdjFavourable(x.kdj), KdjNote(x.kdj));
    AppendOther(p8, KdjFavourable(x.kdj), KdjNote(x.kdj), t);
    var p10 := p9 + When(x.obv in {BothRising, VolumeUpPriceWeak}, ObvNote(x.obv));
    AppendOther(p9, x.obv in {BothRising, VolumeUpPriceWeak}, ObvNote(x.obv), t);
    assert Reasons(x, bp) == p10;
  }

  /** The trend note is a risk exactly for a bear trend, the bias note
      exactly when its points mark a risk. */
  lemma RisksFacts(x: Readings, bp: int)
    ensures TrendNote(x.trend) in Risks(x, bp) <==> x.trend.IsBearish()
    ensures BiasNote(bp) in Risks(x, bp) <==> BiasIsRisk(bp)
    ensures x.macd.status in {DeathCross, CrossingDown} ==> MacdNote(x.macd.status, x.macd.insufficient) in Risks(x, bp)
    ensures x.rsi.status == Overbought ==> RsiNote(x.rsi.status, x.rsi.insufficient) in Risks(x, bp)
  {
    RiskListed(x, bp, TrendNote(x.trend));
    RiskListed(x, bp, BiasNote(bp));
    RisksOfIndicators(x, bp);
  }

  /** A trend or bias note is a risk exactly when its own clause fires: the
      later clauses append other kinds of note. */
  lemma RiskListed(x: Readings, bp: int, n: Note)
    requires n.TrendNote? || n.BiasNote?
    ensures n in Risks(x, bp) <==>
      n in When(x.trend.IsBearish(), TrendNote(x.trend)) + When(BiasIsRisk(bp), BiasNote(bp))
  {
    var p2 := When(x.trend.IsBearish(), TrendNote(x.trend)) + When(BiasIsRisk(bp), BiasNote(bp));
    var p3 := p2 + When(x.volume == HeavyVolumeDown, VolumeNote(x.volume));
    AppendOther(p2, x.volume == HeavyVolumeDown, VolumeNote(x.volume), n);
    var p4 := p3 + When(x.macd.status in {DeathCross, CrossingDown}, MacdNote(x.macd.status, x.macd.insufficient));
    AppendOther(p3, x.macd.status in {DeathCross, CrossingDown}, MacdNote(x.macd.status, x.macd.insufficient), n);
    var p5 := p4 + When(x.rsi.status == Overbought, RsiNote(x.rsi.status, x.rsi.insufficient));
    AppendOther(p4, x.rsi.status == Overbought, RsiNote(x.rsi.status, x.rsi.insufficient), n);
    var p6 := p5 + When(x.boll in {UpperPressure, LowerBreakdown}, BollingerNote(x.boll));
    AppendOther(p5, x.boll in {UpperPressure, LowerBreakdown}, BollingerNote(x.boll), n);
    var p7 := p6 + When(KdjUnfavourable(x.kdj), KdjNote(x.kdj));
    AppendOther(p6, KdjUnfavourable(x.kdj), KdjNote(x.kdj), n);
    var p8 := p7 + When(x.obv in {PriceUpVolumeWeak, BothWeak}, ObvNote(x.obv));
    AppendOther(p7, x.obv in {PriceUpVolumeWeak, BothWeak}, ObvNote(x.obv), n);
    assert Risks(x, bp) == p8;
  }

  /** MACD and RSI notes land in the risks when their status is bearish. */
  lemma RisksOfIndicators(x: Readings, bp: int)
    ensures x.macd.status in {DeathCross, CrossingDown} ==> MacdNote(x.macd.status, x.macd.insufficient) in Risks(x, bp)
    ensures x.rsi.status == Overbought ==> RsiNote(x.rsi.status, x.rsi.insufficient) in Risks(x, bp)
  {
    var m := MacdNote(x.macd.status, x.macd.insufficient);
    var r := RsiNote(x.rsi.status, x.rsi.insufficient);
    var p3 := When(x.trend.IsBearish(), TrendNote(x.trend)) + When(BiasIsRisk(bp), BiasNote(bp))
      + When(x.volume == HeavyVolumeDown, VolumeNote(x.volume));
    var p4 := p3 + When(x.macd.status in {DeathCross, CrossingDown}, m);
    var p5 := p4 + When(x.rsi.status == Overbought, r);
    var tail := When(x.boll in {UpperPressure, LowerBreakdown}, BollingerNote(x.boll))
      + When(KdjUnfavourable(x.kdj), KdjNote(x.kdj)) + When(x.obv in {PriceUpVolumeWeak, BothWeak}, ObvNote(x.obv));
    assert Risks(x, bp) == p5 + When(x.boll in {UpperPressure, LowerBreakdown}, BollingerNote(x.boll))
      + When(KdjUnfavourable(x.kdj), KdjNote(x.kdj)) + When(x.obv in {PriceUpVolumeWeak, BothWeak}, ObvNote(x.obv));
    KeptByAppend(p5, When(x.boll in {UpperPressure, LowerBreakdown}, BollingerNote(x.boll)),
      When(KdjUnfavourable(x.kdj), KdjNote(x.kdj)), When(x.obv in {PriceUpVolumeWeak, BothWeak}, ObvNote(x.obv)));
    assert x.macd.status in {DeathCross, CrossingDown} ==> m in p4 && m in p5;
    assert x.rsi.status == Overbought ==> r in p5;
  }

  /** Everything listed in `s` is still listed after three appends. */
  lemma KeptByAppend(s: seq<Note>, a: seq<Note>, b: seq<Note>, c: seq<Note>)
    ensures forall n :: n in s ==> n in s + a + b + c
  {
  }
}
