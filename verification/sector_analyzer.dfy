/** `SectorAnalyzer` (src/sector/sector_analyzer.py): the classifiers that
    turn a `SectorIndex` into a market status, a trend, a 100-point signal
    score with its evidence, a grade, a flow reading, risks and
    opportunities, and advice; and the ranking of hot sectors. */
module SectorAnalysis {

  import opened Outcomes
  import opened Sorting
  import opened Regimes
  import opened SectorTypes

  /** `SectorAnalyzerConfig.strong_bull_threshold`. */
  const DefaultLeaderThreshold: real := 3.0

  // ---------------------------------------------------------------- market status and trend

  /** The sector's relative strength against the market. */
  function MarketStatusOf(rs: real, threshold: real): (r: MarketStatus)
    ensures threshold >= 0.0 ==> (r == LeaderUp <==> rs > threshold)
    ensures threshold >= 0.0 ==> (r == LeaderDown <==> rs < -threshold)
    ensures threshold >= 0.0 ==> (r in {LeaderUp, FollowUp} <==> rs > 0.0)
    ensures threshold >= 0.0 ==> (r in {LeaderDown, FollowDown} <==> rs < 0.0)
    ensures threshold >= 0.0 ==> (r == Sideways <==> rs == 0.0)
  {
    if rs > threshold then LeaderUp
    else if rs > 0.0 then FollowUp
    else if rs < -threshold then LeaderDown
    else if rs < 0.0 then FollowDown
    else Sideways
  }

  /** With a negative threshold the first test catches small falls too: a
      slightly falling sector is reported as leading the market up. */
  lemma NegativeThresholdMislabels()
    ensures MarketStatusOf(-0.5, -1.0) == LeaderUp
  {
  }

  /** `_calc_trend_status`: the sector trend from its change and strength. */
  function SectorTrend(change: real, strength: real): (r: TrendStatus)
    ensures r !in {WeakBull, StrongBear}
    ensures r == StrongBull <==> strength >= 80.0 && change > 2.0
    ensures r in {StrongBull, Bull} <==> strength >= 60.0 && change > 0.0
    ensures r in {WeakBear, Bear} <==> strength < 40.0
    ensures r == Consolidation <==> 40.0 <= strength && !(strength >= 60.0 && change > 0.0)
    ensures r == WeakBear <==> 20.0 <= strength < 40.0 && change < 0.0
    ensures r == Bear <==> strength < 40.0 && !(strength >= 20.0 && change < 0.0)
  {
    if strength >= 80.0 && change > 2.0 then StrongBull
    else if strength >= 60.0 && change > 0.0 then Bull
    else if strength >= 40.0 then Consolidation
    else if strength >= 20.0 && change < 0.0 then WeakBear
    else Bear
  }

  // ---------------------------------------------------------------- signal score

  /** Which factor an evidence entry reports. */
  datatype Factor = RelativeStrengthFactor | LimitUpRatioFactor | UpDownRatioFactor | StrengthFactor | TurnoverFactor
  {
    function Label(): string
    {
      match this
      case RelativeStrengthFactor => "relative_strength"
      case LimitUpRatioFactor => "limit_up_ratio"
      case UpDownRatioFactor => "up_down_ratio"
      case StrengthFactor => "strength_score"
      case TurnoverFactor => "turnover_rate"
    }

    /** The factor's full marks. */
    function Weight(): int
    {
      match this
      case RelativeStrengthFactor => 30
      case LimitUpRatioFactor => 20
      case UpDownRatioFactor => 20
      case StrengthFactor => 20
      case TurnoverFactor => 10
    }

    /** The factor's points table. */
    function Points(value: real): int
    {
      match this
      case RelativeStrengthFactor => RelativeStrengthPoints(value)
      case LimitUpRatioFactor => LimitUpPoints(value)
      case UpDownRatioFactor => UpRatioPoints(value)
      case StrengthFactor => StrengthPoints(value)
      case TurnoverFactor => TurnoverPoints(value)
    }
  }

  /** An evidence entry's direction: "正向", "负向" or "中性". */
  datatype Tilt = Positive | Negative | NoTilt
  {
    function Label(): string
    {
      match this
      case Positive => "正向"
      case Negative => "负向"
      case NoTilt => "中性"
    }
  }

  datatype SectorEvidence = SectorEvidence(factor: Factor, value: real, threshold: real, tilt: Tilt, contribution: int)

  function RelativeStrengthPoints(rs: real): (r: int)
    ensures 0 <= r <= 30
    ensures r >= 20 <==> rs > 0.0
  {
    if rs > 5.0 then 30 else if rs > 3.0 then 25 else if rs > 0.0 then 20 else if rs > -3.0 then 10 else 0
  }

  function LimitUpPoints(ratio: real): (r: int)
    ensures 5 <= r <= 20
    ensures r >= 10 <==> ratio >= 0.05
  {
    if ratio >= 0.15 then 20 else if ratio >= 0.1 then 15 else if ratio >= 0.05 then 10 else 5
  }

  function UpRatioPoints(ratio: real): (r: int)
    ensures 5 <= r <= 20
    ensures r >= 15 <==> ratio >= 0.6
  {
    if ratio >= 0.7 then 20 else if ratio >= 0.6 then 15 else if ratio >= 0.4 then 10 else 5
  }

  function StrengthPoints(strength: real): (r: int)
    ensures 5 <= r <= 20
    ensures r >= 15 <==> strength >= 60.0
  {
    if strength >= 80.0 then 20 else if strength >= 60.0 then 15 else if strength >= 40.0 then 10 else 5
  }

  function TurnoverPoints(turnover: real): (r: int)
    ensures 3 <= r <= 10
    ensures r >= 7 <==> turnover >= 2.0
  {
    if turnover >= 3.0 then 10 else if turnover >= 2.0 then 7 else if turnover >= 1.0 then 5 else 3
  }

  /** Each factor's points never fall as its input rises. */
  lemma PointsMonotone(a: real, b: real)
    requires a <= b
    ensures RelativeStrengthPoints(a) <= RelativeStrengthPoints(b)
    ensures LimitUpPoints(a) <= LimitUpPoints(b)
    ensures UpRatioPoints(a) <= UpRatioPoints(b)
    ensures StrengthPoints(a) <= StrengthPoints(b)
    ensures TurnoverPoints(a) <= TurnoverPoints(b)
  {
  }

  /** The share of constituents at limit up, when there are constituents. */
  function LimitUpRatio(s: SectorIndex): (r: Option<real>)
    ensures r.Some? <==> s.stockCount > 0
    ensures r.Some? ==> r.value * (s.stockCount as real) == s.limitUpCount as real
  {
    if s.stockCount > 0 then Some(s.limitUpCount as real / s.stockCount as real) else None
  }

  /** The share of rising constituents among those that moved. */
  function UpRatio(s: SectorIndex): (r: Option<real>)
    ensures r.Some? <==> s.upCount + s.downCount > 0
    ensures r.Some? ==> 0.0 <= r.value <= 1.0
    ensures r.Some? ==> (r.value > 0.5 <==> s.upCount > s.downCount)
  {
    if s.upCount + s.downCount > 0 then
      var t := (s.upCount + s.downCount) as real;
      ShareAbove(s.upCount as real, t, 0.5);
      ShareAbove(s.upCount as real, t, 1.0);
      Some(s.upCount as real / t)
    else None
  }

  /** Comparing a share with a bound is comparing its numerator with the
      bound times the denominator. */
  lemma ShareAbove(num: real, den: real, c: real)
    requires den > 0.0
    ensures num / den > c <==> num > c * den
    ensures num / den >= c <==> num >= c * den
    ensures num / den <= c <==> num <= c * den
  {
    var q := num / den;
    assert q * den == num;
    if q > c {
      assert (q - c) * den > 0.0;
    }
    if q < c {
      assert (c - q) * den > 0.0;
    }
  }

  function Contributions(ev: seq<SectorEvidence>): int
    decreases |ev|
  {
    if |ev| == 0 then 0 else ev[0].contribution + Contributions(ev[1..])
  }

  function Weights(ev: seq<SectorEvidence>): int
    decreases |ev|
  {
    if |ev| == 0 then 0 else ev[0].factor.Weight() + Weights(ev[1..])
  }

  /** An entry earns its factor's points for its value, which are no more
      than the factor's weight, and takes the direction its value shows. */
  predicate WellFormed(e: SectorEvidence)
  {
    && e.contribution == e.factor.Points(e.value)
    && 0 <= e.contribution <= e.factor.Weight()
    && match e.factor
       case RelativeStrengthFactor => e.tilt == (if e.value > 0.0 then Positive else Negative) && e.threshold == 3.0
       case LimitUpRatioFactor => e.tilt == (if e.value > 0.05 then Positive else NoTilt) && e.threshold == 0.1
       case UpDownRatioFactor => e.tilt == (if e.value > 0.5 then Positive else Negative) && e.threshold == 0.6
       case StrengthFactor => e.tilt == (if e.value > 50.0 then Positive else Negative) && e.threshold == 60.0
       case TurnoverFactor => e.tilt == (if e.value > 1.0 then Positive else NoTilt) && e.threshold == 2.0
  }

  lemma {:induction false} ContributionsBounded(ev: seq<SectorEvidence>)
    requires forall k :: 0 <= k < |ev| ==> WellFormed(ev[k])
    ensures 0 <= Contributions(ev) <= Weights(ev)
    decreases |ev|
  {
    if |ev| > 0 {
      ContributionsBounded(ev[1..]);
    }
  }

  /** The evidence entries for the ratio factors, present only when their
      denominators are positive. */
  function RatioEvidence(s: SectorIndex): (r: seq<SectorEvidence>)
    ensures |r| == (if s.stockCount > 0 then 1 else 0) + (if s.upCount + s.downCount > 0 then 1 else 0)
  {
    (match LimitUpRatio(s)
     case None => []
     case Some(ratio) =>
       [SectorEvidence(LimitUpRatioFactor, ratio, 0.1, if ratio > 0.05 then Positive else NoTilt, LimitUpPoints(ratio))])
    + (match UpRatio(s)
       case None => []
       case Some(ratio) =>
         [SectorEvidence(UpDownRatioFactor, ratio, 0.6, if ratio > 0.5 then Positive else Negative, UpRatioPoints(ratio))])
  }

  /** `_calc_signal_score`: the score and the evidence behind it, one entry
      per factor that applies, in the order relative strength, limit-up
      ratio, up ratio, strength, turnover. */
  function SignalScore(s: SectorIndex): (r: (int, seq<SectorEvidence>))
    ensures r.0 == Contributions(r.1)
    ensures |r.1| == 3 + (if s.stockCount > 0 then 1 else 0) + (if s.upCount + s.downCount > 0 then 1 else 0)
    ensures forall k :: 0 <= k < |r.1| ==> WellFormed(r.1[k])
    ensures r.1[0].factor == RelativeStrengthFactor && r.1[0].value == s.relativeStrength
    ensures r.1[|r.1| - 1].factor == TurnoverFactor && r.1[|r.1| - 1].value == s.turnoverRate
    ensures r.1[|r.1| - 2].factor == StrengthFactor && r.1[|r.1| - 2].value == s.strengthScore
    ensures s.stockCount > 0 ==> r.1[1].factor == LimitUpRatioFactor && r.1[1].value == LimitUpRatio(s).value
    ensures s.upCount + s.downCount > 0 ==>
      r.1[|r.1| - 3].factor == UpDownRatioFactor && r.1[|r.1| - 3].value == UpRatio(s).value
    ensures 8 <= r.0 <= 100
  {
    var rs := s.relativeStrength;
    var head := [SectorEvidence(RelativeStrengthFactor, rs, 3.0, if rs > 0.0 then Positive else Negative,
                                RelativeStrengthPoints(rs))];
    var tail := [SectorEvidence(StrengthFactor, s.strengthScore, 60.0,
                                if s.strengthScore > 50.0 then Positive else Negative, StrengthPoints(s.strengthScore)),
                 SectorEvidence(TurnoverFactor, s.turnoverRate, 2.0,
                                if s.turnoverRate > 1.0 then Positive else NoTilt, TurnoverPoints(s.turnoverRate))];
    var ev := head + RatioEvidence(s) + tail;
    EvidenceTotals(s, head, RatioEvidence(s), tail);
    (Contributions(ev), ev)
  }

  /** The score of the three fixed factors plus the ratio entries: at least 8
      (3 + 0 + 5) and at most the 100 the weights add up to. */
  lemma EvidenceTotals(s: SectorIndex, head: seq<SectorEvidence>, mid: seq<SectorEvidence>, tail: seq<SectorEvidence>)
    requires |head| == 1 && head[0].factor == RelativeStrengthFactor
    requires head[0].contribution == RelativeStrengthPoints(head[0].value)
    requires mid == RatioEvidence(s)
    requires |tail| == 2 && tail[0].factor == StrengthFactor && tail[1].factor == TurnoverFactor
    requires tail[0].contribution == StrengthPoints(tail[0].value)
    requires tail[1].contribution == TurnoverPoints(tail[1].value)
    ensures 8 <= Contributions(head + mid + tail) <= 100
  {
    var ev := head + mid + tail;
    ContributionsAppend(head, mid);
    ContributionsAppend(head + mid, tail);
    assert Contributions(tail) == tail[0].contribution + Contributions(tail[1..]);
    assert Contributions(tail[1..]) == tail[1].contribution + Contributions(tail[1..][1..]);
    assert Contributions(head) == head[0].contribution + Contributions(head[1..]);
    var midScore := Contributions(mid);
    assert 0 <= midScore <= 40 by {
      var lu := match LimitUpRatio(s) case None => [] case Some(ratio) =>
        [SectorEvidence(LimitUpRatioFactor, ratio, 0.1, if ratio > 0.05 then Positive else NoTilt, LimitUpPoints(ratio))];
      var ud := match UpRatio(s) case None => [] case Some(ratio) =>
        [SectorEvidence(UpDownRatioFactor, ratio, 0.6, if ratio > 0.5 then Positive else Negative, UpRatioPoints(ratio))];
      assert mid == lu + ud;
      ContributionsAppend(lu, ud);
      if |lu| == 1 { assert Contributions(lu) == lu[0].contribution + Contributions(lu[1..]); }
      if |ud| == 1 { assert Contributions(ud) == ud[0].contribution + Contributions(ud[1..]); }
    }
  }

  lemma {:induction false} ContributionsAppend(a: seq<SectorEvidence>, b: seq<SectorEvidence>)
    ensures Contributions(a + b) == Contributions(a) + Contributions(b)
    decreases |a|
  {
    if |a| == 0 {
      assert a + b == b;
    } else {
      assert (a + b)[1..] == a[1..] + b;
      ContributionsAppend(a[1..], b);
    }
  }

  /** A sector with every factor present and at its top band scores 100. */
  lemma FullMarks(s: SectorIndex)
    requires s.relativeStrength > 5.0 && s.strengthScore >= 80.0 && s.turnoverRate >= 3.0
    requires s.stockCount > 0 && s.limitUpCount as real >= 0.15 * s.stockCount as real
    requires s.upCount as real >= 0.7 * (s.upCount + s.downCount) as real && s.upCount > 0
    ensures SignalScore(s).0 == 100
  {
    var ev := SignalScore(s).1;
    assert |ev| == 5;
    ShareAbove(s.limitUpCount as real, s.stockCount as real, 0.15);
    ShareAbove(s.upCount as real, (s.upCount + s.downCount) as real, 0.7);
    assert LimitUpRatio(s).value >= 0.15;
    assert UpRatio(s).value >= 0.7;
    assert Contributions(ev[4..]) == 10;
    assert Contributions(ev[3..]) == 20 + 10;
    assert Contributions(ev[2..]) == 20 + 30;
    assert Contributions(ev[1..]) == 20 + 50;
  }

  // ---------------------------------------------------------------- grade, flow, advice

  /** `_calc_signal_grade`: the grades that need a bullish market status. */
  function Grade(score: int, status: MarketStatus): (r: SignalGrade)
    ensures r == StrongBullish <==> score >= 80 && status == LeaderUp
    ensures r in {StrongBullish, Bullish} <==> score >= 60 && status in {LeaderUp, FollowUp}
    ensures r == StrongBearish <==> score < 20
    ensures r in {Bearish, StrongBearish} <==> score < 40
  {
    if score >= 80 && status == LeaderUp then StrongBullish
    else if score >= 60 && status in {LeaderUp, FollowUp} then Bullish
    else if score >= 40 then NeutralGrade
    else if score >= 20 then Bearish
    else StrongBearish
  }

  function GradeRank(g: SignalGrade): nat
  {
    match g
    case StrongBullish => 4
    case Bullish => 3
    case NeutralGrade => 2
    case Bearish => 1
    case StrongBearish => 0
  }

  /** For a fixed market status, a higher score never gives a lower grade. */
  lemma GradeMonotone(a: int, b: int, status: MarketStatus)
    requires a <= b
    ensures GradeRank(Grade(a, status)) <= GradeRank(Grade(b, status))
  {
  }

  datatype FlowDirection = Inflow | Flat | Outflow
  {
    function Label(): string
    {
      match this
      case Inflow => "流入"
      case Flat => "持平"
      case Outflow => "流出"
    }
  }

  datatype FlowStrength = SharpIn | MildIn | Level | MildOut | SharpOut
  {
    function Label(): string
    {
      match this
      case SharpIn => "大幅流入"
      case MildIn => "温和流入"
      case Level => "持平"
      case MildOut => "温和流出"
      case SharpOut => "大幅流出"
    }
  }

  /** `_calc_flow_direction` on the main-force net flow (in 100 million yuan). */
  function Flow(mainFlow: real): (r: (FlowDirection, FlowStrength))
    ensures r.0 == Inflow <==> mainFlow > 1.0
    ensures r.0 == Outflow <==> mainFlow < -1.0
    ensures r.1 in {SharpIn, SharpOut} <==> mainFlow > 5.0 || mainFlow < -5.0
    ensures r.0 == Inflow <==> r.1 in {SharpIn, MildIn}
    ensures r.0 == Outflow <==> r.1 in {SharpOut, MildOut}
  {
    if mainFlow > 5.0 then (Inflow, SharpIn)
    else if mainFlow > 1.0 then (Inflow, MildIn)
    else if mainFlow >= -1.0 then (Flat, Level)
    else if mainFlow >= -5.0 then (Outflow, MildOut)
    else (Outflow, SharpOut)
  }

  datatype Action = AddTo | Keep | Watch | Trim | Exit
  {
    function Label(): string
    {
      match this
      case AddTo => "增持"
      case Keep => "持有"
      case Watch => "观望"
      case Trim => "减仓"
      case Exit => "减持"
    }
  }

  datatype Confidence = High | Medium
  {
    function Label(): string
    {
      match this
      case High => "高"
      case Medium => "中"
    }
  }

  datatype Advice = Advice(action: Action, confidence: Confidence, allocation: string)

  /** `_calc_action_advice`. The market status is accepted but not consulted. */
  function AdviceFor(status: MarketStatus, grade: SignalGrade, flow: FlowDirection): (r: Advice)
    ensures r.action == AddTo <==> grade == StrongBullish && flow == Inflow
    ensures r.action == Exit <==> grade == StrongBearish
    ensures r.confidence == High <==> r.action in {AddTo, Exit}
    ensures r.action == Keep <==> grade == Bullish || (grade == StrongBullish && flow != Inflow)
    ensures grade == NeutralGrade <==> r.action == Watch
  {
    match grade
    case StrongBullish =>
      if flow == Inflow then Advice(AddTo, High, "可加仓至目标仓位") else Advice(Keep, Medium, "维持当前仓位")
    case Bullish => Advice(Keep, Medium, "维持当前仓位")
    case NeutralGrade => Advice(Watch, Medium, "等待更明确信号")
    case Bearish => Advice(Trim, Medium, "可适当减仓避险")
    case StrongBearish => Advice(Exit, High, "建议减仓或清仓")
  }

  lemma AdviceIgnoresStatus(a: MarketStatus, b: MarketStatus, grade: SignalGrade, flow: FlowDirection)
    ensures AdviceFor(a, grade, flow) == AdviceFor(b, grade, flow)
  {
  }

  // ---------------------------------------------------------------- risks and opportunities

  datatype Risk = Overheated(change: real) | ManyLimitDown | WeakAgainstMarket
  datatype Opportunity = Resilient | ManyLimitUp | BroadAdvance

  /** The risk notes, in the order the source checks them. */
  function Risks(s: SectorIndex): (r: seq<Risk>)
    ensures Overheated(s.changePct) in r <==> s.changePct > 5.0
    ensures ManyLimitDown in r <==> 2 * s.limitDownCount > s.limitUpCount
    ensures WeakAgainstMarket in r <==> s.relativeStrength < -3.0
    ensures |r| <= 3
  {
    (if s.changePct > 5.0 then [Overheated(s.changePct)] else [])
    + (if s.limitDownCount as real > s.limitUpCount as real / 2.0 then [ManyLimitDown] else [])
    + (if s.relativeStrength < -3.0 then [WeakAgainstMarket] else [])
  }

  /** The opportunity notes with the up ratio read as the share of rising
      constituents among those that moved (0 when none moved). */
  function Opportunities(s: SectorIndex): (r: seq<Opportunity>)
    ensures Resilient in r <==> s.changePct < -3.0 && s.relativeStrength > -1.0
    ensures ManyLimitUp in r <==> 10 * s.limitUpCount > s.stockCount
    ensures BroadAdvance in r <==> 2 * s.upCount > 3 * s.downCount && s.upCount > 0
    ensures |r| <= 3
  {
    var upRatio := UpRatio(s).GetOr(0.0);
    BroadAdvanceMeans(s);
    (if s.changePct < -3.0 && s.relativeStrength > -1.0 then [Resilient] else [])
    + (if s.limitUpCount as real > s.stockCount as real * 0.1 then [ManyLimitUp] else [])
    + (if upRatio > 0.6 then [BroadAdvance] else [])
  }

  lemma BroadAdvanceMeans(s: SectorIndex)
    ensures UpRatio(s).GetOr(0.0) > 0.6 <==> 2 * s.upCount > 3 * s.downCount && s.upCount > 0
  {
    if s.upCount + s.downCount > 0 {
      ShareAbove(s.upCount as real, (s.upCount + s.downCount) as real, 0.6);
    }
  }

  /** `_calc_risk_opportunity` as written: the risks are computed, then the
      third opportunity reads `sector.up_ratio`, which `SectorIndex` does not
      define, so the call always raises `AttributeError`. */
  function RiskOpportunityAsWritten(s: SectorIndex): (r: Result<(seq<Risk>, seq<Opportunity>)>)
    ensures r.Err?
  {
    var _ := Risks(s);
    Err("AttributeError: 'SectorIndex' object has no attribute 'up_ratio'")
  }

  /** The evidently intended `_calc_risk_opportunity`. */
  function RiskOpportunity(s: SectorIndex): (r: (seq<Risk>, seq<Opportunity>))
    ensures r.0 == Risks(s) && r.1 == Opportunities(s)
    ensures BroadAdvance in r.1 <==> 2 * s.upCount > 3 * s.downCount && s.upCount > 0
  {
    (Risks(s), Opportunities(s))
  }

  /** A sector with 8 rising and 2 falling constituents: the written code
      fails, the intended one reports a broad advance. */
  lemma UpRatioCounterexample()
    ensures var s := SectorIndex("801080", "电子", Industry, 0.0, 1.0, 0.0, 8, 2, 0, 0, 1.0, 0.0, 0.0, 52.0, 1.0, 10, 0.0);
      && RiskOpportunityAsWritten(s).Err?
      && BroadAdvance in RiskOpportunity(s).1
  {
    var s := SectorIndex("801080", "电子", Industry, 0.0, 1.0, 0.0, 8, 2, 0, 0, 1.0, 0.0, 0.0, 52.0, 1.0, 10, 0.0);
    BroadAdvanceMeans(s);
  }

  // ---------------------------------------------------------------- one sector, hot sectors

  /** The constituents `analyze_sector` flags: marked abnormal, or moving more than 5% either way. */
  function AbnormalStocks(stats: seq<StockStats>): (r: seq<StockStats>)
    ensures forall x :: x in r <==> x in stats && (x.isAbnormal || x.changePct > 5.0 || x.changePct < -5.0)
    ensures |r| <= |stats|
    decreases |stats|
  {
    if |stats| == 0 then []
    else
      var rest := AbnormalStocks(stats[1..]);
      assert forall x :: x in stats <==> x == stats[0] || x in stats[1..];
      var x := stats[0];
      if x.isAbnormal || x.changePct > 5.0 || x.changePct < -5.0 then [x] + rest else rest
  }

  datatype SectorResult = SectorResult(
    sector: SectorIndex,
    marketStatus: MarketStatus,
    trend: TrendStatus,
    score: int,
    grade: SignalGrade,
    leading: seq<StockStats>,
    abnormal: seq<StockStats>,
    evidence: seq<SectorEvidence>,
    flowDirection: FlowDirection,
    flowStrength: FlowStrength,
    risks: seq<Risk>,
    opportunities: seq<Opportunity>,
    advice: Advice)

  /** What `analyze_sector` fetches: the index (None when the fetch failed),
      the leading stocks, and the statistics of the watched stocks. */
  datatype SectorData = SectorData(index: Option<SectorIndex>, leading: seq<StockStats>, watched: seq<string>, stats: seq<StockStats>)

  /** The failure of the call to `get_sector_stocks_data`, which the fetcher
      does not define. */
  const MissingStocksData: string := "AttributeError: 'SectorFetcher' object has no attribute 'get_sector_stocks_data'"

  /** `analyze_sector` as written: it returns None for a missing index; with
      watched codes it fails on the undefined fetcher method, and otherwise
      inside `_calc_risk_opportunity`. */
  function AnalyzeSectorAsWritten(d: SectorData, threshold: real): (r: Result<Option<SectorResult>>)
    ensures r.Ok? <==> d.index.None?
    ensures r.Ok? ==> r.value.None?
    ensures d.index.Some? && |d.watched| > 0 ==> r == Err(MissingStocksData)
    ensures d.index.Some? && |d.watched| == 0 ==> r == Err(RiskOpportunityAsWritten(d.index.value).reason)
  {
    match d.index
    case None => Ok(None)
    case Some(s) =>
      if |d.watched| > 0 then Err(MissingStocksData)
      else
        match RiskOpportunityAsWritten(s)
        case Err(e) => Err(e)
        case Ok(_) => Ok(None)
  }

  /** `analyze_sector` with the intended risk and opportunity reading. */
  function AnalyzeSector(d: SectorData, threshold: real): (r: Option<SectorResult>)
    ensures r.Some? <==> d.index.Some?
    ensures r.Some? ==>
      var s := d.index.value;
      && r.value.sector == s
      && r.value.marketStatus == MarketStatusOf(s.relativeStrength, threshold)
      && r.value.trend == SectorTrend(s.changePct, s.strengthScore)
      && (r.value.score, r.value.evidence) == SignalScore(s)
      && (r.value.flowDirection, r.value.flowStrength) == Flow(s.mainFlow)
      && (r.value.risks, r.value.opportunities) == RiskOpportunity(s)
      && r.value.advice == AdviceFor(r.value.marketStatus, r.value.grade, r.value.flowDirection)
      && r.value.score == Contributions(r.value.evidence)
      && 8 <= r.value.score <= 100
      && r.value.grade == Grade(r.value.score, r.value.marketStatus)
      && (threshold >= 0.0 ==> (r.value.marketStatus in {LeaderUp, FollowUp} <==> s.relativeStrength > 0.0))
      && (r.value.flowDirection == Inflow <==> s.mainFlow > 1.0)
      && (r.value.advice.action == AddTo <==> r.value.grade == StrongBullish && s.mainFlow > 1.0)
      && (|d.watched| == 0 ==> r.value.abnormal == [])
      && (|d.watched| > 0 ==> forall x :: x in r.value.abnormal <==>
            x in d.stats && (x.isAbnormal || x.changePct > 5.0 || x.changePct < -5.0))
      && (forall x :: x in r.value.abnormal ==> x in d.stats)
      && r.value.leading == d.leading
  {
    match d.index
    case None => None
    case Some(s) =>
      var status := MarketStatusOf(s.relativeStrength, threshold);
      var (score, evidence) := SignalScore(s);
      var grade := Grade(score, status);
      var (direction, strength) := Flow(s.mainFlow);
      var (risks, opportunities) := RiskOpportunity(s);
      var abnormal := if |d.watched| > 0 then AbnormalStocks(d.stats) else [];
      Some(SectorResult(s, status, SectorTrend(s.changePct, s.strengthScore), score, grade, d.leading, abnormal,
        evidence, direction, strength, risks, opportunities, AdviceFor(status, grade, direction)))
  }

  /** With the intended reading every fetched sector yields a result, where
      the written code yields none. */
  lemma IntendedAnalyzeSucceeds(d: SectorData, threshold: real)
    requires d.index.Some?
    ensures AnalyzeSector(d, threshold).Some?
    ensures AnalyzeSectorAsWritten(d, threshold).Err?
  {
  }

  function ResultScore(r: SectorResult): real { r.score as real }

  /** `for x in xs: r = f(x); if r: out.append(r)`: the outcomes that are
      present, in input order. */
  function Kept<A, B>(xs: seq<A>, f: A -> Option<B>): (r: seq<B>)
    ensures |r| <= |xs|
    ensures (forall i :: 0 <= i < |xs| ==> f(xs[i]).Some?) ==> |r| == |xs|
    ensures forall i :: 0 <= i < |xs| && f(xs[i]).Some? ==> f(xs[i]).value in r
    ensures forall y :: y in r ==> exists i :: 0 <= i < |xs| && f(xs[i]) == Some(y)
    decreases |xs|
  {
    if |xs| == 0 then []
    else
      var rest := Kept(xs[1..], f);
      assert forall i :: 1 <= i < |xs| ==> xs[i] == xs[1..][i - 1];
      match f(xs[0])
      case None => rest
      case Some(y) => [y] + rest
  }

  /** `analyze_sector` with the threshold fixed, as the loop calls it. */
  function AnalyzeWith(threshold: real): SectorData -> Option<SectorResult>
  {
    d => AnalyzeSector(d, threshold)
  }

  /** The results that came back, in fetch order. */
  function Analyzed(data: seq<SectorData>, threshold: real): (r: seq<SectorResult>)
    ensures |r| <= |data|
    ensures forall x :: x in r ==> 8 <= x.score <= 100 && x.score == Contributions(x.evidence)
    ensures (forall k :: 0 <= k < |data| ==> data[k].index.Some?) ==> |r| == |data|
  {
    Kept(data, AnalyzeWith(threshold))
  }

  /** The results are exactly the analyses of the sectors whose index exists. */
  lemma AnalyzedMembers(data: seq<SectorData>, threshold: real)
    ensures forall k :: 0 <= k < |data| && data[k].index.Some? ==>
      AnalyzeSector(data[k], threshold).value in Analyzed(data, threshold)
    ensures forall x :: x in Analyzed(data, threshold) ==>
      exists k :: 0 <= k < |data| && data[k].index.Some? && x == AnalyzeSector(data[k], threshold).value
  {
    assert forall k :: 0 <= k < |data| ==> AnalyzeWith(threshold)(data[k]) == AnalyzeSector(data[k], threshold);
  }

  /** Sequences with equal multisets list the same elements. */
  lemma SameElements<T>(a: seq<T>, b: seq<T>)
    requires multiset(a) == multiset(b)
    ensures forall x :: x in a <==> x in b
  {
    assert forall x :: x in a <==> x in multiset(a);
    assert forall x :: x in b <==> x in multiset(b);
  }

  /** `analyze_hot_sectors` as written: the first sector whose index is
      fetched makes the whole call fail, so only a list of failed fetches
      gives a result, and that result is empty. */
  function AnalyzeHotSectorsAsWritten(data: seq<SectorData>, threshold: real): (r: Result<seq<SectorResult>>)
    ensures r.Ok? <==> forall k :: 0 <= k < |data| ==> data[k].index.None?
    ensures r.Ok? ==> r.value == []
    decreases |data|
  {
    if |data| == 0 then Ok([])
    else
      match AnalyzeSectorAsWritten(data[0], threshold)
      case Err(e) => Err(e)
      case Ok(_) =>
        var rest := AnalyzeHotSectorsAsWritten(data[1..], threshold);
        assert forall k :: 1 <= k < |data| ==> data[k] == data[1..][k - 1];
        rest
  }

  /** `analyze_hot_sectors` with the corrected `analyze_sector`, on the hot
      list's fetched data: every sector that could be analysed, highest
      signal score first. */
  function AnalyzeHotSectors(data: seq<SectorData>, threshold: real): (r: seq<SectorResult>)
    ensures SortedDesc(r, ResultScore)
    ensures multiset(r) == multiset(Analyzed(data, threshold))
    ensures forall x :: x in r ==> 8 <= x.score <= 100 && x.score == Contributions(x.evidence)
    ensures forall x :: x in r <==>
      exists k :: 0 <= k < |data| && data[k].index.Some? && x == AnalyzeSector(data[k], threshold).value
  {
    var all := Analyzed(data, threshold);
    AnalyzedMembers(data, threshold);
    var r := SortDesc(all, ResultScore);
    SameElements(r, all);
    r
  }
}
