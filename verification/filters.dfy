/** The steps `analyze` runs after `_generate_signal` (src/stock_analyzer.py):
    the daily/30-minute timeframe bonus, the fund-flow notes, the
    multi-signal resonance filter and the MACD-cross age decay. Each is a
    function from the verdict so far to the next one. */
module Filters {

  import opened Outcomes
  import opened Series
  import opened Regimes
  import opened Classifiers
  import opened Scoring

  // ---------------------------------------------------------------- timeframe

  /** The 30-minute series is bullish when its latest MA5 > MA10 > MA20. */
  predicate IntradayBullish(closes: seq<real>)
    requires |closes| >= 20
  {
    var last := |closes| - 1;
    var ma5 := RollingMean(closes, 5, last).value;
    var ma10 := RollingMean(closes, 10, last).value;
    var ma20 := RollingMean(closes, 20, last).value;
    ma5 > ma10 > ma20
  }

  /** The 30-minute series is evaluated only when present with at least 20
      bars (an empty frame is the zero-length case). */
  predicate IntradayUsable(intraday: Option<seq<real>>)
  {
    intraday.Some? && |intraday.value| >= 20
  }

  /** `timeframe_alignment`: a missing or short (< 20 bars) intraday series
      never aligns; otherwise both timeframes must be bullish. */
  function TimeframeAlignment(intraday: Option<seq<real>>, trend: TrendStatus): (r: bool)
    ensures r ==> trend.IsBullish() && IntradayUsable(intraday)
    ensures IntradayUsable(intraday) ==> (r <==> trend.IsBullish() && IntradayBullish(intraday.value))
  {
    if !IntradayUsable(intraday) then false
    else IntradayBullish(intraday.value) && trend.IsBullish()
  }

  /** The score after the alignment bonus: 5 more points, capped at 100. */
  function AlignmentBonus(score: int): (r: int)
    ensures score <= 100 ==> score <= r <= 100
    ensures r <= score + 5
    ensures score + 5 <= 100 ==> r == score + 5
    ensures score + 5 >= 100 ==> r == 100
  {
    if score + 5 < 100 then score + 5 else 100
  }

  /** `_evaluate_multi_timeframe` after the signal is mapped. Without a
      usable 30-minute series the verdict is left alone (only a note the
      model does not keep is written); with one, alignment adds the bonus
      and a reason, and misalignment adds a risk. The signal is never
      re-mapped. */
  function ApplyTimeframe(v: Verdict, intraday: Option<seq<real>>, trend: TrendStatus): (r: Verdict)
    ensures r.signal == v.signal
    ensures !IntradayUsable(intraday) ==> r == v
    ensures TimeframeAlignment(intraday, trend) ==>
      r.score == AlignmentBonus(v.score) && r.reasons == v.reasons + [TimeframeAligned] && r.risks == v.risks
    ensures IntradayUsable(intraday) && !TimeframeAlignment(intraday, trend) ==>
      r.score == v.score && r.reasons == v.reasons && r.risks == v.risks + [TimeframeNotAligned]
  {
    if !IntradayUsable(intraday) then v
    else if TimeframeAlignment(intraday, trend) then
      Verdict(AlignmentBonus(v.score), v.signal, v.reasons + [TimeframeAligned], v.risks)
    else
      Verdict(v.score, v.signal, v.reasons, v.risks + [TimeframeNotAligned])
  }

  // ---------------------------------------------------------------- fund flows

  /** The first position at or after `from` whose candidate is a column. */
  function FirstPresent(columns: set<string>, candidates: seq<string>, from: nat): (r: Option<nat>)
    requires from <= |candidates|
    ensures r.Some? ==> from <= r.value < |candidates| && candidates[r.value] in columns
    ensures r.Some? ==> forall j :: from <= j < r.value ==> candidates[j] !in columns
    ensures r.None? ==> forall j :: from <= j < |candidates| ==> candidates[j] !in columns
    decreases |candidates| - from
  {
    if from == |candidates| then None
    else if candidates[from] in columns then Some(from)
    else FirstPresent(columns, candidates, from + 1)
  }

  /** `next((c for c in candidates if c in columns), None)`: the earliest
      candidate that names a column, if any does. */
  function FindColumn(columns: set<string>, candidates: seq<string>): (r: Option<string>)
    ensures r.Some? <==> exists k :: 0 <= k < |candidates| && candidates[k] in columns
    ensures r.Some? ==> r.value in columns && r.value in candidates
    ensures r.Some? ==> forall j :: 0 <= j < |candidates| && candidates[j] in columns ==>
      FirstPresent(columns, candidates, 0).value <= j
    ensures r.Some? ==> r.value == candidates[FirstPresent(columns, candidates, 0).value]
  {
    match FirstPresent(columns, candidates, 0)
    case None => None
    case Some(k) => Some(candidates[k])
  }

  const MainFlowColumns: seq<string> := ["main_fund_net_inflow", "main_net_inflow", "主力净流入", "主力净额"]
  const MainRatioColumns: seq<string> := ["main_fund_inflow_ratio", "main_inflow_ratio", "主力净占比", "主力净流入占比"]
  const NorthboundColumns: seq<string> := ["northbound_net_inflow", "northbound_net", "北向净流入", "北向资金净买额"]

  /** The fund-flow fields of the result. */
  datatype FlowReading = FlowReading(mainInflow: real, mainRatio: real, northbound: real)

  /** The value of the first candidate column present in the latest row, or 0. */
  function ColumnValue(latest: map<string, real>, candidates: seq<string>): (r: real)
    ensures FindColumn(latest.Keys, candidates).None? ==> r == 0.0
    ensures FindColumn(latest.Keys, candidates).Some? ==> r == latest[FindColumn(latest.Keys, candidates).value]
  {
    var col := FindColumn(latest.Keys, candidates);
    if col.Some? then latest[col.value] else 0.0
  }

  /** `_analyze_main_fund_flow` and `_analyze_northbound_flow` on the latest
      row (column name to value): the fields they set and the notes they add. */
  function ApplyFundFlows(v: Verdict, latest: map<string, real>): (r: (FlowReading, Verdict))
    ensures r.1.score == v.score && r.1.signal == v.signal
    ensures MainFundInflow in r.1.reasons <==> MainFundInflow in v.reasons || r.0.mainInflow > 0.0
    ensures NorthboundInflow in r.1.reasons <==> NorthboundInflow in v.reasons || r.0.northbound > 0.0
    ensures MainFundOutflow in r.1.risks <==> MainFundOutflow in v.risks || r.0.mainInflow < 0.0
    ensures NorthboundOutflow in r.1.risks <==> NorthboundOutflow in v.risks || r.0.northbound < 0.0
    ensures |v.reasons| <= |r.1.reasons| <= |v.reasons| + 2 && r.1.reasons[..|v.reasons|] == v.reasons
    ensures |v.risks| <= |r.1.risks| <= |v.risks| + 2 && r.1.risks[..|v.risks|] == v.risks
    ensures forall n :: n in r.1.reasons ==> n in v.reasons || n in {MainFundInflow, NorthboundInflow}
    ensures forall n :: n in r.1.risks ==> n in v.risks || n in {MainFundOutflow, NorthboundOutflow}
    ensures r.0 == FlowReading(ColumnValue(latest, MainFlowColumns), ColumnValue(latest, MainRatioColumns),
                               ColumnValue(latest, NorthboundColumns))
    ensures FindColumn(latest.Keys, MainFlowColumns).None? ==> r.0.mainInflow == 0.0
    ensures FindColumn(latest.Keys, MainRatioColumns).None? ==> r.0.mainRatio == 0.0
    ensures FindColumn(latest.Keys, NorthboundColumns).None? ==> r.0.northbound == 0.0
    ensures FindColumn(latest.Keys, NorthboundColumns).Some? ==>
      r.0.northbound == latest[FindColumn(latest.Keys, NorthboundColumns).value]
  {
    var flow := FlowReading(
      ColumnValue(latest, MainFlowColumns),
      ColumnValue(latest, MainRatioColumns),
      ColumnValue(latest, NorthboundColumns));
    var reasons := v.reasons
      + When(flow.mainInflow > 0.0, MainFundInflow)
      + When(flow.northbound > 0.0, NorthboundInflow);
    var risks := v.risks
      + When(flow.mainInflow < 0.0, MainFundOutflow)
      + When(flow.northbound < 0.0, NorthboundOutflow);
    (flow, Verdict(v.score, v.signal, reasons, risks))
  }

  // ---------------------------------------------------------------- resonance

  /** Number of true entries. */
  function CountTrue(bs: seq<bool>): (r: nat)
    ensures r <= |bs|
    ensures r == 0 <==> forall k :: 0 <= k < |bs| ==> !bs[k]
    ensures r == |bs| <==> forall k :: 0 <= k < |bs| ==> bs[k]
    decreases |bs|
  {
    if |bs| == 0 then 0
    else
      var rest := CountTrue(bs[1..]);
      assert forall k :: 1 <= k < |bs| ==> bs[k] == bs[1..][k - 1];
      (if bs[0] then 1 else 0) + rest
  }

  /** The seven independent bullish signals `_apply_resonance_filter` counts. */
  function ResonanceSignals(trend: TrendStatus, volume: VolumeStatus, macd: MacdStatus, rsi: RsiStatus,
                            aligned: bool, flow: FlowReading): (r: seq<bool>)
    ensures |r| == 7
  {
    [ trend.IsBullish(),
      volume in {ShrinkVolumeDown, HeavyVolumeUp},
      macd in {GoldenCrossZero, GoldenCross, MacdBullish},
      rsi in {RsiStrongBuy, RsiNeutral, Oversold},
      aligned,
      flow.mainInflow > 0.0,
      flow.northbound > 0.0 ]
  }

  /** At least 3 signals must agree. */
  const ResonanceMinimum: nat := 3

  /** One step down the buy side: STRONG_BUY to BUY, BUY to HOLD; any other
      signal is kept. Applying it twice can lower a signal by two steps. */
  function Downgrade(s: BuySignal): (r: BuySignal)
    ensures r.Rank() <= s.Rank() <= r.Rank() + 1
    ensures r != s <==> s in {StrongBuy, Buy}
    ensures r != StrongBuy
  {
    match s
    case StrongBuy => Buy
    case Buy => Hold
    case _ => s
  }

  /** `_apply_resonance_filter`: fewer than 3 agreeing signals add a risk
      and downgrade the signal one step. */
  function ApplyResonance(v: Verdict, count: nat): (r: Verdict)
    ensures r.score == v.score && r.reasons == v.reasons
    ensures count >= ResonanceMinimum ==> r == v
    ensures count < ResonanceMinimum ==> r.signal == Downgrade(v.signal) && r.risks == v.risks + [ResonanceShort(count)]
  {
    if count >= ResonanceMinimum then v
    else Verdict(v.score, Downgrade(v.signal), v.reasons, v.risks + [ResonanceShort(count)])
  }

  // ---------------------------------------------------------------- signal age and decay

  /** DIF crosses above DEA at bar `i`; the first bar has no predecessor
      (a NaN shift), so it is never a cross. */
  predicate CrossAt(difs: seq<real>, deas: seq<real>, i: nat)
    requires |difs| == |deas| && i < |difs|
  {
    i >= 1 && difs[i - 1] <= deas[i - 1] && difs[i] > deas[i]
  }

  /** The last cross strictly before bar `hi`. */
  function LastCross(difs: seq<real>, deas: seq<real>, hi: nat): (r: Option<nat>)
    requires |difs| == |deas| && hi <= |difs|
    ensures r.Some? ==> 1 <= r.value < hi && CrossAt(difs, deas, r.value)
    ensures r.Some? ==> forall j :: r.value < j < hi ==> !CrossAt(difs, deas, j)
    ensures r.None? ==> forall j :: 0 <= j < hi ==> !CrossAt(difs, deas, j)
    decreases hi
  {
    if hi == 0 then None
    else if CrossAt(difs, deas, hi - 1) then Some(hi - 1)
    else LastCross(difs, deas, hi - 1)
  }

  /** `signal_age_days` when no cross is found. */
  const NoCrossAge: int := 999

  /** `_estimate_signal_age`: bars since the latest golden cross of DIF over DEA. */
  function SignalAge(difs: seq<real>, deas: seq<real>): (r: int)
    requires |difs| == |deas|
    ensures (forall j :: 0 <= j < |difs| ==> !CrossAt(difs, deas, j)) ==> r == NoCrossAge
    ensures (exists j :: 0 <= j < |difs| && CrossAt(difs, deas, j)) ==>
      0 <= r <= |difs| - 2 && CrossAt(difs, deas, |difs| - 1 - r) &&
      forall j :: |difs| - 1 - r < j < |difs| ==> !CrossAt(difs, deas, j)
  {
    if |difs| < 2 then NoCrossAge
    else
      match LastCross(difs, deas, |difs|)
      case None => NoCrossAge
      case Some(k) => |difs| - 1 - k
  }

  /** `SIGNAL_EXPIRY_DAYS`. */
  const SignalExpiryDays: int := 5

  /** `_apply_signal_decay`: an age beyond 5 days adds a risk and downgrades
      the signal one step. */
  function ApplyDecay(v: Verdict, age: int): (r: Verdict)
    ensures r.score == v.score && r.reasons == v.reasons
    ensures age <= SignalExpiryDays ==> r == v
    ensures age > SignalExpiryDays ==> r.signal == Downgrade(v.signal) && r.risks == v.risks + [SignalDecayed(age)]
  {
    if age <= SignalExpiryDays then v
    else Verdict(v.score, Downgrade(v.signal), v.reasons, v.risks + [SignalDecayed(age)])
  }

  /** The fund-flow, resonance and decay steps keep the score and whether
      a timeframe note is listed: they append notes of other kinds only. */
  lemma LaterStepsKeepTimeframe(v: Verdict, latest: map<string, real>, count: nat, age: int)
    ensures var w := ApplyDecay(ApplyResonance(ApplyFundFlows(v, latest).1, count), age);
      && w.score == v.score
      && (TimeframeAligned in w.reasons <==> TimeframeAligned in v.reasons)
      && (TimeframeNotAligned in w.risks <==> TimeframeNotAligned in v.risks)
  {
    var v2 := ApplyFundFlows(v, latest).1;
    assert TimeframeAligned in v2.reasons <==> TimeframeAligned in v.reasons by {
      assert v2.reasons[..|v.reasons|] == v.reasons;
    }
    assert TimeframeNotAligned in v2.risks <==> TimeframeNotAligned in v.risks by {
      assert v2.risks[..|v.risks|] == v.risks;
    }
  }

  /** The two filters together never raise a signal and lower it by at most
      two steps; STRONG_BUY survives only when both pass. */
  lemma FiltersOnlyLower(v: Verdict, count: nat, age: int)
    ensures ApplyDecay(ApplyResonance(v, count), age).signal.Rank() <= v.signal.Rank()
    ensures v.signal.Rank() <= ApplyDecay(ApplyResonance(v, count), age).signal.Rank() + 2
    ensures ApplyDecay(ApplyResonance(v, count), age).signal == StrongBuy <==>
      v.signal == StrongBuy && count >= ResonanceMinimum && age <= SignalExpiryDays
  {
  }
}
