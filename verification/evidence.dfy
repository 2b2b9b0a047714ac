/** `generate_signal_evidence` (src/analysis_ext.py): the structured evidence
    entries for the trend, bias, volume and support rules, their scores and the
    summary counts. The trend and volume arrive as the Chinese status labels,
    as in the Python signature; the display texts (conditions, formatted actual
    values, notes) are reduced to whether an entry carries a risk note. */
module Evidence {

  import opened Outcomes
  import opened Regimes
  import Scoring

  datatype EvidenceKind = TrendRule | BiasRule | VolumeRule | SupportRule

  /** The `direction` strings. */
  datatype Direction = Fired | NotOptimal | Invalidated | Neutral
  {
    function Label(): string
    {
      match this
      case Fired => "触发"
      case NotOptimal => "未触发最优"
      case Invalidated => "失效"
      case Neutral => "中性"
    }
  }

  datatype SignalEvidence = SignalEvidence(
    rule: string,
    kind: EvidenceKind,
    triggered: bool,
    direction: Direction,
    weight: int,
    contribution: int,
    risky: bool)

  datatype EvidenceSummary = EvidenceSummary(
    total: int,
    entries: seq<SignalEvidence>,
    triggeredCount: nat,
    invalidCount: nat,
    riskCount: nat)

  /** `scoring_config`: section name to key to points. */
  type ScoringConfig = map<string, map<string, int>>

  /** The table used when no configuration is passed. */
  const DefaultScoringConfig: ScoringConfig := map[
    "trend" := map["weight" := 30, "strong_bull" := 30, "bull" := 26, "weak_bull" := 18],
    "bias" := map["weight" := 20, "optimal_below" := 20, "acceptable_below" := 16],
    "volume" := map["weight" := 15, "shrink_down" := 15, "heavy_up" := 12],
    "support" := map["weight" := 10, "ma5_support" := 5, "ma10_support" := 5],
    "macd" := map["weight" := 15, "golden_cross_zero" := 15, "golden_cross" := 12],
    "rsi" := map["weight" := 10, "oversold" := 10, "overbought" := 0]]

  /** `scoring_config.get(name, {})`, with the default table for a missing config. */
  function Section(config: Option<ScoringConfig>, name: string): (r: map<string, int>)
    ensures config.Some? && name !in config.value ==> r == map[]
    ensures config.None? && name in DefaultScoringConfig ==> r == DefaultScoringConfig[name]
  {
    var c := config.GetOr(DefaultScoringConfig);
    if name in c then c[name] else map[]
  }

  /** `section.get(key, default)`. */
  function Get(section: map<string, int>, key: string, default: int): (r: int)
    ensures key in section ==> r == section[key]
    ensures key !in section ==> r == default
  {
    if key in section then section[key] else default
  }

  // ---------------------------------------------------------------- the four rules

  /** The trend entry; the weak-bear label (and any unknown text) has none. */
  function TrendEvidence(trend: string, cfg: map<string, int>): (r: Option<SignalEvidence>)
    ensures r.Some? <==> trend in {"强势多头", "多头排列", "弱势多头", "盘整", "空头排列", "强势空头"}
    ensures r.Some? ==> r.value.kind == TrendRule && r.value.weight == Get(cfg, "weight", 30)
    ensures r.Some? ==> (r.value.triggered <==> r.value.direction == Fired)
    ensures r.Some? ==> (r.value.risky <==> r.value.direction == Invalidated)
    ensures r.Some? && r.value.triggered <==> trend in {"强势多头", "多头排列"}
    ensures r.Some? && r.value.direction == Invalidated <==> trend in {"空头排列", "强势空头"}
    ensures trend == "强势空头" ==> r.Some? && r.value.contribution == 0
  {
    var weight := Get(cfg, "weight", 30);
    if trend == "强势多头" then
      Some(SignalEvidence("ma_alignment", TrendRule, true, Fired, weight, Get(cfg, "strong_bull", 30), false))
    else if trend == "多头排列" then
      Some(SignalEvidence("ma_alignment", TrendRule, true, Fired, weight, Get(cfg, "bull", 26), false))
    else if trend in {"弱势多头", "盘整"} then
      var score := if trend == "弱势多头" then Get(cfg, "weak_bull", 18) else Get(cfg, "consolidation", 12);
      Some(SignalEvidence("ma_alignment", TrendRule, false, NotOptimal, weight, score, false))
    else if trend in {"空头排列", "强势空头"} then
      var score := if trend == "强势空头" then 0 else Get(cfg, "bear", 4);
      Some(SignalEvidence("ma_alignment", TrendRule, false, Invalidated, weight, score, true))
    else None
  }

  /** The bias entry. The "near MA5" band scores 18 and the band above 5%
      scores 4 whatever the configuration says; the upper band edge is a
      fixed 5%, not the configured bias threshold. */
  function BiasEvidence(bias: real, cfg: map<string, int>): (r: SignalEvidence)
    ensures r.kind == BiasRule && r.weight == Get(cfg, "weight", 20)
    ensures r.triggered <==> r.direction == Fired
    ensures r.risky <==> r.direction == Invalidated
    ensures r.direction == Invalidated <==> bias <= -5.0 || bias >= 5.0
    ensures r.direction in {Fired, Invalidated}
    ensures 0.0 <= bias < 2.0 ==> r.contribution == 18
    ensures bias >= 5.0 ==> r.contribution == 4
  {
    var weight := Get(cfg, "weight", 20);
    if bias < 0.0 then
      if bias > -3.0 then
        SignalEvidence("bias_ma5", BiasRule, true, Fired, weight, Get(cfg, "optimal_below", 20), false)
      else if bias > -5.0 then
        SignalEvidence("bias_ma5", BiasRule, true, Fired, weight, Get(cfg, "acceptable_below", 16), false)
      else
        SignalEvidence("bias_ma5", BiasRule, false, Invalidated, weight, Get(cfg, "over_threshold", 4), true)
    else if bias < 2.0 then
      SignalEvidence("bias_ma5", BiasRule, true, Fired, weight, 18, false)
    else if bias < 5.0 then
      SignalEvidence("bias_ma5", BiasRule, true, Fired, weight, Get(cfg, "acceptable_above", 14), false)
    else
      SignalEvidence("bias_ma5", BiasRule, false, Invalidated, weight, 4, true)
  }

  /** `vol_score_map.get(volume_status, 10)`. */
  function VolumeScore(volume: string, cfg: map<string, int>): (r: int)
    ensures volume !in {"缩量回调", "放量上涨", "量能正常", "缩量上涨", "放量下跌"} ==> r == 10
    ensures volume == "量能正常" ==> r == Get(cfg, "normal", 10)
  {
    if volume == "缩量回调" then Get(cfg, "shrink_down", 15)
    else if volume == "放量上涨" then Get(cfg, "heavy_up", 12)
    else if volume == "量能正常" then Get(cfg, "normal", 10)
    else if volume == "缩量上涨" then Get(cfg, "shrink_up", 6)
    else if volume == "放量下跌" then Get(cfg, "heavy_down", 0)
    else 10
  }

  /** The volume entry, always present. */
  function VolumeEvidence(volume: string, cfg: map<string, int>): (r: SignalEvidence)
    ensures r.kind == VolumeRule && r.weight == Get(cfg, "weight", 15)
    ensures r.triggered <==> volume in {"缩量回调", "放量上涨"}
    ensures r.direction == (if r.triggered then Fired else Neutral)
    ensures r.risky <==> volume == "缩量上涨"
    ensures r.contribution == VolumeScore(volume, cfg)
  {
    var hit := volume in {"缩量回调", "放量上涨"};
    SignalEvidence("volume_status", VolumeRule, hit, if hit then Fired else Neutral,
      Get(cfg, "weight", 15), VolumeScore(volume, cfg), volume == "缩量上涨")
  }

  /** The support entries: one per moving average that holds. */
  function SupportEvidence(ma5: bool, ma10: bool, cfg: map<string, int>): (r: seq<SignalEvidence>)
    ensures |r| == (if ma5 then 1 else 0) + (if ma10 then 1 else 0)
    ensures forall k :: 0 <= k < |r| ==>
      r[k].kind == SupportRule && r[k].triggered && r[k].direction == Fired && !r[k].risky
  {
    var weight := Get(cfg, "weight", 10);
    (if ma5 then [SignalEvidence("support_ma5", SupportRule, true, Fired, weight, Get(cfg, "ma5_support", 5), false)] else [])
      + (if ma10 then [SignalEvidence("support_ma10", SupportRule, true, Fired, weight, Get(cfg, "ma10_support", 5), false)] else [])
  }

  // ---------------------------------------------------------------- counting

  /** Entries of one kind. */
  function CountKind(s: seq<SignalEvidence>, kind: EvidenceKind): (r: nat)
    ensures r <= |s|
    decreases |s|
  {
    if |s| == 0 then 0 else (if s[0].kind == kind then 1 else 0) + CountKind(s[1..], kind)
  }

  /** Entries counted in `triggered_count`: triggered with direction "触发". */
  function CountTriggered(s: seq<SignalEvidence>): (r: nat)
    ensures r <= |s|
    decreases |s|
  {
    if |s| == 0 then 0 else (if s[0].triggered && s[0].direction == Fired then 1 else 0) + CountTriggered(s[1..])
  }

  /** Entries counted in `invalid_count`: direction "失效". */
  function CountInvalid(s: seq<SignalEvidence>): (r: nat)
    ensures r <= |s|
    decreases |s|
  {
    if |s| == 0 then 0 else (if s[0].direction == Invalidated then 1 else 0) + CountInvalid(s[1..])
  }

  /** Entries counted in `risk_count`: those with a risk note. */
  function CountRisky(s: seq<SignalEvidence>): (r: nat)
    ensures r <= |s|
    decreases |s|
  {
    if |s| == 0 then 0 else (if s[0].risky then 1 else 0) + CountRisky(s[1..])
  }

  function Contributions(s: seq<SignalEvidence>): int
    decreases |s|
  {
    if |s| == 0 then 0 else s[0].contribution + Contributions(s[1..])
  }

  lemma {:induction false} AppendCounts(a: seq<SignalEvidence>, b: seq<SignalEvidence>)
    ensures Contributions(a + b) == Contributions(a) + Contributions(b)
    ensures forall kind :: CountKind(a + b, kind) == CountKind(a, kind) + CountKind(b, kind)
    decreases |a|
  {
    if |a| == 0 {
      assert a + b == b;
    } else {
      assert (a + b)[1..] == a[1..] + b;
      AppendCounts(a[1..], b);
    }
  }

  /** No entry is both triggered and invalidated. */
  lemma {:induction false} TriggeredAndInvalidDisjoint(s: seq<SignalEvidence>)
    ensures CountTriggered(s) + CountInvalid(s) <= |s|
    decreases |s|
  {
    if |s| > 0 {
      TriggeredAndInvalidDisjoint(s[1..]);
    }
  }

  function TrendEntries(trend: string, cfg: map<string, int>): seq<SignalEvidence>
  {
    match TrendEvidence(trend, cfg)
    case None => []
    case Some(e) => [e]
  }

  /** The four groups of entries in the order the Python code appends them. */
  function Entries(trend: string, bias: real, volume: string, supportMa5: bool, supportMa10: bool,
                   config: Option<ScoringConfig>): seq<SignalEvidence>
  {
    TrendEntries(trend, Section(config, "trend"))
      + [BiasEvidence(bias, Section(config, "bias"))]
      + [VolumeEvidence(volume, Section(config, "volume"))]
      + SupportEvidence(supportMa5, supportMa10, Section(config, "support"))
  }

  /** The trend points, 0 when there is no trend entry. */
  function TrendScore(trend: string, cfg: map<string, int>): int
  {
    match TrendEvidence(trend, cfg) case None => 0 case Some(e) => e.contribution
  }

  /** The support points. */
  function SupportScore(ma5: bool, ma10: bool, cfg: map<string, int>): int
  {
    (if ma5 then Get(cfg, "ma5_support", 5) else 0) + (if ma10 then Get(cfg, "ma10_support", 5) else 0)
  }

  /** The running total, kept separately from the entries as the Python code does. */
  function RunningTotal(trend: string, bias: real, volume: string, supportMa5: bool, supportMa10: bool,
                        config: Option<ScoringConfig>): int
  {
    TrendScore(trend, Section(config, "trend"))
      + BiasEvidence(bias, Section(config, "bias")).contribution
      + VolumeScore(volume, Section(config, "volume"))
      + SupportScore(supportMa5, supportMa10, Section(config, "support"))
  }

  /** `generate_signal_evidence`. */
  function GenerateEvidence(trend: string, bias: real, volume: string, supportMa5: bool, supportMa10: bool,
                            config: Option<ScoringConfig>): (r: EvidenceSummary)
    ensures r.total == Contributions(r.entries)
    ensures 2 <= |r.entries| <= 5
    ensures CountKind(r.entries, BiasRule) == 1
    ensures CountKind(r.entries, VolumeRule) == 1
    ensures CountKind(r.entries, TrendRule) == (if TrendEvidence(trend, Section(config, "trend")).Some? then 1 else 0)
    ensures CountKind(r.entries, SupportRule) == (if supportMa5 then 1 else 0) + (if supportMa10 then 1 else 0)
    ensures r.triggeredCount == CountTriggered(r.entries)
    ensures r.invalidCount == CountInvalid(r.entries)
    ensures r.riskCount == CountRisky(r.entries)
    ensures r.triggeredCount + r.invalidCount <= |r.entries|
  {
    var entries := Entries(trend, bias, volume, supportMa5, supportMa10, config);
    var total := RunningTotal(trend, bias, volume, supportMa5, supportMa10, config);
    EntriesFacts(trend, bias, volume, supportMa5, supportMa10, config);
    TriggeredAndInvalidDisjoint(entries);
    EvidenceSummary(total, entries, CountTriggered(entries), CountInvalid(entries), CountRisky(entries))
  }

  /** The kind counts and the total of the entry list, group by group. */
  lemma EntriesFacts(trend: string, bias: real, volume: string, supportMa5: bool, supportMa10: bool,
                     config: Option<ScoringConfig>)
    ensures var s := Entries(trend, bias, volume, supportMa5, supportMa10, config);
      && 2 <= |s| <= 5
      && Contributions(s) == RunningTotal(trend, bias, volume, supportMa5, supportMa10, config)
      && CountKind(s, BiasRule) == 1
      && CountKind(s, VolumeRule) == 1
      && CountKind(s, TrendRule) == (if TrendEvidence(trend, Section(config, "trend")).Some? then 1 else 0)
      && CountKind(s, SupportRule) == (if supportMa5 then 1 else 0) + (if supportMa10 then 1 else 0)
  {
    GroupFacts(trend, bias, volume, supportMa5, supportMa10,
      Section(config, "trend"), Section(config, "bias"), Section(config, "volume"), Section(config, "support"));
  }

  /** The same facts for any four sections. */
  lemma GroupFacts(trend: string, bias: real, volume: string, supportMa5: bool, supportMa10: bool,
                   ct: map<string, int>, cb: map<string, int>, cv: map<string, int>, cs: map<string, int>)
    ensures var s := TrendEntries(trend, ct) + [BiasEvidence(bias, cb)] + [VolumeEvidence(volume, cv)]
                     + SupportEvidence(supportMa5, supportMa10, cs);
      && 2 <= |s| <= 5
      && Contributions(s) == TrendScore(trend, ct) + BiasEvidence(bias, cb).contribution
                             + VolumeScore(volume, cv) + SupportScore(supportMa5, supportMa10, cs)
      && CountKind(s, BiasRule) == 1
      && CountKind(s, VolumeRule) == 1
      && CountKind(s, TrendRule) == (if TrendEvidence(trend, ct).Some? then 1 else 0)
      && CountKind(s, SupportRule) == (if supportMa5 then 1 else 0) + (if supportMa10 then 1 else 0)
  {
    var t := TrendEntries(trend, ct);
    var b := [BiasEvidence(bias, cb)];
    var v := [VolumeEvidence(volume, cv)];
    var sp := SupportEvidence(supportMa5, supportMa10, cs);
    GroupCounts(t, b, v, sp);
    SingleEntry(t);
    SingleEntry(b);
    SingleEntry(v);
    SupportFacts(supportMa5, supportMa10, cs);
  }

  /** Totals and counts of four concatenated groups. */
  lemma GroupCounts(t: seq<SignalEvidence>, b: seq<SignalEvidence>, v: seq<SignalEvidence>, sp: seq<SignalEvidence>)
    ensures Contributions(t + b + v + sp) == Contributions(t) + Contributions(b) + Contributions(v) + Contributions(sp)
    ensures forall kind ::
      CountKind(t + b + v + sp, kind) == CountKind(t, kind) + CountKind(b, kind) + CountKind(v, kind) + CountKind(sp, kind)
  {
    AppendCounts(t + b + v, sp);
    AppendCounts(t + b, v);
    AppendCounts(t, b);
  }

  lemma SingleEntry(s: seq<SignalEvidence>)
    requires |s| <= 1
    ensures Contributions(s) == (if |s| == 1 then s[0].contribution else 0)
    ensures forall kind :: CountKind(s, kind) == (if |s| == 1 && s[0].kind == kind then 1 else 0)
  {
  }

  lemma SupportFacts(ma5: bool, ma10: bool, cfg: map<string, int>)
    ensures Contributions(SupportEvidence(ma5, ma10, cfg)) == SupportScore(ma5, ma10, cfg)
    ensures CountKind(SupportEvidence(ma5, ma10, cfg), SupportRule) == |SupportEvidence(ma5, ma10, cfg)|
    ensures forall kind :: kind != SupportRule ==> CountKind(SupportEvidence(ma5, ma10, cfg), kind) == 0
  {
    var weight := Get(cfg, "weight", 10);
    var a := if ma5 then [SignalEvidence("support_ma5", SupportRule, true, Fired, weight, Get(cfg, "ma5_support", 5), false)] else [];
    var c := if ma10 then [SignalEvidence("support_ma10", SupportRule, true, Fired, weight, Get(cfg, "ma10_support", 5), false)] else [];
    assert SupportEvidence(ma5, ma10, cfg) == a + c;
    AppendCounts(a, c);
    SingleEntry(a);
    SingleEntry(c);
  }

  // ---------------------------------------------------------------- properties

  /** Each built-in section agrees with an empty one on every lookup the rules make. */
  lemma DefaultSectionsAreDefaults()
    ensures Section(None, "trend") == map["weight" := 30, "strong_bull" := 30, "bull" := 26, "weak_bull" := 18]
    ensures Section(None, "bias") == map["weight" := 20, "optimal_below" := 20, "acceptable_below" := 16]
    ensures Section(None, "volume") == map["weight" := 15, "shrink_down" := 15, "heavy_up" := 12]
    ensures Section(None, "support") == map["weight" := 10, "ma5_support" := 5, "ma10_support" := 5]
    ensures Section(Some(map[]), "trend") == map[] && Section(Some(map[]), "bias") == map[]
    ensures Section(Some(map[]), "volume") == map[] && Section(Some(map[]), "support") == map[]
  {
  }

  lemma TrendDefaultsMatch(trend: string)
    ensures TrendEvidence(trend, Section(None, "trend")) == TrendEvidence(trend, map[])
    ensures TrendScore(trend, Section(None, "trend")) == TrendScore(trend, map[])
  {
    DefaultSectionsAreDefaults();
  }

  lemma BiasDefaultsMatch(bias: real)
    ensures BiasEvidence(bias, Section(None, "bias")) == BiasEvidence(bias, map[])
  {
    DefaultSectionsAreDefaults();
  }

  lemma VolumeDefaultsMatch(volume: string)
    ensures VolumeEvidence(volume, Section(None, "volume")) == VolumeEvidence(volume, map[])
    ensures VolumeScore(volume, Section(None, "volume")) == VolumeScore(volume, map[])
  {
    DefaultSectionsAreDefaults();
  }

  lemma SupportDefaultsMatch(ma5: bool, ma10: bool)
    ensures SupportEvidence(ma5, ma10, Section(None, "support")) == SupportEvidence(ma5, ma10, map[])
    ensures SupportScore(ma5, ma10, Section(None, "support")) == SupportScore(ma5, ma10, map[])
  {
    DefaultSectionsAreDefaults();
  }

  lemma EntriesDefaultsMatch(trend: string, bias: real, volume: string, supportMa5: bool, supportMa10: bool)
    ensures Entries(trend, bias, volume, supportMa5, supportMa10, None)
         == Entries(trend, bias, volume, supportMa5, supportMa10, Some(map[]))
  {
    TrendDefaultsMatch(trend);
    BiasDefaultsMatch(bias);
    VolumeDefaultsMatch(volume);
    SupportDefaultsMatch(supportMa5, supportMa10);
    assert Section(Some(map[]), "trend") == map[] && Section(Some(map[]), "bias") == map[];
    assert Section(Some(map[]), "volume") == map[] && Section(Some(map[]), "support") == map[];
  }

  lemma TotalDefaultsMatch(trend: string, bias: real, volume: string, supportMa5: bool, supportMa10: bool)
    ensures RunningTotal(trend, bias, volume, supportMa5, supportMa10, None)
         == RunningTotal(trend, bias, volume, supportMa5, supportMa10, Some(map[]))
  {
    TrendDefaultsMatch(trend);
    BiasDefaultsMatch(bias);
    VolumeDefaultsMatch(volume);
    SupportDefaultsMatch(supportMa5, supportMa10);
    assert Section(Some(map[]), "trend") == map[] && Section(Some(map[]), "bias") == map[];
    assert Section(Some(map[]), "volume") == map[] && Section(Some(map[]), "support") == map[];
  }

  /** Passing no configuration is the same as passing an empty one: every key
      of the built-in table repeats the default of its lookup. */
  lemma NoConfigIsEmptyConfig(trend: string, bias: real, volume: string, supportMa5: bool, supportMa10: bool)
    ensures GenerateEvidence(trend, bias, volume, supportMa5, supportMa10, None)
         == GenerateEvidence(trend, bias, volume, supportMa5, supportMa10, Some(map[]))
  {
    EntriesDefaultsMatch(trend, bias, volume, supportMa5, supportMa10);
    TotalDefaultsMatch(trend, bias, volume, supportMa5, supportMa10);
  }

  /** The example at the bottom of src/analysis_ext.py totals 65: bull 26,
      bias 2.9% gives 14, shrink pull-back 15, both supports 5 each. */
  lemma SelfTestTotal()
    ensures GenerateEvidence("多头排列", 2.9, "缩量回调", true, true, None).total == 65
    ensures |GenerateEvidence("多头排列", 2.9, "缩量回调", true, true, None).entries| == 5
  {
    DefaultSectionsAreDefaults();
  }

  lemma TrendScoreMatches(trend: TrendStatus)
    ensures TrendScore(trend.Label(), map[]) == Scoring.TrendPoints(trend) - (if trend == WeakBear then 8 else 0)
  {
  }

  lemma BiasScoreMatches(bias: real)
    ensures BiasEvidence(bias, map[]).contribution
      == Scoring.BiasPoints(bias, 5.0) - (if bias <= -5.0 then 4 else 0)
  {
  }

  lemma VolumeScoreMatches(volume: VolumeStatus)
    ensures VolumeScore(volume.Label(), map[]) == Scoring.VolumePoints(volume)
  {
  }

  /** With the default table and the default bias threshold of 5%, the
      evidence total equals the trend, bias, volume and support points of the
      composite scorer, except that a weak bear trend contributes no entry (8
      points fewer) and a bias at or below -5% scores 4 instead of 8. */
  lemma EvidenceMatchesScorer(trend: TrendStatus, bias: real, volume: VolumeStatus, supportMa5: bool, supportMa10: bool)
    ensures GenerateEvidence(trend.Label(), bias, volume.Label(), supportMa5, supportMa10, None).total
      == Scoring.TrendPoints(trend) + Scoring.BiasPoints(bias, 5.0) + Scoring.VolumePoints(volume)
         + Scoring.SupportPoints(supportMa5, supportMa10)
         - (if trend == WeakBear then 8 else 0) - (if bias <= -5.0 then 4 else 0)
  {
    NoConfigIsEmptyConfig(trend.Label(), bias, volume.Label(), supportMa5, supportMa10);
    DefaultSectionsAreDefaults();
    TrendScoreMatches(trend);
    BiasScoreMatches(bias);
    VolumeScoreMatches(volume);
  }
}
