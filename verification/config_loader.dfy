/** The rule configuration of src/analyzer_config/config_loader.py: the
    parsed YAML document as a map of sections, the environment overrides,
    the style preset, the conversion to typed rules with defaults, and the
    process-wide cache. Reading the file and the environment is left to the
    caller: the parsed document and the parsed variables are inputs. */
module Config {

  import opened Outcomes
  import Analyzer

  // ---------------------------------------------------------------- the document

  /** A value inside a section: a number, an integer, a list of integers, or
      a nested mapping of numbers (in document order). */
  datatype Value = Num(x: real) | Whole(n: int) | Numbers(ns: seq<int>) | Table(entries: seq<(string, real)>)

  type Section = map<string, Value>

  /** The loaded document, `{}` when the file is missing or unreadable. */
  type Document = map<string, Section>

  /** `config.get(name, {})`. */
  function SectionOf(c: Document, name: string): Section
  {
    if name in c then c[name] else map[]
  }

  // ---------------------------------------------------------------- environment overrides

  /** The three variables after parsing: None when unset, empty or not a number. */
  datatype Environment = Environment(biasThreshold: Option<real>, rsiOverbought: Option<real>, rsiOversold: Option<real>)

  /** `dict.update` of a section with the values that are present. */
  function Overlay(s: Section, key: string, v: Option<real>): (r: Section)
    ensures v.None? ==> r == s
    ensures v.Some? ==> key in r && r[key] == Num(v.value)
    ensures forall k :: k != key ==> (k in r <==> k in s) && (k in s ==> r[k] == s[k])
  {
    match v
    case None => s
    case Some(x) => s[key := Num(x)]
  }

  /** `_apply_env_overrides`: the variables update the bias and rsi sections
      when the document has them and never add a section. */
  function ApplyEnvOverrides(c: Document, env: Environment): (r: Document)
    ensures r.Keys == c.Keys
    ensures forall s :: s in c && s != "bias" && s != "rsi" ==> r[s] == c[s]
    ensures "bias" in c && env.biasThreshold.Some? ==> "threshold" in r["bias"] && r["bias"]["threshold"] == Num(env.biasThreshold.value)
    ensures "rsi" in c && env.rsiOverbought.Some? ==> "overbought" in r["rsi"] && r["rsi"]["overbought"] == Num(env.rsiOverbought.value)
    ensures "rsi" in c && env.rsiOversold.Some? ==> "oversold" in r["rsi"] && r["rsi"]["oversold"] == Num(env.rsiOversold.value)
    ensures "bias" in c ==> forall k :: k != "threshold" ==> (k in r["bias"] <==> k in c["bias"])
    ensures "rsi" in c ==> forall k :: k != "overbought" && k != "oversold" ==> (k in r["rsi"] <==> k in c["rsi"])
    ensures "bias" in c ==> forall k :: k in c["bias"] && k != "threshold" ==> r["bias"][k] == c["bias"][k]
    ensures "rsi" in c ==> forall k :: k in c["rsi"] && k != "overbought" && k != "oversold" ==> r["rsi"][k] == c["rsi"][k]
    ensures "bias" in c && env.biasThreshold.None? ==> r["bias"] == c["bias"]
    ensures "rsi" in c && env.rsiOverbought.None? ==>
      ("overbought" in r["rsi"] <==> "overbought" in c["rsi"]) &&
      ("overbought" in c["rsi"] ==> r["rsi"]["overbought"] == c["rsi"]["overbought"])
    ensures "rsi" in c && env.rsiOversold.None? ==>
      ("oversold" in r["rsi"] <==> "oversold" in c["rsi"]) &&
      ("oversold" in c["rsi"] ==> r["rsi"]["oversold"] == c["rsi"]["oversold"])
    ensures "rsi" in c && env.rsiOverbought.None? && env.rsiOversold.None? ==> r["rsi"] == c["rsi"]
  {
    var withBias := if "bias" in c then c["bias" := Overlay(c["bias"], "threshold", env.biasThreshold)] else c;
    if "rsi" in withBias then
      withBias["rsi" := Overlay(Overlay(withBias["rsi"], "overbought", env.rsiOverbought), "oversold", env.rsiOversold)]
    else withBias
  }

  /** Without a document there is nothing to override. */
  lemma EnvOverridesNeedADocument(env: Environment)
    ensures ApplyEnvOverrides(map[], env) == map[]
  {
  }

  /** Applying the overrides twice is applying them once. */
  lemma EnvOverridesIdempotent(c: Document, env: Environment)
    ensures ApplyEnvOverrides(ApplyEnvOverrides(c, env), env) == ApplyEnvOverrides(c, env)
  {
    var once := ApplyEnvOverrides(c, env);
    var twice := ApplyEnvOverrides(once, env);
    forall s | s in once
      ensures twice[s] == once[s]
    {
      if s == "bias" {
        OverlayIdempotent(c["bias"], "threshold", env.biasThreshold);
      } else if s == "rsi" {
        var base := if "bias" in c then c["bias" := Overlay(c["bias"], "threshold", env.biasThreshold)]["rsi"] else c["rsi"];
        var first := Overlay(base, "overbought", env.rsiOverbought);
        var both := Overlay(first, "oversold", env.rsiOversold);
        assert once["rsi"] == both;
        OverlaySwap(both, env.rsiOverbought, env.rsiOversold);
      }
    }
  }

  lemma OverlayIdempotent(s: Section, key: string, v: Option<real>)
    ensures Overlay(Overlay(s, key, v), key, v) == Overlay(s, key, v)
  {
  }

  /** Re-overlaying both RSI keys on a section that already carries them changes nothing. */
  lemma OverlaySwap(both: Section, overbought: Option<real>, oversold: Option<real>)
    requires overbought.Some? ==> "overbought" in both && both["overbought"] == Num(overbought.value)
    requires oversold.Some? ==> "oversold" in both && both["oversold"] == Num(oversold.value)
    ensures Overlay(Overlay(both, "overbought", overbought), "oversold", oversold) == both
  {
  }

  // ---------------------------------------------------------------- strings

  predicate StartsWith(s: string, prefix: string)
  {
    prefix <= s
  }

  predicate EndsWith(s: string, suffix: string)
  {
    |suffix| <= |s| && s[|s| - |suffix|..] == suffix
  }

  predicate OccursAt(s: string, pattern: string, i: int)
  {
    0 <= i && i + |pattern| <= |s| && s[i..i + |pattern|] == pattern
  }

  /** The pattern occurs nowhere in s. */
  predicate Free(s: string, pattern: string)
  {
    forall i :: 0 <= i < |s| ==> !OccursAt(s, pattern, i)
  }

  lemma FreeTail(s: string, pattern: string)
    requires |s| > 0
    ensures Free(s, pattern) ==> Free(s[1..], pattern)
  {
    if Free(s, pattern) {
      forall i | 0 <= i < |s[1..]|
        ensures !OccursAt(s[1..], pattern, i)
      {
        if OccursAt(s[1..], pattern, i) {
          assert s[1..][i..i + |pattern|] == s[i + 1..i + 1 + |pattern|];
          assert OccursAt(s, pattern, i + 1);
        }
      }
    }
  }

  /** Python's `s.replace(pattern, "")`: every non-overlapping occurrence,
      scanning left to right, is removed. */
  function RemoveAll(s: string, pattern: string): (r: string)
    requires |pattern| > 0
    ensures |r| <= |s|
    ensures Free(s, pattern) ==> r == s
    decreases |s|
  {
    if |s| < |pattern| then s
    else if StartsWith(s, pattern) then
      assert OccursAt(s, pattern, 0);
      RemoveAll(s[|pattern|..], pattern)
    else
      FreeTail(s, pattern);
      [s[0]] + RemoveAll(s[1..], pattern)
  }

  // ---------------------------------------------------------------- the style preset

  /** The fields each section's dataclass accepts. */
  const BiasFields: set<string> := {"threshold", "optimal_zone", "warning_zone"}
  const RsiFields: set<string> := {"periods", "overbought", "oversold", "neutral_high", "neutral_low"}
  const SignalsFields: set<string> := {"strong_buy", "buy", "hold", "wait", "sell", "strong_sell"}

  /** The three preset rules, tested in order on one key of the preset. */
  datatype PresetRule = BiasRule | RsiRule | SignalsRule | NoRule

  /** The rule a preset key triggers in the document as written: each rule
      asks for the key itself to be present already in the target section. */
  function RuleAsWritten(c: Document, key: string): (r: PresetRule)
    ensures r == BiasRule <==> key in SectionOf(c, "bias") && StartsWith(key, "bias_threshold")
    ensures r == RsiRule <==>
      && !(key in SectionOf(c, "bias") && StartsWith(key, "bias_threshold"))
      && key in SectionOf(c, "rsi") && StartsWith(key, "rsi_")
    ensures r == SignalsRule <==>
      && !(key in SectionOf(c, "bias") && StartsWith(key, "bias_threshold"))
      && !(key in SectionOf(c, "rsi") && StartsWith(key, "rsi_"))
      && key in SectionOf(c, "signals") && EndsWith(key, "threshold")
    ensures r == NoRule <==>
      && !(key in SectionOf(c, "bias") && StartsWith(key, "bias_threshold"))
      && !(key in SectionOf(c, "rsi") && StartsWith(key, "rsi_"))
      && !(key in SectionOf(c, "signals") && EndsWith(key, "threshold"))
  {
    if key in SectionOf(c, "bias") && StartsWith(key, "bias_threshold") then BiasRule
    else if key in SectionOf(c, "rsi") && StartsWith(key, "rsi_") then RsiRule
    else if key in SectionOf(c, "signals") && EndsWith(key, "threshold") then SignalsRule
    else NoRule
  }

  /** The cell, section and field, a rule writes for a preset key. */
  function Target(rule: PresetRule, key: string): Option<(string, string)>
  {
    match rule
    case BiasRule => Some(("bias", "threshold"))
    case RsiRule => Some(("rsi", RemoveAll(key, "rsi_")))
    case SignalsRule => Some(("signals", RemoveAll(key, "_threshold")))
    case NoRule => None
  }

  /** A cell some rule could write for the key, judged by the key's shape alone. */
  predicate MayTarget(key: string, s: string, k: string)
  {
    || (s == "bias" && k == "threshold" && StartsWith(key, "bias_threshold"))
    || (s == "rsi" && StartsWith(key, "rsi_") && k == RemoveAll(key, "rsi_"))
    || (s == "signals" && EndsWith(key, "threshold") && k == RemoveAll(key, "_threshold"))
  }

  /** The write a rule performs: the preset value lands in the rule's cell,
      a missing target section is created, and every other cell and section
      keeps its value. */
  function ApplyRule(c: Document, rule: PresetRule, key: string, v: real): (r: Document)
    ensures rule == NoRule ==> r == c
    ensures rule != NoRule ==>
      var (s, k) := Target(rule, key).value; s in r && k in r[s] && r[s][k] == Num(v)
    ensures forall s, k :: s in c && k in c[s] && Target(rule, key) != Some((s, k)) ==>
      s in r && k in r[s] && r[s][k] == c[s][k]
    ensures forall s, k :: s in r && k in r[s] ==> (s in c && k in c[s]) || Target(rule, key) == Some((s, k))
    ensures forall s :: s in r && (rule == NoRule || s != Target(rule, key).value.0) ==> s in c && r[s] == c[s]
    ensures forall s :: s in c ==> s in r
    ensures forall s :: s in r && s != "bias" && s != "rsi" && s != "signals" ==> s in c && r[s] == c[s]
    ensures forall s, k :: s in c && k in c[s] ==> k in r[s]
  {
    match rule
    case BiasRule => c["bias" := SectionOf(c, "bias")["threshold" := Num(v)]]
    case RsiRule => c["rsi" := SectionOf(c, "rsi")[RemoveAll(key, "rsi_") := Num(v)]]
    case SignalsRule => c["signals" := SectionOf(c, "signals")[RemoveAll(key, "_threshold") := Num(v)]]
    case NoRule => c
  }

  /** No entry's key could write the cell. */
  predicate Untouched(entries: seq<(string, real)>, s: string, k: string)
  {
    forall i :: 0 <= i < |entries| ==> !MayTarget(entries[i].0, s, k)
  }

  /** The preset loop as written, over the preset's entries in document
      order: a cell no key could write keeps its value, and a cell that
      changed or appeared holds the value of an entry whose key could write it. */
  function PresetEntriesAsWritten(c: Document, entries: seq<(string, real)>): (r: Document)
    ensures forall s :: s in r && s != "bias" && s != "rsi" && s != "signals" ==> s in c && r[s] == c[s]
    ensures forall s, k :: s in c && k in c[s] && Untouched(entries, s, k) ==> s in r && k in r[s] && r[s][k] == c[s][k]
    ensures forall s, k :: s in r && k in r[s] && !(s in c && k in c[s] && r[s][k] == c[s][k]) ==>
      exists i :: 0 <= i < |entries| && MayTarget(entries[i].0, s, k) && r[s][k] == Num(entries[i].1)
    decreases |entries|
  {
    if |entries| == 0 then c
    else
      var (key, v) := entries[0];
      PresetEntriesAsWritten(ApplyRule(c, RuleAsWritten(c, key), key, v), entries[1..])
  }

  /** `_apply_preset`: "" and "balanced" leave the document alone, as does a
      style the presets section does not define; a preset that is not a
      mapping fails on `.items()`. */
  function ApplyPreset(c: Document, style: string): (r: Result<Document>)
    ensures style == "" || style == "balanced" ==> r == Ok(c)
    ensures style !in SectionOf(c, "presets") ==> r == Ok(c)
    ensures r.Err? <==>
      style != "" && style != "balanced" && style in SectionOf(c, "presets") && !SectionOf(c, "presets")[style].Table?
    ensures r.Ok? ==> forall s :: s in r.value && s != "bias" && s != "rsi" && s != "signals" ==> s in c && r.value[s] == c[s]
  {
    if style == "" || style == "balanced" then Ok(c)
    else if style !in SectionOf(c, "presets") then Ok(c)
    else match SectionOf(c, "presets")[style]
      case Table(entries) => Ok(PresetEntriesAsWritten(c, entries))
      case _ => Err("AttributeError")
  }

  /** The rule the source evidently means: the key's shape alone picks the
      target section, which is created when missing. */
  function RuleIntended(key: string): (r: PresetRule)
    ensures r == BiasRule <==> StartsWith(key, "bias_threshold")
    ensures r == RsiRule <==> !StartsWith(key, "bias_threshold") && StartsWith(key, "rsi_")
    ensures r == SignalsRule <==>
      !StartsWith(key, "bias_threshold") && !StartsWith(key, "rsi_") && EndsWith(key, "threshold")
  {
    if StartsWith(key, "bias_threshold") then BiasRule
    else if StartsWith(key, "rsi_") then RsiRule
    else if EndsWith(key, "threshold") then SignalsRule
    else NoRule
  }

  /** The cell the intended rule writes for a preset key. */
  function IntendedTarget(key: string): Option<(string, string)>
  {
    Target(RuleIntended(key), key)
  }

  /** The preset loop with the intended rule: a cell no key could write
      keeps its value, and a cell that changed or appeared holds the value
      of an entry whose key could write it. */
  function PresetEntriesIntended(c: Document, entries: seq<(string, real)>): (r: Document)
    ensures forall s :: s in r && s != "bias" && s != "rsi" && s != "signals" ==> s in c && r[s] == c[s]
    ensures forall s, k :: s in c && k in c[s] && Untouched(entries, s, k) ==> s in r && k in r[s] && r[s][k] == c[s][k]
    ensures forall s, k :: s in r && k in r[s] && !(s in c && k in c[s] && r[s][k] == c[s][k]) ==>
      exists i :: 0 <= i < |entries| && IntendedTarget(entries[i].0) == Some((s, k)) && r[s][k] == Num(entries[i].1)
    decreases |entries|
  {
    if |entries| == 0 then c
    else
      var (key, v) := entries[0];
      PresetEntriesIntended(ApplyRule(c, RuleIntended(key), key, v), entries[1..])
  }

  /** With the intended rule, the last entry that writes a cell decides its value. */
  lemma {:induction false} IntendedLastWriterWins(c: Document, entries: seq<(string, real)>, i: nat)
    requires i < |entries| && IntendedTarget(entries[i].0).Some?
    requires forall j :: i < j < |entries| ==> IntendedTarget(entries[j].0) != IntendedTarget(entries[i].0)
    ensures var (s, k) := IntendedTarget(entries[i].0).value; var r := PresetEntriesIntended(c, entries);
      s in r && k in r[s] && r[s][k] == Num(entries[i].1)
    decreases |entries|
  {
    var (key, v) := entries[0];
    var next := ApplyRule(c, RuleIntended(key), key, v);
    var (s, k) := IntendedTarget(entries[i].0).value;
    if i == 0 {
      PresetEntriesKeepWrittenCell(next, entries[1..], s, k);
    } else {
      forall j | i - 1 < j < |entries[1..]|
        ensures IntendedTarget(entries[1..][j].0) != IntendedTarget(entries[1..][i - 1].0)
      {
        assert entries[1..][j] == entries[j + 1];
      }
      IntendedLastWriterWins(next, entries[1..], i - 1);
    }
  }

  /** A cell no later entry writes with the intended rule keeps its value. */
  lemma {:induction false} PresetEntriesKeepWrittenCell(c: Document, entries: seq<(string, real)>, s: string, k: string)
    requires s in c && k in c[s]
    requires forall j :: 0 <= j < |entries| ==> IntendedTarget(entries[j].0) != Some((s, k))
    ensures var r := PresetEntriesIntended(c, entries); s in r && k in r[s] && r[s][k] == c[s][k]
    decreases |entries|
  {
    if |entries| > 0 {
      var (key, v) := entries[0];
      var next := ApplyRule(c, RuleIntended(key), key, v);
      assert IntendedTarget(entries[0].0) != Some((s, k));
      forall j | 0 <= j < |entries[1..]|
        ensures IntendedTarget(entries[1..][j].0) != Some((s, k))
      {
        assert entries[1..][j] == entries[j + 1];
      }
      PresetEntriesKeepWrittenCell(next, entries[1..], s, k);
    }
  }

  /** `_apply_preset` with the intended rule test. */
  function ApplyPresetIntended(c: Document, style: string): (r: Result<Document>)
    ensures style == "" || style == "balanced" ==> r == Ok(c)
    ensures style !in SectionOf(c, "presets") ==> r == Ok(c)
    ensures (r.Ok? && ApplyPreset(c, style).Ok?) || (r.Err? && ApplyPreset(c, style).Err?)
  {
    if style == "" || style == "balanced" then Ok(c)
    else if style !in SectionOf(c, "presets") then Ok(c)
    else match SectionOf(c, "presets")[style]
      case Table(entries) => Ok(PresetEntriesIntended(c, entries))
      case _ => Err("AttributeError")
  }

  // ---------------------------------------------------------------- typed rules with defaults

  datatype MaRules = MaRules(periods: seq<int>)
  datatype BiasRules = BiasRules(threshold: real, optimalZone: real, warningZone: real)
  datatype VolumeRules = VolumeRules(shrinkThreshold: real, heavyThreshold: real)
  datatype MacdRules = MacdRules(fast: int, slow: int, signal: int)
  datatype RsiRules = RsiRules(periods: seq<int>, overbought: real, oversold: real, neutralHigh: real, neutralLow: real)
  datatype SupportRules = SupportRules(tolerance: real)
  datatype ScoringRules = ScoringRules(
    trend: seq<(string, real)>, bias: seq<(string, real)>, volume: seq<(string, real)>,
    support: seq<(string, real)>, macd: seq<(string, real)>, rsi: seq<(string, real)>)
  datatype SignalsRules = SignalsRules(strongBuy: real, buy: real, hold: real, wait: real, sell: real, strongSell: real)
  datatype RiskRules = RiskRules(maxPositionPct: real, maxDailyStopLoss: real, maxSinglePosition: real)
  datatype PresetRules = PresetRules(conservative: seq<(string, real)>, balanced: seq<(string, real)>, aggressive: seq<(string, real)>)

  /** `AnalyzerRules`. */
  datatype Rules = Rules(
    ma: MaRules, bias: BiasRules, volume: VolumeRules, macd: MacdRules, rsi: RsiRules,
    support: SupportRules, scoring: ScoringRules, signals: SignalsRules, risk: RiskRules, presets: PresetRules)

  /** The dataclass defaults. */
  const DefaultRules: Rules := Rules(
    MaRules([5, 10, 20, 60]),
    BiasRules(5.0, 2.0, 3.0),
    VolumeRules(0.7, 1.5),
    MacdRules(12, 26, 9),
    RsiRules([6, 12, 24], 70.0, 30.0, 60.0, 40.0),
    SupportRules(2.0),
    ScoringRules([], [], [], [], [], []),
    SignalsRules(75.0, 60.0, 45.0, 30.0, 20.0, 10.0),
    RiskRules(30.0, 5.0, 20.0),
    PresetRules([], [], []))

  const TypeError := "TypeError"

  /** A value a float field takes: a number, or a whole number, which Python
      accepts for a float field. */
  predicate Numeric(v: Value)
  {
    v.Num? || v.Whole?
  }

  function AsReal(v: Value): real
    requires Numeric(v)
  {
    if v.Num? then v.x else v.n as real
  }

  /** Each kind of field converts when it is absent or holds its kind of value. */
  predicate RealOk(s: Section, key: string) { key !in s || Numeric(s[key]) }
  predicate IntOk(s: Section, key: string) { key !in s || s[key].Whole? }
  predicate PeriodsOk(s: Section, key: string) { key !in s || s[key].Numbers? }
  predicate TableOk(s: Section, key: string) { key !in s || s[key].Table? }

  /** The field came out as the section's value, or as the default when the
      section does not mention it. */
  predicate RealTaken(s: Section, key: string, default: real, x: real)
  {
    if key in s then Numeric(s[key]) && x == AsReal(s[key]) else x == default
  }

  predicate IntTaken(s: Section, key: string, default: int, n: int)
  {
    if key in s then s[key] == Whole(n) else n == default
  }

  predicate PeriodsTaken(s: Section, key: string, default: seq<int>, ns: seq<int>)
  {
    if key in s then s[key] == Numbers(ns) else ns == default
  }

  predicate TableTaken(s: Section, key: string, entries: seq<(string, real)>)
  {
    if key in s then s[key] == Table(entries) else entries == []
  }

  /** A float field: absent gives the default. */
  function RealField(s: Section, key: string, default: real): (r: Result<real>)
    ensures key !in s ==> r == Ok(default)
    ensures r.Ok? <==> RealOk(s, key)
    ensures r.Ok? ==> RealTaken(s, key, default, r.value)
  {
    if key !in s then Ok(default)
    else match s[key]
      case Num(x) => Ok(x)
      case Whole(n) => Ok(n as real)
      case _ => Err(TypeError)
  }

  function IntField(s: Section, key: string, default: int): (r: Result<int>)
    ensures key !in s ==> r == Ok(default)
    ensures r.Ok? <==> IntOk(s, key)
    ensures r.Ok? ==> IntTaken(s, key, default, r.value)
  {
    if key !in s then Ok(default)
    else match s[key]
      case Whole(n) => Ok(n)
      case _ => Err(TypeError)
  }

  /** A list of whole numbers, taken as it is: the dataclass does not check
      the sign, a negative window fails only later, in pandas. */
  function PeriodsField(s: Section, key: string, default: seq<int>): (r: Result<seq<int>>)
    ensures key !in s ==> r == Ok(default)
    ensures r.Ok? <==> PeriodsOk(s, key)
    ensures r.Ok? ==> PeriodsTaken(s, key, default, r.value)
  {
    if key !in s then Ok(default)
    else match s[key]
      case Numbers(ns) => Ok(ns)
      case _ => Err(TypeError)
  }

  function TableField(s: Section, key: string): (r: Result<seq<(string, real)>>)
    ensures key !in s ==> r == Ok([])
    ensures r.Ok? <==> TableOk(s, key)
    ensures r.Ok? ==> TableTaken(s, key, r.value)
  {
    if key !in s then Ok([])
    else match s[key]
      case Table(entries) => Ok(entries)
      case _ => Err(TypeError)
  }

  /** A dataclass built from a section rejects any key it has no field for. */
  function Fields(name: string): set<string>
  {
    match name
    case "ma" => {"periods"}
    case "bias" => BiasFields
    case "volume" => {"shrink_threshold", "heavy_threshold"}
    case "macd" => {"fast", "slow", "signal"}
    case "rsi" => RsiFields
    case "support" => {"tolerance"}
    case "scoring" => {"trend", "bias", "volume", "support", "macd", "rsi"}
    case "signals" => SignalsFields
    case "risk" => {"max_position_pct", "max_daily_stop_loss", "max_single_position"}
    case "presets" => {"conservative", "balanced", "aggressive"}
    case _ => {}
  }

  const SectionNames: seq<string> := ["ma", "bias", "volume", "macd", "rsi", "support", "scoring", "signals", "risk", "presets"]

  predicate Accepts(name: string, s: Section)
  {
    s.Keys <= Fields(name)
  }

  // One pair of predicates per section: when its dataclass accepts the
  // section, and which rules it then builds.

  predicate MaConverts(s: Section) { Accepts("ma", s) && PeriodsOk(s, "periods") }

  predicate MaTaken(s: Section, m: MaRules)
  {
    PeriodsTaken(s, "periods", DefaultRules.ma.periods, m.periods)
  }

  predicate BiasConverts(s: Section)
  {
    Accepts("bias", s) && RealOk(s, "threshold") && RealOk(s, "optimal_zone") && RealOk(s, "warning_zone")
  }

  predicate BiasTaken(s: Section, b: BiasRules)
  {
    && RealTaken(s, "threshold", DefaultRules.bias.threshold, b.threshold)
    && RealTaken(s, "optimal_zone", DefaultRules.bias.optimalZone, b.optimalZone)
    && RealTaken(s, "warning_zone", DefaultRules.bias.warningZone, b.warningZone)
  }

  predicate VolumeConverts(s: Section)
  {
    Accepts("volume", s) && RealOk(s, "shrink_threshold") && RealOk(s, "heavy_threshold")
  }

  predicate VolumeTaken(s: Section, v: VolumeRules)
  {
    && RealTaken(s, "shrink_threshold", DefaultRules.volume.shrinkThreshold, v.shrinkThreshold)
    && RealTaken(s, "heavy_threshold", DefaultRules.volume.heavyThreshold, v.heavyThreshold)
  }

  predicate MacdConverts(s: Section)
  {
    Accepts("macd", s) && IntOk(s, "fast") && IntOk(s, "slow") && IntOk(s, "signal")
  }

  predicate MacdTaken(s: Section, m: MacdRules)
  {
    && IntTaken(s, "fast", DefaultRules.macd.fast, m.fast)
    && IntTaken(s, "slow", DefaultRules.macd.slow, m.slow)
    && IntTaken(s, "signal", DefaultRules.macd.signal, m.signal)
  }

  predicate RsiConverts(s: Section)
  {
    && Accepts("rsi", s) && PeriodsOk(s, "periods") && RealOk(s, "overbought") && RealOk(s, "oversold")
    && RealOk(s, "neutral_high") && RealOk(s, "neutral_low")
  }

  predicate RsiTaken(s: Section, x: RsiRules)
  {
    && PeriodsTaken(s, "periods", DefaultRules.rsi.periods, x.periods)
    && RealTaken(s, "overbought", DefaultRules.rsi.overbought, x.overbought)
    && RealTaken(s, "oversold", DefaultRules.rsi.oversold, x.oversold)
    && RealTaken(s, "neutral_high", DefaultRules.rsi.neutralHigh, x.neutralHigh)
    && RealTaken(s, "neutral_low", DefaultRules.rsi.neutralLow, x.neutralLow)
  }

  predicate SupportConverts(s: Section) { Accepts("support", s) && RealOk(s, "tolerance") }

  predicate SupportTaken(s: Section, x: SupportRules)
  {
    RealTaken(s, "tolerance", DefaultRules.support.tolerance, x.tolerance)
  }

  predicate ScoringConverts(s: Section)
  {
    && Accepts("scoring", s) && TableOk(s, "trend") && TableOk(s, "bias") && TableOk(s, "volume")
    && TableOk(s, "support") && TableOk(s, "macd") && TableOk(s, "rsi")
  }

  predicate ScoringTaken(s: Section, x: ScoringRules)
  {
    && TableTaken(s, "trend", x.trend) && TableTaken(s, "bias", x.bias) && TableTaken(s, "volume", x.volume)
    && TableTaken(s, "support", x.support) && TableTaken(s, "macd", x.macd) && TableTaken(s, "rsi", x.rsi)
  }

  predicate SignalsConverts(s: Section)
  {
    && Accepts("signals", s) && RealOk(s, "strong_buy") && RealOk(s, "buy") && RealOk(s, "hold")
    && RealOk(s, "wait") && RealOk(s, "sell") && RealOk(s, "strong_sell")
  }

  predicate SignalsTaken(s: Section, x: SignalsRules)
  {
    && RealTaken(s, "strong_buy", DefaultRules.signals.strongBuy, x.strongBuy)
    && RealTaken(s, "buy", DefaultRules.signals.buy, x.buy)
    && RealTaken(s, "hold", DefaultRules.signals.hold, x.hold)
    && RealTaken(s, "wait", DefaultRules.signals.wait, x.wait)
    && RealTaken(s, "sell", DefaultRules.signals.sell, x.sell)
    && RealTaken(s, "strong_sell", DefaultRules.signals.strongSell, x.strongSell)
  }

  predicate RiskConverts(s: Section)
  {
    Accepts("risk", s) && RealOk(s, "max_position_pct") && RealOk(s, "max_daily_stop_loss") && RealOk(s, "max_single_position")
  }

  predicate RiskTaken(s: Section, x: RiskRules)
  {
    && RealTaken(s, "max_position_pct", DefaultRules.risk.maxPositionPct, x.maxPositionPct)
    && RealTaken(s, "max_daily_stop_loss", DefaultRules.risk.maxDailyStopLoss, x.maxDailyStopLoss)
    && RealTaken(s, "max_single_position", DefaultRules.risk.maxSinglePosition, x.maxSinglePosition)
  }

  predicate PresetsConverts(s: Section)
  {
    Accepts("presets", s) && TableOk(s, "conservative") && TableOk(s, "balanced") && TableOk(s, "aggressive")
  }

  predicate PresetsTaken(s: Section, x: PresetRules)
  {
    TableTaken(s, "conservative", x.conservative) && TableTaken(s, "balanced", x.balanced) && TableTaken(s, "aggressive", x.aggressive)
  }

  // One conversion per section, `XConfig(**config_dict.get("x", {}))`.

  function MaOf(s: Section): (r: Result<MaRules>)
    ensures r.Ok? <==> MaConverts(s)
    ensures r.Ok? ==> MaTaken(s, r.value)
  {
    if !Accepts("ma", s) then Err(TypeError)
    else match PeriodsField(s, "periods", DefaultRules.ma.periods)
      case Ok(p) => Ok(MaRules(p))
      case _ => Err(TypeError)
  }

  function BiasOf(s: Section): (r: Result<BiasRules>)
    ensures r.Ok? <==> BiasConverts(s)
    ensures r.Ok? ==> BiasTaken(s, r.value)
    ensures s == map[] ==> r == Ok(DefaultRules.bias)
  {
    if !Accepts("bias", s) then Err(TypeError)
    else
      match (RealField(s, "threshold", DefaultRules.bias.threshold), RealField(s, "optimal_zone", DefaultRules.bias.optimalZone),
             RealField(s, "warning_zone", DefaultRules.bias.warningZone))
      case (Ok(t), Ok(o), Ok(w)) => Ok(BiasRules(t, o, w))
      case _ => Err(TypeError)
  }

  function VolumeOf(s: Section): (r: Result<VolumeRules>)
    ensures r.Ok? <==> VolumeConverts(s)
    ensures r.Ok? ==> VolumeTaken(s, r.value)
  {
    if !Accepts("volume", s) then Err(TypeError)
    else
      match (RealField(s, "shrink_threshold", DefaultRules.volume.shrinkThreshold),
             RealField(s, "heavy_threshold", DefaultRules.volume.heavyThreshold))
      case (Ok(shrink), Ok(heavy)) => Ok(VolumeRules(shrink, heavy))
      case _ => Err(TypeError)
  }

  function MacdOf(s: Section): (r: Result<MacdRules>)
    ensures r.Ok? <==> MacdConverts(s)
    ensures r.Ok? ==> MacdTaken(s, r.value)
  {
    if !Accepts("macd", s) then Err(TypeError)
    else
      match (IntField(s, "fast", DefaultRules.macd.fast), IntField(s, "slow", DefaultRules.macd.slow),
             IntField(s, "signal", DefaultRules.macd.signal))
      case (Ok(fast), Ok(slow), Ok(signal)) => Ok(MacdRules(fast, slow, signal))
      case _ => Err(TypeError)
  }

  function RsiOf(s: Section): (r: Result<RsiRules>)
    ensures r.Ok? <==> RsiConverts(s)
    ensures r.Ok? ==> RsiTaken(s, r.value)
    ensures s == map[] ==> r == Ok(DefaultRules.rsi)
  {
    if !Accepts("rsi", s) then Err(TypeError)
    else
      match (PeriodsField(s, "periods", DefaultRules.rsi.periods), RealField(s, "overbought", DefaultRules.rsi.overbought),
             RealField(s, "oversold", DefaultRules.rsi.oversold), RealField(s, "neutral_high", DefaultRules.rsi.neutralHigh),
             RealField(s, "neutral_low", DefaultRules.rsi.neutralLow))
      case (Ok(p), Ok(ob), Ok(os), Ok(nh), Ok(nl)) => Ok(RsiRules(p, ob, os, nh, nl))
      case _ => Err(TypeError)
  }

  function SupportOf(s: Section): (r: Result<SupportRules>)
    ensures r.Ok? <==> SupportConverts(s)
    ensures r.Ok? ==> SupportTaken(s, r.value)
  {
    if !Accepts("support", s) then Err(TypeError)
    else match RealField(s, "tolerance", DefaultRules.support.tolerance)
      case Ok(t) => Ok(SupportRules(t))
      case _ => Err(TypeError)
  }

  function ScoringOf(s: Section): (r: Result<ScoringRules>)
    ensures r.Ok? <==> ScoringConverts(s)
    ensures r.Ok? ==> ScoringTaken(s, r.value)
  {
    if !Accepts("scoring", s) then Err(TypeError)
    else
      match (TableField(s, "trend"), TableField(s, "bias"), TableField(s, "volume"),
             TableField(s, "support"), TableField(s, "macd"), TableField(s, "rsi"))
      case (Ok(t), Ok(b), Ok(v), Ok(u), Ok(m), Ok(x)) => Ok(ScoringRules(t, b, v, u, m, x))
      case _ => Err(TypeError)
  }

  function SignalsOf(s: Section): (r: Result<SignalsRules>)
    ensures r.Ok? <==> SignalsConverts(s)
    ensures r.Ok? ==> SignalsTaken(s, r.value)
    ensures s == map[] ==> r == Ok(DefaultRules.signals)
  {
    if !Accepts("signals", s) then Err(TypeError)
    else
      match (RealField(s, "strong_buy", DefaultRules.signals.strongBuy), RealField(s, "buy", DefaultRules.signals.buy),
             RealField(s, "hold", DefaultRules.signals.hold), RealField(s, "wait", DefaultRules.signals.wait),
             RealField(s, "sell", DefaultRules.signals.sell), RealField(s, "strong_sell", DefaultRules.signals.strongSell))
      case (Ok(a), Ok(b), Ok(c), Ok(d), Ok(e), Ok(f)) => Ok(SignalsRules(a, b, c, d, e, f))
      case _ => Err(TypeError)
  }

  function RiskOf(s: Section): (r: Result<RiskRules>)
    ensures r.Ok? <==> RiskConverts(s)
    ensures r.Ok? ==> RiskTaken(s, r.value)
  {
    if !Accepts("risk", s) then Err(TypeError)
    else
      match (RealField(s, "max_position_pct", DefaultRules.risk.maxPositionPct),
             RealField(s, "max_daily_stop_loss", DefaultRules.risk.maxDailyStopLoss),
             RealField(s, "max_single_position", DefaultRules.risk.maxSinglePosition))
      case (Ok(mp), Ok(ms), Ok(mx)) => Ok(RiskRules(mp, ms, mx))
      case _ => Err(TypeError)
  }

  function PresetsOf(s: Section): (r: Result<PresetRules>)
    ensures r.Ok? <==> PresetsConverts(s)
    ensures r.Ok? ==> PresetsTaken(s, r.value)
  {
    if !Accepts("presets", s) then Err(TypeError)
    else
      match (TableField(s, "conservative"), TableField(s, "balanced"), TableField(s, "aggressive"))
      case (Ok(pc), Ok(pb), Ok(pa)) => Ok(PresetRules(pc, pb, pa))
      case _ => Err(TypeError)
  }

  /** Every section's dataclass accepts it. */
  predicate Converts(c: Document)
  {
    && MaConverts(SectionOf(c, "ma")) && BiasConverts(SectionOf(c, "bias")) && VolumeConverts(SectionOf(c, "volume"))
    && MacdConverts(SectionOf(c, "macd")) && RsiConverts(SectionOf(c, "rsi")) && SupportConverts(SectionOf(c, "support"))
    && ScoringConverts(SectionOf(c, "scoring")) && SignalsConverts(SectionOf(c, "signals"))
    && RiskConverts(SectionOf(c, "risk")) && PresetsConverts(SectionOf(c, "presets"))
  }

  /** Every section of the rules is built from the document's section of that name. */
  predicate TakenFrom(c: Document, rules: Rules)
  {
    && MaTaken(SectionOf(c, "ma"), rules.ma) && BiasTaken(SectionOf(c, "bias"), rules.bias)
    && VolumeTaken(SectionOf(c, "volume"), rules.volume) && MacdTaken(SectionOf(c, "macd"), rules.macd)
    && RsiTaken(SectionOf(c, "rsi"), rules.rsi) && SupportTaken(SectionOf(c, "support"), rules.support)
    && ScoringTaken(SectionOf(c, "scoring"), rules.scoring) && SignalsTaken(SectionOf(c, "signals"), rules.signals)
    && RiskTaken(SectionOf(c, "risk"), rules.risk) && PresetsTaken(SectionOf(c, "presets"), rules.presets)
  }

  /** The seven sections the preset rules and the overrides never touch, converted. */
  function Others(c: Document): (r: Result<(MaRules, VolumeRules, MacdRules, SupportRules, ScoringRules, RiskRules, PresetRules)>)
    ensures r.Ok? <==>
      && MaOf(SectionOf(c, "ma")).Ok? && VolumeOf(SectionOf(c, "volume")).Ok? && MacdOf(SectionOf(c, "macd")).Ok?
      && SupportOf(SectionOf(c, "support")).Ok? && ScoringOf(SectionOf(c, "scoring")).Ok?
      && RiskOf(SectionOf(c, "risk")).Ok? && PresetsOf(SectionOf(c, "presets")).Ok?
    ensures r.Ok? ==>
      && r.value.0 == MaOf(SectionOf(c, "ma")).value && r.value.1 == VolumeOf(SectionOf(c, "volume")).value
      && r.value.2 == MacdOf(SectionOf(c, "macd")).value && r.value.3 == SupportOf(SectionOf(c, "support")).value
      && r.value.4 == ScoringOf(SectionOf(c, "scoring")).value && r.value.5 == RiskOf(SectionOf(c, "risk")).value
      && r.value.6 == PresetsOf(SectionOf(c, "presets")).value
  {
    match (MaOf(SectionOf(c, "ma")), VolumeOf(SectionOf(c, "volume")), MacdOf(SectionOf(c, "macd")),
           SupportOf(SectionOf(c, "support")), ScoringOf(SectionOf(c, "scoring")), RiskOf(SectionOf(c, "risk")),
           PresetsOf(SectionOf(c, "presets")))
    case (Ok(ma), Ok(volume), Ok(macd), Ok(support), Ok(scoring), Ok(risk), Ok(presets)) =>
      Ok((ma, volume, macd, support, scoring, risk, presets))
    case _ => Err(TypeError)
  }

  /** The rules from the converted sections, or the first failure. */
  function Assemble(bias: Result<BiasRules>, rsi: Result<RsiRules>, signals: Result<SignalsRules>,
                    others: Result<(MaRules, VolumeRules, MacdRules, SupportRules, ScoringRules, RiskRules, PresetRules)>): (r: Result<Rules>)
    ensures r.Ok? <==> bias.Ok? && rsi.Ok? && signals.Ok? && others.Ok?
    ensures r.Ok? ==> r.value.bias == bias.value && r.value.rsi == rsi.value && r.value.signals == signals.value
    ensures r.Ok? ==>
      && r.value.ma == others.value.0 && r.value.volume == others.value.1 && r.value.macd == others.value.2
      && r.value.support == others.value.3 && r.value.scoring == others.value.4 && r.value.risk == others.value.5
      && r.value.presets == others.value.6
  {
    match (bias, rsi, signals, others)
    case (Ok(b), Ok(s), Ok(g), Ok((ma, volume, macd, support, scoring, risk, presets))) =>
      Ok(Rules(ma, b, volume, macd, s, support, scoring, g, risk, presets))
    case _ => Err(TypeError)
  }

  /** `_dict_to_config`: each section fills in its dataclass's defaults; a key
      the dataclass does not know makes the conversion fail. Sections other
      than the ten are ignored. */
  function DictToConfig(c: Document): (r: Result<Rules>)
    ensures r.Ok? <==> Converts(c)
    ensures r.Ok? ==> TakenFrom(c, r.value)
    ensures c == map[] ==> r == Ok(DefaultRules)
    ensures r.Ok? ==> BiasOf(SectionOf(c, "bias")) == Ok(r.value.bias)
    ensures r.Ok? ==> RsiOf(SectionOf(c, "rsi")) == Ok(r.value.rsi)
    ensures r.Ok? ==> SignalsOf(SectionOf(c, "signals")) == Ok(r.value.signals)
  {
    Assemble(BiasOf(SectionOf(c, "bias")), RsiOf(SectionOf(c, "rsi")), SignalsOf(SectionOf(c, "signals")), Others(c))
  }

  /** A section the document lacks takes every default of its dataclass. */
  lemma MissingSectionsDefault(c: Document)
    requires DictToConfig(c).Ok?
    ensures var rules := DictToConfig(c).value;
      && ("ma" !in c ==> rules.ma == DefaultRules.ma)
      && ("bias" !in c ==> rules.bias == DefaultRules.bias)
      && ("volume" !in c ==> rules.volume == DefaultRules.volume)
      && ("macd" !in c ==> rules.macd == DefaultRules.macd)
      && ("rsi" !in c ==> rules.rsi == DefaultRules.rsi)
      && ("support" !in c ==> rules.support == DefaultRules.support)
      && ("scoring" !in c ==> rules.scoring == DefaultRules.scoring)
      && ("signals" !in c ==> rules.signals == DefaultRules.signals)
      && ("risk" !in c ==> rules.risk == DefaultRules.risk)
      && ("presets" !in c ==> rules.presets == DefaultRules.presets)
  {
  }

  // ---------------------------------------------------------------- the preset finding

  /** A key a rule as written needs in a section, which that section's
      dataclass then rejects. */
  predicate Poisoned(c: Document)
  {
    || (exists k :: k in SectionOf(c, "bias") && k !in BiasFields)
    || (exists k :: k in SectionOf(c, "rsi") && k !in RsiFields)
    || (exists k :: k in SectionOf(c, "signals") && k !in SignalsFields)
  }

  lemma PoisonedFails(c: Document)
    requires Poisoned(c)
    ensures DictToConfig(c).Err?
  {
  }

  /** No field name starts with "bias_threshold" or "rsi_" or ends with
      "threshold", so a key that fires a rule as written is one the
      dataclass rejects. */
  lemma FiringKeyPoisons(c: Document, key: string)
    requires RuleAsWritten(c, key) != NoRule
    ensures Poisoned(c)
  {
    var rule := RuleAsWritten(c, key);
    if rule == BiasRule {
      assert key !in BiasFields by {
        assert !StartsWith("threshold", "bias_threshold") && !StartsWith("optimal_zone", "bias_threshold");
        assert !StartsWith("warning_zone", "bias_threshold");
      }
    } else if rule == RsiRule {
      assert key !in RsiFields by {
        forall f | f in RsiFields
          ensures !StartsWith(f, "rsi_")
        {
          assert f[0] != 'r';
          assert "rsi_"[0] == 'r';
        }
      }
    } else {
      assert key !in SignalsFields by {
        assert !EndsWith("strong_buy", "threshold") && !EndsWith("buy", "threshold") && !EndsWith("hold", "threshold");
        assert !EndsWith("wait", "threshold") && !EndsWith("sell", "threshold") && !EndsWith("strong_sell", "threshold");
      }
    }
  }

  /** Rule writes only add or update keys, so a poisoned document stays poisoned. */
  lemma RuleKeepsPoison(c: Document, rule: PresetRule, key: string, v: real)
    requires Poisoned(c)
    ensures Poisoned(ApplyRule(c, rule, key, v))
  {
    var r := ApplyRule(c, rule, key, v);
    assert forall name, k :: k in SectionOf(c, name) ==> k in SectionOf(r, name);
  }

  /** As written, the preset loop either changes nothing or leaves a key
      that makes the conversion fail. */
  lemma {:induction false} PresetEntriesNeverTakeEffect(c: Document, entries: seq<(string, real)>)
    ensures PresetEntriesAsWritten(c, entries) == c || Poisoned(PresetEntriesAsWritten(c, entries))
    decreases |entries|
  {
    if |entries| > 0 {
      var (key, v) := entries[0];
      var rule := RuleAsWritten(c, key);
      var next := ApplyRule(c, rule, key, v);
      if rule == NoRule {
        PresetEntriesNeverTakeEffect(c, entries[1..]);
      } else {
        FiringKeyPoisons(c, key);
        RuleKeepsPoison(c, rule, key, v);
        PoisonKeptByEntries(next, entries[1..]);
      }
    }
  }

  lemma {:induction false} PoisonKeptByEntries(c: Document, entries: seq<(string, real)>)
    requires Poisoned(c)
    ensures Poisoned(PresetEntriesAsWritten(c, entries))
    decreases |entries|
  {
    if |entries| > 0 {
      var (key, v) := entries[0];
      RuleKeepsPoison(c, RuleAsWritten(c, key), key, v);
      PoisonKeptByEntries(ApplyRule(c, RuleAsWritten(c, key), key, v), entries[1..]);
    }
  }

  /** As written, a style preset never changes the rules: either the document
      is left as it was, or the preset step or the conversion fails. */
  lemma PresetNeverTakesEffect(c: Document, style: string)
    ensures ApplyPreset(c, style).Err? || ApplyPreset(c, style) == Ok(c) || DictToConfig(ApplyPreset(c, style).value).Err?
  {
    if ApplyPreset(c, style).Ok? && style != "" && style != "balanced" && style in SectionOf(c, "presets") {
      var entries := SectionOf(c, "presets")[style].entries;
      PresetEntriesNeverTakeEffect(c, entries);
      if PresetEntriesAsWritten(c, entries) != c {
        PoisonedFails(PresetEntriesAsWritten(c, entries));
      }
    }
  }

  /** A document that converts holds no key a rule as written needs, so the
      written preset loop leaves it exactly as it was. */
  lemma {:induction false} PresetIgnoredOnValidDocument(c: Document, entries: seq<(string, real)>)
    requires DictToConfig(c).Ok?
    ensures PresetEntriesAsWritten(c, entries) == c
    decreases |entries|
  {
    if |entries| > 0 {
      var (key, v) := entries[0];
      if RuleAsWritten(c, key) != NoRule {
        FiringKeyPoisons(c, key);
        PoisonedFails(c);
      }
      PresetIgnoredOnValidDocument(c, entries[1..]);
    }
  }

  /** The typical conservative preset: a tighter bias threshold and a lower
      overbought level. */
  function ConservativePreset(bias: real, overbought: real): seq<(string, real)>
  {
    [("bias_threshold", bias), ("rsi_overbought", overbought)]
  }

  lemma RsiKeyTarget()
    ensures RemoveAll("rsi_overbought", "rsi_") == "overbought"
    ensures RuleIntended("rsi_overbought") == RsiRule
    ensures RuleIntended("bias_threshold") == BiasRule
  {
    assert StartsWith("rsi_overbought", "rsi_");
    assert "rsi_overbought"[4..] == "overbought";
    assert "rsi_"[3] == '_';
    RemoveAllNoMatch("overbought", "rsi_", '_');
    assert !StartsWith("rsi_overbought", "bias_threshold") by {
      assert "rsi_overbought"[0] != "bias_threshold"[0];
    }
  }

  lemma BiasOverlay(s: Section, v: real)
    requires BiasOf(s).Ok?
    ensures BiasOf(s["threshold" := Num(v)]) == Ok(BiasOf(s).value.(threshold := v))
  {
  }

  lemma RsiOverlay(s: Section, v: real)
    requires RsiOf(s).Ok?
    ensures RsiOf(s["overbought" := Num(v)]) == Ok(RsiOf(s).value.(overbought := v))
  {
  }

  lemma IntendedStep(c: Document, entries: seq<(string, real)>)
    requires |entries| > 0
    ensures PresetEntriesIntended(c, entries) ==
      PresetEntriesIntended(ApplyRule(c, RuleIntended(entries[0].0), entries[0].0, entries[0].1), entries[1..])
  {
  }

  /** What the intended loop writes for the conservative preset. */
  lemma IntendedPresetWrites(c: Document, bias: real, overbought: real)
    ensures PresetEntriesIntended(c, ConservativePreset(bias, overbought)) ==
      c["bias" := SectionOf(c, "bias")["threshold" := Num(bias)]]
       ["rsi" := SectionOf(c, "rsi")["overbought" := Num(overbought)]]
  {
    RsiKeyTarget();
    var entries := ConservativePreset(bias, overbought);
    var d1 := ApplyRule(c, BiasRule, "bias_threshold", bias);
    var d2 := ApplyRule(d1, RsiRule, "rsi_overbought", overbought);
    IntendedStep(c, entries);
    IntendedStep(d1, entries[1..]);
    assert entries[1..][1..] == [];
    assert PresetEntriesIntended(c, entries) == d2;
    assert SectionOf(d1, "rsi") == SectionOf(c, "rsi");
  }

  /** The conversion reads a document through its ten sections only. */
  lemma ConversionBySections(c: Document, d: Document)
    requires Others(d) == Others(c) && SectionOf(d, "signals") == SectionOf(c, "signals")
    requires DictToConfig(c).Ok?
    requires BiasOf(SectionOf(d, "bias")).Ok? && RsiOf(SectionOf(d, "rsi")).Ok?
    ensures DictToConfig(d) == Ok(DictToConfig(c).value.(bias := BiasOf(SectionOf(d, "bias")).value,
                                                           rsi := RsiOf(SectionOf(d, "rsi")).value))
  {
  }

  /** Overlaying the bias and RSI sections leaves the other eight alone. */
  lemma OtherSectionsKept(c: Document, bias: real, overbought: real)
    ensures var d := c["bias" := SectionOf(c, "bias")["threshold" := Num(bias)]]
                      ["rsi" := SectionOf(c, "rsi")["overbought" := Num(overbought)]];
      Others(d) == Others(c) && SectionOf(d, "signals") == SectionOf(c, "signals")
  {
    var d := c["bias" := SectionOf(c, "bias")["threshold" := Num(bias)]]
              ["rsi" := SectionOf(c, "rsi")["overbought" := Num(overbought)]];
    assert SectionOf(d, "ma") == SectionOf(c, "ma");
    assert SectionOf(d, "volume") == SectionOf(c, "volume");
    assert SectionOf(d, "macd") == SectionOf(c, "macd");
    assert SectionOf(d, "support") == SectionOf(c, "support");
    assert SectionOf(d, "scoring") == SectionOf(c, "scoring");
    assert SectionOf(d, "risk") == SectionOf(c, "risk");
    assert SectionOf(d, "presets") == SectionOf(c, "presets");
  }

  /** The conversion of a convertible document with the two values overlaid. */
  lemma OverlaidConverts(c: Document, bias: real, overbought: real)
    requires DictToConfig(c).Ok?
    ensures var d := c["bias" := SectionOf(c, "bias")["threshold" := Num(bias)]]
                      ["rsi" := SectionOf(c, "rsi")["overbought" := Num(overbought)]];
      DictToConfig(d) == Ok(DictToConfig(c).value.(bias := DictToConfig(c).value.bias.(threshold := bias),
                                                    rsi := DictToConfig(c).value.rsi.(overbought := overbought)))
  {
    var d := c["bias" := SectionOf(c, "bias")["threshold" := Num(bias)]]
              ["rsi" := SectionOf(c, "rsi")["overbought" := Num(overbought)]];
    BiasOverlay(SectionOf(c, "bias"), bias);
    RsiOverlay(SectionOf(c, "rsi"), overbought);
    assert SectionOf(d, "bias") == SectionOf(c, "bias")["threshold" := Num(bias)];
    assert SectionOf(d, "rsi") == SectionOf(c, "rsi")["overbought" := Num(overbought)];
    OtherSectionsKept(c, bias, overbought);
    ConversionBySections(c, d);
  }

  /** On any document that converts, the intended preset loop installs the
      preset's values and keeps the document convertible, where the written
      one (`PresetIgnoredOnValidDocument`) changes nothing. */
  lemma IntendedPresetTakesEffect(c: Document, bias: real, overbought: real)
    requires DictToConfig(c).Ok?
    ensures var d := PresetEntriesIntended(c, ConservativePreset(bias, overbought));
      DictToConfig(d) == Ok(DictToConfig(c).value.(bias := DictToConfig(c).value.bias.(threshold := bias),
                                                    rsi := DictToConfig(c).value.rsi.(overbought := overbought)))
  {
    IntendedPresetWrites(c, bias, overbought);
    OverlaidConverts(c, bias, overbought);
  }

  /** Removing the pattern from the pattern followed by a free string leaves
      that string: `"rsi_" + field` names `field`. */
  lemma RemoveAllPrefix(pattern: string, rest: string)
    requires |pattern| > 0 && Free(rest, pattern)
    ensures RemoveAll(pattern + rest, pattern) == rest
  {
    assert StartsWith(pattern + rest, pattern);
    assert (pattern + rest)[|pattern|..] == rest;
  }

  /** A string lacking one of the pattern's characters has no occurrence to remove. */
  lemma {:induction false} RemoveAllNoMatch(s: string, pattern: string, c: char)
    requires |pattern| > 0 && c in pattern && c !in s
    ensures RemoveAll(s, pattern) == s
    decreases |s|
  {
    if |s| >= |pattern| {
      var j :| 0 <= j < |pattern| && pattern[j] == c;
      assert s[j] != pattern[j];
      assert !StartsWith(s, pattern);
      assert c !in s[1..];
      RemoveAllNoMatch(s[1..], pattern, c);
      assert s == [s[0]] + s[1..];
    }
  }

  // ---------------------------------------------------------------- loading and the cache

  /** `_cached_rules` and `_cached_style`. */
  datatype Cache = Cache(rules: Option<Rules>, style: string)

  /** `reset_cache`. */
  function ResetCache(): (r: Cache)
    ensures r.rules.None? && r.style == ""
  {
    Cache(None, "")
  }

  /** The style asked for, or the `ANALYZER_STYLE` variable, or "balanced". */
  function ResolveStyle(style: string, envStyle: Option<string>): (r: string)
    ensures style != "" ==> r == style
    ensures style == "" && envStyle.None? ==> r == "balanced"
    ensures style == "" && envStyle.Some? ==> r == envStyle.value
  {
    if style != "" then style else envStyle.GetOr("balanced")
  }

  /** Loads the document: overrides, then the preset, then the conversion. */
  function Load(document: Document, env: Environment, style: string): (r: Result<Rules>)
    ensures document == map[] ==> r == Ok(DefaultRules)
  {
    var overridden := ApplyEnvOverrides(document, env);
    EnvOverridesNeedADocument(env);
    match ApplyPreset(overridden, style)
    case Err(e) => Err(e)
    case Ok(d) => DictToConfig(d)
  }

  /** `get_analyzer_rules`: a cache hit returns the cached rules untouched;
      otherwise the document is loaded and, when that succeeds, cached under
      the resolved style. A failure leaves the cache as it was. */
  function GetRules(cache: Cache, style: string, useCache: bool, envStyle: Option<string>,
                    document: Document, env: Environment): (r: (Result<Rules>, Cache))
    ensures var s := ResolveStyle(style, envStyle);
      useCache && cache.rules.Some? && cache.style == s ==> r == (Ok(cache.rules.value), cache)
    ensures var s := ResolveStyle(style, envStyle);
      !(useCache && cache.rules.Some? && cache.style == s) ==> r.0 == Load(document, env, s)
    ensures r.0.Ok? ==> r.1.rules == Some(r.0.value) && r.1.style == ResolveStyle(style, envStyle)
    ensures r.0.Err? ==> r.1 == cache
  {
    var s := ResolveStyle(style, envStyle);
    if useCache && cache.rules.Some? && cache.style == s then (Ok(cache.rules.value), cache)
    else
      match Load(document, env, s)
      case Err(e) => (Err(e), cache)
      case Ok(rules) => (Ok(rules), Cache(Some(rules), s))
  }

  /** A second request for the same style is served from the cache, even
      when the document has changed in between. */
  lemma SecondCallHits(cache: Cache, style: string, envStyle: Option<string>, d1: Document, d2: Document, env: Environment)
    requires GetRules(cache, style, true, envStyle, d1, env).0.Ok?
    ensures var (first, after) := GetRules(cache, style, true, envStyle, d1, env);
      GetRules(after, style, true, envStyle, d2, env) == (first, after)
  {
  }

  /** After a reset the next request always loads. */
  lemma ResetForcesLoad(style: string, useCache: bool, envStyle: Option<string>, d: Document, env: Environment)
    ensures GetRules(ResetCache(), style, useCache, envStyle, d, env).0 == Load(d, env, ResolveStyle(style, envStyle))
  {
  }

  // ---------------------------------------------------------------- the analyzer's parameters

  /** The parameters `StockTrendAnalyzer` reads: from the rules when loading
      succeeded, otherwise its class constants (its constructor catches the
      loading error). */
  function ParamsOf(loaded: Result<Rules>): (r: Analyzer.AnalyzerParams)
    ensures loaded.Err? ==> r == Analyzer.DefaultParams
    ensures loaded.Ok? ==>
      && r.biasThreshold == loaded.value.bias.threshold
      && r.rsiOverbought == loaded.value.rsi.overbought && r.rsiOversold == loaded.value.rsi.oversold
      && r.rsiPeriods == loaded.value.rsi.periods
      && r.volumeShrink == loaded.value.volume.shrinkThreshold && r.volumeHeavy == loaded.value.volume.heavyThreshold
      && r.macdFast == loaded.value.macd.fast && r.macdSlow == loaded.value.macd.slow
      && r.macdSignal == loaded.value.macd.signal
      && r.maxPosition == loaded.value.risk.maxPositionPct && r.maxSinglePosition == loaded.value.risk.maxSinglePosition
  {
    match loaded
    case Err(_) => Analyzer.DefaultParams
    case Ok(rules) =>
      Analyzer.AnalyzerParams(
        rules.bias.threshold, rules.volume.shrinkThreshold, rules.volume.heavyThreshold,
        rules.rsi.overbought, rules.rsi.oversold, rules.rsi.periods,
        rules.macd.fast, rules.macd.slow, rules.macd.signal,
        rules.risk.maxPositionPct, rules.risk.maxSinglePosition)
  }

  /** The configuration defaults and the analyzer's class constants agree:
      without a document the analyzer runs on the same parameters either way. */
  lemma DefaultsAgree(env: Environment, style: string)
    ensures ParamsOf(Load(map[], env, style)) == Analyzer.DefaultParams
  {
  }

  /** As written, choosing a style preset leaves the analyzer on either the
      parameters without the preset or its class constants. */
  lemma PresetNeverReachesAnalyzer(document: Document, env: Environment, style: string)
    ensures var p := ParamsOf(Load(document, env, style));
      p == ParamsOf(Load(document, env, "")) || p == Analyzer.DefaultParams
  {
    var overridden := ApplyEnvOverrides(document, env);
    PresetNeverTakesEffect(overridden, style);
  }
}
