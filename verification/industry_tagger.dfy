/** The tag inference of `IndustryTagger` (src/tags/industry_tagger.py): the
    market-cap bucket, investment-style inference, the union of all tags and
    the sector-to-codes grouping of a portfolio. Fetched industry and concept
    names are inputs. */
module Tags {

  datatype Style = Growth | Value | Cyclical | Dividend | Tech | Consumer | Financial | Energy
  {
    function Label(): string
    {
      match this
      case Growth => "成长"
      case Value => "价值"
      case Cyclical => "周期"
      case Dividend => "红利"
      case Tech => "科技"
      case Consumer => "消费"
      case Financial => "金融"
      case Energy => "能源"
    }
  }

  datatype CapBucket = Large | Mid | Small
  {
    function Label(): string
    {
      match this
      case Large => "大盘"
      case Mid => "中盘"
      case Small => "小盘"
    }
  }

  /** The bucket for a market cap in 100 million yuan. */
  function CapBucketOf(cap: real): (r: CapBucket)
    ensures r == Large <==> cap > 1000.0
    ensures r == Mid <==> 200.0 < cap <= 1000.0
    ensures r == Small <==> cap <= 200.0
  {
    if cap > 1000.0 then Large else if cap > 200.0 then Mid else Small
  }

  /** A larger cap never lands in a smaller bucket. */
  lemma CapBucketMonotone(a: real, b: real)
    requires a <= b
    ensures CapBucketOf(a) == Large ==> CapBucketOf(b) == Large
    ensures CapBucketOf(b) == Small ==> CapBucketOf(a) == Small
  {
  }

  // ---------------------------------------------------------------- substrings

  /** `needle` occurs in `hay` at position `at` or later. */
  predicate OccursFrom(needle: string, hay: string, at: nat)
    decreases |hay| - at
  {
    at + |needle| <= |hay| && (needle <= hay[at..] || OccursFrom(needle, hay, at + 1))
  }

  /** Python's `needle in hay` on strings. */
  predicate Contains(needle: string, hay: string)
  {
    OccursFrom(needle, hay, 0)
  }

  /** `Contains` means an occurrence at some offset. */
  lemma {:induction false} OccursFromMeans(needle: string, hay: string, at: nat)
    ensures OccursFrom(needle, hay, at) <==> exists k :: at <= k && k + |needle| <= |hay| && needle <= hay[k..]
    decreases |hay| - at
  {
    if at + |needle| <= |hay| {
      OccursFromMeans(needle, hay, at + 1);
      if !(needle <= hay[at..]) && !OccursFrom(needle, hay, at + 1) {
        forall k | at <= k && k + |needle| <= |hay|
          ensures !(needle <= hay[k..])
        {
          if k > at {
            assert at + 1 <= k;
          }
        }
      }
    }
  }

  lemma ContainsSelf(s: string)
    ensures Contains(s, s)
  {
    assert s <= s[0..];
  }

  // ---------------------------------------------------------------- the mapping tables

  /** `STYLE_MAPPING` in its declaration order: a key matches an industry
      name that contains it. */
  const StyleMapping: seq<(string, seq<Style>)> := [
    ("科技", [Tech, Growth]),
    ("半导体", [Tech, Growth]),
    ("软件开发", [Tech, Growth]),
    ("互联网", [Tech, Growth]),
    ("通信设备", [Tech]),
    ("食品饮料", [Consumer, Dividend]),
    ("家用电器", [Consumer, Value]),
    ("纺织服装", [Consumer]),
    ("休闲服务", [Consumer]),
    ("商贸零售", [Consumer]),
    ("银行", [Financial, Dividend, Value]),
    ("证券", [Financial]),
    ("保险", [Financial]),
    ("多元金融", [Financial]),
    ("煤炭", [Cyclical, Dividend]),
    ("有色金属", [Cyclical]),
    ("钢铁", [Cyclical]),
    ("化工", [Cyclical]),
    ("石油石化", [Cyclical, Dividend]),
    ("交通运输", [Cyclical]),
    ("房地产", [Cyclical]),
    ("建筑材料", [Cyclical]),
    ("医疗器械", [Growth]),
    ("化学制药", [Growth]),
    ("中药", [Value, Dividend]),
    ("生物制品", [Growth]),
    ("光伏设备", [Growth]),
    ("电池", [Growth]),
    ("风电设备", [Growth]),
    ("储能", [Growth]),
    ("电力", [Dividend, Value]),
    ("燃气", [Dividend]),
    ("水务", [Dividend]),
    ("环保", [Value])
  ]

  /** `HIGH_DIVIDEND_INDUSTRIES`: matched by exact name. */
  const HighDividendIndustries: set<string> := {
    "煤炭", "石油石化", "银行", "电力", "通信", "交通设施",
    "家电", "食品饮料", "医药商业", "化学制药", "水务", "燃气"
  }

  /** The keywords that make a large company without a mapped style a value stock. */
  const ValueKeywords: seq<string> := ["银行", "保险", "电力", "通信"]

  /** A large cap is one above 500 (100 million yuan) for the fallback. */
  const FallbackLargeCap: real := 500.0

  /** No style appears in the mapping under the energy label. */
  lemma EnergyNeverMapped()
    ensures forall k :: 0 <= k < |StyleMapping| ==> Energy !in StyleMapping[k].1
  {
  }

  // ---------------------------------------------------------------- style inference

  /** The styles the mapping entries from `from` on contribute for one
      industry name, in mapping order. */
  function EntryStyles(industry: string, from: nat): (r: seq<Style>)
    requires from <= |StyleMapping|
    ensures forall x :: x in r <==>
      exists k :: from <= k < |StyleMapping| && Contains(StyleMapping[k].0, industry) && x in StyleMapping[k].1
    decreases |StyleMapping| - from
  {
    if from == |StyleMapping| then []
    else
      var here := if Contains(StyleMapping[from].0, industry) then StyleMapping[from].1 else [];
      here + EntryStyles(industry, from + 1)
  }

  /** Some mapping key occurring in `industry` carries style `x`. */
  predicate MapsTo(industry: string, x: Style)
  {
    exists k :: 0 <= k < |StyleMapping| && Contains(StyleMapping[k].0, industry) && x in StyleMapping[k].1
  }

  /** Stage one: the mapped styles of every industry, in order, with repeats. */
  function MappedStyles(industries: seq<string>): (r: seq<Style>)
    ensures forall x :: x in r <==> exists i :: 0 <= i < |industries| && MapsTo(industries[i], x)
    decreases |industries|
  {
    if |industries| == 0 then []
    else
      var rest := MappedStyles(industries[1..]);
      assert forall i :: 1 <= i < |industries| ==> industries[i] == industries[1..][i - 1];
      var here := EntryStyles(industries[0], 0);
      assert forall x :: x in here <==> MapsTo(industries[0], x);
      here + rest
  }

  /** `kw in str(industries)`. The keywords are CJK text and the list's
      repr separates names with ASCII punctuation, so a keyword occurs in
      it exactly when it occurs inside one of the names. */
  predicate MentionsAny(industries: seq<string>, keywords: seq<string>)
  {
    exists i, w :: 0 <= i < |industries| && 0 <= w < |keywords| && Contains(keywords[w], industries[i])
  }

  /** Stage two: the single style used when no mapping entry matched. */
  function FallbackStyle(industries: seq<string>, cap: real): (r: Style)
    ensures r == Value <==> cap > FallbackLargeCap && MentionsAny(industries, ValueKeywords)
    ensures r in {Value, Growth}
  {
    if cap > FallbackLargeCap && MentionsAny(industries, ValueKeywords) then Value else Growth
  }

  predicate HasHighDividendIndustry(industries: seq<string>)
  {
    exists i :: 0 <= i < |industries| && industries[i] in HighDividendIndustries
  }

  /** The style list before de-duplication. */
  function RawStyles(industries: seq<string>, cap: real): (r: seq<Style>)
    ensures |r| > 0
    ensures forall x :: x in r <==>
      || x in MappedStyles(industries)
      || (|MappedStyles(industries)| == 0 && x == FallbackStyle(industries, cap))
      || (x == Dividend && HasHighDividendIndustry(industries))
  {
    var mapped := MappedStyles(industries);
    var styles := if |mapped| == 0 then [FallbackStyle(industries, cap)] else mapped;
    assert forall x :: x in styles <==>
      x in mapped || (|mapped| == 0 && x == FallbackStyle(industries, cap));
    if HasHighDividendIndustry(industries) && Dividend !in styles then
      assert forall x :: x in styles + [Dividend] <==> x in styles || x == Dividend;
      styles + [Dividend]
    else styles
  }

  predicate NoDuplicates<T(==)>(s: seq<T>)
  {
    forall i, j :: 0 <= i < j < |s| ==> s[i] != s[j]
  }

  /** The position of the first occurrence of `x` in `s`. */
  function FirstIndex<T(==)>(s: seq<T>, x: T): (r: nat)
    requires x in s
    ensures r < |s| && s[r] == x
    ensures forall k :: 0 <= k < r ==> s[k] != x
    decreases |s|
  {
    if s[0] == x then 0 else 1 + FirstIndex(s[1..], x)
  }

  /** The elements of `s` not in `seen`, each once, in first-occurrence order. */
  function Dedupe<T(==,!new)>(s: seq<T>, seen: set<T>): (r: seq<T>)
    ensures forall x :: x in r <==> x in s && x !in seen
    ensures NoDuplicates(r)
    ensures |r| <= |s|
    decreases |s|
  {
    if |s| == 0 then []
    else if s[0] in seen then Dedupe(s[1..], seen)
    else [s[0]] + Dedupe(s[1..], seen + {s[0]})
  }

  /** De-duplication keeps the order of first occurrences. */
  lemma {:induction false} DedupeKeepsFirstOrder<T(!new)>(s: seq<T>, seen: set<T>)
    ensures forall i, j :: 0 <= i < j < |Dedupe(s, seen)| ==>
      FirstIndex(s, Dedupe(s, seen)[i]) < FirstIndex(s, Dedupe(s, seen)[j])
    decreases |s|
  {
    if |s| > 0 {
      var r := Dedupe(s, seen);
      if s[0] in seen {
        DedupeKeepsFirstOrder(s[1..], seen);
        assert r == Dedupe(s[1..], seen);
        forall x | x in r
          ensures FirstIndex(s, x) == 1 + FirstIndex(s[1..], x)
        {
          assert x != s[0];
        }
      } else {
        var rest := Dedupe(s[1..], seen + {s[0]});
        DedupeKeepsFirstOrder(s[1..], seen + {s[0]});
        forall x | x in rest
          ensures FirstIndex(s, x) == 1 + FirstIndex(s[1..], x)
        {
        }
        forall i, j | 0 <= i < j < |r|
          ensures FirstIndex(s, r[i]) < FirstIndex(s, r[j])
        {
          assert r[j] == rest[j - 1];
          if i > 0 {
            assert r[i] == rest[i - 1];
          }
        }
      }
    }
  }

  /** `_infer_styles`. */
  function InferStyles(industries: seq<string>, cap: real): (r: seq<Style>)
    ensures |r| > 0
    ensures NoDuplicates(r)
    ensures HasHighDividendIndustry(industries) ==> Dividend in r
    ensures forall x :: x in r <==> x in RawStyles(industries, cap)
    ensures forall x :: x in MappedStyles(industries) ==> x in r
    ensures |MappedStyles(industries)| == 0 && !HasHighDividendIndustry(industries) ==>
      r == [FallbackStyle(industries, cap)]
    ensures forall i, j :: 0 <= i < j < |r| ==>
      FirstIndex(RawStyles(industries, cap), r[i]) < FirstIndex(RawStyles(industries, cap), r[j])
  {
    var raw := RawStyles(industries, cap);
    assert raw[0] in raw;
    DedupeKeepsFirstOrder(raw, {});
    Dedupe(raw, {})
  }

  /** Every industry whose name contains a mapping key gets that key's styles. */
  lemma MappingFires(industries: seq<string>, cap: real, i: nat, k: nat)
    requires i < |industries| && k < |StyleMapping|
    requires Contains(StyleMapping[k].0, industries[i])
    ensures forall x :: x in StyleMapping[k].1 ==> x in InferStyles(industries, cap)
  {
  }

  /** A bank gets the financial, dividend and value styles. */
  lemma BankStyles(cap: real)
    ensures Financial in InferStyles(["银行"], cap)
    ensures Dividend in InferStyles(["银行"], cap)
    ensures Value in InferStyles(["银行"], cap)
  {
    ContainsSelf("银行");
    assert StyleMapping[10] == ("银行", [Financial, Dividend, Value]);
    MappingFires(["银行"], cap, 0, 10);
  }

  /** With no industries the style is growth, whatever the cap. */
  lemma NoIndustriesIsGrowth(cap: real)
    ensures InferStyles([], cap) == [Growth]
  {
  }

  // ---------------------------------------------------------------- tags

  datatype StockTags = StockTags(
    code: string,
    name: string,
    industries: seq<string>,
    industryCodes: seq<string>,
    concepts: seq<string>,
    conceptCodes: seq<string>,
    styles: seq<Style>,
    bucket: CapBucket,
    marketCap: real)

  /** `get_stock_tags` on fetched (name, code) pairs. */
  function StockTagsOf(code: string, name: string, cap: real,
                       industries: seq<(string, string)>, concepts: seq<(string, string)>): (r: StockTags)
    ensures |r.industries| == |r.industryCodes| == |industries|
    ensures |r.concepts| == |r.conceptCodes| == |concepts|
    ensures forall k :: 0 <= k < |industries| ==> r.industries[k] == industries[k].0 && r.industryCodes[k] == industries[k].1
    ensures forall k :: 0 <= k < |concepts| ==> r.concepts[k] == concepts[k].0 && r.conceptCodes[k] == concepts[k].1
    ensures r.bucket == CapBucketOf(cap)
    ensures r.styles == InferStyles(r.industries, cap)
    ensures |r.styles| > 0
  {
    var names := seq(|industries|, k requires 0 <= k < |industries| => industries[k].0);
    StockTags(code, name,
      names,
      seq(|industries|, k requires 0 <= k < |industries| => industries[k].1),
      seq(|concepts|, k requires 0 <= k < |concepts| => concepts[k].0),
      seq(|concepts|, k requires 0 <= k < |concepts| => concepts[k].1),
      InferStyles(names, cap), CapBucketOf(cap), cap)
  }

  function StyleLabels(styles: seq<Style>): (r: set<string>)
    ensures forall x :: x in styles ==> x.Label() in r
    ensures forall l :: l in r ==> exists x :: x in styles && x.Label() == l
    decreases |styles|
  {
    if |styles| == 0 then {} else {styles[0].Label()} + StyleLabels(styles[1..])
  }

  /** `get_all_tags`: industries, concepts, style labels and the bucket label. */
  function AllTags(t: StockTags): (r: set<string>)
    ensures forall x :: x in t.industries ==> x in r
    ensures forall x :: x in t.concepts ==> x in r
    ensures forall s :: s in t.styles ==> s.Label() in r
    ensures t.bucket.Label() in r
    ensures forall x :: x in r ==>
      x in t.industries || x in t.concepts || x == t.bucket.Label() || exists s :: s in t.styles && s.Label() == x
  {
    Elements(t.industries) + Elements(t.concepts) + StyleLabels(t.styles) + {t.bucket.Label()}
  }

  function Elements<T(!new)>(s: seq<T>): (r: set<T>)
    ensures forall x :: x in r <==> x in s
  {
    set x | x in s
  }

  // ---------------------------------------------------------------- portfolio grouping

  /** The fetched industry names of a code (none when the fetch found nothing). */
  function TagsOf(tags: map<string, seq<string>>, code: string): seq<string>
  {
    if code in tags then tags[code] else []
  }

  /** The codes already listed under a sector, none when it is new. */
  function Prior(m: map<string, seq<string>>, s: string): seq<string>
  {
    if s in m then m[s] else []
  }

  /** Adds `code` under each of `industries`, once per sector: it is
      appended at the end of a list that lacks it. */
  function AddCode(m: map<string, seq<string>>, code: string, industries: seq<string>): (r: map<string, seq<string>>)
    ensures forall s :: s in m ==> s in r
    ensures forall s :: s in r <==> s in m || s in industries
    ensures forall s :: s in r && s !in industries ==> r[s] == m[s]
    ensures forall s :: s in r && s in industries ==> (code in r[s] && forall c :: c in r[s] ==> c == code || (s in m && c in m[s]))
    ensures forall s :: s in m ==> forall c :: c in m[s] ==> c in r[s]
    decreases |industries|
  {
    if |industries| == 0 then m
    else
      var s := industries[0];
      var list := if s in m then m[s] else [];
      var m' := m[s := if code in list then list else list + [code]];
      assert forall x :: x in industries <==> x == s || x in industries[1..];
      AddCode(m', code, industries[1..])
  }

  /** Under each of its industries the code is appended at the end of the
      sector's list, unless that list already holds it. */
  lemma {:induction false} AddCodeAppends(m: map<string, seq<string>>, code: string, industries: seq<string>)
    ensures var r := AddCode(m, code, industries);
      forall s :: s in industries ==> s in r && r[s] == Prior(m, s) + (if code in Prior(m, s) then [] else [code])
    decreases |industries|
  {
    if |industries| > 0 {
      var s := industries[0];
      var list := Prior(m, s);
      var m' := m[s := if code in list then list else list + [code]];
      var r := AddCode(m', code, industries[1..]);
      assert AddCode(m, code, industries) == r;
      AddCodeAppends(m', code, industries[1..]);
      forall x | x in industries
        ensures x in r && r[x] == Prior(m, x) + (if code in Prior(m, x) then [] else [code])
      {
        if x != s {
          assert x in industries[1..];
          assert Prior(m', x) == Prior(m, x);
        } else if x in industries[1..] {
          assert Prior(m', x) == m'[s];
        } else {
          assert r[x] == m'[x];
        }
      }
    }
  }

  /** Adding a code never lists it twice under one sector. */
  lemma {:induction false} AddCodeKeepsDistinct(m: map<string, seq<string>>, code: string, industries: seq<string>)
    requires forall s :: s in m ==> NoDuplicates(m[s])
    ensures forall s :: s in AddCode(m, code, industries) ==> NoDuplicates(AddCode(m, code, industries)[s])
    decreases |industries|
  {
    if |industries| > 0 {
      var s := industries[0];
      var list := Prior(m, s);
      var m' := m[s := if code in list then list else list + [code]];
      assert NoDuplicates(m'[s]);
      assert AddCode(m, code, industries) == AddCode(m', code, industries[1..]);
      AddCodeKeepsDistinct(m', code, industries[1..]);
    }
  }

  /** The list is drawn from `codes` and follows their first occurrences. */
  predicate InCodeOrder(codes: seq<string>, list: seq<string>)
  {
    && (forall c :: c in list ==> c in codes)
    && (forall i, j :: 0 <= i < j < |list| ==> FirstIndex(codes, list[i]) < FirstIndex(codes, list[j]))
  }

  /** Appending to `codes` keeps the position of what was already there. */
  lemma {:induction false} FirstIndexAppend(init: seq<string>, last: string, x: string)
    requires x in init
    ensures FirstIndex(init + [last], x) == FirstIndex(init, x)
    decreases |init|
  {
    if init[0] != x {
      assert (init + [last])[1..] == init[1..] + [last];
      FirstIndexAppend(init[1..], last, x);
    }
  }

  /** A new code appended to `codes` sits at the end. */
  lemma {:induction false} FirstIndexOfNew(init: seq<string>, last: string)
    requires last !in init
    ensures FirstIndex(init + [last], last) == |init|
    decreases |init|
  {
    if |init| > 0 {
      assert (init + [last])[1..] == init[1..] + [last];
      FirstIndexOfNew(init[1..], last);
    }
  }

  /** A list in the order of `init` stays in order once `init` grows by one
      code, and may take that code at its end when the code is new. */
  lemma AppendKeepsOrder(init: seq<string>, last: string, prior: seq<string>)
    requires InCodeOrder(init, prior)
    ensures InCodeOrder(init + [last], prior)
    ensures last !in init ==> InCodeOrder(init + [last], prior + [last])
  {
    var codes := init + [last];
    forall c | c in prior
      ensures FirstIndex(codes, c) == FirstIndex(init, c)
    {
      FirstIndexAppend(init, last, c);
    }
    if last !in init {
      var list := prior + [last];
      FirstIndexOfNew(init, last);
      forall i, j | 0 <= i < j < |list|
        ensures FirstIndex(codes, list[i]) < FirstIndex(codes, list[j])
      {
        assert list[i] == prior[i] && prior[i] in init;
        if j < |prior| {
          assert list[j] == prior[j];
        } else {
          assert list[j] == last;
        }
      }
    }
  }

  /** Adding the next portfolio code keeps every sector list in portfolio order. */
  lemma AddCodeKeepsOrder(m: map<string, seq<string>>, init: seq<string>, last: string, industries: seq<string>)
    requires forall s :: s in m ==> InCodeOrder(init, m[s])
    requires forall s :: s in industries && last in init ==> last in Prior(m, s)
    ensures forall s :: s in AddCode(m, last, industries) ==> InCodeOrder(init + [last], AddCode(m, last, industries)[s])
  {
    var r := AddCode(m, last, industries);
    AddCodeAppends(m, last, industries);
    forall s | s in r
      ensures InCodeOrder(init + [last], r[s])
    {
      var prior := Prior(m, s);
      assert InCodeOrder(init, prior);
      AppendKeepsOrder(init, last, prior);
      if s !in industries {
        assert r[s] == prior;
      } else if last in prior {
        assert r[s] == prior;
      } else {
        assert r[s] == prior + [last];
      }
    }
  }

  /** `get_portfolio_sector_mapping`: sector name to the codes tagged with it,
      in portfolio order, each code once. */
  function SectorMapping(codes: seq<string>, tags: map<string, seq<string>>): (r: map<string, seq<string>>)
    ensures forall s :: s in r ==> NoDuplicates(r[s]) && |r[s]| > 0
    ensures forall s :: s in r ==> forall c :: c in r[s] ==> c in codes && s in TagsOf(tags, c)
    ensures forall c, s :: c in codes && s in TagsOf(tags, c) ==> s in r && c in r[s]
    decreases |codes|
  {
    if |codes| == 0 then map[]
    else
      var init := codes[..|codes| - 1];
      var last := codes[|codes| - 1];
      assert forall c :: c in codes <==> c in init || c == last;
      var m := SectorMapping(init, tags);
      AddCodeKeepsDistinct(m, last, TagsOf(tags, last));
      AddCode(m, last, TagsOf(tags, last))
  }

  /** Each sector's codes come in portfolio order. */
  lemma {:induction false} SectorMappingOrdered(codes: seq<string>, tags: map<string, seq<string>>)
    ensures forall s :: s in SectorMapping(codes, tags) ==> InCodeOrder(codes, SectorMapping(codes, tags)[s])
    decreases |codes|
  {
    if |codes| > 0 {
      var init := codes[..|codes| - 1];
      var last := codes[|codes| - 1];
      var m := SectorMapping(init, tags);
      SectorMappingOrdered(init, tags);
      assert codes == init + [last];
      assert forall s :: s in TagsOf(tags, last) && last in init ==> last in Prior(m, s);
      assert SectorMapping(codes, tags) == AddCode(m, last, TagsOf(tags, last));
      AddCodeKeepsOrder(m, init, last, TagsOf(tags, last));
    }
  }
}
