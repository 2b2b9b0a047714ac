/** The pure parts of `SectorFetcher` (src/sector/sector_fetcher.py): the
    row tally and strength formula of `get_sector_index`, the constituent code
    normalisation, and the sort-and-cut of `get_hot_sectors` and
    `get_leading_stocks`. The fetched table rows are inputs. */
module SectorFetch {

  import opened Outcomes
  import opened Series
  import opened Sorting
  import opened SectorTypes

  /** The "涨跌幅" cell of a row as `float(row.get("涨跌幅", 0) or 0)` sees it:
      a number, a missing or falsy value (read as 0), or text `float` rejects. */
  datatype ChangeCell = Parsed(value: real) | Blank | Unparsable

  /** The change a cell yields, or None when `float` raises. */
  function ChangeOf(c: ChangeCell): (r: Option<real>)
    ensures r.None? <==> c.Unparsable?
    ensures c.Blank? ==> r == Some(0.0)
  {
    match c
    case Parsed(v) => Some(v)
    case Blank => Some(0.0)
    case Unparsable => None
  }

  /** A limit move is a change of at least 9.9% either way. */
  const LimitMove: real := 9.9

  // ---------------------------------------------------------------- row tally

  datatype Tally = Tally(up: nat, down: nat, limitUp: nat, limitDown: nat, total: real, counted: nat)

  /** One iteration of the row loop; a row whose change does not parse is skipped whole. */
  function TallyStep(t: Tally, c: ChangeCell): (r: Tally)
    ensures c.Unparsable? ==> r == t
    ensures c.Parsed? && c.value > 0.0 ==> r.up == t.up + 1
    ensures !(c.Parsed? && c.value > 0.0) ==> r.up == t.up
    ensures c.Parsed? && c.value >= LimitMove ==> r.limitUp == t.limitUp + 1
    ensures !(c.Parsed? && c.value >= LimitMove) ==> r.limitUp == t.limitUp
    ensures c.Parsed? && c.value < 0.0 ==> r.down == t.down + 1
    ensures !(c.Parsed? && c.value < 0.0) ==> r.down == t.down
    ensures c.Parsed? && c.value <= -LimitMove ==> r.limitDown == t.limitDown + 1
    ensures !(c.Parsed? && c.value <= -LimitMove) ==> r.limitDown == t.limitDown
    ensures !c.Unparsable? ==> r.total == t.total + ChangeOf(c).value && r.counted == t.counted + 1
  {
    match ChangeOf(c)
    case None => t
    case Some(change) =>
      Tally(
        if change > 0.0 then t.up + 1 else t.up,
        if change < 0.0 then t.down + 1 else t.down,
        if change >= LimitMove then t.limitUp + 1 else t.limitUp,
        if change <= -LimitMove then t.limitDown + 1 else t.limitDown,
        t.total + change,
        t.counted + 1)
  }

  /** The tally after the given rows, in order. */
  function TallyRows(cells: seq<ChangeCell>): (r: Tally)
    decreases |cells|
  {
    if |cells| == 0 then Tally(0, 0, 0, 0, 0.0, 0)
    else TallyStep(TallyRows(cells[..|cells| - 1]), cells[|cells| - 1])
  }

  /** Every limit-up row is an up row, every limit-down row a down row, and no
      row is counted both up and down. */
  lemma {:induction false} TallyBounds(cells: seq<ChangeCell>)
    ensures TallyRows(cells).limitUp <= TallyRows(cells).up
    ensures TallyRows(cells).limitDown <= TallyRows(cells).down
    ensures TallyRows(cells).up + TallyRows(cells).down <= TallyRows(cells).counted <= |cells|
    decreases |cells|
  {
    if |cells| > 0 {
      TallyBounds(cells[..|cells| - 1]);
    }
  }

  /** The tally only counts parsed rows: its total is the sum of their changes. */
  lemma {:induction false} TallyTotal(cells: seq<ChangeCell>)
    ensures TallyRows(cells).total == Sum(Parsable(cells))
    ensures TallyRows(cells).counted == |Parsable(cells)|
    decreases |cells|
  {
    if |cells| > 0 {
      var init := cells[..|cells| - 1];
      TallyTotal(init);
      assert cells == init + [cells[|cells| - 1]];
      ParsableAppend(init, [cells[|cells| - 1]]);
      SumAppend(Parsable(init), Parsable([cells[|cells| - 1]]));
    }
  }

  /** The changes of the rows that parse, in order. */
  function Parsable(cells: seq<ChangeCell>): seq<real>
    decreases |cells|
  {
    if |cells| == 0 then [] else ParsedOf(cells[0]) + Parsable(cells[1..])
  }

  /** The change of one row as a list of zero or one values. */
  function ParsedOf(cell: ChangeCell): seq<real>
  {
    match ChangeOf(cell) case None => [] case Some(v) => [v]
  }

  lemma {:induction false} ParsableAppend(a: seq<ChangeCell>, b: seq<ChangeCell>)
    ensures Parsable(a + b) == Parsable(a) + Parsable(b)
    decreases |a|
  {
    if |a| == 0 {
      assert a + b == b;
    } else {
      assert (a + b)[0] == a[0];
      assert (a + b)[1..] == a[1..] + b;
      ParsableAppend(a[1..], b);
      calc {
        Parsable(a + b);
        ParsedOf(a[0]) + Parsable(a[1..] + b);
        ParsedOf(a[0]) + (Parsable(a[1..]) + Parsable(b));
        (ParsedOf(a[0]) + Parsable(a[1..])) + Parsable(b);
      }
    }
  }

  /** The row loop of `get_sector_index`, one pass. */
  method TallyLoop(cells: seq<ChangeCell>) returns (t: Tally)
    ensures t == TallyRows(cells)
    ensures t.limitUp <= t.up && t.limitDown <= t.down && t.up + t.down <= |cells|
  {
    t := Tally(0, 0, 0, 0, 0.0, 0);
    var i := 0;
    while i < |cells|
      invariant 0 <= i <= |cells|
      invariant t == TallyRows(cells[..i])
    {
      assert cells[..i + 1][..i] == cells[..i];
      t := TallyStep(t, cells[i]);
      i := i + 1;
    }
    assert cells[..|cells|] == cells;
    TallyBounds(cells);
  }

  // ---------------------------------------------------------------- strength

  /** The strength score of a relative strength: linear through 50 with slope
      2 inside [-5, 5]; outside it restarts from 50 with slope 5, clamped to
      [0, 100]. */
  function StrengthScore(rs: real): (r: real)
    ensures 0.0 <= r <= 100.0
    ensures -5.0 <= rs <= 5.0 ==> r == 50.0 + 2.0 * rs
    ensures rs > 5.0 ==> 50.0 < r
    ensures rs < -5.0 ==> r < 50.0
  {
    if rs > 5.0 then Min(100.0, 50.0 + (rs - 5.0) * 5.0)
    else if rs < -5.0 then Max(0.0, 50.0 + (rs + 5.0) * 5.0)
    else 50.0 + rs * 2.0
  }

  /** The formula drops when crossing 5: 60 at 5 but 50.5 just above it. */
  lemma StrengthDropsAtFive()
    ensures StrengthScore(5.0) == 60.0 && StrengthScore(5.1) == 50.5
    ensures StrengthScore(-5.0) == 40.0 && StrengthScore(-5.1) == 49.5
  {
  }

  /** Within each of the three pieces the score is non-decreasing. */
  lemma StrengthMonotoneOnPieces(a: real, b: real)
    requires a <= b
    requires (a > 5.0 && b > 5.0) || (-5.0 <= a && b <= 5.0) || (a < -5.0 && b < -5.0)
    ensures StrengthScore(a) <= StrengthScore(b)
  {
  }

  /** `get_sector_index` on fetched data. The average divides the parsed
      changes by the number of constituents, not the number of rows. No
      constituents, or an empty table, gives None. */
  function SectorIndexOf(code: string, name: string, kind: SectorKind, constituents: seq<string>,
                         cells: seq<ChangeCell>, marketChange: real): (r: Option<SectorIndex>)
    ensures r.Some? <==> |constituents| > 0 && |cells| > 0
    ensures r.Some? ==>
      && r.value.stockCount == |constituents|
      && r.value.avgChange * (|constituents| as real) == Sum(Parsable(cells))
      && r.value.changePct == r.value.avgChange
      && r.value.relativeStrength == r.value.avgChange - marketChange
      && r.value.strengthScore == StrengthScore(r.value.relativeStrength)
      && 0.0 <= r.value.strengthScore <= 100.0
      && r.value.limitUpCount <= r.value.upCount && r.value.limitDownCount <= r.value.downCount
      && r.value.upCount + r.value.downCount <= |cells|
    ensures r.Some? ==>
      && r.value.upCount == TallyRows(cells).up && r.value.downCount == TallyRows(cells).down
      && r.value.limitUpCount == TallyRows(cells).limitUp && r.value.limitDownCount == TallyRows(cells).limitDown
  {
    if |constituents| == 0 || |cells| == 0 then None
    else
      var t := TallyRows(cells);
      TallyBounds(cells);
      TallyTotal(cells);
      var avg := t.total / (|constituents| as real);
      var rs := avg - marketChange;
      Some(SectorIndex(code, name, kind, 0.0, avg, 0.0, t.up, t.down, t.limitUp, t.limitDown,
        avg, 0.0, 0.0, StrengthScore(rs), rs, |constituents|, 0.0))
  }

  // ---------------------------------------------------------------- code normalisation

  predicate IsDigit(c: char)
  {
    '0' <= c <= '9'
  }

  /** `code.split(".")[0]`: everything before the first dot. */
  function BeforeDot(s: string): (r: string)
    ensures r <= s
    ensures '.' !in r
    ensures '.' !in s ==> r == s
    ensures |r| < |s| ==> s[|r|] == '.'
    decreases |s|
  {
    if |s| == 0 then ""
    else if s[0] == '.' then ""
    else [s[0]] + BeforeDot(s[1..])
  }

  /** The constituent code filter: cut at the first dot, then keep only a code
      of exactly six decimal digits. */
  function NormalizeCode(raw: string): (r: Option<string>)
    ensures r.Some? <==> |BeforeDot(raw)| == 6 && forall k :: 0 <= k < 6 ==> IsDigit(BeforeDot(raw)[k])
    ensures r.Some? ==> r.value == BeforeDot(raw) && r.value <= raw
  {
    var code := BeforeDot(raw);
    if |code| == 6 && forall k :: 0 <= k < 6 ==> IsDigit(code[k]) then Some(code) else None
  }

  /** A normalised code normalises to itself. */
  lemma NormalizeIdempotent(raw: string)
    requires NormalizeCode(raw).Some?
    ensures NormalizeCode(NormalizeCode(raw).value) == NormalizeCode(raw)
  {
  }

  predicate ValidCode(c: string)
  {
    |c| == 6 && forall k :: 0 <= k < 6 ==> IsDigit(c[k])
  }

  /** `get_sector_constituents` on the raw code column. */
  function Constituents(raw: seq<string>): (r: seq<string>)
    ensures |r| <= |raw|
    ensures forall k :: 0 <= k < |r| ==> ValidCode(r[k])
    ensures forall k :: 0 <= k < |raw| && NormalizeCode(raw[k]).Some? ==> NormalizeCode(raw[k]).value in r
    ensures forall c :: c in r ==> exists k :: 0 <= k < |raw| && NormalizeCode(raw[k]) == Some(c)
    decreases |raw|
  {
    if |raw| == 0 then []
    else
      var rest := Constituents(raw[1..]);
      assert forall k :: 1 <= k < |raw| ==> raw[k] == raw[1..][k - 1];
      match NormalizeCode(raw[0])
      case None => rest
      case Some(c) => [c] + rest
  }

  // ---------------------------------------------------------------- hot sectors

  /** One row of the industry table. */
  datatype SectorRow = SectorRow(code: string, name: string, change: ChangeCell)

  datatype HotSector = HotSector(code: string, name: string, changePct: real)

  function HotChange(h: HotSector): real { h.changePct }

  /** The rows kept by `get_hot_sectors`, in table order: both code and name
      non-empty; a change that does not parse counts as 0. */
  function HotCandidates(rows: seq<SectorRow>): (r: seq<HotSector>)
    ensures |r| <= |rows|
    ensures forall h :: h in r ==> h.code != "" && h.name != ""
    ensures forall k :: 0 <= k < |rows| && rows[k].code != "" && rows[k].name != "" ==>
      HotSector(rows[k].code, rows[k].name, ChangeOf(rows[k].change).GetOr(0.0)) in r
    ensures forall h :: h in r ==>
      exists k :: 0 <= k < |rows| && rows[k].code != "" && rows[k].name != "" &&
        h == HotSector(rows[k].code, rows[k].name, ChangeOf(rows[k].change).GetOr(0.0))
    decreases |rows|
  {
    if |rows| == 0 then []
    else
      var rest := HotCandidates(rows[1..]);
      assert forall k :: 1 <= k < |rows| ==> rows[k] == rows[1..][k - 1];
      var row := rows[0];
      if row.code != "" && row.name != "" then
        [HotSector(row.code, row.name, ChangeOf(row.change).GetOr(0.0))] + rest
      else rest
  }

  /** `get_hot_sectors`: the candidates by change, largest first, cut to `limit`. */
  function HotSectors(rows: seq<SectorRow>, limit: int): (r: seq<HotSector>)
    ensures SortedDesc(r, HotChange)
    ensures limit >= 0 ==> |r| == if limit < |HotCandidates(rows)| then limit else |HotCandidates(rows)|
    ensures multiset(r) <= multiset(HotCandidates(rows))
    ensures forall h, i :: h in multiset(HotCandidates(rows)) - multiset(r) && 0 <= i < |r| ==>
      h.changePct <= r[i].changePct
    ensures limit >= 0 && limit >= |HotCandidates(rows)| ==> multiset(r) == multiset(HotCandidates(rows))
    ensures forall h :: h in r ==> h in HotCandidates(rows)
  {
    var r := TopDesc(HotCandidates(rows), HotChange, limit);
    assert limit >= 0 && limit >= |HotCandidates(rows)| ==> r == SortDesc(HotCandidates(rows), HotChange);
    r
  }

  // ---------------------------------------------------------------- leading stocks

  function StockChange(s: StockStats): real { s.changePct }

  /** The constituents `get_leading_stocks` keeps, in table order: a valid
      code and a change that parses. */
  function LeadingCandidates(rows: seq<SectorRow>): (r: seq<StockStats>)
    ensures |r| <= |rows|
    ensures forall s :: s in r ==> ValidCode(s.code) && s.isLeading && !s.isLimitDown
    ensures forall s :: s in r ==> (s.isLimitUp <==> s.changePct >= LimitMove)
    ensures forall k :: 0 <= k < |rows| && NormalizeCode(rows[k].code).Some? && ChangeOf(rows[k].change).Some? ==>
      Leader(NormalizeCode(rows[k].code).value, rows[k].name, ChangeOf(rows[k].change).value) in r
    ensures forall s :: s in r ==>
      exists k :: 0 <= k < |rows| &&
        NormalizeCode(rows[k].code).Some? && ChangeOf(rows[k].change).Some? &&
        s == Leader(NormalizeCode(rows[k].code).value, rows[k].name, ChangeOf(rows[k].change).value)
    decreases |rows|
  {
    if |rows| == 0 then []
    else
      var rest := LeadingCandidates(rows[1..]);
      assert forall k :: 1 <= k < |rows| ==> rows[k] == rows[1..][k - 1];
      var row := rows[0];
      match (NormalizeCode(row.code), ChangeOf(row.change))
      case (Some(code), Some(change)) => [Leader(code, row.name, change)] + rest
      case _ => rest
  }

  /** The record `get_leading_stocks` builds for one constituent: a leader,
      limit-up from a 9.9% rise. */
  function Leader(code: string, name: string, change: real): StockStats
  {
    StockStats(code, name, change, change >= LimitMove, false, true, false, false)
  }

  // ---------------------------------------------------------------- order

  /** The constituent filter keeps table order: it works row by row. */
  lemma {:induction false} ConstituentsAppend(a: seq<string>, b: seq<string>)
    ensures Constituents(a + b) == Constituents(a) + Constituents(b)
    decreases |a|
  {
    if |a| > 0 {
      assert (a + b)[1..] == a[1..] + b;
      ConstituentsAppend(a[1..], b);
    } else {
      assert a + b == b;
    }
  }

  /** The hot-sector candidates keep table order. */
  lemma {:induction false} HotCandidatesAppend(a: seq<SectorRow>, b: seq<SectorRow>)
    ensures HotCandidates(a + b) == HotCandidates(a) + HotCandidates(b)
    decreases |a|
  {
    if |a| > 0 {
      assert (a + b)[1..] == a[1..] + b;
      HotCandidatesAppend(a[1..], b);
    } else {
      assert a + b == b;
    }
  }

  /** The leading-stock candidates keep table order. */
  lemma {:induction false} LeadingCandidatesAppend(a: seq<SectorRow>, b: seq<SectorRow>)
    ensures LeadingCandidates(a + b) == LeadingCandidates(a) + LeadingCandidates(b)
    decreases |a|
  {
    if |a| > 0 {
      assert (a + b)[1..] == a[1..] + b;
      LeadingCandidatesAppend(a[1..], b);
    } else {
      assert a + b == b;
    }
  }

  /** `get_leading_stocks`: the candidates by change, largest first, cut to `limit`. */
  function LeadingStocks(rows: seq<SectorRow>, limit: int): (r: seq<StockStats>)
    ensures SortedDesc(r, StockChange)
    ensures limit >= 0 ==> |r| == if limit < |LeadingCandidates(rows)| then limit else |LeadingCandidates(rows)|
    ensures multiset(r) <= multiset(LeadingCandidates(rows))
    ensures forall s, i :: s in multiset(LeadingCandidates(rows)) - multiset(r) && 0 <= i < |r| ==>
      s.changePct <= r[i].changePct
    ensures forall s :: s in r ==> s in LeadingCandidates(rows)
    ensures forall s :: s in r ==> ValidCode(s.code) && (s.isLimitUp <==> s.changePct >= LimitMove)
  {
    TopDesc(LeadingCandidates(rows), StockChange, limit)
  }
}
