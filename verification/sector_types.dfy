/** The records and enumerations of src/sector/sector_types.py. The sector
    `TrendStatus` enumeration has the same seven members and labels as the
    per-stock one, so the model reuses `Regimes.TrendStatus`. */
module SectorTypes {

  datatype SectorKind = Industry | Concept | StyleSector | Theme
  {
    function Label(): string
    {
      match this
      case Industry => "industry"
      case Concept => "concept"
      case StyleSector => "style"
      case Theme => "theme"
    }
  }

  /** `MarketStatus`: the sector against the market. */
  datatype MarketStatus = LeaderUp | FollowUp | Sideways | FollowDown | LeaderDown
  {
    function Label(): string
    {
      match this
      case LeaderUp => "领涨"
      case FollowUp => "跟涨"
      case Sideways => "震荡"
      case FollowDown => "跟跌"
      case LeaderDown => "领跌"
    }
  }

  /** `SignalGrade`, most bullish first. */
  datatype SignalGrade = StrongBullish | Bullish | NeutralGrade | Bearish | StrongBearish
  {
    function Label(): string
    {
      match this
      case StrongBullish => "强看多"
      case Bullish => "看多"
      case NeutralGrade => "中性"
      case Bearish => "看空"
      case StrongBearish => "强看空"
    }
  }

  /** `SectorIndex`: the aggregated quote of one sector. */
  datatype SectorIndex = SectorIndex(
    code: string,
    name: string,
    kind: SectorKind,
    current: real,
    changePct: real,
    turnoverRate: real,
    upCount: nat,
    downCount: nat,
    limitUpCount: nat,
    limitDownCount: nat,
    avgChange: real,
    mainFlow: real,
    northFlow: real,
    strengthScore: real,
    relativeStrength: real,
    stockCount: nat,
    marketCap: real)

  /** `SectorStockStats`: one constituent. */
  datatype StockStats = StockStats(
    code: string,
    name: string,
    changePct: real,
    isLimitUp: bool,
    isLimitDown: bool,
    isLeading: bool,
    isLagging: bool,
    isAbnormal: bool)
}
