/** The enumerations of src/stock_analyzer.py: the regimes the classifiers
    choose between and the final buy signal. Each carries the Chinese label the
    Python enum uses as its value, because the evidence generator and the
    sector code compare those labels as text. */
module Regimes {

  /** `TrendStatus`: moving-average alignment. */
  datatype TrendStatus = StrongBull | Bull | WeakBull | Consolidation | WeakBear | Bear | StrongBear
  {
    function Label(): string
    {
      match this
      case StrongBull => "强势多头"
      case Bull => "多头排列"
      case WeakBull => "弱势多头"
      case Consolidation => "盘整"
      case WeakBear => "弱势空头"
      case Bear => "空头排列"
      case StrongBear => "强势空头"
    }

    /** Fully aligned upwards (MA5 > MA10 > MA20). */
    predicate IsBullish()
    {
      this == StrongBull || this == Bull
    }

    /** Fully aligned downwards (MA5 < MA10 < MA20). */
    predicate IsBearish()
    {
      this == Bear || this == StrongBear
    }
  }

  /** `VolumeStatus`: today's volume against the previous five days, with the price move. */
  datatype VolumeStatus = HeavyVolumeUp | HeavyVolumeDown | ShrinkVolumeUp | ShrinkVolumeDown | NormalVolume
  {
    function Label(): string
    {
      match this
      case HeavyVolumeUp => "放量上涨"
      case HeavyVolumeDown => "放量下跌"
      case ShrinkVolumeUp => "缩量上涨"
      case ShrinkVolumeDown => "缩量回调"
      case NormalVolume => "量能正常"
    }
  }

  /** `BuySignal`, strongest first. */
  datatype BuySignal = StrongBuy | Buy | Hold | Wait | Sell | StrongSell
  {
    /** Position on the buy/sell scale: 5 for STRONG_BUY down to 0 for STRONG_SELL. */
    function Rank(): (r: nat)
      ensures r <= 5
    {
      match this
      case StrongBuy => 5
      case Buy => 4
      case Hold => 3
      case Wait => 2
      case Sell => 1
      case StrongSell => 0
    }
  }

  /** `MACDStatus`. */
  datatype MacdStatus = GoldenCrossZero | GoldenCross | MacdBullish | CrossingUp | CrossingDown | MacdBearish | DeathCross
  {
    function Label(): string
    {
      match this
      case GoldenCrossZero => "零轴上金叉"
      case GoldenCross => "金叉"
      case MacdBullish => "多头"
      case CrossingUp => "上穿零轴"
      case CrossingDown => "下穿零轴"
      case MacdBearish => "空头"
      case DeathCross => "死叉"
    }
  }

  /** `RSIStatus`. */
  datatype RsiStatus = Overbought | RsiStrongBuy | RsiNeutral | RsiWeak | Oversold
  {
    function Label(): string
    {
      match this
      case Overbought => "超买"
      case RsiStrongBuy => "强势买入"
      case RsiNeutral => "中性"
      case RsiWeak => "弱势"
      case Oversold => "超卖"
    }

    /** Order of the bands from the lowest RSI (0) to the highest (4). */
    function Band(): nat
    {
      match this
      case Oversold => 0
      case RsiWeak => 1
      case RsiNeutral => 2
      case RsiStrongBuy => 3
      case Overbought => 4
    }
  }

  /** The Bollinger position strings of `_analyze_bollinger`. */
  datatype BollPosition = UpperBreakout | UpperPressure | NearMiddle | LowerSupport | LowerBreakdown
  {
    function Label(): string
    {
      match this
      case UpperBreakout => "上轨突破"
      case UpperPressure => "上轨压力"
      case NearMiddle => "中轨附近"
      case LowerSupport => "下轨支撑"
      case LowerBreakdown => "下轨跌破"
    }
  }

  /** The KDJ status strings of `_analyze_kdj`. */
  datatype KdjStatus = LowGoldenCross | KdjGoldenCross | HighDeathCross | KdjDeathCross | KdjOverbought | KdjOversold | KdjNeutral
  {
    function Label(): string
    {
      match this
      case LowGoldenCross => "低位金叉"
      case KdjGoldenCross => "金叉"
      case HighDeathCross => "高位死叉"
      case KdjDeathCross => "死叉"
      case KdjOverbought => "超买"
      case KdjOversold => "超卖"
      case KdjNeutral => "中性"
    }
  }

  /** The OBV trend strings of `_analyze_obv`. */
  datatype ObvTrend = BothRising | VolumeUpPriceWeak | PriceUpVolumeWeak | BothWeak | ObvNeutral
  {
    function Label(): string
    {
      match this
      case BothRising => "量价齐升"
      case VolumeUpPriceWeak => "量增价弱(潜在背离)"
      case PriceUpVolumeWeak => "价升量弱(顶部风险)"
      case BothWeak => "量价齐弱"
      case ObvNeutral => "中性"
    }
  }
}
