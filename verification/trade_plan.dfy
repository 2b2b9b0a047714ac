/** `_build_trade_plan` (src/stock_analyzer.py): entry, ATR-based stop and
    target, a position size bounded by the risk limits, and the
    reward-to-risk ratio. */
module TradePlans {

  import opened Series

  const AtrStopMultiplier: real := 2.0
  const TargetProfitMultiplier: real := 3.0
  /** Fallback distances, as fractions of the price, when the ATR is not positive. */
  const FallbackStopFraction: real := 0.03
  const FallbackTargetFraction: real := 0.06
  /** The loss floor that keeps the ratio's denominator positive. */
  const MinimumLoss: real := 0.01
  /** `_get_risk_limits` without a configuration. */
  const DefaultMaxPosition: real := 30.0
  const DefaultMaxSinglePosition: real := 20.0

  datatype TradePlan = TradePlan(
    entry: real,
    stop: real,
    target: real,
    atrStop: real,
    position: real,
    riskReward: real)

  /** The stop distance before the price floor is applied. */
  function StopDistance(price: real, atr: real): (r: real)
    ensures atr > 0.0 ==> r == AtrStopMultiplier * atr
    ensures atr <= 0.0 ==> r == FallbackStopFraction * price
    ensures price > 0.0 ==> r > 0.0
  {
    var d := Max(atr, 0.0) * AtrStopMultiplier;
    if d <= 0.0 then price * FallbackStopFraction else d
  }

  /** The target distance. */
  function TargetDistance(price: real, atr: real): (r: real)
    ensures atr > 0.0 ==> r == TargetProfitMultiplier * atr
    ensures atr <= 0.0 ==> r == FallbackTargetFraction * price
    ensures price > 0.0 ==> r > 0.0
  {
    var d := Max(atr, 0.0) * TargetProfitMultiplier;
    if d <= 0.0 then price * FallbackTargetFraction else d
  }

  /** `min(score / 4, 25, max_position_pct, max_single_position)`. */
  function PositionSize(score: int, maxPosition: real, maxSingle: real): (r: real)
    ensures r <= 25.0 && r <= maxPosition && r <= maxSingle && r <= score as real / 4.0
    ensures r == 25.0 || r == maxPosition || r == maxSingle || r == score as real / 4.0
    ensures score >= 0 && maxPosition >= 0.0 && maxSingle >= 0.0 ==> r >= 0.0
  {
    Min(Min(Min(score as real / 4.0, 25.0), maxPosition), maxSingle)
  }

  /** The plan for a close `price`, a 14-day ATR `atr` and a signal score. */
  function BuildTradePlan(price: real, atr: real, score: int, maxPosition: real, maxSingle: real): (r: TradePlan)
    ensures r.entry == price
    ensures r.stop >= 0.0 && r.riskReward >= 0.0
    ensures price > 0.0 ==> r.stop < r.entry < r.target
    ensures price > 0.0 ==> r.atrStop > 0.0 && r.entry - r.stop <= r.atrStop
    ensures r.position == PositionSize(score, maxPosition, maxSingle)
    ensures atr > 0.0 && price >= AtrStopMultiplier * atr && AtrStopMultiplier * atr >= MinimumLoss ==>
      r.stop == price - AtrStopMultiplier * atr && r.riskReward == 1.5
    ensures atr <= 0.0 && FallbackStopFraction * price >= MinimumLoss ==>
      r.stop == price - FallbackStopFraction * price && r.riskReward == 2.0
  {
    var stopDistance := StopDistance(price, atr);
    var targetDistance := TargetDistance(price, atr);
    var stop := Max(0.0, price - stopDistance);
    var target := price + targetDistance;
    var loss := Max(price - stop, MinimumLoss);
    var gain := Max(target - price, 0.0);
    RatioCases(price, atr, stop, target, loss, gain);
    TradePlan(price, stop, target, stopDistance, PositionSize(score, maxPosition, maxSingle), gain / loss)
  }

  /** The ratio is 3/2 on the ATR path and 6/3 on the fallback path. */
  lemma RatioCases(price: real, atr: real, stop: real, target: real, loss: real, gain: real)
    requires stop == Max(0.0, price - StopDistance(price, atr))
    requires target == price + TargetDistance(price, atr)
    requires loss == Max(price - stop, MinimumLoss) && gain == Max(target - price, 0.0)
    ensures gain / loss >= 0.0
    ensures atr > 0.0 && price >= AtrStopMultiplier * atr && AtrStopMultiplier * atr >= MinimumLoss ==>
      gain / loss == 1.5
    ensures atr <= 0.0 && FallbackStopFraction * price >= MinimumLoss ==> gain / loss == 2.0
  {
    if atr > 0.0 && price >= AtrStopMultiplier * atr && AtrStopMultiplier * atr >= MinimumLoss {
      assert loss == 2.0 * atr && gain == 3.0 * atr;
      assert gain == 1.5 * loss;
    }
    if atr <= 0.0 && FallbackStopFraction * price >= MinimumLoss {
      assert loss == 0.03 * price && gain == 0.06 * price;
      assert gain == 2.0 * loss;
    }
  }
}
