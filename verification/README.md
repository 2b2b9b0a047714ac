# daily_stock_analysis signal engine in Dafny

This project models the rule-based stock-signal engine of `daily_stock_analysis` and proves properties of it.

**Per-stock analyzer** (`StockTrendAnalyzer.analyze`). Given a date-sorted series of daily bars, it:
- computes moving averages, MACD, RSI, ATR, KDJ and OBV;
- classifies the trend, bias, volume, support/resistance, MACD, RSI, Bollinger, KDJ and OBV regimes;
- scores them out of 100 and maps the score and trend to a buy signal;
- applies the timeframe bonus, the fund-flow notes, the resonance filter and the signal-age decay;
- builds an ATR-based trade plan and attaches the structured signal evidence.

**Around the analyzer**, the project also models:
- the sector rules: market status, trend, score, grade, flow, risks and advice, plus the hot-sector ranking;
- the pure parts of the sector fetcher: row tally, strength score, code normalisation and top-N lists;
- the industry/style tagger;
- the rule-configuration loader: environment overrides, style presets, dict-to-rules conversion and the two-field cache.

## Modelling choices

- **Numbers and series.**
  - Prices, volumes and indicator values are `real` (exact).
  - A series is a `seq` of bars, already sorted by date.
  - Integer counts are `nat`.
- **pandas NaN.** NaN appears in the model only where it changes a branch:
  - the first bar's price difference;
  - incomplete rolling windows, as `Option<real>`;
  - the MA20 four bars back, which is missing on fewer than 24 bars.
- **Notes instead of text.** The reasons and risks `_generate_signal` and the filters append are values of a `Note` datatype, not formatted strings.
- **Failures.** A Python exception is an `Err` of `Outcomes.Result`. Examples:
  - an `ewm` span below 1;
  - a missing `RSI_<n>` column;
  - a negative `rolling` window among the configured RSI periods;
  - an unknown dataclass keyword in `_dict_to_config`;
  - the `up_ratio` attribute error in the sector analyzer;
  - the call to `get_sector_stocks_data`, which `SectorFetcher` does not define.
- **Global state.** The module-level cache (`_cached_rules`, `_cached_style`) is a `Cache` value threaded through `Config.GetRules`.
- **Where the documentation and the code disagree, the model follows the code:**
  - `_analyze_trend` compares with `df.iloc[-5]`, which is four bars back, not five.
  - The bias table uses `bias > -3` for 20 points and `bias > -5` for 16. So a bias of exactly -3 scores 16 and exactly -5 scores 8.
  - RSI is 100 when the average loss is 0 and the average gain is positive. It is 50 only for 0/0 or an incomplete window.
  - `_analyze_macd` tests for insufficient data against the class constant `MACD_SLOW` (26), not the configured slow period. The EMA spans themselves do come from `_get_macd_config`.
  - Environment overrides are applied before the style preset.
  - The evidence generator scores trend, bias, volume and support only. It accepts the MACD and RSI states but never reads them.

## Model

| member | source | states |
|---|---|---|
| Series.RollingMean | src/stock_analyzer.py:578-588 | a `rolling(window=w).mean()` value exists exactly when the window is full |
| Series.RollingMeanBounds | src/stock_analyzer.py:578-588 | a rolling mean lies between any bounds of the values in its window |
| Series.SlidingMeans | src/stock_analyzer.py:578-588 | the one-pass running-total loop yields, at every bar, the same value as the windowed definition of the rolling mean |
| Series.SeqMin | src/stock_analyzer.py:684-694 | the window minimum is one of the window's values and no value is below it |
| Series.SeqMax | src/stock_analyzer.py:1095-1098 | the 20-day high is one of the window's highs and no high exceeds it |
| Indicators.LatestMas | src/stock_analyzer.py:578-588 | MA5/MA10/MA20 are the means of the last 5/10/20 closes; MA60 falls back to MA20 when fewer than 60 bars exist |
| Indicators.SpanAlpha | src/stock_analyzer.py:590-619 | the `ewm(span)` smoothing factor lies in (0, 1] for every span pandas accepts |
| Indicators.EmaWithin | src/stock_analyzer.py:590-619 | an exponential average never leaves the range of the values it has seen |
| Indicators.EmaSeries | src/stock_analyzer.py:590-619 | the iterative EMA loop computes the recursive EMA at every bar |
| Indicators.DifBounded | src/stock_analyzer.py:590-619 | DIF never exceeds the price range of the closes in either direction |
| Indicators.DeaBounded | src/stock_analyzer.py:590-619 | DEA stays within the same band as DIF |
| Indicators.FlatPricesNoMacd | src/stock_analyzer.py:590-619 | on a constant price series DIF, DEA and the MACD bar are all zero |
| Indicators.GainLossSplit | src/stock_analyzer.py:636-640 | gain minus loss is the price change, at most one of them is non-zero, each dominates its side of the change, and both are 0 on the first bar |
| Indicators.RsiOfAverages | src/stock_analyzer.py:647-648 | with a positive average loss, RSI lies in [0, 100) and is 0 exactly when there was no gain |
| Indicators.Rsi | src/stock_analyzer.py:621-657 | RSI always lies in [0, 100], and is the neutral 50 while the window is incomplete |
| Indicators.RisingSeriesRsi | src/stock_analyzer.py:643-651 | on a strictly rising series a full-window RSI is 100, not the NaN fallback 50 |
| Indicators.RisingWindowHasNoLoss | src/stock_analyzer.py:640-644 | a strictly rising window has a zero average loss |
| Indicators.RisingWindowGains | src/stock_analyzer.py:639-643 | a window ending in a rise has a positive average gain |
| Indicators.TrueRangeIsLargestMove | src/stock_analyzer.py:659-671 | each true range is the largest of high-low and the two gaps to the previous close, and high-low on the first bar |
| Indicators.AtrNonNegative | src/stock_analyzer.py:659-671 | ATR(14) is never negative when every bar's high is at least its low |
| Indicators.RsvSeriesWithin | src/stock_analyzer.py:684-694 | every RSV value lies in [0, 100) when every close lies inside its bar's range |
| Indicators.KSeriesWithin | src/stock_analyzer.py:684-694 | every K value lies in [0, 100] for such bars |
| Indicators.WindowExtremes | src/stock_analyzer.py:684-694 | a bar's own low and high bracket the 9-bar rolling low and high that contain it |
| Indicators.RsvWithin | src/stock_analyzer.py:684-694 | RSV lies in [0, 100) whenever every close lies inside its bar's range |
| Indicators.KdWithin | src/stock_analyzer.py:684-694 | K and D stay within [0, 100] for such bars |
| Indicators.ObvRecurrence | src/stock_analyzer.py:696-702 | OBV starts at 0 and each bar adds its volume on an up close, subtracts it on a down close, and adds nothing when flat |
| Indicators.ObvSeries | src/stock_analyzer.py:696-702 | the one-pass accumulation computes the cumulative-sum OBV at every bar |
| Classifiers.Spread | src/stock_analyzer.py:957-962 | the MA spread is positive exactly when the upper average is above the lower, and 0 when the base is not positive |
| Classifiers.ClassifyTrend | src/stock_analyzer.py:951-1004 | bullish iff MA5>MA10>MA20; WEAK_BULL iff MA5>MA10<=MA20; bearish iff MA5<MA10<MA20; WEAK_BEAR iff MA5<MA10>=MA20; CONSOLIDATION iff MA5=MA10; STRONG_BULL iff the bull stack has a spread above 5% that widened since four bars back; STRONG_BEAR iff the bear stack has a spread above 5% that widened, which needs the old MA20 |
| Classifiers.TrendStrength | src/stock_analyzer.py:963-1004 | the trend strength lies in [10, 90], at least 75 for bullish trends and at most 25 for bearish ones |
| Classifiers.MissingHistoryAsymmetry | src/stock_analyzer.py:956-987 | when MA20 four bars back is missing, STRONG_BEAR can never be reached, though STRONG_BULL still can |
| Classifiers.Bias | src/stock_analyzer.py:1006-1021 | the bias is positive exactly when price is above MA5, negative exactly when below, and 0 when MA5 is not positive |
| Classifiers.PriceRose | src/stock_analyzer.py:1023-1063 | the test `(close - prev) / prev * 100 > 0` means the close rose for a positive previous close, fell for a negative one, and is positive for a zero one exactly when the close is positive (numpy infinities) |
| Classifiers.PriorVolumes | src/stock_analyzer.py:1023-1063 | the volume baseline is the five bars before the latest, or all earlier bars on a 5-bar series |
| Classifiers.VolumeRatio | src/stock_analyzer.py:1023-1063 | the volume ratio times the baseline mean is the latest volume; a non-positive baseline gives 0 |
| Classifiers.ClassifyVolume | src/stock_analyzer.py:1023-1063 | heavy iff ratio >= the heavy threshold; shrinking iff below it and <= the shrink threshold; the Up/Down variant follows the last price move; short series are normal |
| Classifiers.NearSupportMeaning | src/stock_analyzer.py:1076-1079 | the distance-and-above test is exactly ma <= price <= 1.02 * ma with a positive ma |
| Classifiers.AnalyzeSupport | src/stock_analyzer.py:1065-1098 | support at MA5/MA10 holds iff price is within 2% above it; the support list is exactly `SupportLevels` of the moving averages; the single resistance exists iff at least 20 highs exist and their maximum exceeds price, and is that maximum |
| Classifiers.SupportLevels | src/stock_analyzer.py:1075-1091 | the supports are MA5 when near, then MA10 when near and not already listed, then a positive MA20 at or below price, each in (0, price] and at most three |
| Classifiers.SupportLevelsFacts | src/stock_analyzer.py:1075-1091 | MA5 is first when near, MA10 is listed when near, MA20 is last when positive and at or below price, and nothing else is listed |
| Classifiers.ClassifyMacd | src/stock_analyzer.py:1109-1161 | each of the seven states holds exactly when its cross condition holds and no earlier case in the priority order matches |
| Classifiers.ReadMacd | src/stock_analyzer.py:1100-1161 | fewer than 26 bars give the insufficient BULLISH reading; otherwise the last DIF/DEA/bar and the status of the last two bars |
| Classifiers.ClassifyRsi | src/stock_analyzer.py:1163-1209 | each RSI band is characterised by its range, with overbought taking precedence |
| Classifiers.RsiBandMonotone | src/stock_analyzer.py:1163-1209 | a higher RSI never falls into a lower band |
| Classifiers.ReadRsi | src/stock_analyzer.py:1163-1209 | a short series gives the neutral insufficient reading; a missing RSI column is an error exactly when a defaulted period is not configured; otherwise the mid RSI decides the status |
| Classifiers.ClassifyBollinger | src/stock_analyzer.py:704-721 | non-positive bands give NEAR_MIDDLE; otherwise the breakout holds iff price is above the upper band, and NEAR_MIDDLE means strictly inside the bands |
| Classifiers.BollingerZones | src/stock_analyzer.py:704-721 | below the lower band, within the top 10% and within the bottom 10% of the band width are each characterised exactly |
| Classifiers.ClassifyKdj | src/stock_analyzer.py:723-753 | a golden cross iff K crosses above D, low iff also K<30; a death cross iff K crosses below D, high iff also K>70; with a previous day, the result is overbought iff there is no cross and K and D are both above 80, oversold iff there is no cross and both are below 20, and neutral otherwise |
| Classifiers.ClassifyObv | src/stock_analyzer.py:755-776 | neutral iff fewer than 6 bars; otherwise OBV rising and price rising over five bars pick the state |
| Scoring.TrendPoints | src/stock_analyzer.py:1228-1237 | trend points lie in [0, 30], at least 26 exactly for bullish trends and 0 exactly for STRONG_BEAR |
| Scoring.BiasPoints | src/stock_analyzer.py:1245-1270 | bias points lie in [4, 20]; 20 iff -3<bias<0, 18 iff 0<=bias<2, 8 iff bias<=-5, 4 iff bias is at least 2 and the threshold |
| Scoring.VolumePoints | src/stock_analyzer.py:1272-1286 | volume points lie in [0, 15]; 15 iff shrinking on a pullback, 0 iff heavy selling |
| Scoring.SupportPoints | src/stock_analyzer.py:1288-1294 | support points lie in [0, 10] and are 0 iff neither MA holds |
| Scoring.MacdPoints | src/stock_analyzer.py:1296-1316 | MACD points lie in [0, 15] and are 0 iff a death cross or a zero-line cross down |
| Scoring.RsiPoints | src/stock_analyzer.py:1318-1334 | RSI points lie in [0, 10] and are 0 iff overbought |
| Scoring.Score | src/stock_analyzer.py:1211-1361 | the composite score lies in [4, 100] |
| Scoring.PerfectScore | src/stock_analyzer.py:1211-1361 | the score is 100 exactly when every table is at its maximum |
| Scoring.MapSignal | src/stock_analyzer.py:1364-1384 | each signal is characterised by its score band and trend family: STRONG_BUY needs >=75 and a bullish trend, STRONG_SELL <30 and a bearish trend |
| Scoring.MapSignalMonotone | src/stock_analyzer.py:1364-1384 | for a fixed trend a higher score never maps to a lower signal |
| Scoring.GenerateSignal | src/stock_analyzer.py:1211-1384 | the verdict's score is the composite score and maps to its signal; the trend note is a reason iff bullish and a risk iff bearish; the MACD and RSI notes are always recorded; the bias risk appears iff bias <= -5 or above the threshold; every note comes from one of the indicator clauses |
| Scoring.ReasonsFacts | src/stock_analyzer.py:1228-1357 | which notes land among the reasons |
| Scoring.RisksFacts | src/stock_analyzer.py:1228-1357 | which notes land among the risks |
| Scoring.NotesFromIndicators | src/stock_analyzer.py:1228-1357 | every note the signal generator writes comes from one of the nine indicator clauses |
| Filters.TimeframeAlignment | src/stock_analyzer.py:805-832 | alignment holds only with a usable 30-minute series (at least 20 bars) and a bullish daily trend; with a usable series it holds iff the trend is bullish and the intraday MAs are stacked bullishly |
| Filters.AlignmentBonus | src/stock_analyzer.py:829 | the bonus `min(100, score + 5)` adds exactly 5 below the cap, never more, and never lowers an in-range score |
| Filters.ApplyTimeframe | src/stock_analyzer.py:805-832 | an unusable 30-minute series changes nothing; otherwise alignment adds the capped 5-point bonus and the aligned reason, and misalignment keeps the score and adds the not-aligned risk; the signal is never re-mapped |
| Filters.FindColumn | src/stock_analyzer.py:834-882 | the chosen column is the earliest candidate present, and none is chosen iff no candidate is present |
| Filters.ColumnValue | src/stock_analyzer.py:834-882 | the flow value is the chosen column's value, or 0 when none is present |
| Filters.ApplyFundFlows | src/stock_analyzer.py:834-882 | inflow notes are added iff the flow is positive and outflow risks iff negative; the returned reading holds the latest row's main-force net inflow, its ratio and the northbound flow, each read from the first column that has it; no other note is added; score and signal are untouched |
| Filters.CountTrue | src/stock_analyzer.py:884-911 | the count is at most the number of signals, 0 iff none holds and full iff all hold |
| Filters.ResonanceSignals | src/stock_analyzer.py:884-911 | exactly seven independent signals are counted |
| Filters.Downgrade | src/stock_analyzer.py:884-943 | a downgrade lowers STRONG_BUY or BUY by exactly one step and leaves every other signal alone |
| Filters.ApplyResonance | src/stock_analyzer.py:884-911 | fewer than 3 agreeing signals downgrade once and add a risk; otherwise nothing changes |
| Filters.LastCross | src/stock_analyzer.py:913-929 | the found index is a golden cross with none after it, and nothing is found iff there is no cross |
| Filters.SignalAge | src/stock_analyzer.py:913-929 | the age is 999 without a cross, and otherwise counts the bars since the latest cross |
| Filters.ApplyDecay | src/stock_analyzer.py:931-943 | an age above 5 downgrades once and adds a risk; otherwise nothing changes |
| Filters.FiltersOnlyLower | src/stock_analyzer.py:884-943 | together the filters never raise a signal and lower it by at most two steps; STRONG_BUY survives iff both pass |
| Filters.LaterStepsKeepTimeframe | src/stock_analyzer.py:834-943 | the fund-flow, resonance and decay steps keep the score and whether a timeframe note is listed |
| TradePlans.StopDistance | src/stock_analyzer.py:778-803 | the stop distance is 2xATR, or 3% of price without ATR, and positive for a positive price |
| TradePlans.TargetDistance | src/stock_analyzer.py:778-803 | the target distance is 3xATR, or 6% of price without ATR |
| TradePlans.PositionSize | src/stock_analyzer.py:778-803 | the position is the least of score/4, 25 and both risk limits |
| TradePlans.BuildTradePlan | src/stock_analyzer.py:778-803 | for a positive price 0 <= stop < entry = price < target; the ratio is exactly 1.5 on the ATR path and 2.0 on the fallback path |
| TradePlans.RatioCases | src/stock_analyzer.py:792-801 | the gain-to-loss ratio is never negative, and is 3/2 or 6/3 on the two paths |
| Analyzer.ShortResult | src/stock_analyzer.py:429-434 | fewer than 20 bars give WAIT, score 0 and the single insufficient-data risk |
| Analyzer.Signalled | src/stock_analyzer.py:493-497 | the verdict after the timeframe step scores the composite plus the capped bonus exactly when aligned, keeps the mapped signal, and lists each timeframe note exactly when its condition holds |
| Analyzer.ObvValuesAccumulate | src/stock_analyzer.py:696-702 | the OBV column starts at 0 and each bar adds its volume signed by the price move |
| Analyzer.Indicate | src/stock_analyzer.py:436-492 | the price is the last close, the MAs are the latest rolling means, the trend is classified from them and the values four bars back, and the Bollinger bands sit twice the standard deviation either side of MA20 |
| Analyzer.Prepare | src/stock_analyzer.py:436-492 | indicator preparation fails iff an `ewm` span is below 1, an RSI window is negative, or a read RSI column was never computed |
| Analyzer.Decide | src/stock_analyzer.py:494-508 | after all filters the score lies in [4, 100] and equals the composite score plus the capped bonus exactly when aligned; the aligned reason is listed iff aligned, the not-aligned risk iff the 30-minute series was usable and not aligned; STRONG_BUY needs resonance, a fresh cross, a bullish trend and score >= 75; the final signal is never above the mapped one |
| Analyzer.Conclude | src/stock_analyzer.py:494-533 | the full result keeps those promises, including the score and timeframe-note relations, plus resonance passed iff count >= 3, signal valid iff age <= 5, and a trade plan within the risk limits |
| Analyzer.Analyze | src/stock_analyzer.py:416-538 | short input gives the short result; otherwise the analysis fails exactly when preparation fails, reports the last close, aligns only on a usable 30-minute series in a bullish trend, and lists the timeframe notes exactly as Decide says |
| Analyzer.AnalyzeSound | src/stock_analyzer.py:416-538 | every successful full analysis keeps the promises above |
| Analyzer.DefaultsNeverFail | src/stock_analyzer.py:298-325 | with the class-constant parameters the analysis never fails |
| Evidence.Section | src/analysis_ext.py:129-144 | without a configuration the built-in table is used; with one, a missing section is empty |
| Evidence.TrendEvidence | src/analysis_ext.py:143-216 | six trend labels produce an entry and WEAK_BEAR none; triggered iff a bull label; invalidated iff a bear label |
| Evidence.BiasEvidence | src/analysis_ext.py:217-318 | the single bias entry is invalidated iff bias <= -5 or >= 5, scores 18 for 0 <= bias < 2 and 4 for bias >= 5 |
| Evidence.VolumeScore | src/analysis_ext.py:320-330 | unknown volume labels score the fallback 10 |
| Evidence.VolumeEvidence | src/analysis_ext.py:320-346 | the volume entry is triggered iff shrinking on a pullback or heavy rising, and risky iff shrinking on a rise |
| Evidence.SupportEvidence | src/analysis_ext.py:347-381 | one triggered support entry per moving average that holds |
| Evidence.CountTriggered | src/analysis_ext.py:383 | the triggered count never exceeds the number of entries |
| Evidence.CountInvalid | src/analysis_ext.py:384 | the invalid count never exceeds the number of entries |
| Evidence.CountRisky | src/analysis_ext.py:385 | the risk count never exceeds the number of entries |
| Evidence.TriggeredAndInvalidDisjoint | src/analysis_ext.py:383-384 | triggered and invalid entries together never exceed the number of entries |
| Evidence.GenerateEvidence | src/analysis_ext.py:97-393 | the total equals the sum of the contributions; there are 2 to 5 entries with exactly one bias and one volume entry; the counts are the counts of the entries |
| Evidence.EntriesFacts | src/analysis_ext.py:140-387 | the running total kept beside the entries equals the sum of their contributions |
| Evidence.DefaultSectionsAreDefaults | src/analysis_ext.py:129-141 | the built-in sections hold exactly the listed values |
| Evidence.NoConfigIsEmptyConfig | src/analysis_ext.py:129-141 | passing no configuration gives the same evidence as an empty one, since every default matches its `.get` fallback |
| Evidence.SelfTestTotal | src/analysis_ext.py:427-443 | the module's own example (bull, bias 2.9, shrinking pullback, both supports) totals 65 over 5 entries |
| Evidence.EvidenceMatchesScorer | src/analysis_ext.py:143-381 | the evidence total equals the analyzer's four matching tables, except 8 fewer for WEAK_BEAR and 4 fewer for bias <= -5 |
| SectorAnalysis.MarketStatusOf | src/sector/sector_analyzer.py:216-229 | for a non-negative threshold the five statuses split relative strength at +-threshold and 0, with 0 exactly CONSOLIDATION |
| SectorAnalysis.NegativeThresholdMislabels | src/sector/sector_analyzer.py:216-229 | with a negative threshold a negative relative strength is labelled LEADER_UP |
| SectorAnalysis.SectorTrend | src/sector/sector_analyzer.py:231-246 | never WEAK_BULL or STRONG_BEAR; STRONG_BULL iff strength >= 80 and change > 2; CONSOLIDATION, WEAK_BEAR and BEAR each iff its branch of the cascade is the first to hold; bearish iff strength < 40 |
| SectorAnalysis.RelativeStrengthPoints | src/sector/sector_analyzer.py:253-264 | relative-strength points lie in [0, 30] and are at least 20 iff the sector beats the market |
| SectorAnalysis.LimitUpPoints | src/sector/sector_analyzer.py:279-288 | limit-up points lie in [5, 20] and are at least 10 iff the ratio is at least 5% |
| SectorAnalysis.UpRatioPoints | src/sector/sector_analyzer.py:303-312 | up-ratio points lie in [5, 20] and are at least 15 iff the ratio is at least 60% |
| SectorAnalysis.StrengthPoints | src/sector/sector_analyzer.py:327-335 | strength points lie in [5, 20] and are at least 15 iff strength >= 60 |
| SectorAnalysis.TurnoverPoints | src/sector/sector_analyzer.py:350-357 | turnover points lie in [3, 10] and are at least 7 iff turnover >= 2 |
| SectorAnalysis.PointsMonotone | src/sector/sector_analyzer.py:253-357 | every sub-score is non-decreasing in its input |
| SectorAnalysis.LimitUpRatio | src/sector/sector_analyzer.py:279-280 | the ratio exists iff there are constituents, and times their count gives the limit-up count |
| SectorAnalysis.UpRatio | src/sector/sector_analyzer.py:303-304 | the ratio exists iff some stock moved, lies in [0, 1], and exceeds 1/2 iff more rose than fell |
| SectorAnalysis.SignalScore | src/sector/sector_analyzer.py:248-371 | the score lies in [8, 100] and equals the sum of 3 to 5 evidence contributions, each the points its factor earns for its value; the limit-up and up/down entries are present iff their denominators are positive and carry the limit-up ratio and the up ratio |
| SectorAnalysis.FullMarks | src/sector/sector_analyzer.py:248-371 | a sector at the top band of every factor scores exactly 100 |
| SectorAnalysis.Grade | src/sector/sector_analyzer.py:373-389 | STRONG_BULLISH iff score >= 80 and LEADER_UP; bullish iff >= 60 and rising status; STRONG_BEARISH iff < 20; bearish iff < 40 |
| SectorAnalysis.GradeMonotone | src/sector/sector_analyzer.py:373-389 | for a fixed status a higher score never gives a lower grade |
| SectorAnalysis.Flow | src/sector/sector_analyzer.py:391-404 | inflow iff flow > 1, outflow iff flow < -1, sharp iff beyond +-5 |
| SectorAnalysis.AdviceFor | src/sector/sector_analyzer.py:429-448 | add iff STRONG_BULLISH with inflow; exit iff STRONG_BEARISH; watch iff neutral; high confidence iff add or exit |
| SectorAnalysis.AdviceIgnoresStatus | src/sector/sector_analyzer.py:429-448 | the market-status argument never changes the advice |
| SectorAnalysis.Risks | src/sector/sector_analyzer.py:411-417 | each risk note appears exactly when its condition holds |
| SectorAnalysis.Opportunities | src/sector/sector_analyzer.py:419-425 | each opportunity appears exactly when its condition holds, the third with the up ratio from the counts |
| SectorAnalysis.BroadAdvanceMeans | src/sector/sector_analyzer.py:424 | an up ratio above 0.6 means 2*up > 3*down with at least one riser |
| SectorAnalysis.RiskOpportunityAsWritten | src/sector/sector_analyzer.py:406-427 | the method as written always fails on the missing `up_ratio` attribute |
| SectorAnalysis.RiskOpportunity | src/sector/sector_analyzer.py:406-427 | the corrected method returns the risk and opportunity lists |
| SectorAnalysis.UpRatioCounterexample | src/sector/sector_analyzer.py:424 | a sector with 8 risers and 2 fallers fails as written but shows the broad-advance opportunity when corrected |
| SectorAnalysis.AbnormalStocks | src/sector/sector_analyzer.py:99-101 | for the corrected analysis, exactly the statistics marked abnormal or moving more than 5% either way, never more of them than given |
| SectorAnalysis.AnalyzeSectorAsWritten | src/sector/sector_analyzer.py:62-142 | as written, the analysis succeeds only when the index fetch fails, and then yields nothing; with watched codes it fails on the undefined `get_sector_stocks_data`, without them on the `up_ratio` error |
| SectorAnalysis.AnalyzeHotSectorsAsWritten | src/sector/sector_analyzer.py:144-176 | as written, the hot-sector analysis succeeds iff no index fetch succeeds, and then returns the empty list |
| SectorAnalysis.AnalyzeSector | src/sector/sector_analyzer.py:62-142 | the corrected analysis yields a result iff the index exists; its market status, trend, score and evidence, flow, risks, opportunities and advice are each the value of the rule that computes it, and with watched codes the abnormal list holds exactly the flagged or fast-moving statistics |
| SectorAnalysis.IntendedAnalyzeSucceeds | src/sector/sector_analyzer.py:88-142 | whenever the index exists the corrected analysis succeeds and the one as written fails |
| SectorAnalysis.Analyzed | src/sector/sector_analyzer.py:163-171 | with the corrected analysis, there are at most as many results as sectors, one per sector when every index exists, each with a score in [8, 100] equal to its evidence total |
| SectorAnalysis.Kept | src/sector/sector_analyzer.py:163-171 | the loop keeps, in order, exactly the outcomes that are present: never more results than inputs, all of them when every outcome is present, each present outcome kept and nothing else |
| SectorAnalysis.AnalyzedMembers | src/sector/sector_analyzer.py:163-171 | every sector whose index exists contributes its analysis, and every result is the analysis of such a sector |
| SectorAnalysis.AnalyzeHotSectors | src/sector/sector_analyzer.py:144-176 | with the corrected analysis, the result is a permutation of the successful analyses sorted by score, highest first, and holds exactly the analyses of the sectors whose index exists |
| SectorFetch.ChangeOf | src/sector/sector_fetcher.py:149-161 | a blank change counts as 0 and an unparsable one skips the row |
| SectorFetch.TallyStep | src/sector/sector_fetcher.py:148-161 | each parsed row bumps the up, limit-up, down and limit-down counts exactly when it is above 0, at least 9.9, below 0 and at most -9.9; every row that is not unparsable adds its change to the total and is counted |
| SectorFetch.TallyBounds | src/sector/sector_fetcher.py:145-161 | limit-up <= up, limit-down <= down, and up + down <= the rows counted <= all rows |
| SectorFetch.TallyTotal | src/sector/sector_fetcher.py:145-161 | the total change is the sum over the parsable rows |
| SectorFetch.TallyLoop | src/sector/sector_fetcher.py:145-161 | the loop over the rows computes the recursive tally |
| SectorFetch.StrengthScore | src/sector/sector_fetcher.py:166-172 | the strength lies in [0, 100], is 50 + 2*rs on [-5, 5], and stays on its side of 50 beyond |
| SectorFetch.StrengthDropsAtFive | src/sector/sector_fetcher.py:166-172 | the formula jumps back at +-5: 60 at 5 but 50.5 at 5.1 |
| SectorFetch.StrengthMonotoneOnPieces | src/sector/sector_fetcher.py:166-172 | within each piece the strength is non-decreasing |
| SectorFetch.SectorIndexOf | src/sector/sector_fetcher.py:136-187 | an index exists iff constituents and rows exist; the average change divides by the constituent count; the up, down, limit-up and limit-down counts are those of the row tally; relative strength and strength follow |
| SectorFetch.BeforeDot | src/sector/sector_fetcher.py:114-115 | the code is cut at the first '.', and is unchanged without one |
| SectorFetch.NormalizeCode | src/sector/sector_fetcher.py:113-117 | a code is kept iff its part before '.' is six digits |
| SectorFetch.NormalizeIdempotent | src/sector/sector_fetcher.py:113-117 | normalising a normalised code changes nothing |
| SectorFetch.Constituents | src/sector/sector_fetcher.py:108-119 | every kept code is valid and comes from a raw code; every valid raw code is kept |
| SectorFetch.HotCandidates | src/sector/sector_fetcher.py:202-218 | exactly the rows with a code and a name, unparsable changes counted as 0 (both directions) |
| SectorFetch.HotSectors | src/sector/sector_fetcher.py:199-220 | exactly min(limit, candidates) candidates, sorted by change highest first, no dropped candidate with a larger change than a kept one, and all of them when the limit allows |
| SectorFetch.LeadingCandidates | src/sector/sector_fetcher.py:237-257 | exactly the rows with a valid code and a parsable change, each as a leader that is limit-up iff the change is at least 9.9 |
| SectorFetch.ConstituentsAppend | src/sector/sector_fetcher.py:108-119 | the constituent filter works row by row, so it keeps table order |
| SectorFetch.HotCandidatesAppend | src/sector/sector_fetcher.py:202-218 | the hot-sector candidates keep table order |
| SectorFetch.LeadingCandidatesAppend | src/sector/sector_fetcher.py:237-257 | the leading-stock candidates keep table order |
| SectorFetch.LeadingStocks | src/sector/sector_fetcher.py:234-259 | exactly min(limit, candidates) leading candidates sorted by change highest first, none dropped with a larger change than a kept one |
| Sorting.SortDesc | src/sector/sector_analyzer.py:174 | the sort is a permutation ordered highest key first |
| Sorting.Take | src/sector/sector_fetcher.py:220 | `s[:limit]` is a prefix with Python's length rule for negative limits |
| Sorting.CutSortedDesc | src/sector/sector_fetcher.py:219-220 | cutting a descending list leaves nothing behind with a larger key than anything kept |
| Sorting.TopDesc | src/sector/sector_fetcher.py:219-220 | sort-then-truncate keeps the order and Python's slice length, takes a sub-multiset of the input, is a prefix of the full sort, and drops nothing with a larger key than anything kept |
| Tags.CapBucketOf | src/tags/industry_tagger.py:333-339 | LARGE iff cap > 1000, MID iff 200 < cap <= 1000, SMALL otherwise |
| Tags.CapBucketMonotone | src/tags/industry_tagger.py:333-339 | a larger cap never gets a smaller bucket |
| Tags.OccursFromMeans | src/tags/industry_tagger.py:281 | the substring search finds a key exactly when it occurs in the name |
| Tags.EnergyNeverMapped | src/tags/industry_tagger.py:126-172 | no mapping entry yields the ENERGY style |
| Tags.MappedStyles | src/tags/industry_tagger.py:279-282 | a style is mapped iff some industry contains a key listing it |
| Tags.FallbackStyle | src/tags/industry_tagger.py:284-294 | VALUE iff cap > 500 and the list's text mentions a value keyword; GROWTH otherwise |
| Tags.RawStyles | src/tags/industry_tagger.py:277-299 | the collected styles are the mapped ones, the fallback when none is mapped, and DIVIDEND for a high-dividend industry |
| Tags.Dedupe | src/tags/industry_tagger.py:301-309 | the de-duplicated list holds each unseen element once |
| Tags.DedupeKeepsFirstOrder | src/tags/industry_tagger.py:301-309 | elements keep the order of their first occurrence |
| Tags.InferStyles | src/tags/industry_tagger.py:273-309 | never empty, no duplicates, DIVIDEND for a high-dividend industry, the same set as the collected styles, in the order of their first occurrence |
| Tags.MappingFires | src/tags/industry_tagger.py:279-282 | a key contained in an industry name contributes all its styles |
| Tags.NoIndustriesIsGrowth | src/tags/industry_tagger.py:284-294 | with no industries the styles are exactly GROWTH |
| Tags.StockTagsOf | src/tags/industry_tagger.py:321-354 | names and codes are copied in order, with the cap bucket and the inferred styles |
| Tags.AllTags | src/tags/industry_tagger.py:113-119 | the tag set is exactly the industries, concepts, style labels and the cap-bucket label |
| Tags.AddCode | src/tags/industry_tagger.py:366-372 | adding a code puts it under each of its industries and changes nothing else |
| Tags.AddCodeAppends | src/tags/industry_tagger.py:366-372 | each of the code's industries ends up with its earlier list, followed by the code only when the list lacked it |
| Tags.AddCodeKeepsOrder | src/tags/industry_tagger.py:366-372 | appending a new code keeps every sector list in the order in which the codes were visited |
| Tags.AddCodeKeepsDistinct | src/tags/industry_tagger.py:369-372 | adding a code never duplicates one in a sector list |
| Tags.SectorMapping | src/tags/industry_tagger.py:356-374 | each sector lists distinct codes, each code was tagged with that sector, and every tagged code is listed |
| Tags.SectorMappingOrdered | src/tags/industry_tagger.py:356-374 | every sector lists its codes in the order of their first occurrence in the input code list |
| Config.Overlay | src/analyzer_config/config_loader.py:190-194 | `dict.update` writes the key and keeps every other entry |
| Config.ApplyEnvOverrides | src/analyzer_config/config_loader.py:148-196 | only existing bias and rsi sections change; an override present writes its value, an unset one keeps the key and its value, and every other key keeps its value |
| Config.EnvOverridesNeedADocument | src/analyzer_config/config_loader.py:190-194 | on an empty document the overrides have no effect |
| Config.EnvOverridesIdempotent | src/analyzer_config/config_loader.py:148-196 | applying the overrides twice is the same as once |
| Config.RuleAsWritten | src/analyzer_config/config_loader.py:222-233 | each rule fires iff the key is already in its section, matches that rule's key pattern and no earlier branch of the elif chain fired |
| Config.ApplyRule | src/analyzer_config/config_loader.py:221-233 | the rule's target cell holds the preset value; every other cell and every other section keeps its value; no key is dropped and only the target cell can be new |
| Config.RemoveAll | src/analyzer_config/config_loader.py:229 | a string in which the pattern never occurs comes back unchanged, and the result is never longer |
| Config.RemoveAllPrefix | src/analyzer_config/config_loader.py:229 | removing `rsi_` from `rsi_` followed by a free name gives that name |
| Config.PresetEntriesAsWritten | src/analyzer_config/config_loader.py:221-233 | after the loop a cell no key could write keeps its value, and a changed or new cell holds the value of an entry whose key could write it |
| Config.ApplyPreset | src/analyzer_config/config_loader.py:199-235 | an empty or balanced style, or an unknown one, returns the document unchanged; a non-table preset fails |
| Config.RuleIntended | src/analyzer_config/config_loader.py:222-229 | the corrected rule picks bias, rsi or signals from the key pattern alone, in the code's order |
| Config.PresetEntriesIntended | src/analyzer_config/config_loader.py:221-233 | with the corrected rule, a cell no key could write keeps its value, and a changed or new cell holds the value of an entry whose key targets exactly that cell |
| Config.IntendedLastWriterWins | src/analyzer_config/config_loader.py:221-233 | with the corrected rule, the last entry that targets a cell decides its value |
| Config.PresetEntriesKeepWrittenCell | src/analyzer_config/config_loader.py:221-233 | with the corrected rule, a cell no entry targets keeps its value |
| Config.ApplyPresetIntended | src/analyzer_config/config_loader.py:199-235 | the corrected preset has the same no-op and error cases as the code |
| Config.RealField | src/analyzer_config/config_loader.py:247-256 | a missing field takes its default; a present one converts iff it is numeric and then gives its number |
| Config.IntField | src/analyzer_config/config_loader.py:247-256 | a missing field takes its default; a present one converts iff it is whole and then gives that whole number |
| Config.PeriodsField | src/analyzer_config/config_loader.py:247-256 | a missing list takes its default; a present one converts iff it is a list of whole numbers and is then taken as is, the sign unchecked |
| Config.TableField | src/analyzer_config/config_loader.py:247-256 | a missing table is empty; a present one converts iff it is a table and then gives its entries |
| Config.BiasOf | src/analyzer_config/config_loader.py:41-47 | the section converts iff it has only BiasConfig's fields, each numeric; each of threshold, optimal_zone and warning_zone is the given number or 5.0, 2.0, 3.0 |
| Config.RsiOf | src/analyzer_config/config_loader.py:67-75 | the section converts iff it has only RSIConfig's fields of the right kinds; the periods are the given list or [6, 12, 24], and each level is the given number or 70, 30, 60, 40 |
| Config.SignalsOf | src/analyzer_config/config_loader.py:97-106 | the section converts iff it has only SignalsConfig's fields, each numeric; each cutoff is the given number or 75, 60, 45, 30, 20, 10 |
| Config.MaOf | src/analyzer_config/config_loader.py:34-38 | the section converts iff it has only `periods`, a list of whole numbers; the periods are the given list or [5, 10, 20, 60] |
| Config.VolumeOf | src/analyzer_config/config_loader.py:50-55 | the section converts iff it has only VolumeConfig's fields, each numeric; each is the given number or 0.7, 1.5 |
| Config.MacdOf | src/analyzer_config/config_loader.py:58-64 | the section converts iff it has only fast, slow and signal, each whole; each is the given number or 12, 26, 9 |
| Config.SupportOf | src/analyzer_config/config_loader.py:78-82 | the section converts iff it has only a numeric tolerance; the tolerance is the given number or 2.0 |
| Config.ScoringOf | src/analyzer_config/config_loader.py:85-94 | the section converts iff it has only ScoringConfig's six tables; each is the given table or empty |
| Config.RiskOf | src/analyzer_config/config_loader.py:109-115 | the section converts iff it has only RiskConfig's fields, each numeric; each is the given number or 30, 5, 20 |
| Config.PresetsOf | src/analyzer_config/config_loader.py:118-124 | the section converts iff it has only the three style tables; each is the given table or empty |
| Config.DictToConfig | src/analyzer_config/config_loader.py:238-269 | the rules exist iff every one of the ten sections converts, and then every field of every section is the document's value or its dataclass default; an empty document gives the defaults |
| Config.MissingSectionsDefault | src/analyzer_config/config_loader.py:247-256 | a section the document lacks takes every default of its dataclass, for all ten sections |
| Config.Assemble | src/analyzer_config/config_loader.py:258-269 | the rules exist iff every section converted, and each of the ten sections is passed through unchanged |
| Config.PoisonedFails | src/analyzer_config/config_loader.py:238-269 | a section holding a prefixed preset key is rejected |
| Config.FiringKeyPoisons | src/analyzer_config/config_loader.py:222-233 | a rule can fire only on such a document |
| Config.PresetEntriesNeverTakeEffect | src/analyzer_config/config_loader.py:221-233 | the entries either leave the document unchanged or leave it rejected |
| Config.PresetNeverTakesEffect | src/analyzer_config/config_loader.py:324-330 | as written, a preset either fails, changes nothing, or produces a document the conversion rejects |
| Config.PresetIgnoredOnValidDocument | src/analyzer_config/config_loader.py:221-233 | on any convertible document the entries change nothing |
| Config.IntendedPresetWrites | src/analyzer_config/config_loader.py:221-233 | the corrected conservative preset writes the bias threshold and the RSI overbought level |
| Config.OverlaidConverts | src/analyzer_config/config_loader.py:238-269 | overlaying those two values converts to the old rules with exactly those two fields changed |
| Config.IntendedPresetTakesEffect | src/analyzer_config/config_loader.py:324-330 | the corrected preset reaches the converted rules |
| Config.ResetCache | src/analyzer_config/config_loader.py:339-344 | reset clears both cache fields |
| Config.ResolveStyle | src/analyzer_config/config_loader.py:301-303 | an explicit style wins; otherwise the environment's value when set, else balanced |
| Config.Load | src/analyzer_config/config_loader.py:309-330 | a missing document loads the default rules |
| Config.GetRules | src/analyzer_config/config_loader.py:272-336 | a matching cache entry is returned without reloading; otherwise the document is loaded and a success updates both fields, while a failure leaves the cache alone |
| Config.SecondCallHits | src/analyzer_config/config_loader.py:305-307 | a second cached call with the same style returns the first result whatever the document now says |
| Config.ResetForcesLoad | src/analyzer_config/config_loader.py:339-344 | after a reset the next call always loads |
| Config.ParamsOf | src/stock_analyzer.py:359-414 | the analyzer reads the loaded thresholds, periods and risk limits, including the volume shrink and heavy thresholds and the MACD signal period, or its constants when nothing loaded |
| Config.DefaultsAgree | src/analyzer_config/config_loader.py:34-140 | the dataclass defaults give exactly the analyzer's class constants |
| Config.PresetNeverReachesAnalyzer | src/analyzer_config/config_loader.py:324-330 | the analyzer's parameters are those of the balanced load or the constants, whatever the style |

## Left out

- I/O and external calls.
  - All AkShare fetching, the fetch caches and `_check_akshare` are replaced by inputs: rows, tags and stock statistics.
  - `analyze_sector` calls `get_sector_stocks_data`, which the fetcher does not define. The as-written model fails there; the corrected model takes the statistics that call was evidently meant to return as an input.
  - `enrich_with_sector_tags` is left out.
  - Reading the YAML file, `os.getenv` and float parsing of environment strings are left out. The environment is an already-parsed record, and the document is a map of sections.
  - Logging is left out.
- Rendering. This covers `format_analysis`, `format_evidence_table`, every `to_dict`, the sector report and the portfolio view (`sector_report.py`, `portfolio_sector_view.py`), and the display texts of results (`ma_alignment`, the formatted note strings).
- `sort_values("date")`: the bars are taken as already sorted.
- The Bollinger standard deviation needs a square root. The latest 20-bar standard deviation of the closes is an input to `Analyzer.Analyze`. The bands are MA20 plus or minus twice it, and `_analyze_bollinger` is modelled on them.
- `round(..., 2)` in the trade plan is dropped; the plan is exact.
- IEEE floating point and pandas NaN/inf are not modelled in general. They appear only where they change a branch (see Modelling choices).
- Unicode `str.isdigit`: only the ASCII digits '0'-'9' count as digits.
- Sorting.SortDesc: the insertion sort places a new element after equal keys, but the contract does not state stability. It promises a descending permutation only, so the order of ties is not specified.
- Config.RemoveAll: the contract states the pattern-free case and, through `RemoveAllPrefix`, the prefixed-name case the presets use; it does not characterise the left-to-right scan on strings with several or overlapping occurrences.
- Configuration values are modelled as numbers, whole numbers, number lists and tables. Any value of the wrong kind is an `Err`: a string, a list or a table where a number is expected, a number in place of a `periods` list, or a number in place of a scoring or preset table. The dataclasses at config_loader.py:247-256 accept any value, so these are Python's later runtime behaviour or silent acceptance, not a `TypeError` at conversion. A preset value is a number. The integer signal cutoffs of `SignalsConfig` also accept non-whole numbers, because the analyzer only compares them with scores.
- Python's dataclass construction with an integer given for a float field is accepted, as Python does. A float given for an integer field (a MACD period, say) is rejected, although Python would accept it.
- `analyze_portfolio_sectors` and the concept branch of `analyze_hot_sectors` are left out. The concept branch uses the same industry ranking, so the modelled function covers it.
- `backtest_framework.py` and the `__init__.py` re-exports contain no logic.
- Classifiers.TrendStrength: states bounds and the bullish/bearish bands rather than each of the seven fixed strengths.
- Evidence.CountTriggered: states only the bound on the count. Its meaning (triggered and direction "触发") is the function's definition, and Evidence.TriggeredAndInvalidDisjoint relates it to the invalid count.
- SectorAnalysis.AbnormalStocks: models the filter at lines 99-101, which the code as written never reaches because the call on line 98 fails first (see Findings). The statistics are an input.
- SectorAnalysis.Analyzed: models the loop of `analyze_hot_sectors` with the corrected `analyze_sector`. As written the loop fails on the first fetched sector; SectorAnalysis.AnalyzeHotSectorsAsWritten states that.
- SectorAnalysis.AnalyzeHotSectors: models `analyze_hot_sectors` with the corrected `analyze_sector`, for the same reason.
- Indicators.Rsi: states the range and the incomplete-window value. The zero-loss cases are stated separately by Indicators.RisingSeriesRsi and Indicators.RsiOfAverages.

## Findings

| source | as written | input that shows it | evidently intended | confidence | as-written member | corrected member |
|---|---|---|---|---|---|---|
| src/sector/sector_analyzer.py:424 | `_calc_risk_opportunity` reads `sector.up_ratio`, which `SectorIndex` does not define, so it raises `AttributeError`. As a result, `analyze_sector` raises whenever the index fetch succeeds. | any sector index, e.g. 8 risers and 2 fallers out of 10 constituents | the up ratio `up / (up + down)` used by `_calc_signal_score`, with the opportunity added when it exceeds 0.6 | not executed | SectorAnalysis.RiskOpportunityAsWritten | SectorAnalysis.RiskOpportunity |
| src/sector/sector_analyzer.py:98 | With watched stock codes, `analyze_sector` calls `self.fetcher.get_sector_stocks_data`. `SectorFetcher` defines no such method, so the call raises `AttributeError`. | any sector whose index is fetched, with one watched code such as "600000" | fetch the watched stocks' statistics and keep those flagged abnormal or moving more than 5% either way | not executed | SectorAnalysis.AnalyzeSectorAsWritten | SectorAnalysis.AnalyzeSector |
| src/analyzer_config/config_loader.py:221-233 | A preset rule fires only when the prefixed key (e.g. `bias_threshold`) is already in the section. `_dict_to_config` then rejects that key with `TypeError`, so no preset ever takes effect. | a document with `presets: {conservative: {bias_threshold: 3.0}}` and style `conservative` | match on the key pattern alone and write `bias.threshold` / `rsi.<suffix>` / `signals.<prefix>` | not executed | Config.PresetNeverTakesEffect | Config.IntendedPresetTakesEffect |
