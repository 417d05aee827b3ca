# Deep investor agent: a verified model of its decision core

The system is a set of "investor persona" agents. Each agent scores a stock from its
financial metrics, line items, insider trades, news and prices, and turns the score
into a bullish, bearish or neutral signal with a confidence. A technical-analysis agent
combines five indicator strategies into one signal in the same way. A portfolio manager
then works out, for every ticker, how many shares may be bought, sold, shorted or
covered. It routes the tickers that can trade to a language model and reconciles the
model's decisions with the analysts' signals. Underneath sits a data layer with three
parts: a financial-data API client with its retry schedule and line-item merge, a
DeepAlpha client that falls back over Hong Kong function names, and two helpers for
language-model text.

This project models that core in Dafny and proves what its code promises:

- the bounds and bands of every score;
- the thresholds of every signal;
- the capacity of each trade action;
- the reconciliation rules;
- the retry schedule;
- merge and sort order;
- the fallback order;
- JSON extraction.

It has one module per source file:

| module | file | content |
|---|---|---|
| `PortfolioManager` | portfolio_manager.dfy | `compute_allowed_actions`, signal compaction, the risk-figure reading, and the pre-fill, merge and neutral-override steps of `generate_trading_decision` |
| `Technicals` | technicals.dfy | the five strategies' decision branches on the latest indicator values, and `weighted_signal_combination` |
| `Fundamentals` | fundamentals.dfy | the area scores, area signals, overall vote and confidence of the fundamentals analyst |
| `Sentiment` | sentiment.dfy | the insider and news classification, weighted vote and confidences of the sentiment analyst |
| `BenGraham` | ben_graham.dfy | earnings stability, financial strength, Graham valuation and the aggregate thresholds |
| `MichaelBurry` | michael_burry.dfy | the value, balance-sheet, insider and contrarian helpers and the aggregate |
| `PhilFisher` | phil_fisher.dfy | insider activity, sentiment, valuation, management efficiency and the weighted total |
| `StanleyDruckenmiller` | stanley_druckenmiller.dfy | growth and momentum, risk and reward, valuation and the weighted total |
| `Financials` | financials.dfy | helpers the persona agents share: the values of a line-item field, the ten-point scaling, a banded multiple and the ten-point signal |
| `Api` | api.dfy | ticker classification, `APIError` text, response classification, the `_make_api_request` retry loop and the line-item merge and sort |
| `DeepAlpha` | deepalpha.dfy | Hong Kong detection, function names, the candidate fallback, the date parameters, the daily-price reshape, the list-to-dict conversion and the valuation order |
| `Llm` | llm.dfy | `extract_json_from_response` and `_inject_language_instruction` |
| `Common`, `Sorting` | common.dfy, sorting.dfy | the Python built-ins the code relies on, stated once: truthiness, `x or 0`, `round`, floor division, string search, strip, case, `str(n)`, and a stable `sorted` |

## How the model is organised

**Values.**
- Money, ratios and confidences are `real`. Share counts are `int`.
- A metric that may be `None` is an `Option<real>`.
- Arbitrary JSON payloads are a `Json` datatype. Its truthiness is Python's.
- A Python dict whose order matters is a sequence of key/value pairs, for example the model's per-agent signals or a JSON object. Elsewhere a dict is a `map`.

**Loops.**
- An operation the source writes as a loop is a `method` with that loop.
- The method is proved equal to a recursive specification function.
- The properties are lemmas about that function.

**Parameters.** These are functions the proofs leave uninterpreted:
- `sqrt`, `pow` in the growth rates, `statistics.pstdev`;
- `json.loads` (`parses`, `None` when it raises);
- `str` of a float (`render`);
- `_remove_length_restrictions` (`clean`);
- the network query of the DeepAlpha client (`query`);
- the HTTP outcomes of the API client (a sequence of attempt outcomes);
- the Chinese wording of the language instruction (`chineseText`).

Stanley Druckenmiller's insider-activity and sentiment functions are written exactly as
Phil Fisher's. The model therefore states them once, as `PhilFisher.InsiderScore` and
`PhilFisher.SentimentScore`, and the Druckenmiller total uses those.

**Behaviour a reader may not expect.** The model keeps each of these as the code has it:
- The language model's quantities are never checked against the allowed map, and extra tickers it returns are kept: the reply is merged over the prefilled holds as it stands (src/agents/portfolio_manager.py:336-338).
- The neutral override only turns non-hold actions into hold with quantity 0. An incoming `hold` keeps whatever quantity the model gave it (src/agents/portfolio_manager.py:369-381).
- Ben Graham's three analyses can reach 4 + 5 + 7 = 16 points, but the aggregate divides by a declared maximum of 15 (src/agents/ben_graham.py:61-62). `BenGraham.TotalExceedsDeclaredMaximum` exhibits a company scoring 16.
- The statistical-arbitrage confidence `(0.5 - hurst) * 2` is not capped at 1 (src/agents/technicals.py:362-364). `Technicals.StatArbConfidenceUncapped` exhibits confidence 3.
- `_make_api_request` makes at most `max_retries + 1` attempts. With a negative `max_retries` it makes none and raises (src/tools/api.py:68-127).
- In the DeepAlpha row conversion, a row without a report period is keyed by the table's size as text, which can land on an existing key and merge with it (src/tools/deepalpha.py:583-590). `DeepAlpha.ListToDict` keeps this.

## Model

| member | source | states |
|---|---|---|
| PortfolioManager.MaxShares | src/agents/portfolio_manager.py:52-55 | with a positive price the cap is the largest whole number of shares whose cost stays within the remaining position limit; without one it is 0 |
| PortfolioManager.BuyQuota | src/agents/portfolio_manager.py:127-131 | the buy capacity is non-negative; a positive one needs cash and a positive price, stays within the cap and is affordable, and no larger affordable count within the cap exists |
| PortfolioManager.AvailableMargin | src/agents/portfolio_manager.py:141 | the available margin is never negative |
| PortfolioManager.ShortQuota | src/agents/portfolio_manager.py:136-145 | the short capacity is non-negative and within the cap; it is the whole cap when no margin is required, and otherwise the largest count the available margin covers |
| PortfolioManager.PruneZero | src/agents/portfolio_manager.py:150-154 | pruning keeps hold at 0 and exactly the other actions whose quantity is positive, with their quantities |
| PortfolioManager.TickerCapacities | src/agents/portfolio_manager.py:121-148 | the step-by-step updates of `actions` give exactly the capacity map built from the four quotas |
| PortfolioManager.Prune | src/agents/portfolio_manager.py:151-154 | the pruning loop over the actions in dict order gives exactly `PruneZero` |
| PortfolioManager.AllowedForTicker | src/agents/portfolio_manager.py:111-156 | one iteration of the ticker loop gives exactly that ticker's pruned allowed map |
| PortfolioManager.ComputeAllowedActions | src/agents/portfolio_manager.py:97-158 | the result has exactly the tickers as keys, each with its allowed map |
| PortfolioManager.AllowedShape | src/agents/portfolio_manager.py:147-156 | every allowed map offers hold at 0 and every other action it offers has a positive quantity |
| PortfolioManager.SellAndCoverMatchPosition | src/agents/portfolio_manager.py:117-135 | sell is offered exactly when a long position is held, for the whole long position; cover likewise for the short position |
| PortfolioManager.BuyIsLargestAffordable | src/agents/portfolio_manager.py:127-131 | an offered buy is within the cap and affordable, and every affordable count from 1 to the cap is offered (buy is at least that count) |
| PortfolioManager.ShortIsLargestCovered | src/agents/portfolio_manager.py:136-145 | an offered short needs a positive price and cap and stays within the cap; with no margin requirement it is the cap, otherwise it is covered by the available margin and no larger covered count within the cap exists |
| PortfolioManager.EmptyPortfolioOnlyHolds | src/agents/portfolio_manager.py:105-109 | an empty portfolio dict (no cash, no positions, margin requirement 0.5, equity = cash) allows only hold for any ticker |
| PortfolioManager.RiskManagerId | src/agents/portfolio_manager.py:41-45 | without the `portfolio_manager_` prefix the risk manager id is exactly `risk_management_agent`; with it, the id is exactly `risk_management_agent_` followed by the text after the agent id's last underscore, a suffix without underscores that ends the agent id right after an underscore |
| PortfolioManager.AsNumber | src/agents/portfolio_manager.py:49 | `float(...)` gives a number exactly for a JSON number or bool, and the number's own value for an integer or a float |
| PortfolioManager.SigConfPayloadFields | src/agents/portfolio_manager.py:169-171 | a payload stored as `{sig, conf}` reads back the same signal and confidence |
| PortfolioManager.TickerSignalsAreAnalysts | src/agents/portfolio_manager.py:58-65 | every kept entry comes from an agent other than a risk manager that reported on the ticker with a non-None signal and confidence, and holds exactly that report's `{sig, conf}` |
| PortfolioManager.TickerSignalsKeepAnalysts | src/agents/portfolio_manager.py:58-65 | conversely, every agent other than a risk manager that reports on the ticker with a non-None signal and confidence is kept, with exactly its `{sig, conf}` |
| PortfolioManager.RiskFigures | src/agents/portfolio_manager.py:47-55 | the risk figures exist exactly when the current price is a number and, with a positive price, so is the remaining limit; the cap is then the floor of limit over price, and 0 without a positive price |
| PortfolioManager.ReadRiskFigures | src/agents/portfolio_manager.py:47-55 | the method reads exactly `RiskFigures` |
| PortfolioManager.AnalystSignalsFor | src/agents/portfolio_manager.py:58-65 | the agent loop collects exactly `TickerSignals` |
| PortfolioManager.CollectInputs | src/agents/portfolio_manager.py:37-65 | the ticker loop succeeds exactly when every ticker's risk figures are numbers, and then records for every ticker, and no other, its price, share cap and analyst signals |
| PortfolioManager.CompactKeepsIff | src/agents/portfolio_manager.py:169-173 | an agent has a compact entry `(sig, conf)` exactly when its payload yields that non-None signal and confidence |
| PortfolioManager.CompactEntryHasSource | src/agents/portfolio_manager.py:169-173 | every compact entry comes from a payload with that signal and confidence |
| PortfolioManager.CompactEntryFromSource | src/agents/portfolio_manager.py:169-173 | every payload with a non-None signal and confidence yields its compact entry |
| PortfolioManager.CompactSignals | src/agents/portfolio_manager.py:161-175 | the result has the same tickers, each with exactly its compacted agents |
| PortfolioManager.UnanimousNeutralIsAllNeutral | src/agents/portfolio_manager.py:367-370 | the source's test (positive total, all neutral, no bullish, no bearish) is exactly "some neutral and no bullish or bearish" |
| PortfolioManager.CountSayingZero | src/agents/portfolio_manager.py:356-365 | a direction's count is zero exactly when no agent's signal reads that direction |
| PortfolioManager.TallyNeutralIff | src/agents/portfolio_manager.py:352-370 | the tally succeeds with a unanimous neutral vote exactly when every truthy signal is a string, one reads "neutral" in any case, and none reads "bullish" or "bearish" |
| PortfolioManager.ClassifySignal | src/agents/portfolio_manager.py:357-365 | one agent's signal is well-typed exactly when it is falsy or a string, and then adds to exactly the count its lower-cased text names, at most one |
| PortfolioManager.CountSignals | src/agents/portfolio_manager.py:352-365 | the counting loop gives exactly `Tally`, failing with `AttributeError` on a truthy non-text signal |
| PortfolioManager.AllowedMap | src/agents/portfolio_manager.py:190 | the allowed map has exactly the tickers as keys, each with its allowed actions |
| PortfolioManager.RoutedMembers | src/agents/portfolio_manager.py:195-203 | exactly the tickers whose allowed map has some action besides hold go to the model |
| PortfolioManager.PrefilledMembers | src/agents/portfolio_manager.py:195-201 | exactly the tickers whose only allowed action is hold are pre-filled, each with the no-trade hold |
| PortfolioManager.PrefillHolds | src/agents/portfolio_manager.py:193-203 | the loop builds exactly the pre-filled decisions and the routed list |
| PortfolioManager.NeutralRuleIdempotent | src/agents/portfolio_manager.py:369-379 | applying the neutral rule twice is applying it once; the result holds exactly when the decision held or the rule overrode it, and the confidence is kept |
| PortfolioManager.NeutralStep | src/agents/portfolio_manager.py:347-379 | one ticker fails exactly when it has signals whose tally fails, and otherwise gets exactly the neutral rule's decision |
| PortfolioManager.ReconciledWhenNoneFails | src/agents/portfolio_manager.py:342-381 | when no routed ticker's tally fails, the result is the merged decisions with the neutral rule applied to exactly the routed tickers |
| PortfolioManager.PartlyReconciledStep | src/agents/portfolio_manager.py:342-379 | processing one more present ticker applies the neutral rule to its current decision and changes no other |
| PortfolioManager.ApplyNeutralRule | src/agents/portfolio_manager.py:342-381 | the post-processing loop gives exactly `Reconciled`, including its failure |
| PortfolioManager.GenerateTradingDecision | src/agents/portfolio_manager.py:178-381 | the routed tickers and the decisions are exactly those of the specification `TradingDecisions` |
| PortfolioManager.NothingTradableSkipsLlm | src/agents/portfolio_manager.py:205-206 | when no ticker can trade nothing is routed, and every ticker gets the no-trade hold whatever the model would say |
| PortfolioManager.EmptyPortfolioSkipsLlm | src/agents/portfolio_manager.py:193-206 | with an empty portfolio dict every ticker gets the no-trade hold |
| PortfolioManager.LlmRepliesKeptUnchecked | src/agents/portfolio_manager.py:336-381 | every ticker the model returns is in the result, unchanged unless it was routed and the neutral rule rewrote it; nothing checks it against the allowed actions or quantities |
| PortfolioManager.NoTradeTickersPrefilled | src/agents/portfolio_manager.py:336-338 | a ticker that cannot trade and that the model did not return is a no-trade hold |
| PortfolioManager.NeutralSignalsForceHold | src/agents/portfolio_manager.py:369-379 | unanimous neutral signals on a routed ticker give a hold that keeps the confidence; a non-hold decision is rewritten to quantity 0 with the reason naming the original action, and a hold is kept as it was |
| PortfolioManager.ReconciledNeutralHold | src/agents/portfolio_manager.py:369-379 | the same at one routed ticker of the merged decisions |
| Technicals.SignalValue | src/agents/technicals.py:388 | a direction's value lies in [-1, 1]: 1 exactly for bullish, -1 exactly for bearish |
| Technicals.TrendSignal | src/agents/technicals.py:184-198 | bullish exactly when EMA8 > EMA21 > EMA55, bearish exactly when neither crossing holds, with confidence ADX/100; a split is neutral at 0.5 |
| Technicals.MeanReversionSignal | src/agents/technicals.py:227-238 | bullish exactly for z < -2 near the lower band (position < 0.2), bearish exactly for z > 2 near the upper band (> 0.8), with confidence min(abs z / 4, 1) in (0.5, 1]; otherwise neutral at 0.5 |
| Technicals.MomentumSignal | src/agents/technicals.py:270-283 | bullish exactly for a momentum score above 0.05 with volume above its average, bearish exactly below -0.05 with that volume, confidence min(5 abs score, 1) in (0.25, 1]; otherwise neutral at 0.5 |
| Technicals.VolatilitySignal | src/agents/technicals.py:319-330 | bullish exactly for a regime below 0.8 and vol z below -1, bearish exactly for a regime above 1.2 and vol z above 1, confidence min(abs z / 3, 1) in (1/3, 1]; otherwise neutral at 0.5 |
| Technicals.StatArbSignal | src/agents/technicals.py:362-370 | bullish exactly for Hurst below 0.4 with skew above 1, bearish exactly for Hurst below 0.4 with skew below -1, with confidence (0.5 - Hurst) * 2 above 0.2; otherwise neutral at 0.5 |
| Technicals.StatArbConfidenceUncapped | src/agents/technicals.py:362-364 | the statistical-arbitrage confidence is not capped: Hurst -1 with skew 2 gives a bullish signal of confidence 3 |
| Technicals.MeanReversionMirror | src/agents/technicals.py:227-238 | negating the z-score and mirroring the band position mirrors the call and keeps the confidence |
| Technicals.MomentumMirror | src/agents/technicals.py:270-283 | negating all three momentum windows mirrors the call and keeps the confidence |
| Technicals.Direction | src/agents/technicals.py:408-413 | bullish exactly above 0.2, bearish exactly below -0.2 |
| Technicals.WeightedSignalCombination | src/agents/technicals.py:383-415 | the accumulation loop gives exactly `Combine`: direction of the normalised score and its absolute value, or `KeyError` for a strategy without a weight |
| Technicals.NoConfidenceIsNeutral | src/agents/technicals.py:402-405 | when the total weighted confidence is not positive the ensemble is neutral with confidence 0 |
| Technicals.WeightedSumBounded | src/agents/technicals.py:393-399 | with non-negative weights and confidences the total confidence is non-negative and bounds the weighted sum in size |
| Technicals.QuotientInUnitRange | src/agents/technicals.py:403 | a quotient bounded in size by its positive divisor lies in [-1, 1] |
| Technicals.CombinedConfidenceInUnitRange | src/agents/technicals.py:401-415 | with non-negative weights and confidences the final score lies in [-1, 1] and the combined confidence in [0, 1] |
| Technicals.AllNeutralSumsToZero | src/agents/technicals.py:393-399 | neutral strategies contribute nothing to the weighted sum |
| Technicals.AllNeutralIsNeutral | src/agents/technicals.py:383-415 | neutral strategies alone give a neutral ensemble with confidence 0 |
| Technicals.Mirror | src/agents/technicals.py:388 | mirroring keeps each strategy's name and confidence and swaps its direction |
| Technicals.MirrorSums | src/agents/technicals.py:393-399 | mirroring negates the weighted sum and keeps the total confidence |
| Technicals.MirrorSymmetry | src/agents/technicals.py:383-415 | swapping bullish and bearish in every input negates the score, swaps the ensemble's direction and keeps its confidence |
| Technicals.StrategyWeightsSumToOne | src/agents/technicals.py:87-93 | the five strategy weights sum to 1 |
| Technicals.StrategySignals | src/agents/technicals.py:96-105 | every one of the five strategies has a weight, so the combination never raises `KeyError` |
| Technicals.ReportConfidenceIsPercentage | src/agents/technicals.py:144-147 | with a non-negative ADX the reported confidence `round(confidence * 100)` is a whole percentage in [0, 100] |
| Fundamentals.ThresholdScore | src/agents/fundamentals.py:52-57 | a three-metric score is at most 3; it is 0 exactly when no metric is present and above its threshold, and 3 exactly when all are |
| Fundamentals.HealthScore | src/agents/fundamentals.py:87-95 | the financial-health score is at most 3 |
| Fundamentals.ZeroRatiosCountAsMissing | src/agents/fundamentals.py:89-94 | the truthiness tests make a ratio of exactly 0 count as missing, so a zero debt-to-equity earns no leverage point |
| Fundamentals.AreaSignal | src/agents/fundamentals.py:59-97 | an area is bullish exactly at two or more points and bearish exactly at none |
| Fundamentals.ValuationSignal | src/agents/fundamentals.py:115 | the price-ratio area is bearish exactly at two or more expensive ratios and bullish exactly at none |
| Fundamentals.ValuationSignalIsInverted | src/agents/fundamentals.py:59-115 | the price-ratio rule is the mirror image of the other areas' rule |
| Fundamentals.AreaSignals | src/agents/fundamentals.py:43-115 | exactly four area signals are produced |
| Fundamentals.Vote | src/agents/fundamentals.py:123-131 | bullish exactly when bullish areas outnumber bearish ones, bearish for the reverse, neutral exactly on a tie |
| Fundamentals.ConfidenceIsQuarter | src/agents/fundamentals.py:134-135 | `round(max / 4, 2) * 100` is the larger count times 25, one of 0, 25, 50, 75, 100 |
| Fundamentals.ReportConfidence | src/agents/fundamentals.py:121-135 | the report's confidence is the winning side's share of the four areas, in whole quarters |
| Fundamentals.AnalyzeMetrics | src/agents/fundamentals.py:39-135 | building the signals list one area at a time gives exactly `FundamentalReport` |
| Fundamentals.FundamentalsAnalyst | src/agents/fundamentals.py:22-154 | a ticker gets an entry exactly when it has metrics, and its entry is the report on its most recent metrics |
| Sentiment.InsiderSignals | src/agents/sentiment.py:39-40 | one signal per trade with a share count, in order: bearish for a negative count, bullish otherwise |
| Sentiment.NewsSignals | src/agents/sentiment.py:48-50 | one signal per article with a sentiment, in order: "negative" is bearish, "positive" bullish, anything else neutral |
| Sentiment.InsidersNeverNeutral | src/agents/sentiment.py:40 | insider trades never produce a neutral signal |
| Sentiment.NoNeutralCountsZero | src/agents/sentiment.py:40 | a list without neutral signals counts zero of them |
| Sentiment.Overall | src/agents/sentiment.py:58-72 | bullish exactly when the weighted bullish count exceeds the weighted bearish one, bearish for the reverse |
| Sentiment.Round2Percentage | src/agents/sentiment.py:78 | rounding a percentage in [0, 100] to two places keeps it in [0, 100] |
| Sentiment.QuotientAtMostOne | src/agents/sentiment.py:78 | a part over a positive whole lies in [0, 1] |
| Sentiment.OverallConfidenceBounded | src/agents/sentiment.py:74-78 | the overall confidence lies in [0, 100], and is 0 without signals |
| Sentiment.SourceSignal | src/agents/sentiment.py:83-97 | a source is bullish exactly when its bullish signals outnumber its bearish ones, bearish for the reverse |
| Sentiment.SourceConfidenceBounded | src/agents/sentiment.py:85-98 | a source's confidence is a whole percentage in [0, 100], and 0 for an empty source |
| Sentiment.SentimentAnalyst | src/agents/sentiment.py:24-129 | every ticker gets an entry, and it is exactly the sentiment report on its trades and news |
| Financials.CountPositive | src/agents/ben_graham.py:124 | the number of positive EPS values is at most the number of values |
| Financials.CountNegative | src/agents/ben_graham.py:195 | the number of dividend payments is at most the number of periods reported |
| Financials.CountPositiveAll | src/agents/ben_graham.py:124-127 | every EPS value is positive exactly when the positive count equals the length |
| BenGraham.EarningsScore | src/agents/ben_graham.py:101-142 | the earnings score is at most 4, and 0 without metrics, without line items or with fewer than two EPS values |
| BenGraham.EarningsTopScore | src/agents/ben_graham.py:123-140 | with two or more EPS values the top score 4 is reached exactly when every EPS is positive and the latest EPS (first in the list) exceeds the earliest |
| BenGraham.AnalyzeEarningsStability | src/agents/ben_graham.py:101-142 | the EPS append loop and the scoring compute exactly `EarningsScore` |
| BenGraham.CurrentRatioPoints | src/agents/ben_graham.py:162-173 | the current-ratio points are at most 2, and 0 without positive current liabilities |
| BenGraham.DebtRatioPoints | src/agents/ben_graham.py:176-187 | the debt-ratio points are at most 2, and 0 without positive total assets |
| BenGraham.DividendPoint | src/agents/ben_graham.py:190-204 | the dividend point is 0 or 1 |
| BenGraham.DividendPointIsMajority | src/agents/ben_graham.py:190-204 | the point is earned exactly when dividends were paid in at least `len // 2 + 1` of the reporting periods, that is in a strict majority of them |
| BenGraham.StrengthScore | src/agents/ben_graham.py:145-208 | the financial-strength score is at most 5 and 0 without line items |
| BenGraham.AnalyzeFinancialStrength | src/agents/ben_graham.py:145-208 | the method computes exactly `StrengthScore`, including the dividend-counting loop |
| BenGraham.NetNetPoints | src/agents/ben_graham.py:230-248 | at most 4 net-net points, none without positive NCAV and shares, and 4 exactly when NCAV exceeds the market cap |
| BenGraham.MarginPoints | src/agents/ben_graham.py:262-279 | at most 3 margin-of-safety points, none without a Graham number or without positive shares |
| BenGraham.ValuationScore | src/agents/ben_graham.py:211-281 | the valuation score is at most 7, and 0 without line items or without a positive market cap |
| BenGraham.GrahamNumber | src/agents/ben_graham.py:258-260 | the Graham number exists exactly when EPS and book value per share are both positive, and is then `sqrt(22.5 * EPS * BVPS)` |
| BenGraham.ValuationNeedsShares | src/agents/ben_graham.py:230-262 | without a positive share count the valuation earns nothing |
| BenGraham.AnalyzeValuationGraham | src/agents/ben_graham.py:211-281 | the method computes exactly `ValuationScore` |
| BenGraham.GrahamSignal | src/agents/ben_graham.py:61-70 | bullish exactly at 70% of the declared maximum 15 or more, bearish exactly at 30% or less |
| BenGraham.GrahamSignalOnIntegers | src/agents/ben_graham.py:61-70 | on whole totals the thresholds are 11 (bullish) and 4 (bearish) |
| BenGraham.GrahamTotal | src/agents/ben_graham.py:53-61 | the sum of the three analyses is at most 16 |
| BenGraham.TotalExceedsDeclaredMaximum | src/agents/ben_graham.py:61-62 | a concrete company scores 16, above the declared `max_possible_score` of 15 |
| MichaelBurry.FcfYieldPoints | src/agents/michael_burry.py:189-200 | at most 4 yield points; 4 exactly from a 15% yield, none exactly below 8% |
| MichaelBurry.EvEbitPoints | src/agents/michael_burry.py:205-213 | at most 2 EV/EBIT points, none exactly from 10 upward |
| MichaelBurry.ValueScore | src/agents/michael_burry.py:179-219 | the value score stays within its declared maximum of 6 |
| MichaelBurry.AnalyzeValue | src/agents/michael_burry.py:179-221 | the method computes exactly `ValueScore` |
| MichaelBurry.LeveragePoints | src/agents/michael_burry.py:238-246 | at most 2 leverage points, none exactly from a D/E of 1 upward |
| MichaelBurry.BalanceSheetScore | src/agents/michael_burry.py:227-261 | the balance-sheet score stays within its declared maximum of 3 |
| MichaelBurry.AnalyzeBalanceSheet | src/agents/michael_burry.py:227-263 | the method computes exactly `BalanceSheetScore` |
| MichaelBurry.SharesBought | src/agents/michael_burry.py:280 | the shares bought add up to a non-negative amount |
| MichaelBurry.SharesSold | src/agents/michael_burry.py:281 | the shares sold, after `abs`, are a non-negative amount |
| MichaelBurry.InsiderScore | src/agents/michael_burry.py:268-290 | the insider score is at most 2, and 0 exactly without trades or without net buying |
| MichaelBurry.MissingSharesIgnored | src/agents/michael_burry.py:280-281 | a trade without a share count changes neither the shares bought nor the shares sold |
| MichaelBurry.InsiderTopScore | src/agents/michael_burry.py:282-284 | the top score 2 means net buying larger than `max(shares_sold, 1)` |
| MichaelBurry.NegativeCount | src/agents/michael_burry.py:305-307 | the negative headlines are at most all headlines |
| MichaelBurry.ContrarianScore | src/agents/michael_burry.py:293-316 | the contrarian point is earned exactly at five or more negative headlines, so never with fewer than five news items |
| MichaelBurry.BurryTotal | src/agents/michael_burry.py:102-113 | the total is at most the sum of the four declared maxima |
| MichaelBurry.BurrySignal | src/agents/michael_burry.py:115-120 | bullish exactly from 70% of the maximum, bearish exactly up to 30% |
| MichaelBurry.BurryThresholds | src/agents/michael_burry.py:108-120 | the maximum is 12, so a whole total is bullish exactly from 9 and bearish exactly up to 3 |
| PhilFisher.CountBuys | src/agents/phil_fisher.py:481-486 | the buys counted are at most the trades |
| PhilFisher.CountSells | src/agents/phil_fisher.py:481-488 | the sells counted are at most the trades |
| PhilFisher.InsiderScore | src/agents/phil_fisher.py:467-506 | the insider score is one of 4, 5, 6 and 8, and the neutral 5 exactly when no trade has a non-zero share count |
| PhilFisher.InsiderExtremes | src/agents/phil_fisher.py:495-504 | only buying scores 8 and only selling scores 4 |
| PhilFisher.AnalyzeInsiderActivity | src/agents/phil_fisher.py:467-506 | the counting loop and the ratio bands compute exactly `InsiderScore` |
| PhilFisher.NegativeCount | src/agents/phil_fisher.py:518-522 | the negative headlines are at most all headlines |
| PhilFisher.SentimentScore | src/agents/phil_fisher.py:509-534 | the sentiment score is one of 3, 5, 6 and 8; 5 exactly without news, 8 exactly with news and no negative headline |
| PhilFisher.UntitledIsNotNegative | src/agents/phil_fisher.py:520-521 | a news item without a title (`""`) never counts as negative |
| PhilFisher.AnalyzeSentiment | src/agents/phil_fisher.py:509-534 | the headline loop computes exactly `SentimentScore` |
| PhilFisher.ValuationScore | src/agents/phil_fisher.py:410-464 | the valuation score is on the 0-10 scale, and 0 without line items or without a market cap |
| PhilFisher.AnalyzeFisherValuation | src/agents/phil_fisher.py:410-464 | the method computes exactly `ValuationScore` |
| PhilFisher.EquityDivisor | src/agents/phil_fisher.py:355-378 | a zero equity is replaced by 1e-9, so the divisor is never zero |
| PhilFisher.RoePoints | src/agents/phil_fisher.py:354-370 | at most 3 ROE points, none without positive net income |
| PhilFisher.DebtEquityPoints | src/agents/phil_fisher.py:376-388 | at most 2 debt-to-equity points |
| PhilFisher.FcfConsistencyPoint | src/agents/phil_fisher.py:392-404 | the consistency point is 0 or 1 |
| PhilFisher.ManagementRaw | src/agents/phil_fisher.py:348-404 | the raw management score is at most its declared 6 |
| PhilFisher.ManagementScore | src/agents/phil_fisher.py:334-407 | the management score is on the 0-10 scale, and 0 without line items |
| PhilFisher.AnalyzeManagementEfficiency | src/agents/phil_fisher.py:334-407 | the method computes exactly `ManagementScore` |
| PhilFisher.ZeroEquityMaximisesRoe | src/agents/phil_fisher.py:353-360 | with zero equity any net income above 2e-10 earns the top 3 ROE points |
| PhilFisher.FisherTotalInRange | src/agents/phil_fisher.py:113-120 | the weights sum to 1: sub-scores on the 0-10 scale give a total on it, and six equal sub-scores give that score back |
| PhilFisher.FisherSignalInputsInRange | src/agents/phil_fisher.py:97-120 | with growth and margin scores on the 0-10 scale, the total built from the modelled sub-scores is on it too |
| StanleyDruckenmiller.Closes | src/agents/stanley_druckenmiller.py:246 | the closes kept are at most the price bars |
| StanleyDruckenmiller.ClosesByTime | src/agents/stanley_druckenmiller.py:245-246 | the closes in time order are at most the price bars |
| StanleyDruckenmiller.GrowthPoints | src/agents/stanley_druckenmiller.py:196-206 | at most 3 growth points, none exactly up to 1% annualised growth |
| StanleyDruckenmiller.CagrPoints | src/agents/stanley_druckenmiller.py:188-210 | at most 3 CAGR points, none with fewer than two values |
| StanleyDruckenmiller.ChangePoints | src/agents/stanley_druckenmiller.py:251-262 | at most 3 momentum points, none exactly when the price did not rise |
| StanleyDruckenmiller.MomentumPoints | src/agents/stanley_druckenmiller.py:244-268 | at most 3 momentum points, none with 30 price bars or fewer |
| StanleyDruckenmiller.MomentumScoresOnRise | src/agents/stanley_druckenmiller.py:244-262 | with more than 30 bars and a positive first close, momentum scores exactly when the last close in time order is above the first |
| StanleyDruckenmiller.GrowthMomentumRaw | src/agents/stanley_druckenmiller.py:183-272 | the raw growth-and-momentum score is at most its declared 9 |
| StanleyDruckenmiller.GrowthMomentumScore | src/agents/stanley_druckenmiller.py:172-276 | the score is on the 0-10 scale, and 0 with fewer than two line items |
| StanleyDruckenmiller.AnalyzeGrowthAndMomentum | src/agents/stanley_druckenmiller.py:172-276 | the method computes exactly `GrowthMomentumScore` |
| StanleyDruckenmiller.LeveragePoints | src/agents/stanley_druckenmiller.py:376-392 | at most 3 leverage points |
| StanleyDruckenmiller.DailyReturnsCount | src/agents/stanley_druckenmiller.py:401-405 | there is one daily return per positive previous close |
| StanleyDruckenmiller.DailyReturnsAllPositive | src/agents/stanley_druckenmiller.py:401-405 | with every close positive there is a return for each day after the first, the k-th being the relative change from close k to close k+1 |
| StanleyDruckenmiller.ComputeDailyReturns | src/agents/stanley_druckenmiller.py:401-405 | the loop appends exactly the returns `DailyReturns` lists |
| StanleyDruckenmiller.VolatilityPoints | src/agents/stanley_druckenmiller.py:407-418 | at most 3 volatility points, none exactly from a 4% standard deviation upward |
| StanleyDruckenmiller.RiskRewardRaw | src/agents/stanley_druckenmiller.py:368-424 | the raw risk-reward score is at most its declared 6 |
| StanleyDruckenmiller.RiskRewardScore | src/agents/stanley_druckenmiller.py:357-428 | the score is on the 0-10 scale, and 0 without line items or without prices |
| StanleyDruckenmiller.AnalyzeRiskReward | src/agents/stanley_druckenmiller.py:357-428 | the method computes exactly `RiskRewardScore` |
| StanleyDruckenmiller.EnterpriseValue | src/agents/stanley_druckenmiller.py:453-458 | without any debt or cash figure the enterprise value is the market cap |
| StanleyDruckenmiller.EvPoints | src/agents/stanley_druckenmiller.py:494-526 | an EV multiple earns at most 2 points, and none without a positive enterprise value |
| StanleyDruckenmiller.ValuationRaw | src/agents/stanley_druckenmiller.py:444-527 | the raw valuation score is at most its declared 8 |
| StanleyDruckenmiller.NonPositiveEvCountsPricesOnly | src/agents/stanley_druckenmiller.py:458-527 | without a positive enterprise value only P/E and P/FCF count, so the raw score is at most 4 |
| StanleyDruckenmiller.ValuationScore | src/agents/stanley_druckenmiller.py:431-532 | the score is on the 0-10 scale, and 0 without line items or without a market cap |
| StanleyDruckenmiller.AddMultiple | src/agents/stanley_druckenmiller.py:461-473 | one multiple's block adds exactly its band points to the running score |
| StanleyDruckenmiller.AnalyzeDruckenmillerValuation | src/agents/stanley_druckenmiller.py:431-532 | the method computes exactly `ValuationScore` |
| StanleyDruckenmiller.DruckenmillerTotalInRange | src/agents/stanley_druckenmiller.py:111-120 | the weights sum to 1: sub-scores on the 0-10 scale give a total on it, and equal sub-scores give that score back |
| StanleyDruckenmiller.TotalScoreInRange | src/agents/stanley_druckenmiller.py:96-120 | the agent's total always lies on the 0-10 scale, whatever the inputs |
| StanleyDruckenmiller.DruckenmillerSignal | src/agents/stanley_druckenmiller.py:124-130 | bullish exactly at 7.5 or more, bearish exactly at 4.5 or less |
| Financials.ValuesOf | src/agents/phil_fisher.py:425-426 | the present values of a field are at most as many as the line items |
| Financials.ValuesOfHead | src/agents/phil_fisher.py:446 | when the newest item has the field, the first present value is that item's |
| Financials.ValuesOfEmpty | src/agents/phil_fisher.py:446 | the value list is empty exactly when no item carries the field |
| Financials.ScaledInRange | src/agents/phil_fisher.py:463 | `min(10, raw / max * 10)` of a raw score between 0 and its maximum lies in [0, 10] and is exactly proportional |
| Financials.BandedMultiple | src/agents/phil_fisher.py:446-460 | a multiple earns at most 2 points, none without a positive denominator, and 2 exactly when the multiple is below the attractive bound |
| Financials.TenPointSignal | src/agents/phil_fisher.py:125-130 | bullish exactly at 7.5 or more, bearish exactly at 4.5 or less |
| Api.TickerClassificationIgnoresCase | src/tools/api.py:198-209 | `_looks_like_cn_or_hk_ticker` upper-cases first, so lower- and upper-casing the ticker never changes the verdict |
| Api.DotlessTickers | src/tools/api.py:198-209 | a ticker without a dot is classified as Chinese/Hong Kong exactly when it is all digits and at least four long |
| Api.NoDotNoSuffix | src/tools/api.py:204-205 | a text without a dot cannot end in one of the dotted market suffixes |
| Api.ApiErrorText | src/tools/api.py:139-145 | `APIError.__str__` always ends with the message, and is the bare message when neither ticker nor status is set |
| Api.ApiErrorTextOrder | src/tools/api.py:139-145 | with both set the text is "HTTP code: [ticker] message": the status prefix is outermost |
| Api.ErrorDetail | src/tools/api.py:161-168 | a body that is not JSON yields a prefix of the response text of at most 200 characters |
| Api.HandleApiResponse | src/tools/api.py:148-195 | no error exactly for status 200; otherwise the error carries that status and the ticker, and is recoverable exactly for 429 and 5xx |
| Api.UserMessage | src/tools/api.py:183-193 | every message begins "无法<operation> <ticker>: "; for a status other than 401, 402, 429 and 5xx it ends in "): " and the error detail |
| Api.Pow2 | src/tools/api.py:75 | `2 ** attempt` is at least 1 |
| Api.BackoffDelay | src/tools/api.py:73-90 | the back-off delay is at most 60 s, and at most 30 s for anything but a 429 |
| Api.RunSchedule | src/tools/api.py:68-121 | from any attempt reached by retries, every delay recorded belongs to a retried attempt and equals its back-off, at most `max_retries` are slept, and the last attempt decides the exit |
| Api.RequestSchedule | src/tools/api.py:68-121 | a request makes between 1 and `max_retries + 1` attempts; every attempt but the last was retryable and slept its back-off, the last decides the result, and an early stop happens only on an outcome that is not retried |
| Api.LastAttemptReturnsResponse | src/tools/api.py:73-94 | a 429 or 5xx response on the final attempt is returned to the caller rather than raised |
| Api.NonRetryableEndsFirstAttempt | src/tools/api.py:87-106 | a non-retryable status on the first attempt is returned at once, and a timeout with `retry_on_timeout` off raises "Request timeout after N attempts" at once, without sleeping |
| Api.NegativeRetriesNeverAttempt | src/tools/api.py:68-127 | with negative `max_retries` the loop never runs and "Request failed after N attempts" is raised with no attempt made |
| Api.MakeApiRequest | src/tools/api.py:37-127 | the retry loop returns exactly the exit and sleep schedule of the request specification `Request` |
| Api.MergeFields | src/tools/api.py:508-511 | the merged record has the union of both records' fields |
| Api.MergeFieldsKeepsExisting | src/tools/api.py:508-511 | an existing value other than None is never overwritten; a field missing or None in the existing record takes the incoming value |
| Api.ExtendsTransitive | src/tools/api.py:501-539 | merging twice still keeps every value present before the first merge |
| Api.FindPeriod | src/tools/api.py:503-514 | the index found is the first item with the period sought; none means no item has it |
| Api.FindPeriodFirst | src/tools/api.py:503-514 | the search stops at the first item with the same report period |
| Api.FindSamePeriod | src/tools/api.py:503-515 | the inner loop returns the index of the first item with the same report period, or none |
| Api.MergeKeepsPeriod | src/tools/api.py:505-512 | a merged item keeps its report period |
| Api.PeriodsSnoc | src/tools/api.py:515-516 | appending an unmatched item adds exactly its period |
| Api.MergeOneShape | src/tools/api.py:501-516 | merging one incoming item keeps every existing item in place with its values and period, adds the item at the end exactly when its period is new, and the set of periods gains exactly that period |
| Api.MergeStatementKeeps | src/tools/api.py:501-539 | merging a statement keeps the earlier items in place, with all present values and their periods, and adds at most one item per incoming record |
| Api.MergeStatementPeriods | src/tools/api.py:501-539 | the merged list's periods are the union of both lists' periods |
| Api.MergeStatementHasTextPeriods | src/tools/api.py:501-516 | every merged item still has a text report period |
| Api.MergeOnePeriods | src/tools/api.py:501-516 | merging one item adds its period to the set of periods |
| Api.MergeStatementSize | src/tools/api.py:501-516 | merging never makes more items than the two lists hold together |
| Api.MergeStatementInto | src/tools/api.py:499-540 | the in-place merge loop over `all_items` produces exactly `MergeStatement` |
| Api.AllLineItemsShape | src/tools/api.py:478-549 | the combined list is sorted newest period first, has one period for each period any of the three statements reported, and is no longer than the three together |
| Api.PeriodsOfPermutation | src/tools/api.py:544-545 | sorting the combined list keeps its set of periods |
| Api.Records | src/tools/api.py:567-581 | only records whose value is an object are converted, so there are at most as many items as payload entries |
| Api.Take | src/tools/api.py:590 | `line_items[:10]` has `min(10, n)` items |
| Api.ConvertStatement | src/tools/api.py:552-590 | a converted statement has at most ten items and no more than the payload's records |
| Api.ConvertStatementNewestFirst | src/tools/api.py:583-590 | the converted items are newest period first, and no record cut off by the limit of ten is newer than one kept |
| Api.ConvertRecordDefaults | src/tools/api.py:571-579 | a record without its own "currency" is in CNY, one without its own period fields carries the payload key and "annual", and every reported field overrides the defaults |
| DeepAlpha.HkDetectionIgnoresCase | src/tools/deepalpha.py:132 | Hong Kong detection gives the same answer for a symbol and its lower-cased form, since it upper-cases first |
| DeepAlpha.PlainCodes | src/tools/deepalpha.py:118-145 | a symbol made only of digits is a Hong Kong code exactly when it has five digits and starts with 0 |
| DeepAlpha.FunctionName | src/tools/deepalpha.py:148-167 | a Hong Kong symbol is sent the `HKSTK_` variant of the function, any other symbol the function itself |
| DeepAlpha.HkFunctionNames | src/tools/deepalpha.py:220-240 | a function listed in the Hong Kong mapping gets exactly its listed candidates, any other gets `HKSTK_` then `HKSHARE_` |
| DeepAlpha.HkNamesArePrefixed | src/tools/deepalpha.py:171-240 | every Hong Kong candidate starts with `HKSTK_` or `HKSHARE_`, there are at most three, and valuation has none |
| DeepAlpha.DataKeywordsAreRaisedKeywords | src/tools/deepalpha.py:283-311 | every keyword that marks an error inside a response as a function error also marks a raised error as one |
| DeepAlpha.TryCandidate | src/tools/deepalpha.py:267-325 | an exception other than RuntimeError always propagates; a candidate is accepted only with the response it returned; a propagated verdict never carries a response |
| DeepAlpha.Verdicts | src/tools/deepalpha.py:265-267 | there is one verdict per candidate, and candidate i's verdict is its own `try` block applied to its own query |
| DeepAlpha.FirstNotSkipped | src/tools/deepalpha.py:265-325 | gives the first verdict from i on that is not a skip: every verdict before it is a skip, and it is not one, or no such verdict exists |
| DeepAlpha.FallbackDecidedBy | src/tools/deepalpha.py:265-335 | the first candidate not skipped decides: its response is returned or its error propagates; when all are skipped the RuntimeError names them and the last skipped error |
| DeepAlpha.NonHkQueriesBaseOnce | src/tools/deepalpha.py:336-337 | a symbol that is not Hong Kong is queried once, under the base function name, and the reply is returned unchanged |
| DeepAlpha.FallbackAnswer | src/tools/deepalpha.py:265-298 | a successful result is the response of a candidate that was accepted, every candidate before it having been skipped |
| DeepAlpha.HkFallbackAnswer | src/tools/deepalpha.py:265-298 | for Hong Kong queries, a response is the first accepted candidate's, after only skipped candidates |
| DeepAlpha.HkFallbackAllSkipped | src/tools/deepalpha.py:326-333 | when every candidate is skipped the result is the RuntimeError that lists the candidates and the last candidate's error |
| DeepAlpha.HkFallbackPropagates | src/tools/deepalpha.py:294-325 | an error that propagates from candidate k ends the search with that error, when every earlier candidate was skipped |
| DeepAlpha.FallbackLoop | src/tools/deepalpha.py:265-335 | the candidate loop with `last_error` gives exactly the fallback result over the candidates' verdicts |
| DeepAlpha.QueryWithHkFallbackLoop | src/tools/deepalpha.py:243-337 | `_query_with_hk_fallback` gives exactly the specified fallback: the single query for other symbols, the candidate search for Hong Kong ones |
| DeepAlpha.DateParams | src/tools/deepalpha.py:490-494 | the only keys are `start_date` and `end_date`; each is present exactly when its date is non-empty, and its value is that date with every hyphen removed |
| DeepAlpha.Reshape | src/tools/deepalpha.py:506-513 | a list of rows is kept as it is and an object indexed by date becomes its values in order |
| DeepAlpha.EmptyPriceListLeaks | src/tools/deepalpha.py:498-513 | as written, an empty `data.data.data` list yields one row that is that empty list |
| DeepAlpha.DailyPriceRowsKeepsRowList | src/tools/deepalpha.py:498-513 | with the correction a row list at `data.data.data` is returned unchanged, empty or not, and the code as written agrees whenever that list is non-empty |
| DeepAlpha.RowKey | src/tools/deepalpha.py:575-583 | a row without a truthy period field is keyed by the table's current size as text |
| DeepAlpha.ReportPeriodFirst | src/tools/deepalpha.py:576-579 | a truthy `report_period` gives the key, whatever the other period fields hold |
| DeepAlpha.ListToDict | src/tools/deepalpha.py:567-592 | the table has no more entries than there are rows |
| DeepAlpha.LaterRowOverrides | src/tools/deepalpha.py:585-590 | the row just added shows all its fields in its entry, the entry keeps earlier fields that row lacks, and every other entry is untouched |
| DeepAlpha.NonObjectRowsSkipped | src/tools/deepalpha.py:570-571 | a row that is not an object leaves the table unchanged |
| DeepAlpha.FindReportPeriod | src/tools/deepalpha.py:575-579 | the loop over the period field names gives the first field present with a truthy value |
| DeepAlpha.ConvertRows | src/tools/deepalpha.py:563-592 | the loop that updates `result_dict` in place gives exactly the specified list-to-dict table |
| DeepAlpha.FinancialIndicators | src/tools/deepalpha.py:532-538 | a failed fallback query always raises |
| DeepAlpha.EmptyRowsEmptyTable | src/tools/deepalpha.py:563-565 | an empty row list gives an empty table |
| DeepAlpha.SortValuationRows | src/tools/deepalpha.py:643-644 | a successful sort returns the same rows, newest trade date first |
| DeepAlpha.TradeDate | src/tools/deepalpha.py:644 | the sort key is the row's `trade_date` when that is text, and the empty text otherwise |
| DeepAlpha.UndatedRowsKeepOrder | src/tools/deepalpha.py:644 | rows none of which has a `trade_date` all get the default key and come back in their own order |
| DeepAlpha.HkHasNoValuation | src/tools/deepalpha.py:618-624 | a Hong Kong symbol gets no valuation rows, whatever the API would return |
| DeepAlpha.LatestIsNewest | src/tools/deepalpha.py:647-652 | the latest valuation is the first row, and no row has a newer trade date |
| Llm.FencedText | src/utils/llm.py:388-393 | fenced text is found only when the reply holds the opening fence |
| Llm.BraceSearchFirst | src/utils/llm.py:410-424 | the brace scan returns the parse of the shortest balanced `{...}` candidate that parses, every shorter candidate failing to parse, and nothing when no candidate parses |
| Llm.EmptyReplyHasNoJson | src/utils/llm.py:383-384 | an empty reply gives no JSON |
| Llm.JsonFenceIsFinal | src/utils/llm.py:388-394 | a closed ```` ```json ```` fence is final: its parse is the result, and when it fails nothing else is tried |
| Llm.UnfencedReply | src/utils/llm.py:408-430 | without fences, a reply without `{` gives the parse of the whole stripped reply; with one, a brace candidate from the first `{` that parses wins, and the result is then the parse of the shortest such candidate, every shorter candidate failing; the whole stripped reply is parsed only when no candidate parses |
| Llm.ScanBraces | src/utils/llm.py:410-424 | the loop with its running `brace_count` gives exactly the specified brace search |
| Llm.ExtractJsonFromResponse | src/utils/llm.py:381-436 | the strategies in order (json fence, plain fence, brace scan, whole reply) give exactly the specified extraction |
| Llm.Instruction | src/utils/llm.py:50-75 | a Chinese language (its name contains "Chinese" or "中文", or is zh, zh-cn, zh-tw, zh_hans or zh_hant in any case) gets exactly the Chinese instruction and any other language exactly "Respond in <language>."; detail alone gives exactly the detail requirement, and language with detail gives the language part, a newline, then the detail requirement |
| Llm.FirstSystem | src/utils/llm.py:80-81 | gives the first index holding a system message: none before it, and it is one unless no system message exists |
| Llm.FirstSystemIs | src/utils/llm.py:93-94 | an index with no system message before it, holding one itself or at the end, is the first system index |
| Llm.InjectMessagesShape | src/utils/llm.py:78-100 | only the first system message changes, to the instruction before its cleaned text; without one a system message with the instruction alone goes in front of the unchanged list |
| Llm.InjectKeepsOtherMessages | src/utils/llm.py:78-100 | the rewritten list keeps its length exactly when it held a system message, and grows by one otherwise |
| Llm.InjectLanguageInstruction | src/utils/llm.py:38-108 | without language and detail the prompt is returned as it is; a text prompt becomes the instruction, a blank line and the cleaned text |
| Llm.InjectIntoList | src/utils/llm.py:91-100 | the list branch changes the caller's list in place when it holds a system message and returns that list, and otherwise returns a new list and leaves the caller's untouched; either way the result is the specified rewrite |
| Sorting.SortBySorted | src/tools/api.py:545 | `sort(key=..., reverse=True)` gives an ordering by the key that is a permutation of its input |
| Sorting.SortByKeepsSorted | src/tools/api.py:545 | a list already in key order comes back unchanged, even where keys are equal |
| Sorting.SortByStable | src/tools/api.py:545 | the sort is stable: for every key, the elements with that key come out in the order they went in |
| Sorting.InsertWithKey | src/tools/api.py:545 | inserting into a sorted list places the new element after every element with its key |
| Sorting.SortByIdempotent | src/tools/api.py:545 | sorting a sorted list again changes nothing |
| Common.FloorDiv | src/agents/portfolio_manager.py:128 | `int(cash // price)` is the floor of the quotient |
| Common.RoundHalfEven | src/agents/technicals.py:146 | Python's `round` gives an integer within one half of its argument, keeps whole numbers, and breaks ties to the even integer |
| Common.CountSignalPartition | src/agents/fundamentals.py:126-138 | the bullish, bearish and neutral counts of a signal list add up to its length |
| Common.AssocGet | src/agents/portfolio_manager.py:47-49 | `d.get(key)` is None exactly when no pair has the key, and otherwise the value of the last pair with it |
| Common.ObjMapAgreesWithGet | src/agents/portfolio_manager.py:47-49 | reading a key through the object's dict and through `get` gives the same value |
| Common.Keys | src/tools/deepalpha.py:507-508 | the keys are distinct, at most one per pair, and exactly the keys some pair has |
| Common.Values | src/tools/deepalpha.py:507-508 | `list(d.values())` has one value per key, in key order, each the value the dict holds for that key |
| Common.KeysOfDistinct | src/tools/deepalpha.py:507-508 | without repeated keys the keys are the pairs' keys in order |
| Common.ValuesOfDistinct | src/tools/deepalpha.py:507-508 | without repeated keys `values()` lists the pairs' values in order |

## Definitions

These definitions model source lines but state no contract of their own. What they mean is stated by the members of the table above that use them.

- `PortfolioManager`: `Cash`, `MarginRequirement`, `MarginUsed` and `Equity` are the portfolio defaults (src/agents/portfolio_manager.py:105-109); `HeldPosition`, `SharesOf`, `PriceOf` and `MaxQtyOf` read one ticker's inputs (src/agents/portfolio_manager.py:112-119); `Affordable`, `CloseQuota`, `Quota`, `TickerQuotas` and `Capacities` build the `actions` dict (src/agents/portfolio_manager.py:121-145); `RiskEntry` and `RiskNumber` read the risk payload (src/agents/portfolio_manager.py:47-49); `ReportedPayload` and `AnalystEntry` are one analyst's compact entry (src/agents/portfolio_manager.py:60-64); `Conf`, `CompactAgents` and `Contributes` are `_compact_signals` (src/agents/portfolio_manager.py:161-175); `SaysDirection` and `WellTypedSig` are the signal test of the tally (src/agents/portfolio_manager.py:355-365); `OnlyHold`, `AllowedOrHold` and `RoutedToLlm` are the pre-filling loop (src/agents/portfolio_manager.py:193-203); `LlmDecisions` is the reply or the default factory (src/agents/portfolio_manager.py:319-334); `ActionName`, `NeutralReason`, `ForcedHold`, `SignalsOf`, `TallyFails`, `Overrides` and `Overridden` are the neutral rule (src/agents/portfolio_manager.py:342-381); `Decide` is the whole of `generate_trading_decision` after the allowed maps (src/agents/portfolio_manager.py:193-383). They are characterised by `BuyQuota`, `ShortQuota`, `TickerCapacities`, `TickerSignalsAreAnalysts`, `CompactSignals`, `CountSignals`, `RoutedMembers`, `PrefilledMembers`, `NeutralRuleIdempotent`, `ApplyNeutralRule` and `GenerateTradingDecision`.
- `Technicals`: `MomentumScore` is the momentum mix (src/agents/technicals.py:270); `AllWeighted`, `TotalConfidence`, `FinalScore` and `NonNegative` belong to `weighted_signal_combination` (src/agents/technicals.py:383-415); `TechnicalReport` is the ticker's entry (src/agents/technicals.py:144-148). They are characterised by `WeightedSignalCombination`, `CombinedConfidenceInUnitRange` and `ReportConfidenceIsPercentage`.
- `Fundamentals`: `Above`, `Point`, `ProfitabilityScore`, `GrowthScore` and `PriceRatioScore` are the threshold sums (src/agents/fundamentals.py:52-118); `LiquidityPoint`, `LeveragePoint` and `CashConversionPoint` are the health tests (src/agents/fundamentals.py:91-97); `MetricsFor` is the per-ticker metrics (src/agents/fundamentals.py:40). They are characterised by `ThresholdScore`, `HealthScore` and `FundamentalsAnalyst`.
- `Sentiment`: `Weighted` and `TotalWeighted` are the weighted counts (src/agents/sentiment.py:57-75); `SentimentReport`, `TradesFor` and `NewsFor` are one ticker's entry and inputs (src/agents/sentiment.py:28-80). They are characterised by `Overall`, `OverallConfidenceBounded` and `SentimentAnalyst`.
- `MichaelBurry`: `SharesOf` is `t.transaction_shares or 0` (src/agents/michael_burry.py:279-280); `NegativeSentiment` is the negative-headline test (src/agents/michael_burry.py:305-307), counted by `NegativeCount` and `ContrarianScore`.
- `PhilFisher`: `NegativeHeadline` is the keyword test on a lower-cased title (src/agents/phil_fisher.py:516-520), counted by `SentimentScore`; `OnTenScale` states the 0-10 scale of the sub-scores (src/agents/phil_fisher.py:112-119).
- `StanleyDruckenmiller`: `TimeOf` is the sort key `p.time` (src/agents/stanley_druckenmiller.py:245); `LatestOrZero` is the most recent debt or cash (src/agents/stanley_druckenmiller.py:455-456), used by `EnterpriseValue`.
- `Financials`: `Get` reads one field of a line item and `FirstOf` is `values[0] if values else None`; both are used throughout the agents (for example src/agents/stanley_druckenmiller.py:452-456).
- `Api`: `LooksLikeCnOrHkTicker` is `_looks_like_cn_or_hk_ticker` (src/tools/api.py:198-209), characterised by `TickerClassificationIgnoresCase` and `DotlessTickers`; `Recoverable` is the recoverable status test (src/tools/api.py:172-181); `Retryable`, `AttemptsText` and `FinalExit` are the retry decisions and the final exceptions (src/tools/api.py:68-127), characterised by `RequestSchedule` and `MakeApiRequest`; `PeriodOf` and `HasTextPeriod` read a line item's `report_period` (src/tools/api.py:504-505).
- `DeepAlpha`: `IsHkStock` is `_is_hk_stock` (src/tools/deepalpha.py:118-145); `DataError`, `FunctionErrorInData`, `FunctionErrorRaised` and `AllFailed` are the Hong Kong fallback's error tests and final error (src/tools/deepalpha.py:276-335); `DictGet` is `v.get(key, default)` (src/tools/deepalpha.py:500); `DailyPriceRowsAsWritten` is `get_daily_price_raw` as written (src/tools/deepalpha.py:498-513), compared with its correction in "## Findings"; `FoundPeriod` is the search over period fields (src/tools/deepalpha.py:575-578); `HasTextTradeDate` is the text-key test of the valuation sort (src/tools/deepalpha.py:644); `ValuationRows` is `get_valuation_main_raw` (src/tools/deepalpha.py:605-644), characterised by `HkHasNoValuation` and `SortValuationRows`; `LatestValuation` is `get_latest_valuation` (src/tools/deepalpha.py:647-652).
- `Llm`: `IsChineseLanguage` is the Chinese-language test (src/utils/llm.py:53), used by `Instruction`; `Depth` and `IsCandidate` are the brace count of the JSON scan (src/utils/llm.py:410-424), characterised by `BraceSearchFirst`.
- `Common` and `Sorting` also define Python built-ins the code calls (truthiness, `x or 0`, `str.startswith`, `in`, `min`/`max`, `abs`, `round(x, 2)`, `<` on `str`); their properties are the lemmas of those modules in the table above.

## Left out

- Language-model calls (`call_llm`, structured output, retries on parse failure), prompt templates and the progress display are left out. They are I/O. The model's reply enters as an arbitrary decision map.
- HTTP, the response cache, `DeepAlphaClient.query`, client construction and environment variables are left out. They are I/O and become the `query` parameter or a sequence of attempt outcomes.
- The sleep in the retry loop is recorded as a schedule of delays, not performed.
- Technical indicators are inputs: the latest EMA, ADX, RSI, Bollinger position, z-scores, volatility regime and Hurst exponent. The pandas arithmetic that computes them is floating-point series work.
- `sqrt`, the fractional powers in the growth rates and `statistics.pstdev` are uninterpreted parameters, because they are floating-point functions.
- Floating point: every float is an exact `real`, so rounding errors, overflow, infinities and NaN are not modelled. `round` is modelled as Python's half-to-even on exact values. With a NaN indicator every comparison in the technical strategies is false, so a strategy goes neutral while its confidence formula can still carry the NaN; the model has no such value.
- `float(...)` of a string and `int(...)` truncation of a non-integral float in the portfolio inputs are not modelled. The inputs are already numbers, and share counts are `int`.
- Python `str` of a float or of a JSON value is the `render` parameter, so error texts and period keys built with it are only as precise as that parameter.
- `json.loads` is the `parses` parameter. A JSON document `null`, which parses to `None`, is not told apart from a parse failure.
- Lookups in a JSON object and in the model's ordered dicts follow Python's dict: `Common.AssocGet` reads the last pair with a key, `Common.Keys` lists keys in first-occurrence order, and `Common.Values` gives each key's last value. Iteration over the raw member list does not collapse a repeated key: the payload records behind `Api.Records`, the analyst signals and `ticker_signals` in the portfolio manager, and the indicator object `DeepAlpha.AsReturned` would visit such a key twice. JSON text with a repeated key, or a Python dict built from one, never has that, so the difference only concerns member lists no parser produces.
- Upper- and lower-casing and `isdigit` are modelled on ASCII only; Unicode case folding and Unicode digits are not modelled. `strip` removes the characters Python treats as whitespace among code points 0-255 (9-13, 28-32, 133 and 160, `Common.IsSpace`); whitespace above 255, such as U+3000, is not stripped.
- DeepAlpha.SortValuationRows: rows whose `trade_date` values are all text are sorted, and rows none of which has a `trade_date` keep their order (every key is the default 0 and the sort is stable, `DeepAlpha.UndatedRowsKeepOrder`). A non-object row raises an `AttributeError`, as in Python. Every other case of two or more rows is reported as a `TypeError`. That is what Python raises when text meets a number or `None`, but it also covers rows whose dates are all numbers or missing, which Python would sort by number.
- Pydantic validation of models, line items and decisions is left out. Records are datatypes with the fields the core reads.
- `ChatPromptValue` and a plain message list are one `Messages` prompt. Building a new list from `to_messages()` rather than changing the caller's list is captured only by `Llm.InjectIntoList`, which covers the plain-list branch.
- The text of the Chinese language instruction is the `chineseText` parameter.
- A prompt that is neither a message list nor text (src/utils/llm.py:108 returns it unchanged) is not modelled; `Llm.Prompt` has only those two forms.
- Phil Fisher's growth-and-quality and margins-and-stability analyses are not modelled. Their 0-10 scores enter the weighted total as inputs, and `PhilFisher.FisherSignalInputsInRange` assumes only that they lie on that scale.
- Stanley Druckenmiller's revenue and EPS growth rates are computed from the line items by `StanleyDruckenmiller.CagrPoints` through `Financials.ValuesOf`; only the fractional power inside the annualised growth rate is the `pow` parameter.
- DataFrame conversions in the DeepAlpha client (`*_to_dataframe`, `*_df`) are left out. They are pandas formatting.
- The other agents and files of the repository, including the graph wiring, the CLI, back-testing and the web front end, are outside this model.
- DeepAlpha.FinancialIndicators: its own contract states only that a failed query raises. The table it returns is described by `ListToDict`, `LaterRowOverrides`, `NonObjectRowsSkipped` and `ConvertRows`.
- DeepAlpha.RowKey: its own contract states only the fallback to the table's size. The choice among the five period fields is stated by `FindReportPeriod` and `ReportPeriodFirst`.
- DeepAlpha.ListToDict: its own contract states only the size bound. The key and merge rules are the lemmas named on the line above.
- Llm.FencedText: its own contract states only that a fence is present. The role of the fenced text in extraction is stated by `JsonFenceIsFinal` and `ExtractJsonFromResponse`.

## Findings

| source | as written | input that shows it | evidently intended | confidence | as-written member | corrected member |
|---|---|---|---|---|---|---|
| src/tools/deepalpha.py:498-513 | `data.data.data or data.data` treats an empty row list as missing and falls back to the enclosing object, whose values are then returned as rows | a response `{"data": {"data": {"data": []}}}` gives one "row" that is the empty list `[]` | fall back to `data.data` only when `data.data.data` is missing or None, so an empty list gives no rows | not executed | `DeepAlpha.EmptyPriceListLeaks` | `DeepAlpha.DailyPriceRowsKeepsRowList` |
