# Metal Credit Score — a verified model of the scoring core

Metal Credit Score lends against precious-metal holdings in India. Each
customer keeps gold, silver and platinum tokens and a `BINR` (tokenised
rupee) balance on four platforms. The backend works in five steps:

1. **Portfolio fetcher.** Gathers the four holdings and the merged
   transaction history into one portfolio. It works out allocation,
   diversification and a risk level, and keeps results in a five-minute
   cache.
2. **Behaviour engine.** Reads the history for systematic-plan (SIP)
   regularity, monthly streaks, withdrawal volatility, holding periods,
   panic selling, investment patterns, consistency, short-term trading and
   risk tolerance.
3. **Risk engine.** Rates withdrawals, fraud indicators, wallet usage,
   activity, unusual transactions, geography, velocity and behavioural
   anomalies, then combines them into a weighted risk score, a level and a
   list of risk factors.
4. **Scoring engine.** Turns the three analyses into a 300–900 score. The
   score is made of up to 400 asset points, 300 behaviour points and 200
   risk points. From the score it derives a category, a loan
   recommendation, an interest rate, a tenure and reasons, and it can score
   a batch.
5. **Loan server helpers.** Compute loan eligibility and process the batch
   scoring route ten users at a time.

Modules follow that structure: `Ledger` (records, host primitives, numeric
helpers), `Grouping` (string order, grouping and tallies), `LedgerSort`
(the in-place stable sort of a ledger), `PortfolioFetcher`,
`BehaviorEngine`, `RiskEngine`, `ScoringEngine` and `LoanServer`.

Modelling conventions:

- **Host primitives.** The host's calendar projections of a timestamp
  (day label, week label, month index, local midnight, hour) and
  `Math.sqrt` are fields of a `Runtime` value the operations take.
  Lemmas that need an exact root ask for `IsSqrt(rt.sqrt)`.
- **The clock** is an explicit `now` parameter (milliseconds).
- **Numbers.** Amounts and ratios are `real`; timestamps are `int`.
  JavaScript's `Math.round`, `toFixed(2)` and `Math.ceil` are written out
  in `Ledger`. A comparison against k·σ is stated as the squared
  comparison; `RiskEngine.SquaredTest` proves the two agree for an exact
  root.
- **In-place sorts** stay in place: the ledger is an `array<Tx>`, sorted
  by a stable insertion sort and specified by the function `Sort`.
- **Mutable state.** The fetcher's cache is a `map` field of the class
  `Fetcher`, which its methods reassign.
- **Each loop is a method** with invariants, proved equal to a function.
  What the source promises is then proved about that function.

## Model

| member | source | states |
|---|---|---|
| Ledger.Round | backend/services/scoring-engine.js:88-94 | `Math.round`: the result lies in (x − ½, x + ½] |
| Ledger.ToFixed2 | backend/services/portfolio-fetcher.js:324-327 | `toFixed(2)` is within half a hundredth of x and keeps non-negative values non-negative |
| Ledger.Clamp | backend/services/scoring-engine.js:75-78 | the clamped value lies in [lo, hi] and equals x when x is already inside |
| Ledger.MeanBetween | backend/services/behavior-engine.js:581-587 | a mean lies between any lower and upper bound of the values |
| Ledger.VarianceNonNegative | backend/services/behavior-engine.js:581-587 | a population variance is never negative |
| Ledger.VarianceOfConstant | backend/services/behavior-engine.js:581-587 | equal values have their common value as mean and zero variance |
| Ledger.Filter | backend/services/behavior-engine.js:59-61 | a filtered list keeps exactly the elements that satisfy the predicate, and is no longer than the input |
| Grouping.StringOrder | backend/services/behavior-engine.js:395-403 | the code-unit comparison `sort()` uses on strings is a strict total order |
| Grouping.SortedKeysCorrect | backend/services/behavior-engine.js:395-403 | `Object.keys(groups).sort()` is strictly sorted, holds exactly the labels that occur and is no longer than the input |
| Grouping.GroupBy | backend/services/behavior-engine.js:664-672 | the grouping loop lists each key once in first-seen order, and each group holds exactly that key's records in their original order |
| Grouping.Distinct | backend/services/risk-engine.js:631-647 | the distinct labels in first-seen order: no repeats and the same elements |
| Grouping.Counts | backend/services/risk-engine.js:631-647 | `Object.values(counts)`: one count per distinct label, equal to its multiplicity, at least 1, adding up to the number of labels |
| Grouping.Tally | backend/services/risk-engine.js:631-647 | the `counts[k] = (counts[k] \|\| 0) + 1` loop: keys in insertion order, each count the label's multiplicity, and values summing to the input length |
| LedgerSort.SortCorrect | backend/services/risk-engine.js:511 | the sorted ledger is ordered and is a permutation of its input |
| LedgerSort.SortOfSorted | backend/services/risk-engine.js:276 | sorting an ordered ledger leaves it unchanged |
| LedgerSort.SortedHead | backend/services/risk-engine.js:276-277 | the first record of a sorted ledger is one of its records and has the least key of all of them |
| LedgerSort.SortLedger | backend/services/behavior-engine.js:676 | the in-place sort leaves the array equal to `Sort` of its old contents |
| LedgerSort.SortedCopy | backend/services/portfolio-fetcher.js:303 | sorting a copy yields an ordered permutation of the records |
| PortfolioFetcher.FetchMetal | backend/services/portfolio-fetcher.js:120-154 | a metal holding exists exactly when an address is given and the platform answered; it carries the address, and a missing value reads as 0 |
| PortfolioFetcher.FetchBinr | backend/services/portfolio-fetcher.js:237-266 | a BINR holding exists exactly when an address is given and the platform answered; a missing balance reads as 0 |
| PortfolioFetcher.FetchHoldings | backend/services/portfolio-fetcher.js:49-115 | each holding is present exactly when its address and its platform's answer are |
| PortfolioFetcher.HoldingAddresses | backend/services/risk-engine.js:230-233 | a platform's address is read from its holding, and is absent exactly when the holding is |
| PortfolioFetcher.FetchedHoldingAddresses | backend/services/portfolio-fetcher.js:78-97 | a fetched holding carries an address exactly when the platform had one and answered, and it is the requested address |
| PortfolioFetcher.AllocationSumsToHundred | backend/services/portfolio-fetcher.js:309-340 | for a positive total, the rounded percentage allocation adds up to 100 within two hundredths |
| PortfolioFetcher.AllocationOf | backend/services/portfolio-fetcher.js:309-340 | with no positive total the allocation reports the raw values unchanged |
| PortfolioFetcher.DiversificationScore | backend/services/portfolio-fetcher.js:345-361 | no positive weight scores 0 and a single positive weight scores 50 |
| PortfolioFetcher.DiversificationInRange | backend/services/portfolio-fetcher.js:345-361 | non-negative weights adding up to about 100 give a score between 0 and 100 |
| PortfolioFetcher.MetricsDiversificationInRange | backend/services/portfolio-fetcher.js:309-361 | the reported diversification of non-negative holdings is between 0 and 100 |
| PortfolioFetcher.RiskLevelBands | backend/services/portfolio-fetcher.js:366-383 | for non-negative holdings: Low exactly when BINR is at least half or gold at least 60% of the total; High exactly when BINR is above a fifth but below half and gold below 60%; Medium otherwise |
| PortfolioFetcher.RiskLevelNoAssets | backend/services/portfolio-fetcher.js:366-383 | "No Assets" exactly when the total value is 0 |
| PortfolioFetcher.LastActivity | backend/services/portfolio-fetcher.js:388-398 | the last activity is absent exactly when there are no dates; otherwise it is one of them and no earlier than any other |
| PortfolioFetcher.PortfolioMetrics | backend/services/portfolio-fetcher.js:309-340 | the metrics carry the holdings' allocation and the sum of the metal tokens |
| PortfolioFetcher.OnlyBinrInPlatformTable | backend/services/portfolio-fetcher.js:16-37 | of the names 'gold', 'silver', 'platinum' and 'binr', only 'binr' is a key of the platform table |
| PortfolioFetcher.FetchTransactionHistory | backend/services/portfolio-fetcher.js:271-304 | the merged history is the tagged histories of the platforms that have an address, have a table entry and answered, sorted newest first: ordered and a permutation of their concatenation |
| PortfolioFetcher.GatheredIsBinrOnly | backend/services/portfolio-fetcher.js:271-299 | as written, the merged records are exactly BINR's tagged history (when BINR has an address and answered), whatever the metals answer |
| PortfolioFetcher.MetalHistoriesLost | backend/services/portfolio-fetcher.js:276-299 | a gold address with a one-record gold history and nothing else merges to nothing as written, and to that record tagged gold under the intended merge |
| PortfolioFetcher.IntendedGatheredIsConcatenation | backend/services/portfolio-fetcher.js:271-296 | the intended merge is the gold, silver, platinum and BINR contributions in that order |
| PortfolioFetcher.MergedHistorySound | backend/services/portfolio-fetcher.js:271-304 | every record of the intended merge comes from a platform that had an address and answered, tagged with that platform |
| PortfolioFetcher.MergedHistoryComplete | backend/services/portfolio-fetcher.js:271-304 | every record of every answering platform with an address appears in the intended merge |
| PortfolioFetcher.CacheLookup | backend/services/portfolio-fetcher.js:413-423 | a lookup hits exactly when the key is cached and at most five minutes old, and returns the cached data |
| PortfolioFetcher.CacheAfterLookup | backend/services/portfolio-fetcher.js:413-423 | a lookup removes only its own key, and only when that entry has expired |
| PortfolioFetcher.ClearedFor | backend/services/portfolio-fetcher.js:428-436 | clearing a user removes exactly the keys that start with `userId_` and keeps every other entry |
| PortfolioFetcher.LookupAfterStore | backend/services/portfolio-fetcher.js:403-423 | a stored portfolio is found again until it is older than five minutes |
| PortfolioFetcher.LookupOtherKey | backend/services/portfolio-fetcher.js:403-423 | storing or looking up one key leaves the lookups of every other key unchanged |
| PortfolioFetcher.CacheKey | backend/services/portfolio-fetcher.js:51 | the cache key of a user starts with `userId_` |
| PortfolioFetcher.ClearedUserMisses | backend/services/portfolio-fetcher.js:428-436 | after clearing a user, none of that user's portfolios is found, whatever the addresses |
| PortfolioFetcher.Assemble | backend/services/portfolio-fetcher.js:78-103 | the assembled portfolio carries the user, the holdings, the history and the holdings' metrics |
| PortfolioFetcher.Fetcher.constructor | backend/services/portfolio-fetcher.js:39-40 | the cache starts empty |
| PortfolioFetcher.Fetcher.CachePortfolio | backend/services/portfolio-fetcher.js:403-408 | the entry is stored with the current time, replacing any previous one |
| PortfolioFetcher.Fetcher.GetCachedPortfolio | backend/services/portfolio-fetcher.js:413-423 | returns `CacheLookup` of the old cache and sweeps the expired entry |
| PortfolioFetcher.Fetcher.ClearUserCache | backend/services/portfolio-fetcher.js:428-436 | the cache becomes `ClearedFor` of the old cache |
| PortfolioFetcher.Fetcher.FetchCompletePortfolio | backend/services/portfolio-fetcher.js:49-115 | a fresh cache hit is returned as it is; without an address object the call fails; otherwise the portfolio is assembled from the responses with the history sorted newest first, and cached under the key with the current time |
| BehaviorEngine.SipConsistency | backend/services/behavior-engine.js:444-472 | the share of on-schedule gaps lies in [0, 1], and is 0 without a schedule or with fewer than two days |
| BehaviorEngine.CalculateSipFrequency | backend/services/behavior-engine.js:422-439 | the gap loop yields the frequency the mean gap defines |
| BehaviorEngine.CalculateSipConsistency | backend/services/behavior-engine.js:444-472 | the loop computes `SipConsistency` |
| BehaviorEngine.TrailingWithinExact | backend/services/behavior-engine.js:477-498 | the streak counts exactly the trailing gaps within the bound; the gap before them exceeds it |
| BehaviorEngine.CurrentStreakOf | backend/services/behavior-engine.js:477-498 | with any day keys, the streak is at least 1 and at most the number of keys |
| BehaviorEngine.CalculateCurrentStreak | backend/services/behavior-engine.js:477-498 | walking newest first gives the trailing-gap streak, between 1 and the number of days when there are any |
| BehaviorEngine.SipBehaviorOf | backend/services/behavior-engine.js:58-99 | SIP is inactive exactly when there are no SIP purchases, with zero consistency and streak; the totals count the SIP purchases |
| BehaviorEngine.AnalyzeSipBehavior | backend/services/behavior-engine.js:58-99 | the method computes `SipBehaviorOf` |
| BehaviorEngine.DayKeysAreContributionDays | backend/services/behavior-engine.js:395-403 | the sorted day keys are exactly the days with a contribution, no more than there are contributions |
| BehaviorEngine.EvenlySpacedPlan | backend/services/behavior-engine.js:422-472 | contributions every 1, 7, 14 or 30 days get that frequency and full consistency |
| BehaviorEngine.MonthBeforeInTime | backend/services/behavior-engine.js:408-417 | for calendar months the string key order is the order in time |
| BehaviorEngine.MonthKeysWellFormed | backend/services/behavior-engine.js:408-417 | the month keys are distinct, increasing calendar months; there are no more of them than purchases, and at least one when there are purchases |
| BehaviorEngine.LongestRunBefore | backend/services/behavior-engine.js:532-555 | the longest run over the first k keys bounds every run there and is attained |
| BehaviorEngine.CalculateCurrentMonthStreak | backend/services/behavior-engine.js:503-527 | the loop computes the current month streak function |
| BehaviorEngine.CalculateLongestStreak | backend/services/behavior-engine.js:532-555 | the loop computes the longest streak function |
| BehaviorEngine.StreakOrder | backend/services/behavior-engine.js:503-555 | the current streak is the run ending at the last month, and 1 ≤ current ≤ longest ≤ months |
| BehaviorEngine.MonthlyStreakBounds | backend/services/behavior-engine.js:104-147 | with purchases: 1 ≤ current ≤ longest ≤ total months, and the consistency lies in (0, 1] |
| BehaviorEngine.AnalyzeMonthlyStreak | backend/services/behavior-engine.js:104-147 | the method computes `MonthlyStreakOf` |
| BehaviorEngine.VolatilityOf | backend/services/behavior-engine.js:152-181 | counts the withdrawals and derives the pattern from the volatility; with withdrawals, the maximum is one of them and bounds them all, the average is their mean and at most the maximum, and the total is their sum; without, none of the three is reported |
| BehaviorEngine.EqualWithdrawalsAreSteady | backend/services/behavior-engine.js:581-587 | equal withdrawals have zero volatility and a low-volatility pattern |
| BehaviorEngine.VolatilityNonNegative | backend/services/behavior-engine.js:581-587 | non-negative amounts give non-negative volatility |
| BehaviorEngine.SpreadNonNegative | backend/services/behavior-engine.js:581-587 | with a true square root, the coefficient of variation of non-negative amounts is never negative |
| BehaviorEngine.OnlyWithdrawalsCount | backend/services/behavior-engine.js:152-181 | a record that is not a withdrawal does not change the analysis |
| BehaviorEngine.PeriodSummaryBounds | backend/services/behavior-engine.js:592-627 | rounded min ≤ rounded average ≤ rounded max, and the long-term percentage lies in 0..100 |
| BehaviorEngine.OverallHoldingDays | backend/services/behavior-engine.js:186-215 | the overall average holding period is non-negative |
| BehaviorEngine.AnalyzeHoldingPatterns | backend/services/behavior-engine.js:186-215 | the method computes `HoldingsOf` |
| BehaviorEngine.AssetHoldingsListed | backend/services/behavior-engine.js:186-215 | an asset is listed exactly when its platform has records |
| BehaviorEngine.PanicEventFor | backend/services/behavior-engine.js:220-251 | a sale yields an event exactly when a same-platform purchase falls in its window |
| BehaviorEngine.AnalyzePanicSelling | backend/services/behavior-engine.js:220-251 | one event per panicked sale, in order, no more events than sales, and the matching severity |
| BehaviorEngine.LaterPurchasePanics | backend/services/behavior-engine.js:229-232 | a same-platform purchase after the sale also counts as panic, since the window has no upper bound |
| BehaviorEngine.NoPurchasesNoPanic | backend/services/behavior-engine.js:220-251 | without purchases there are no panic events |
| BehaviorEngine.Diversification | backend/services/behavior-engine.js:256-296 | with purchases, the share of platforms used lies in [¼, 1] |
| BehaviorEngine.TimeSpanInMonths | backend/services/behavior-engine.js:560-576 | 1 for fewer than two months; otherwise the least whole number of 30-day periods covering the distance between the first and last month starts |
| BehaviorEngine.Regularity | backend/services/behavior-engine.js:632-647 | the regularity is never negative |
| BehaviorEngine.CalculateInvestmentRegularity | backend/services/behavior-engine.js:632-647 | the interval loop computes `Regularity` |
| BehaviorEngine.SteadinessBounds | backend/services/behavior-engine.js:632-647 | with a positive mean, steadiness ≤ 1, and it equals 1 exactly when the variance is 0 |
| BehaviorEngine.InvestmentPatternsOf | backend/services/behavior-engine.js:256-296 | "no investments" exactly when there are no purchases; otherwise diversification lies in [¼, 1] and the totals count the purchases |
| BehaviorEngine.AllPlatformsWellDiversified | backend/services/behavior-engine.js:652-657 | purchases on all four platforms give diversification 1 and the well-diversified style |
| BehaviorEngine.EvenlySpacedPurchases | backend/services/behavior-engine.js:632-647 | evenly spaced purchases have regularity 1 |
| BehaviorEngine.AnalyzeInvestmentPatterns | backend/services/behavior-engine.js:256-296 | the method computes `InvestmentPatternsOf` |
| BehaviorEngine.ConsistencyScore | backend/services/behavior-engine.js:301-325 | the score lies in [0, 1]; 0 without purchases and ½ for a single purchase |
| BehaviorEngine.CalculateConsistencyScore | backend/services/behavior-engine.js:301-325 | the loop computes `ConsistencyScore` |
| BehaviorEngine.SpanTelescopes | backend/services/behavior-engine.js:301-325 | the intervals add up to the time between the first and the last purchase |
| BehaviorEngine.ZeroSpanNoConsistency | backend/services/behavior-engine.js:301-325 | purchases all at one instant give consistency 0 |
| BehaviorEngine.EvenlySpacedConsistency | backend/services/behavior-engine.js:301-325 | evenly spaced purchases give consistency 1 |
| BehaviorEngine.CountQuickRoundTrips | backend/services/behavior-engine.js:678-690 | the pair loop computes `RoundTrips` of the sorted records |
| BehaviorEngine.AssetRoundTrips | backend/services/behavior-engine.js:675-691 | one platform's count is the round trips of its records sorted oldest first |
| BehaviorEngine.IdentifyShortTermTrading | backend/services/behavior-engine.js:662-694 | group, sort and count compute the short-term count |
| BehaviorEngine.NoSalesNoShortTermTrading | backend/services/behavior-engine.js:662-694 | a ledger without sales has no short-term trading |
| BehaviorEngine.QuickSaleIsShortTerm | backend/services/behavior-engine.js:662-694 | a purchase sold within 30 days on the same platform counts as one round trip |
| BehaviorEngine.IndicatorsExact | backend/services/behavior-engine.js:330-390 | each indicator is listed exactly when its check fires, and none is listed twice |
| BehaviorEngine.RaisedMembers | backend/services/behavior-engine.js:344-378 | after the five checks in a row, an indicator is listed exactly when its own check holds |
| BehaviorEngine.RaisedNoRepeats | backend/services/behavior-engine.js:344-378 | the five checks push five different indicators, so none is listed twice |
| BehaviorEngine.IndicatorsPoints | backend/services/behavior-engine.js:330-390 | the points add up over the indicators that fire |
| BehaviorEngine.RiskToleranceOf | backend/services/behavior-engine.js:330-390 | the level is unknown exactly when there are no purchases, and the score lies in 0..100 |
| BehaviorEngine.AnalyzeRiskTolerance | backend/services/behavior-engine.js:330-390 | the method computes `RiskToleranceOf` |
| BehaviorEngine.RaiseIf | backend/services/behavior-engine.js:346-349 | one check pushes its indicator only when it holds, and the running score stays equal to the points of the listed indicators |
| BehaviorEngine.RiskIndicatorsExact | backend/services/behavior-engine.js:330-390 | an indicator is listed exactly when raised, none twice, and the score is min(100, points) |
| BehaviorEngine.LargeShareMeansMajority | backend/services/behavior-engine.js:365-368 | the large-share test means more than half of the purchases are above 10 000 |
| BehaviorEngine.AllIndicatorsAggressive | backend/services/behavior-engine.js:330-390 | all five indicators give score 100 and an aggressive appetite |
| BehaviorEngine.NoIndicatorsConservative | backend/services/behavior-engine.js:330-390 | no indicator gives a conservative appetite with score 0 and no indicators |
| BehaviorEngine.PanicPoints | backend/services/behavior-engine.js:699-726 | the panic part lies in 0..10 |
| BehaviorEngine.BehaviorScore | backend/services/behavior-engine.js:699-726 | the behaviour score is at most 100 |
| BehaviorEngine.BehaviorScoreNonNegative | backend/services/behavior-engine.js:699-726 | with sane inputs the behaviour score is non-negative |
| BehaviorEngine.PanicLowersScore | backend/services/behavior-engine.js:699-726 | more panic events never raise the score |
| BehaviorEngine.StreakRaisesScore | backend/services/behavior-engine.js:699-726 | a longer current streak never lowers the score |
| BehaviorEngine.ExemplaryBehavior | backend/services/behavior-engine.js:699-726 | a full plan, a year-long streak, no volatility, a year's holding and no panic score 100 |
| BehaviorEngine.BehaviorOf | backend/services/behavior-engine.js:28-53 | the overall score is `BehaviorScore` of the parts, at most 100, and the consistency lies in [0, 1] |
| BehaviorEngine.AnalyzeBehavior | backend/services/behavior-engine.js:28-53 | the method computes `BehaviorOf` |
| BehaviorEngine.EmptyHistoryScore | backend/services/behavior-engine.js:28-53 | a user without records scores 25 |
| RiskEngine.SquaredTest | backend/services/risk-engine.js:159-166 | with an exact root, the k·σ test is the squared comparison |
| RiskEngine.TrailingLargeAtLeast | backend/services/risk-engine.js:117-129 | the trailing count is at least k exactly when the last k withdrawals are large |
| RiskEngine.LongestRunAtLeast | backend/services/risk-engine.js:117-129 | the longest run is at least k exactly when k large withdrawals occur in a row somewhere |
| RiskEngine.LongestRunBound | backend/services/risk-engine.js:117-129 | runs are no longer than the number of large withdrawals |
| RiskEngine.MaxConsecutiveLarge | backend/services/risk-engine.js:117-129 | the loop computes the longest run of large withdrawals |
| RiskEngine.GapsInDays | backend/services/risk-engine.js:106-110 | the loop computes the day gaps |
| RiskEngine.GapsTelescope | backend/services/risk-engine.js:106-113 | the gaps add up to the span from the first date to the last |
| RiskEngine.WithdrawalRiskScore | backend/services/risk-engine.js:470-486 | the withdrawal risk lies in 0..40 |
| RiskEngine.WithdrawalRiskZero | backend/services/risk-engine.js:470-486 | it is 0 exactly when there are no large, no frequent and no sudden withdrawals |
| RiskEngine.WithdrawalPatternsOf | backend/services/risk-engine.js:78-148 | risk lies in 0..40, the longest run is at most the large count, and the large count is at most the number of sales |
| RiskEngine.AnalyzeWithdrawalPatterns | backend/services/risk-engine.js:78-148 | the method computes `WithdrawalPatternsOf` |
| RiskEngine.NoSalesNoWithdrawalRisk | backend/services/risk-engine.js:78-148 | without sales the report is the fixed "no withdrawals" answer |
| RiskEngine.SuddenIffThreeInARow | backend/services/risk-engine.js:116-129 | a sudden pattern means three large withdrawals in a row |
| RiskEngine.FrequentIffDense | backend/services/risk-engine.js:112-114 | with two or more withdrawals, "frequent" means a span under 7 days per gap |
| RiskEngine.AverageGapUnderAWeek | backend/services/risk-engine.js:106-114 | the average gap is under seven days exactly when the first-to-last span is under seven days per gap |
| RiskEngine.SingleWithdrawalIsFrequent | backend/services/risk-engine.js:112-114 | a single withdrawal counts as frequent and scores at least 5 |
| RiskEngine.SeverityOf | backend/services/risk-engine.js:733-737 | high exactly from 70, low exactly below 40 |
| RiskEngine.SeverityMonotone | backend/services/risk-engine.js:733-737 | a higher score never has a lower severity |
| RiskEngine.RapidExact | backend/services/risk-engine.js:509-523 | a record is flagged exactly when it follows its predecessor within a minute |
| RiskEngine.SpacedLedgerNotRapid | backend/services/risk-engine.js:509-523 | records at least a minute apart flag nothing |
| RiskEngine.DetectRapidTransactions | backend/services/risk-engine.js:509-523 | the array is sorted oldest first in place and the flagged records are `Rapid` of it |
| RiskEngine.RapidCheckPermutes | backend/services/risk-engine.js:511 | the sorted ledger is an ordered permutation, and fewer records are flagged than there are |
| RiskEngine.DetectFraudulentActivity | backend/services/risk-engine.js:153-222 | the ledger is left sorted oldest first and the report is `FraudOf` of the old ledger |
| RiskEngine.ScoreFraud | backend/services/risk-engine.js:168-213 | the accumulation steps compute `FraudFrom` |
| RiskEngine.FraudIndicatorsExact | backend/services/risk-engine.js:153-222 | each indicator is listed exactly when its check fires, with the points the source adds, capped at 100 |
| RiskEngine.CleanLedgerNoFraud | backend/services/risk-engine.js:153-222 | a ledger that trips no check has a zero fraud score and no indicators |
| RiskEngine.Wallets | backend/services/risk-engine.js:227-261 | the wallets are exactly the platforms with an address, each once, at most four |
| RiskEngine.PlatformFlagsDistinct | backend/services/risk-engine.js:230-233 | the four address checks push four different platforms, so no wallet type is listed twice |
| RiskEngine.WalletUsageOf | backend/services/risk-engine.js:227-261 | at most four wallets, a risk in 0..20, and never the excessive-wallets indicator |
| RiskEngine.WalletTypesAreWallets | backend/services/risk-engine.js:227-261 | the types are the platforms with an address, and multi-chain usage equals the count |
| RiskEngine.ActivityOf | backend/services/risk-engine.js:266-309 | the risk follows the days since the last activity; active months ≤ records; an empty ledger gives the no-activity answer |
| RiskEngine.AnalyzeActivityLevel | backend/services/risk-engine.js:266-309 | sorts newest first in place and returns `ActivityOf` of the old ledger |
| RiskEngine.ActiveMonths | backend/services/risk-engine.js:284-292 | the set the loop fills is exactly the set of month keys of the records |
| RiskEngine.ActivityFromNewest | backend/services/risk-engine.js:276-278 | the days are counted from the newest record |
| RiskEngine.TimingOutliersExact | backend/services/risk-engine.js:584-601 | with an exact root, a record is a timing outlier exactly when it is in the ledger and its hour lies more than two standard deviations from the mean hour |
| RiskEngine.UnusualPatternsExact | backend/services/risk-engine.js:606-625 | large amounts exactly when some record exceeds 100 000; unusual timing exactly when there are records and more than 30% of them fall before 6 or after 23; at most two patterns |
| RiskEngine.DedupById | backend/services/risk-engine.js:347-350 | keeps one record per id, drawn from the input, covering every id |
| RiskEngine.FirstWithId | backend/services/risk-engine.js:347-350 | the record `findIndex` finds for an id: in the list, with that id, and no earlier record has it |
| RiskEngine.DedupIdsFirstSeen | backend/services/risk-engine.js:347-350 | the kept ids are the list's ids without repeats, in order of first appearance |
| RiskEngine.DedupKeepsFirst | backend/services/risk-engine.js:347-350 | each kept record is the first record of the list with its id |
| RiskEngine.DedupOfDistinct | backend/services/risk-engine.js:347-350 | a list with distinct ids is kept as it is |
| RiskEngine.UnusualFrom | backend/services/risk-engine.js:347-357 | the count is the number of unique outliers, the risk is min(15, 3·count), and at most ten are reported |
| RiskEngine.UnusualOf | backend/services/risk-engine.js:314-358 | fewer than five records give the fixed answer; otherwise the count is the number of id-unique amount-then-timing outliers, the patterns are read from them, the risk is min(15, 3·count) and the reported outliers are the first min(10, count) of them |
| RiskEngine.GeoRiskOf | backend/services/risk-engine.js:363-395 | an unknown location scores 5; a known one scores 20 exactly for high-risk places and 0 exactly for low-risk ones |
| RiskEngine.CalculateVelocity | backend/services/risk-engine.js:631-647 | the counting loop computes `VelocityOf` |
| RiskEngine.VelocityBetween | backend/services/risk-engine.js:631-647 | 1 ≤ min ≤ rounded average ≤ max |
| RiskEngine.VelocityAnalysisOf | backend/services/risk-engine.js:400-426 | 20 points exactly when the rounded daily average (`Math.round` of records per active day) exceeds 10 |
| RiskEngine.PerformVelocityAnalysis | backend/services/risk-engine.js:400-426 | the method computes `VelocityAnalysisOf` |
| RiskEngine.QuietDaysNoVelocityRisk | backend/services/risk-engine.js:400-426 | no day with more than ten records means no velocity risk |
| RiskEngine.NoBehavioralAnomalies | backend/services/risk-engine.js:431-465 | with the engine's fixed detectors there is never an anomaly |
| RiskEngine.OverallRiskScore | backend/services/risk-engine.js:742-757 | at most 100, and equal to the weighted sum when that is within 100 |
| RiskEngine.WeightedRiskRange | backend/services/risk-engine.js:742-757 | given each part's range, the weighted sum lies in 0..94.75, so the cap at 100 never applies |
| RiskEngine.RiskLevelOf | backend/services/risk-engine.js:762-767 | high exactly from 70, minimal exactly below 20 |
| RiskEngine.RiskLevelMonotone | backend/services/risk-engine.js:762-767 | a higher score never has a lower level |
| RiskEngine.RiskFactorsOf | backend/services/risk-engine.js:772-796 | each factor is listed exactly when its threshold is crossed; at most five |
| RiskEngine.AnalysisFrom | backend/services/risk-engine.js:46-73 | the analysis carries the overall score, the level and the factors of its parts |
| RiskEngine.PerformRiskAnalysis | backend/services/risk-engine.js:46-73 | the ledger ends sorted newest first after the oldest-first sort, and the result is `RiskAnalysisOf` of the old ledger |
| RiskEngine.LedgerAfterAnalysis | backend/services/risk-engine.js:46-73 | after the analysis the ledger is newest first and holds the same records |
| RiskEngine.OverallRiskBounds | backend/services/risk-engine.js:742-757 | the overall risk lies in [0, 94.75] and equals the weighted sum; the 100 cap never binds |
| RiskEngine.PartsWeightedRange | backend/services/risk-engine.js:742-757 | for the parts the analysis computes from any ledger, the weighted sum lies in 0..94.75 |
| RiskEngine.EmptyLedgerRisk | backend/services/risk-engine.js:46-73 | an empty ledger with no profile scores 7, minimal risk, with only the inactive-account factor |
| RiskEngine.EmptyLedgerParts | backend/services/risk-engine.js:46-73 | with no records and no profile, only inactivity (20) and the unknown location (5) score; all other parts score 0 |
| ScoringEngine.ToLower | backend/services/scoring-engine.js:401 | each character is lower-cased and the length kept |
| ScoringEngine.Contains | backend/services/scoring-engine.js:402-408 | `includes` holds exactly when the pattern occurs at some position |
| ScoringEngine.NationalIncomeEstimate | backend/services/scoring-engine.js:398-412 | one of the four estimates: urban for no location, metro exactly for a metro name, and so on in the source's order |
| ScoringEngine.IncomeEstimateIgnoresCase | backend/services/scoring-engine.js:398-412 | the estimate does not depend on letter case |
| ScoringEngine.IncomeEstimate | backend/services/scoring-engine.js:118 | a nonzero stated income wins, otherwise the national estimate; never 0 |
| ScoringEngine.PortfolioInputs | backend/services/scoring-engine.js:115 | the scoring view takes its values from the fetched holdings, with no income or location |
| ScoringEngine.FetchedPortfolioInputs | backend/services/scoring-engine.js:114-166 | a fetched portfolio gets the urban income, and the scoring view's total assets equal the fetcher's total value |
| ScoringEngine.AssetScoreOf | backend/services/scoring-engine.js:114-166 | the asset score lies in 0..400 |
| ScoringEngine.CalculateAssetScore | backend/services/scoring-engine.js:114-166 | the method computes `AssetScoreOf` |
| ScoringEngine.HoldingPointsRange | backend/services/scoring-engine.js:122-163 | each holding's points lie in 0..cap, are positive exactly for positive holdings, and reach the cap at the benchmark |
| ScoringEngine.AssetScoreUnclamped | backend/services/scoring-engine.js:114-166 | with positive income the clamp never binds, and the score is positive exactly when a holding is |
| ScoringEngine.HoldingPointsMonotone | backend/services/scoring-engine.js:122-163 | a larger holding never earns fewer points |
| ScoringEngine.BehaviorScoreOf | backend/services/scoring-engine.js:172-229 | the behaviour score lies in 0..300 |
| ScoringEngine.CalculateBehaviorScore | backend/services/scoring-engine.js:172-229 | the method computes `BehaviorScoreOf` |
| ScoringEngine.PanicTermRange | backend/services/scoring-engine.js:216-226 | the panic term is 50 less ten points per event, never below 0, and 0 exactly from five events |
| ScoringEngine.BehaviorTermsBounded | backend/services/scoring-engine.js:172-229 | each term stays within its cap (120, 60, 50, 70, 50) |
| ScoringEngine.VolatilityTermJumpsAtZero | backend/services/scoring-engine.js:199-205 | zero volatility earns nothing, while a tiny positive volatility earns at least 49 |
| ScoringEngine.RiskInputsOf | backend/services/scoring-engine.js:234-277 | the scoring engine reads large withdrawals, the suspicious-activity count (the number of fraud indicator kinds raised), wallet count, inactivity days and unusual count from the analysis |
| ScoringEngine.Penalties | backend/services/scoring-engine.js:234-277 | the penalties lie in 0..230 |
| ScoringEngine.RiskScoreOf | backend/services/scoring-engine.js:234-277 | the risk score lies in 0..200 |
| ScoringEngine.CalculateRiskScore | backend/services/scoring-engine.js:234-277 | the method computes `RiskScoreOf` |
| ScoringEngine.FullRiskScoreIffNoPenalty | backend/services/scoring-engine.js:234-277 | 200 exactly when no penalty applies |
| ScoringEngine.UnusualPenaltyIsFlat | backend/services/scoring-engine.js:270-274 | the unusual-transaction penalty is always 30 when it applies |
| ScoringEngine.WithdrawalPenaltySteps | backend/services/scoring-engine.js:245-253 | the withdrawal penalty is 15 per large withdrawal up to 60, and 60 exactly from four |
| ScoringEngine.RiskScoreClampedBelowOnly | backend/services/scoring-engine.js:234-277 | the score is max(0, 200 − penalties), and 0 exactly when penalties reach 200 |
| ScoringEngine.Band | backend/services/scoring-engine.js:282-290 | the band counts the thresholds (550 … 800) the score reaches |
| ScoringEngine.BandMonotone | backend/services/scoring-engine.js:282-290 | a higher score never falls into a lower band |
| ScoringEngine.CategoryOf | backend/services/scoring-engine.js:282-290 | the category is the table's entry for the score's band |
| ScoringEngine.InterestRate | backend/services/scoring-engine.js:341-349 | the rate is the table's entry for the band |
| ScoringEngine.Tenure | backend/services/scoring-engine.js:354-360 | the tenure is the table's entry for the band |
| ScoringEngine.BracketOf | backend/services/scoring-engine.js:295-336 | the loan bracket is the table's entry for the band |
| ScoringEngine.BracketsMonotone | backend/services/scoring-engine.js:295-336 | better bands never lower the percentage or the base amount |
| ScoringEngine.LoanRecommendation | backend/services/scoring-engine.js:295-336 | the amount is the rounded min(assets·percentage, base), never above the base, and non-negative for non-negative assets; rate and tenure follow the band |
| ScoringEngine.CappedAmountBounds | backend/services/scoring-engine.js:327-331 | the rounded capped amount lies between 0 and the base |
| ScoringEngine.AssetReasons | backend/services/scoring-engine.js:368-374 | each asset reason appears exactly when its threshold holds |
| ScoringEngine.BehaviorReasons | backend/services/scoring-engine.js:376-382 | each behaviour reason appears exactly when its threshold holds |
| ScoringEngine.RiskReasons | backend/services/scoring-engine.js:384-390 | each risk reason appears exactly when its threshold holds; none exactly for 100 ≤ risk < 150 |
| ScoringEngine.ReasonsOf | backend/services/scoring-engine.js:365-393 | at most three reasons, asset then behaviour then risk |
| ScoringEngine.GenerateScoringReasons | backend/services/scoring-engine.js:365-393 | the method computes `ReasonsOf` |
| ScoringEngine.ReasonsExact | backend/services/scoring-engine.js:365-393 | each reason appears exactly when its condition holds |
| ScoringEngine.NoRiskReasonBand | backend/services/scoring-engine.js:384-390 | no risk reason appears for risk scores in [100, 150) |
| ScoringEngine.FinalScore | backend/services/scoring-engine.js:75-78 | the final score lies in 300..900 |
| ScoringEngine.CalculateScoreOf | backend/services/scoring-engine.js:63-108 | succeeds exactly when the portfolio, behaviour and risk analysis are all present; otherwise fails with the source's prefix |
| ScoringEngine.CalculateScore | backend/services/scoring-engine.js:63-108 | the method computes `CalculateScoreOf` |
| ScoringEngine.ScoreInRange | backend/services/scoring-engine.js:63-108 | the score lies in 300..900 and each part within its range; the 900 cap never binds |
| ScoringEngine.CategoryOfUnroundedScore | backend/services/scoring-engine.js:80-89 | the category reads the unrounded score: 799.5 rounds to 800 yet is "Very Good" |
| ScoringEngine.GoldOnlyNoRecords | backend/services/scoring-engine.js:63-108 | 20 000 of gold with no records scores 430, "Very Poor", with a loan of 8 000 |
| ScoringEngine.EmptyLedgerRiskInputs | backend/services/scoring-engine.js:234-277 | for an empty ledger the scoring engine reads zero withdrawals, fraud and unusual records, and 365 inactive days |
| ScoringEngine.BatchEntry | backend/services/scoring-engine.js:417-442 | each entry keeps its user id and is scored exactly when all three inputs are present |
| ScoringEngine.BatchCalculateScores | backend/services/scoring-engine.js:417-442 | the loop gives one entry per user, in order, equal to `BatchEntry` |
| ScoringEngine.ScoreUser | backend/services/scoring-engine.js:420-438 | one user's entry is the score, or the error message recorded as a failure |
| ScoringEngine.BatchKeepsUsers | backend/services/scoring-engine.js:417-442 | the batch's user ids are the input's, in the same order |
| LoanServer.GetInterestRate | backend/server.js:600-608 | the server's rate table agrees with the scoring engine's |
| LoanServer.GetTenure | backend/server.js:613-619 | the server's tenure table agrees with the scoring engine's |
| LoanServer.LoanBracket | backend/server.js:557-582 | the server's bracket table agrees with the scoring engine's |
| LoanServer.CalculateLoanEligibility | backend/server.js:557-595 | the amount is the rounded min(value·percentage, base); eligible exactly from 550, low risk from 700, high risk below 600 |
| LoanServer.EligibilityAgreesWithRecommendation | backend/server.js:557-595 | the eligibility amount equals the scoring engine's recommended amount for the same score and assets |
| LoanServer.EligibilityFollowsCategory | backend/server.js:557-595 | eligible exactly when the category is Poor or better (not Very Poor) |
| LoanServer.RowsOf | backend/server.js:237-281 | one row per user, in order, with its outcome |
| LoanServer.ScoreBatch | backend/server.js:237-291 | slices of ten give one row per user, in order; the total is the number of users, and the counts of successes and failures add up to it |
| LoanServer.ProcessSlice | backend/server.js:240-280 | one slice gives one row per user of the slice, in the slice's order |
| LoanServer.CountsPartition | backend/server.js:284-287 | every row either succeeds or fails |

## Left out

- **HTTP and platform APIs.** Calls to the platforms' APIs, the axios
  client and `getPlatformStatus` are left out. The platforms' answers are
  parameters (`Responses`, `PerPlatform` histories); a failed request is a
  missing answer.
- **Express application.** Routes other than the batch route,
  authentication, request validation, WebSocket, MongoDB persistence,
  logging, the frontend, internationalisation and the service worker are
  outside the core.
- **generateMockScores.** It is driven by `Math.random`.
- **Events.** The EventEmitter notifications the services emit are not
  modelled.
- **Promises.** Concurrency is modelled sequentially. The per-user calls
  of a batch slice run one after another; results keep the input order, as
  `Promise.all` does.
- **Calendar and clock.** Calendar and timezone arithmetic are host
  projections in `Runtime`. ISO timestamps in results are replaced by
  `now`, and a batch uses one `now` for every user.
- **Floating point.** Arithmetic is exact over the reals; IEEE rounding
  and NaN propagation are not modelled. Where the source divides zero by
  zero, the model takes the value the comparison or the expression then
  falls back to:
  - an empty-ledger mean flags no outliers;
  - a zero mean gives volatility 0.

  Big.js rounds each quotient of the asset ratios to 20 decimal places and
  `.toNumber()` returns a double; the model ignores that rounding too.
- **Risk engine's fixed detectors.** The engine returns constant answers
  for device, location and portfolio-change checks. They are modelled as
  those constants.
- **Error messages.** After the "Score calculation failed: " prefix, the
  JavaScript error text is replaced by a short description of the missing
  input.
- **Case folding.** `toLowerCase` is modelled for ASCII letters only.
- **LoanServer.ScoreBatch.** It takes the per-user pipeline as its
  `process` parameter: fetch, analyse and score, or an error.
- **BehaviorEngine.Regularity:** when every gap between purchases is 0
  (two or more purchases at one instant) the source's 0/0 yields NaN; the
  model yields 0. A zero mean with a non-zero spread gives 0 in both.
- **BehaviorEngine.ConsistencyScore:** when the intervals' standard
  deviation is 0 and their mean is also 0 the source yields NaN; the model
  yields 0.
- **PortfolioFetcher.DiversificationInRange:** the 0..100 bound is proved
  only for non-negative holdings, because negative balances have no
  meaning in the source.
- **ScoringEngine.BehaviorScoreOf:** modelled on the field shapes the
  scoring engine reads: a number for volatility, a count for panic events
  and a number of months. Through the real pipeline the behaviour engine
  hands it objects in those places. JavaScript arithmetic on an object
  gives NaN, and that NaN score is not modelled.

Where the written specification and the code disagree, the model follows
the code:

- **Current month streak.** It ends at the newest purchase month, not at
  the current month.
- **Gold-only scenario.** On the scoring engine's own field shapes, a
  user with 20 000 of gold and no records scores 430, not 400
  (`ScoringEngine.GoldOnlyNoRecords`). Through the full pipeline the
  behaviour objects make that score NaN (see `ScoringEngine.BehaviorScoreOf`
  under "Left out"). The 430 comes from two terms:
  - the behaviour score gets 50 points for having no panic events;
  - the empty ledger's 365 days of inactivity cost 20 risk points.
- **Month keys.** They sort in time order only because years have four
  digits.
- **Frequent withdrawals.** A single withdrawal counts as frequent.
- **Caps that never bind.** The final score reaches 900 exactly, with
  400 + 300 + 200 points, so its 900 cap never lowers it. The overall risk
  never exceeds 94.75, so its min(100) cap never applies.
- **Merged history.** Only BINR's records reach it; see Findings.
- **Unusual-transaction penalty.** It is a flat 30.
- **Category.** It uses the unrounded score.
- **Unused income.** `calculateLoanEligibility` ignores `monthlyIncome`.

## Findings

| source | as written | input that shows it | evidently intended | confidence | as-written member | corrected member |
|---|---|---|---|---|---|---|
| backend/services/portfolio-fetcher.js:281 | the history request reads `ASSET_PLATFORMS[platform].baseUrl` for 'gold', 'silver' and 'platinum', but the table's keys are bgt, bst, bpt and binr (lines 16-37); the lookup throws, the catch at lines 297-299 only logs, and the metals' records are dropped | a gold address "0xa" with a gold history of one record t, nothing else: the merged history is empty | every platform that has an address and answered contributes its tagged records: here `[t tagged gold]` | not executed | PortfolioFetcher.MetalHistoriesLost | PortfolioFetcher.MergedHistoryComplete |

The fetch (`FetchTransactionHistory`, `Fetcher.FetchCompletePortfolio`)
follows the code as written. The intended merge is `IntendedGathered`,
with `MergedHistorySound` and `MergedHistoryComplete` proved about it. The
engines take the history as an input, so what is proved about them holds
for either merge.
