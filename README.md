# Stonk portfolio core in Dafny

Stonk is an iOS portfolio tracker backed by a small Python quote server.
This project models the app's core. A **holding** is one position in one
ticker: a share count, an average purchase price and the last fetched
price, plus optional company and market data. A **portfolio** is a named,
ordered list of holdings, and the model covers:

- the gain figures derived from holdings and portfolios, and how they are
  displayed;
- the rule that folds a newly bought lot into a portfolio: a new ticker is
  appended, and a known ticker is merged with a share-weighted average
  price;
- the concurrent refresh of every holding's price, and the refresh of one
  holding's details;
- the older single-screen view model, which applies the same rules to its
  current portfolio;
- the chart periods and price points, the figures the price chart derives
  from a history, and its point selection and loading;
- the key-statistics formatters;
- the server's period table, history reshaping and info-key renaming.

How the model is built:

- Floating-point numbers are `real`. A percentage whose denominator is zero
  (an infinity or NaN on the device) is `None`.
- Objects the app updates in place are classes: `Holding`, `Portfolio`,
  `StonkManager`, `PortfolioViewModel`, `PriceChartView`. A value snapshot
  of each (`HoldingState`, `PortfolioState`) carries the derived getters.
  Each mutating method's postcondition ties the new snapshot to a function
  on the old one.
- Displayed strings are `Text`, a sequence of glyphs. The app's own
  characters ("$", "+", "%", unit letters, the dash) are literal. A number
  rendered by Foundation is one glyph that carries the value and the
  requested style.
- The network is an input. The quote service is a pair of functions: price
  by ticker (0 on failure) and details by ticker (`None` on failure). A
  price-history fetch is a function of ticker and period. The
  market-data library's rows and info dictionary are parameters.
- The price refresh's task group runs its tasks one after another, in any
  order that completes every task. That order is a parameter, and the
  result is proved not to depend on it.

The files under `Stonk/Stonk/Models/` declare only the first eight stored
properties of `Holding` (`HoldingModel.swift:13-20`). The manager assigns
eleven more (`ViewModels/StonkManager.swift:58-76`), and the statistics view
reads them. The model gives `Holding` all nineteen, with the types of
`HoldingDetailsResponse` (`Service/StonkService.swift:48-67`).

## Model

| member | source | states |
|---|---|---|
| Text.Literal | Stonk/Stonk/Views/HoldingDetail/StatisticsSectionView.swift:76-82 | literal text, such as the unit letters and a volume's description, is one character glyph per character, in order |
| Text.NaturalDigits | Stonk/Stonk/Views/HoldingDetail/StatisticsSectionView.swift:108 | the decimal digits of a natural number: at least one, all digits, no leading zero |
| Text.IntDescription | Stonk/Stonk/Views/HoldingDetail/StatisticsSectionView.swift:108 | `"\(value)"` of an `Int`: a minus sign for negatives, then the digits; `IntDescriptionRoundTrip` shows it reads back as the value |
| Text.ParseNaturalDigits | Stonk/Stonk/Views/HoldingDetail/StatisticsSectionView.swift:108 | reading a number's digits back gives the number |
| Text.IntDescriptionRoundTrip | Stonk/Stonk/Views/HoldingDetail/StatisticsSectionView.swift:108 | `"\(value)"` of an `Int` (sign and digits) reads back as that integer, negatives included |
| Holdings.PercentOf | Stonk/Stonk/Models/HoldingModel.swift:37 | the percentage exists exactly when `total - dollar` is non-zero, and it times that denominator equals 100 × dollar |
| Holdings.GainsOf | Stonk/Stonk/Models/HoldingModel.swift:37-38 | a `Gains` of a dollar gain and its percentage over `total - dollar`, the shape shared with PortfolioModel.swift:42-43 and 70-71; `PercentOf` characterises the percentage |
| Holdings.Gains.IsPositive | Stonk/Stonk/Models/HoldingModel.swift:67-71 | positive means a non-negative dollar amount and a percentage that exists and is non-negative; `GainsSign` gives its meaning for a holding |
| Holdings.Gains.FormatForDisplay | Stonk/Stonk/Models/HoldingModel.swift:73-88 | the text starts with "+" exactly when the gains are positive; dollar text is the currency amount, prefixed only by that sign; percent text is the percentage to two fraction digits (or its non-finite rendering when there is none) followed by "%", prefixed only by that sign |
| Holdings.ImageUrlIdentifiesTicker | Stonk/Stonk/Models/HoldingModel.swift:30-32 | every logo URL points at the local server's logo route, and two holdings share a logo URL exactly when they share a ticker |
| Holdings.HoldingState.TotalPrice | Stonk/Stonk/Models/HoldingModel.swift:22-24 | share count times last price; `RefreshedTotalValue` gives its value after a refresh |
| Holdings.HoldingState.CostBasis | Stonk/Stonk/Models/HoldingModel.swift:26-28 | share count times average price; `MergeLotConservesCost` and `AddLotConservesCostBasis` show a lot adds exactly its own cost |
| Holdings.HoldingState.Gains | Stonk/Stonk/Models/HoldingModel.swift:34-40 | the dollar gain and its percentage over `totalPrice - dollarGains`; `GainsRelativeToCost` shows that denominator is the cost basis |
| Holdings.GainsRelativeToCost | Stonk/Stonk/Models/HoldingModel.swift:22-40 | the dollar gain is value minus cost; the percentage is relative to the cost basis and absent exactly when the cost basis is zero |
| Holdings.GainsSign | Stonk/Stonk/Models/HoldingModel.swift:34-40 | with a positive cost basis, the gains are positive iff the position is worth at least its cost; a loss or a zero cost basis is never positive |
| Holdings.Holding.constructor | Stonk/Stonk/Models/HoldingModel.swift:42-47 | ticker and share count as given, both prices defaulting to 0, every descriptive field absent |
| Holdings.SameHolding | Stonk/Stonk/Models/HoldingModel.swift:49-51 | holdings are equal when their tickers are |
| Holdings.HashValue | Stonk/Stonk/Models/HoldingModel.swift:53-55 | the hash combines only the ticker; `SameHoldingSameHash` shows it agrees with `SameHolding` |
| Holdings.SameHoldingSameHash | Stonk/Stonk/Models/HoldingModel.swift:49-55 | holdings equal by ticker hash equally, whatever the hasher |
| Holdings.NewHoldingDefaults | Stonk/Stonk/Models/HoldingModel.swift:42-47 | a holding created without prices is worth 0, cost 0, and has gains (0, no percentage) |
| Portfolios.SumAppend | Stonk/Stonk/Models/PortfolioModel.swift:25-31 | the `map`/`reduce(0, +)` sum of a concatenation is the sum of the sums |
| Portfolios.SumUpdate | Stonk/Stonk/Models/PortfolioModel.swift:25-31 | replacing one entry changes the sum by exactly the difference of its terms |
| Portfolios.DollarGainsSum | Stonk/Stonk/Models/PortfolioModel.swift:37-44 | the summed dollar gains are the total value minus the summed cost basis |
| Portfolios.Sum | Stonk/Stonk/Models/PortfolioModel.swift:27-29 | the `map`/`reduce(0, +)` fold from 0, as also at lines 39-41; `SumAppend` and `SumUpdate` state how it splits and updates |
| Portfolios.PortfolioState.NumHoldings | Stonk/Stonk/Models/PortfolioModel.swift:21-23 | the count of holdings; see `CountAndEmptiness` |
| Portfolios.PortfolioState.IsEmpty | Stonk/Stonk/Models/PortfolioModel.swift:33-35 | no holdings; see `CountAndEmptiness` |
| Portfolios.PortfolioState.TotalValue | Stonk/Stonk/Models/PortfolioModel.swift:25-31 | the left-to-right sum of the holdings' values; see `TotalValueAppend` |
| Portfolios.PortfolioState.Gains | Stonk/Stonk/Models/PortfolioModel.swift:37-45 | summed dollar gains and their percentage over `totalValue - dollarGains`; `PortfolioGainsRelativeToCost` shows that denominator is the summed cost basis |
| Portfolios.CountAndEmptiness | Stonk/Stonk/Models/PortfolioModel.swift:21-35 | `numHoldings` is the number of holdings and `isEmpty` holds exactly when it is 0 |
| Portfolios.TotalValueAppend | Stonk/Stonk/Models/PortfolioModel.swift:25-31 | an empty portfolio is worth 0, and appending a holding adds exactly its value |
| Portfolios.PortfolioGainsRelativeToCost | Stonk/Stonk/Models/PortfolioModel.swift:37-44 | portfolio dollar gain is value minus summed cost; the percentage is relative to that cost, absent exactly when it is 0; an empty portfolio has value 0 and gains (0, none) |
| Portfolios.Portfolio.constructor | Stonk/Stonk/Models/PortfolioModel.swift:16-19 | name and holdings as given, holdings defaulting to none |
| Portfolios.SamePortfolio | Stonk/Stonk/Models/PortfolioModel.swift:47-49 | portfolios are equal when their names are |
| Portfolios.PortfolioHash | Stonk/Stonk/Models/PortfolioModel.swift:51-53 | the hash combines only the name; `SamePortfolioSameHash` shows it agrees with `SamePortfolio` |
| Portfolios.States | Stonk/Stonk/Models/PortfolioModel.swift:14 | one state per holding object, in order |
| Portfolios.SamePortfolioSameHash | Stonk/Stonk/Models/PortfolioModel.swift:47-53 | portfolios equal by name hash equally |
| Portfolios.NetTotalValue | Stonk/Stonk/Models/PortfolioModel.swift:57-63 | the sum of the portfolios' values; `NetWorthOfAllHoldings` shows it is the value of all their holdings |
| Portfolios.NetDollarGains | Stonk/Stonk/Models/PortfolioModel.swift:67-69 | the sum of the portfolios' dollar gains; `NetWorthOfAllHoldings` shows it is the dollar gain of all their holdings |
| Portfolios.NetGains | Stonk/Stonk/Models/PortfolioModel.swift:65-73 | summed dollar gains across portfolios and their percentage; `NetWorthOfAllHoldings` shows it is value minus overall cost, the percentage absent exactly at zero overall cost |
| Portfolios.NetWorthOfAllHoldings | Stonk/Stonk/Models/PortfolioModel.swift:56-73 | net value and net dollar gain across portfolios equal those of all their holdings together; net dollar gain is value minus cost; the percentage is absent exactly when the overall cost is 0; no portfolios give 0 |
| Manager.FirstMatch | Stonk/Stonk/ViewModels/StonkManager.swift:23 | `first(where:)` by ticker: `None` iff no holding has the ticker, otherwise the first index that has it |
| Manager.MergedAveragePrice | Stonk/Stonk/ViewModels/StonkManager.swift:31 | the merged average times the merged share count is the combined cost of both lots |
| Manager.MergeLot | Stonk/Stonk/ViewModels/StonkManager.swift:31-32 | the existing holding with the merged average and the summed share count; see `MergeLotConservesCost` and `MergedAverageBetween` |
| Manager.MergeLotConservesCost | Stonk/Stonk/ViewModels/StonkManager.swift:31-32 | a merge adds the lot's shares and cost, uses the share count before the update, and changes nothing but shares and average price |
| Manager.MergedAverageBetween | Stonk/Stonk/ViewModels/StonkManager.swift:31 | for lots of non-negative size, the merged average lies between the two prices |
| Manager.ZeroShareLotsCannotMerge | Stonk/Stonk/Views/HoldingsView.swift:187 | two lots of one ticker whose share counts sum to 0 (two blank share fields, or 5 then -5) can be added one at a time, but the second falls outside `CanMerge` |
| Manager.AddLot | Stonk/Stonk/ViewModels/StonkManager.swift:22-33 | append when no holding has the ticker, otherwise merge into the first that has it; see `AddLotShape`, `AddLotKeepsTickersUnique` and `AddLotConservesCostBasis` |
| Manager.AddLotShape | Stonk/Stonk/ViewModels/StonkManager.swift:22-33 | a new ticker is appended after the unchanged old entries; a known ticker keeps the length and changes only its first holding, by the merge |
| Manager.AddLotKeepsTickersUnique | Stonk/Stonk/ViewModels/StonkManager.swift:22-33 | adding a lot never creates a second entry for a ticker |
| Manager.AddLotConservesCostBasis | Stonk/Stonk/ViewModels/StonkManager.swift:22-33 | adding a lot raises the summed cost basis by exactly the lot's cost, on either path |
| Manager.MergeExamples | Stonk/Stonk/ViewModels/StonkManager.swift:22-33 | 10 @ 100 then 10 @ 200 give one holding of 20 @ 150; 5 @ 100 then 15 @ 300 give 20 @ 250 |
| Manager.Refreshed | Stonk/Stonk/ViewModels/StonkManager.swift:39-50 | each holding takes its own ticker's price, everything else unchanged, same length |
| Manager.RefreshIdempotent | Stonk/Stonk/ViewModels/StonkManager.swift:39-50 | refreshing twice against the same prices is refreshing once |
| Manager.RefreshKeepsTickersUnique | Stonk/Stonk/ViewModels/StonkManager.swift:39-50 | a refresh keeps the one-entry-per-ticker rule |
| Manager.RefreshKeepsCostBasis | Stonk/Stonk/ViewModels/StonkManager.swift:39-50 | a refresh leaves the summed cost basis unchanged |
| Manager.RefreshedTotalValue | Stonk/Stonk/ViewModels/StonkManager.swift:39-50 | after a refresh the total value is the sum of share counts times fetched prices |
| Manager.WithDetails | Stonk/Stonk/ViewModels/StonkManager.swift:58-76 | the fifteen detail fields replaced by the response's, the position kept; see `DetailsKeepPosition` |
| Manager.DetailsKeepPosition | Stonk/Stonk/ViewModels/StonkManager.swift:52-78 | a details update keeps ticker, shares, prices and gains, is idempotent, and commutes with a price write |
| Manager.AppendValue | Stonk/Stonk/ViewModels/StonkManager.swift:23-28 | the append path keeps every old state, adds the lot's, is `AddLot`, and keeps tickers unique and upper-case |
| Manager.MergeValue | Stonk/Stonk/ViewModels/StonkManager.swift:30-32 | the merge path changes only the merged object; with unique tickers it is exactly `AddLot` and keeps them unique |
| Manager.FoldInLot | Stonk/Stonk/ViewModels/StonkManager.swift:22-33 | the in-place append-or-merge: name kept; a new ticker is appended as the same object with no state changed; a known ticker's first holding takes the merged state, no other object changing; with unique tickers the new states are `AddLot` of the old |
| Manager.AppendLot | Stonk/Stonk/ViewModels/StonkManager.swift:23-28 | the append path in place, with the same postcondition |
| Manager.MergeLotAt | Stonk/Stonk/ViewModels/StonkManager.swift:30-32 | the merge path in place, with the same postcondition |
| Manager.FoldLotInto | Stonk/Stonk/ViewModels/StonkManager.swift:31-32 | the two assignments leave the holding in the merged state, the average computed before the share count changes |
| Manager.RefreshPrices | Stonk/Stonk/ViewModels/StonkManager.swift:39-50 | for any completion order of the tasks, the list is kept and its states become `Refreshed` of the old ones |
| Manager.RunTask | Stonk/Stonk/ViewModels/StonkManager.swift:42-47 | one task writes the fetched price to its holding and changes no other field or holding |
| Manager.StonkManager.constructor | Stonk/Stonk/ViewModels/StonkManager.swift:17-20 | keeps the service |
| Manager.StonkManager.AddHolding | Stonk/Stonk/ViewModels/StonkManager.swift:22-33 | the append-or-merge rule in place; a refresh is requested exactly when the lot was appended |
| Manager.StonkManager.UpdatePrices | Stonk/Stonk/ViewModels/StonkManager.swift:39-50 | the portfolio's holdings take the service's prices, whatever order the tasks finish in |
| Manager.StonkManager.UpdateHoldingDetails | Stonk/Stonk/ViewModels/StonkManager.swift:52-78 | no response leaves the holding as it was; a response overwrites exactly the fifteen detail fields, an absent field clearing its value |
| Manager.WriteCompanyFields | Stonk/Stonk/ViewModels/StonkManager.swift:58-64 | the first five assignments change exactly those five fields |
| Manager.WriteValuationFields | Stonk/Stonk/ViewModels/StonkManager.swift:65-69 | the next five assignments change exactly those five fields |
| Manager.WriteTradingFields | Stonk/Stonk/ViewModels/StonkManager.swift:70-76 | the last five assignments change exactly those five fields |
| LegacyViewModel.PortfolioViewModel.constructor | Stonk/Stonk/StonkViewModel.swift:17-22 | a single fresh, empty portfolio named "Portfolio 1", which is the current portfolio |
| LegacyViewModel.PortfolioViewModel.AddHolding | Stonk/Stonk/StonkViewModel.swift:24-32 | the same append-or-merge rule on the current portfolio; the list and the current portfolio stay the same objects |
| LegacyViewModel.PortfolioViewModel.UpdatePrices | Stonk/Stonk/StonkViewModel.swift:34-45 | the current portfolio's holdings take the fetched prices and nothing else changes |
| PriceHistory.IdIsDate | Stonk/Stonk/Models/PriceHistoryModel.swift:14 | a point's id is its date: two points have the same id iff their dates agree |
| PriceHistory.PricePoint.Id | Stonk/Stonk/Models/PriceHistoryModel.swift:14 | a point is identified by its date; see `IdIsDate` |
| PriceHistory.ChartPeriod.RawValue | Stonk/Stonk/Models/PriceHistoryModel.swift:26-31 | the raw values "1d", "1w", "1mo", "1y", "5y"; see `RawValueRoundTrip` and `DistinctNames` |
| PriceHistory.ChartPeriod.DisplayName | Stonk/Stonk/Models/PriceHistoryModel.swift:33-41 | the labels "1D", "1W", "1M", "1Y", "5Y"; see `DistinctNames` |
| PriceHistory.FromRawValue | Stonk/Stonk/Models/PriceHistoryModel.swift:26-31 | the synthesised `init(rawValue:)`; `RawValueRoundTrip` shows it inverts `RawValue` and accepts nothing else |
| PriceHistory.RawValueRoundTrip | Stonk/Stonk/Models/PriceHistoryModel.swift:26-31 | `init(rawValue: p.rawValue) == p`, and the initializer accepts exactly the five raw values |
| PriceHistory.DistinctNames | Stonk/Stonk/Models/PriceHistoryModel.swift:26-41 | raw values and display names are both injective |
| PriceHistory.AllCasesComplete | Stonk/Stonk/Models/PriceHistoryModel.swift:26-31 | `allCases` holds the five periods, each once, in declaration order |
| PriceChart.DisplayPrice | Stonk/Stonk/Views/HoldingDetail/PriceChartView.swift:20-22 | the selected point's close, else the last close, else 0; see `PeriodChangeFromFirst` |
| PriceChart.PeriodChange | Stonk/Stonk/Views/HoldingDetail/PriceChartView.swift:24-30 | the change from the first close; `PeriodChangeFromFirst` states its meaning |
| PriceChart.ChartColor | Stonk/Stonk/Views/HoldingDetail/PriceChartView.swift:32-35 | gray, green or red; `ChartColorMeaning` states when each is chosen |
| PriceChart.PeriodChangeFromFirst | Stonk/Stonk/Views/HoldingDetail/PriceChartView.swift:20-30 | no change iff no history; the change runs from the first close to the displayed price; its percentage exists iff the first close is non-zero and is relative to it |
| PriceChart.ChartColorMeaning | Stonk/Stonk/Views/HoldingDetail/PriceChartView.swift:32-35 | gray iff no history; green iff the displayed price is at least the first close; red otherwise |
| PriceChart.MinClose | Stonk/Stonk/Views/HoldingDetail/PriceChartView.swift:38 | the minimum is a close of the history and no close is smaller |
| PriceChart.MaxClose | Stonk/Stonk/Views/HoldingDetail/PriceChartView.swift:39 | the maximum is a close of the history and no close is larger |
| PriceChart.PriceRange | Stonk/Stonk/Views/HoldingDetail/PriceChartView.swift:37-44 | 0...100 without history, else the closes' span widened by a tenth on each side; every close lies inside |
| PriceChart.ChartBaseline | Stonk/Stonk/Views/HoldingDetail/PriceChartView.swift:46-48 | 0 without history, else a close of the history that no close is below |
| PriceChart.BaselineInRange | Stonk/Stonk/Views/HoldingDetail/PriceChartView.swift:37-48 | the baseline lies inside the displayed range |
| PriceChart.NearestIndex | Stonk/Stonk/Views/HoldingDetail/PriceChartView.swift:198-200 | `min(by:)` on distance: a point no farther from the target than any other, every earlier point strictly farther |
| PriceChart.NearestIndexUnique | Stonk/Stonk/Views/HoldingDetail/PriceChartView.swift:198-200 | any index with that property is the one chosen |
| PriceChart.Distance | Stonk/Stonk/Views/HoldingDetail/PriceChartView.swift:199 | the absolute time between a point's date and the target; `SelectNearestMinimises` shows the selection minimises it |
| PriceChart.SelectNearest | Stonk/Stonk/Views/HoldingDetail/PriceChartView.swift:195-205 | the selection after a drag to a date; `SelectNearestMinimises` states its meaning |
| PriceChart.SelectNearestMinimises | Stonk/Stonk/Views/HoldingDetail/PriceChartView.swift:195-205 | with no history nothing changes; otherwise the selection has the id of a history point and is as near the target as any point; selecting again for the same target changes nothing |
| PriceChart.DatePatternChoice | Stonk/Stonk/Views/HoldingDetail/PriceChartView.swift:210-219 | only 1W and 1M share a pattern ("MMM d"); only 1D shows a time |
| PriceChart.DatePattern | Stonk/Stonk/Views/HoldingDetail/PriceChartView.swift:210-219 | the date format per period; see `DatePatternChoice` |
| PriceChart.PriceChartView.constructor | Stonk/Stonk/Views/HoldingDetail/PriceChartView.swift:13-18 | no history, one-month period, no selection, loading |
| PriceChart.PriceChartView.SelectNearestPoint | Stonk/Stonk/Views/HoldingDetail/PriceChartView.swift:195-205 | the selection becomes `SelectNearest` of the old one; nothing else changes |
| PriceChart.PriceChartView.EndDrag | Stonk/Stonk/Views/HoldingDetail/PriceChartView.swift:156-158 | ending the drag clears the selection |
| PriceChart.PriceChartView.BeginLoading | Stonk/Stonk/Views/HoldingDetail/PriceChartView.swift:225-228 | loading starts with the flag set and the selection cleared, and requests the period selected at that moment |
| PriceChart.PriceChartView.FinishLoading | Stonk/Stonk/Views/HoldingDetail/PriceChartView.swift:228-238 | the history becomes the fetched list, or empty on failure, and loading ends |
| PriceChart.PriceChartView.LoadHistory | Stonk/Stonk/Views/HoldingDetail/PriceChartView.swift:224-239 | one load with no other interleaved: ends not loading and with no selection; the history is the fetch for this ticker and the selected period, or empty |
| PriceChart.PriceChartView.SelectPeriod | Stonk/Stonk/Views/HoldingDetail/PriceChartView.swift:167-170 | a period button selects the period and changes nothing else; the reload it schedules is a separate load |
| Statistics.MarketCapBranches | Stonk/Stonk/Views/HoldingDetail/StatisticsSectionView.swift:75-82 | each value falls in exactly one branch, by thresholds 1e12, 1e9, 1e6; a scaled billion or million lies in [1, 1000) |
| Statistics.MarketCapMonotone | Stonk/Stonk/Views/HoldingDetail/StatisticsSectionView.swift:75-82 | a larger value never gets a smaller unit |
| Statistics.MarketCapMagnitude | Stonk/Stonk/Views/HoldingDetail/StatisticsSectionView.swift:75-82 | the unit a market cap is shown in; `MarketCapBranches` and `MarketCapMonotone` state its thresholds |
| Statistics.FormatMarketCap | Stonk/Stonk/Views/HoldingDetail/StatisticsSectionView.swift:72-83 | the dash exactly for an absent value; otherwise "$" first and, after the figure, the unit letter of the threshold branch the value falls in (none below a million) |
| Statistics.MarketCapRoundTrip | Stonk/Stonk/Views/HoldingDetail/StatisticsSectionView.swift:72-83 | the shown figure times the divisor its unit letter names is the value; the dash reads back as absent |
| Statistics.FormatOptional | Stonk/Stonk/Views/HoldingDetail/StatisticsSectionView.swift:85-88 | the dash exactly for an absent value |
| Statistics.FormatPercent | Stonk/Stonk/Views/HoldingDetail/StatisticsSectionView.swift:90-93 | the dash exactly for an absent value; otherwise a number followed by "%" |
| Statistics.FormatCurrency | Stonk/Stonk/Views/HoldingDetail/StatisticsSectionView.swift:95-98 | the dash exactly for an absent value |
| Statistics.PlainFormattersShowValue | Stonk/Stonk/Views/HoldingDetail/StatisticsSectionView.swift:85-98 | the three plain formatters show the value itself, with the requested precision or the currency style |
| Statistics.FormatVolume | Stonk/Stonk/Views/HoldingDetail/StatisticsSectionView.swift:100-109 | the dash exactly for an absent value; `VolumeBranches` states which unit a count gets |
| Statistics.VolumeBranches | Stonk/Stonk/Views/HoldingDetail/StatisticsSectionView.swift:100-109 | "M" exactly from 1,000,000 up, with two fraction digits; "K" exactly for 1,000 up to a million, with one fraction digit and a figure in [1, 1000); below 1,000 the plain integer; each figure times its unit is the count |
| Statistics.CharsOfLiteral | Stonk/Stonk/Views/HoldingDetail/StatisticsSectionView.swift:108 | a literal text reads back as its characters |
| Statistics.VolumeRoundTrip | Stonk/Stonk/Views/HoldingDetail/StatisticsSectionView.swift:100-109 | the text of any count reads back as the count, and the dash as absent |
| Statistics.SampleStatistics | Stonk/Stonk/Views/HoldingDetail/StatisticsSectionView.swift:113-121 | a 2.85-trillion market cap shows as "$" 2.85 "T"; a 54,230,000 volume as 54.23 "M"; 999 as "999" |
| StonkApi.ClientPeriodsKnown | StonkAPI/main.py:27-35 | every app period is a key of `period_map`, mapped as tabled: 1d→(1d,15m), 1w→(5d,1d), 1mo→(1mo,1d), 1y→(1y,1wk), 5y→(5y,1mo) |
| StonkApi.PeriodKeysAreRawValues | StonkAPI/main.py:23-35 | the keys are exactly the app's raw values; any other string, and the default period "1mo", ask for (1mo, 1d) |
| StonkApi.YfParameters | StonkAPI/main.py:27-35 | `period_map.get(period, ("1mo", "1d"))`, the table being the constant `PeriodMap`; `ClientPeriodsKnown` and `PeriodKeysAreRawValues` state its entries and fallback |
| StonkApi.ReshapeHistory | StonkAPI/main.py:38-45 | one `{date, close}` record per history row, in row order, the date in ISO form |
| StonkApi.Info | StonkAPI/main.py:53-69 | the response has exactly the fifteen keys; a key is `None` exactly when its source key is missing, and otherwise holds that value |
| StonkApi.InfoKeysMatchClient | StonkAPI/main.py:53-69 | the response keys are exactly those `HoldingDetailsResponse` decodes |
| StonkApi.InfoRenamings | StonkAPI/main.py:54-68 | name←longName, description←longBusinessSummary, peRatio←trailingPE, employees←fullTimeEmployees; every other key reads its own name |

## Left out

- Network I/O: URL building, `URLSession` requests and JSON decoding in `Service/StonkService.swift`, and the yfinance and logo requests in `StonkAPI/main.py:9-20, 36, 50-51`. They are function parameters, and each failure collapses to 0 or `None` as the app's service does.
- Concurrency: the task group and main-actor hops of both `updatePrices` run as a sequential loop over a completion order. Interleavings inside one task are out, since each task writes only its own holding's `lastPrice`.
- The detached `Task` that `StonkManager.addHolding` starts after an append is the returned `refreshRequested` flag. Running that refresh is left to the caller.
- PriceChart.PriceChartView.SelectPeriod: the detached `Task { await loadHistory() }` of a period button, and the `.task` load on appearance, are separate loads that the app can overlap, since the selector stays on screen while loading. Whichever response arrives last sets the history, so an earlier period's history can be shown under the newly selected period. The model has `SelectPeriod` only select the period, and gives each load's two halves (`BeginLoading`, which requests the period selected at that moment, and `FinishLoading`, which takes any fetched result) as separate steps; `LoadHistory` promises the selected period's history only for a load with no other load interleaved.
- Floating point: IEEE rounding, overflow, NaN and infinities are out. Percentages with a zero denominator are `None`.
- Holdings.Gains.IsPositive: for a zero cost basis and a positive value, IEEE gives +∞ and the app shows "+"; the model has no percentage there and says "not positive".
- Manager.StonkManager.AddHolding, Manager.FoldInLot and LegacyViewModel.PortfolioViewModel.AddHolding require `CanMerge`: when the lot's ticker is already held, its shares plus the held shares must not be 0. The app does reach that case. The add sheet builds a lot with `Float(numShares) ?? 0` (Views/HoldingsView.swift:187), so a blank or unparsable share field gives a 0-share lot, and a second such lot for the same ticker makes StonkManager.swift:31 divide 0 by 0. A lot that cancels the held shares (5 then -5) divides by 0 as well. The app then stores a NaN or infinite average price with a share count of 0. The model does not describe that result: these operations promise nothing on such a lot, and `ZeroShareLotsCannotMerge` exhibits the input.
- Foundation formatting (`.formatted(...)`, `DateFormatter`) is out: a rendered number is an uninterpreted glyph, and only the date pattern is chosen.
- Persistence: SwiftData, `addPortfolio`'s `context.insert` and the ordering of stored portfolios are out. They belong to the store, not the core.
- SwiftUI rendering, chart marks, gesture geometry (the date read off a drag location is a parameter) and animations are out.
- The old `Stonk/Stonk/HoldingModel.swift` and `Stonk/Stonk/PortfolioModel.swift` are out: the files under `Models/` supersede them. `PortfolioViewModel` is modelled against the current `Holding` and `Portfolio`. Its service, the old `Stonk/Stonk/StonkService.swift`, fetches only a price and gives 0 on any failure (lines 13-27), so the model uses the same price function as the current service and ignores the details function. That service requests `…:8000/tickers/<ticker>`, a route the server in `StonkAPI/main.py` does not serve (it serves `/prices/{ticker}`), so against this server every legacy price fetch fails and gives 0.
- `StonkManager.getPriceHistory` and the parsing of history dates are not part of this model: they are not in the files modelled. The chart takes the fetch as an `Option<seq<PricePoint>>`.
- The daily gains shown on the position section are out: the model it reads is not among the files modelled.
- Dates are seconds from a fixed instant. The server's `isoformat` is a parameter.
- StonkApi.Info: the result is generic in the value type; Python's mix of value types per key is not modelled.
