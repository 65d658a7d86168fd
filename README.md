# French tax rules of the e-trade tax helper, in Dafny

This project models the part of the tax helper that turns an E*Trade
"Gains & Losses" report into the boxes of a French income tax return.

- Parsing. Each spreadsheet row becomes a sale (`ParseEtradeGL`). The
  sale's dates are read with `parseEtradeDate` and written back with
  `getDateString` (`Dates`, on top of the string primitives in `JsText`).
- Enrichment. The sales are sorted by sale day. Each sale then gets the
  USD/EUR rate of its acquisition day and its sale day, the opening price
  of the acquisition day, and its share of French income (`EnrichFr`). The
  price day falls back up to ten days when the acquisition day has no price
  (`getAdjustedSymbolDate`).
- The five rules. `getFrTaxesForFrQualifiedSo`, `...FrQualifiedRsu`,
  `...Espp`, `...NonFrQualifiedSo` and `...NonFrQualifiedRsu` are applied in
  order by `applyFrTaxes` (`TaxesRulesFr`, `FrTaxEngine`). Each rule:
  - picks its sales with the filters (`EtradeFilters`, `ParseEtradeGL.CreateEtradeGLFilter`);
  - turns each sale into a taxable event (`FrTaxReturn.GetFrTaxableEventFromGainsAndLossEvent`);
  - fills the acquisition-gain boxes 1TT, 1TZ, 1WZ and 1AJ;
  - hands its events to the page builder of form 2074 (`FrTaxReturn.GetFrTaxesCapitalGain`).
    The builder adds one "Page 510" per sale with a capital gain, adds their
    line 524 to box 3VG, and rewrites the event's capital gain to the rounded
    one.
- Around the engine:
  - the number helpers `floorNumber`, `ceilNumber` and `roundNumber` (`FormatNumber`);
  - the calculators' totals `calcTotals` and `getAdjustedGainLoss` (`CalcTotals`, `AdjustedGainLoss`);
  - the ESPP report's `calcTotalGainLoss` and its own `getAdjustedGainLoss` (`EsppReport`);
  - the 300 000 EUR abatement shown by the shared calculator (`AbatementCalculator`);
  - the ESPP calculator's default state and default date (`EsppCalculator`, `Weekdays`);
  - the exchange-rate hook's `lastDayWithAvailableRates` and its merge of query results (`ExchangeRates`).

Money is exact `real` arithmetic. A date is a whole number of days since
1970-01-01 (`Dates.Day`), which is what a JavaScript `Date` at UTC midnight
holds. `FrTaxes` is a value (`FrTaxReturn.FrTaxes`). Each rule is a method
whose loop over its sales is proved equal to a function of the sales and
the return so far (`TaxesRulesFr.RuleTaxes`). The properties of the rules
are proved about that function. The enrichment keeps the source's in-place
sort of the input array.

The rules share their event list with their own explanation entry. The page
builder mutates those events after the entry was pushed. The model keeps
this: the builder returns the rewritten list, and the rule's entry is
re-linked to it (`TaxesRulesFr.Relink`).

Three behaviours of the code worth knowing:
- `calcTotals` does not offset `incomeFr` by a net capital loss;
- `isRoughlyEqual` compares one-sidedly (`a - b < epsilon`), so any `a` below `b` counts as roughly equal;
- the shared calculator's 1TZ is `incomeFr - abatement`. Above 300 000 EUR this includes the part also shown in 1TT (`AbatementCalculator.SummaryBoxes` states `1TZ - 1WZ == 1TT`). The engine's RSU rule puts only the discounted half into 1TZ.

## Model

| member | source | states |
|---|---|---|
| FormatNumber.FloorNumber | lib/format-number.ts:23-26 | the result is the largest value on the 10^-digits grid that is not above the input |
| FormatNumber.CeilNumber | lib/format-number.ts:37-40 | the result is the smallest grid value not below the input |
| FormatNumber.RoundNumber | lib/format-number.ts:52-55 | the result is a grid value within half a step of the input, halves going up (`Math.round`) |
| FormatNumber.FloorNonNegative | lib/format-number.ts:23-26 | flooring a non-negative value never gives a negative one |
| FormatNumber.RoundBetweenFloorAndCeil | lib/format-number.ts:23-55 | floor <= round <= ceil for every value and precision |
| FormatNumber.GridValuesAreFixed | lib/format-number.ts:23-55 | a value already on the grid is returned unchanged by all three helpers |
| FormatNumber.RoundingIsIdempotent | lib/format-number.ts:23-55 | applying any of the three helpers twice is the same as once |
| FormatNumber.DocumentedExamples | lib/format-number.ts:14-51 | the examples documented with the helpers, with `digits` defaulting to 2 (1.234 floors to 1.23, ceils to 1.24, 1.235 rounds to 1.24, ...) |
| JsText.Split | lib/date.ts:5 | `split` with a one-character separator gives at least one part; no part holds the separator; joining the parts gives back the text |
| JsText.SplitJoin | lib/date.ts:5 | splitting a join of separator-free parts gives back the parts |
| JsText.JsNumber | lib/etrade/parse-etrade-gl.ts:12-19 | `Number` of an empty or all-white-space text is 0 |
| JsText.WhitespaceIgnored | lib/etrade/parse-etrade-gl.ts:12-19 | white space at either end of a text does not change what `Number` reads |
| JsText.SpacedDigits | lib/etrade/parse-etrade-gl.ts:12-19 | a text of decimal digits with white space around it reads as the digits' value |
| JsText.PaddedCellExamples | lib/etrade/parse-etrade-gl.ts:12-19 | " 12" and "12 " read as 12, and " " reads as 0 |
| JsText.ExponentAt | lib/etrade/parse-etrade-gl.ts:12-19 | digits followed by `e` or `E` and an exponent read as the digits scaled by that power of ten, and are NaN when the exponent is malformed |
| JsText.ExponentExamples | lib/etrade/parse-etrade-gl.ts:12-19 | "1e3" reads as 1000 and "15E-1" as 1.5 |
| JsText.RadixExamples | lib/etrade/parse-etrade-gl.ts:12-19 | "0x10" reads as 16 and "0b11" as 3, while a sign before a radix prefix ("-0x10") is NaN |
| JsText.PaddedReadsBack | lib/date.ts:5 | a zero-padded decimal reads back as the number it renders |
| Dates.CivilFromDay | lib/date.ts:1-2 | the calendar date of a day number is a valid date that maps back to that day |
| Dates.CivilRoundTrip | lib/date.ts:4-7 | day number -> calendar date -> day number is the identity on valid calendar dates |
| Dates.CivilInjective | lib/date.ts:4-7 | two valid calendar dates with the same day number are equal |
| Dates.Truncate | lib/date.ts:6 | the integer conversion `Date.UTC` applies to its arguments truncates toward zero |
| Dates.DateUtcOfValid | lib/date.ts:6 | `Date.UTC(year, month - 1, day)` of a valid date is that date's day number |
| Dates.DateUtcOfDayBefore | lib/taxes/taxes-rules-fr.ts:87-92 | `Date.UTC(year, month - 1, day - 1)` is the day before, across month and year ends |
| Dates.IsoYear | lib/date.ts:1-2 | the year is four characters in years 0-9999 and seven (sign and six digits) otherwise |
| Dates.GetDateString | lib/date.ts:1-2 | `toISOString` succeeds exactly on valid dates within the 10^8-day range, and the day part is ten characters |
| Dates.GetDateStringIsYmd | lib/date.ts:1-2 | for a date in years 0-9999 the text is `YYYY-MM-DD` |
| Dates.ParseEtradeDate | lib/date.ts:4-7 | a text with fewer than three `/`-separated fields is an invalid date |
| Dates.ParseEtradeDateOfValid | lib/date.ts:4-7 | `MM/DD/YYYY` parses to that day, and `getDateString` of it is `YYYY-MM-DD` |
| Dates.SpacedEtradeDate | lib/date.ts:4-7 | white space before or after an `MM/DD/YYYY` text does not change the day it parses to |
| Dates.EtradeDateExample | lib/date.test.ts:17-33 | "09/01/2021" parses to 1 September 2021 and prints as "2021-09-01" |
| Dates.PreviousDayText | lib/taxes/taxes-rules-fr.ts:87-92 | the day-before text, when it exists, has ten characters |
| Dates.PreviousDayTextIsDayBefore | lib/taxes/taxes-rules-fr.ts:87-92 | for years 100-9999, the day-before step of `getAdjustedSymbolDate` on `YYYY-MM-DD` gives the text of the previous day |
| Dates.PreviousDayEarlyYears | lib/taxes/taxes-rules-fr.ts:87-92 | for years 0-99 the step lands on the day before the same month and day of year 1900 + year, because `Date.UTC` reads such years as 19yy |
| Dates.PreviousDayAfterYear9999 | lib/taxes/taxes-rules-fr.ts:87-92 | after year 9999 the `getDateString` text has no day field, so the step finds no date and `toISOString` throws |
| Weekdays.WeekendDays | app/guide/resident_fr/espp/sell_year/grant_fr/report_fr/Calculator.tsx:29 | `getDay() % 6 === 0` holds exactly on Saturdays and Sundays |
| Weekdays.NumDaysSinceLastFriday | app/guide/resident_fr/espp/sell_year/grant_fr/report_fr/Calculator.tsx:22-27 | one day back from a Saturday, two from a Sunday |
| Weekdays.LastWeekdayIsFriday | app/guide/resident_fr/espp/sell_year/grant_fr/report_fr/Calculator.tsx:22-29 | stepping back from a weekend day lands on the Friday before; weekdays are kept; the result is a weekday at most two days back, and stepping back again changes nothing |
| ExchangeRates.LastDayWithAvailableRates | hooks/use-fetch-exr.ts:37-45 | a weekday is kept, Saturday goes back one day and Sunday two; the result is always a weekday |
| ExchangeRates.LastDayWithAvailableRatesIdempotent | hooks/use-fetch-exr.ts:37-45 | asking again for the returned day gives the same day |
| ExchangeRates.LastAnswer | hooks/use-fetch-exr.ts:95-108 | a found answer is one of the query results, and it answered for that date |
| ExchangeRates.LastAnswerIsLast | hooks/use-fetch-exr.ts:95-108 | there is an answer for a date exactly when some query answered for it, and no later query answered for the same date |
| ExchangeRates.CombineExchangeRates | hooks/use-fetch-exr.ts:88-111 | `isFetching` and `isError` are the OR over all queries; a date has a value and a response exactly when some query answered for it; the last such answer wins |
| AdjustedGainLoss.GetAdjustedGainLoss | lib/get-adjusted-gain-loss.ts:22-36 | the result is null exactly when one of the rates is null or zero |
| AdjustedGainLoss.GainLossSign | lib/get-adjusted-gain-loss.ts:22-36 | with both rates, the result is quantity times the EUR margin per share; for a positive quantity it is a gain exactly when the EUR proceeds exceed the EUR cost, and a loss exactly when they fall short |
| CalcTotals.Contribution | lib/calc-totals.ts:14-46 | a sale adds nothing without both rates; otherwise its gain goes to `gain` (>= 0) and its loss to `loss` (<= 0) |
| CalcTotals.SumContributions | lib/calc-totals.ts:12-49 | the summed gain is never negative and the summed loss never positive |
| CalcTotals.CalcTotalsIsSum | lib/calc-totals.ts:12-49 | the totals are null exactly when no sale has both rates; otherwise they are the field-by-field sum of the sales' contributions |
| CalcTotals.ZeroSum | lib/calc-totals.ts:14-16 | sales without both rates add up to nothing |
| CalcTotals.GainAndLossExample | lib/calc-totals.test.ts:71-101 | a sale at cost 200 and one at cost 0, both sold 10 at 100 at rate 1, give gain 1000, loss -1000, income and incomeFr 2000, proceeds 2000 |
| CalcTotals.LoadingExample | lib/calc-totals.test.ts:17-31 | a sale whose rates are still loading leaves the totals null |
| AbatementCalculator.AboveAbatementThreshold | app/guide/shared/Calculator/Calculator.tsx:44-46 | nothing up to 300 000 EUR and the excess above it otherwise; never negative |
| AbatementCalculator.Abatement | app/guide/shared/Calculator/Calculator.tsx:36-42 | half the income up to 300 000 EUR, and 150 000 EUR above it |
| AbatementCalculator.SummaryBoxes | app/guide/shared/Calculator/Calculator.tsx:236-273 | the net figure appears exactly when there are totals and is gain + loss; 1TZ + 1WZ is incomeFr; 1TZ equals 1WZ exactly up to 300 000 EUR; 1TZ - 1WZ is 1TT; for a non-negative income 1WZ lies in [0, 150 000] |
| EsppReport.GetAdjustedGainLoss | app/guide/resident_fr/espp/sell_year/grant_fr/report_fr/get-adjusted-gain-loss.ts:3-13 | the result is null exactly when one of the two rate records has no truthy rate |
| EsppReport.OnlyRatesMatter | app/guide/resident_fr/espp/sell_year/grant_fr/report_fr/get-adjusted-gain-loss.ts:3-13 | the ESPP variant equals the shared `getAdjustedGainLoss` on the records' rates, and is 0 when the EUR proceeds equal the EUR cost |
| EsppReport.TotalGain | app/guide/resident_fr/espp/sell_year/grant_fr/report_fr/calc-total-gain-loss.ts:4-25 | the total gain is never negative |
| EsppReport.TotalLoss | app/guide/resident_fr/espp/sell_year/grant_fr/report_fr/calc-total-gain-loss.ts:4-25 | the total loss is never positive |
| EsppReport.CalcTotalGainLossIsSum | app/guide/resident_fr/espp/sell_year/grant_fr/report_fr/calc-total-gain-loss.ts:4-25 | `[null, null]` exactly when no sale has both rates; otherwise the sum of the positive results and the sum of the negative results |
| EsppReport.NothingPriced | app/guide/resident_fr/espp/sell_year/grant_fr/report_fr/calc-total-gain-loss.ts:14-22 | sales without rates contribute neither gains nor losses |
| EsppReport.TotalGainLossExamples | lib/calc-total-gain-loss.test.ts:17-84 | a loading sale gives `[null, null]`; a sale at cost 200 and one at cost 0 give `[1000, -1000]` |
| EsppCalculator.GetDefaultState | app/guide/resident_fr/espp/sell_year/grant_fr/report_fr/Calculator.tsx:33-41 | one share, no proceeds and no cost, rates 1, both dates the default date |
| EsppCalculator.DefaultDateIsWeekday | app/guide/resident_fr/espp/sell_year/grant_fr/report_fr/Calculator.tsx:134-145 | the default date is yesterday or, when yesterday was a weekend day, the Friday before: a weekday one to three days back |
| ParseEtradeGL.CreateEtradeGLFilter | lib/etrade/parse-etrade-gl.ts:106-119 | an event is accepted exactly when it matches every key the filter sets |
| ParseEtradeGL.EmptyFilterAcceptsAll | lib/etrade/parse-etrade-gl.ts:106-119 | the filter with no key accepts every event |
| ParseEtradeGL.ToNumber | lib/etrade/parse-etrade-gl.ts:12-19 | a numeric cell is kept; a text cell is accepted exactly when `Number` reads it (white space around it ignored, exponents and `0x`/`0o`/`0b` prefixes included), with that value; a missing cell is an invalid number |
| ParseEtradeGL.EnsureDefined | lib/etrade/parse-etrade-gl.ts:21-26 | an error naming the key exactly when the value is missing or empty; otherwise the value itself |
| ParseEtradeGL.ToDate | lib/etrade/parse-etrade-gl.ts:9-10 | a date cell is accepted exactly when it parses as an E*Trade date, with that day; white space around the fields is read as `Number` reads it |
| ParseEtradeGL.PlanTypeOf | lib/etrade/parse-etrade-gl.ts:29 | "ESPP", "RS" and "SO" are recognised as those plans, and only those texts |
| ParseEtradeGL.QualifiedIn | lib/etrade/parse-etrade-gl.ts:45-47 | a plan is US-qualified exactly when the "Qualified Plan" cell says "Qualified"; every other plan counts as French-qualified |
| ParseEtradeGL.QuantityCell | lib/etrade/parse-etrade-gl.ts:31 | the "Qty." column wins when present, else "Quantity" |
| ParseEtradeGL.ParseEtradeGLRowSpec | lib/etrade/parse-etrade-gl.ts:28-66 | a row parses exactly when every numeric and date cell converts and plan type and symbol are present; the sale then carries those values |
| ParseEtradeGL.ParseRows | lib/etrade/parse-etrade-gl.ts:77-88 | the summary row is skipped; the result is all later rows parsed in order; otherwise it is the error of the first row that fails |
| ParseEtradeGL.ParseEtradeGL | lib/etrade/parse-etrade-gl.ts:68-89 | the report parses exactly when every row after the summary parses, giving one sale per row in order; otherwise the error of the first bad row |
| EtradeFilters.IsFrQualifiedSo | lib/etrade/filters.ts:3-6 | accepts exactly French-qualified stock options |
| EtradeFilters.IsUsQualifiedSo | lib/etrade/filters.ts:7-10 | accepts exactly US-qualified stock options |
| EtradeFilters.IsEspp | lib/etrade/filters.ts:12-14 | accepts exactly ESPP sales, whatever their qualification |
| EtradeFilters.IsFrQualifiedRsu | lib/etrade/filters.ts:16-19 | accepts exactly French-qualified RSUs |
| EtradeFilters.IsUsQualifiedRsu | lib/etrade/filters.ts:20-23 | accepts exactly US-qualified RSUs |
| EtradeFilters.FiltersAreCreated | lib/etrade/filters.ts:1-23 | each filter is the one `createEtradeGLFilter` builds from its keys |
| EtradeFilters.ExactlyOneFilter | lib/etrade/filters.ts:1-23 | an SO, RS or ESPP sale is accepted by exactly one of the five filters, so by exactly one rule; a sale of another plan by none |
| EnrichFr.SearchBack | lib/taxes/taxes-rules-fr.ts:84-95 | a found price day has a price and lies within the searched days |
| EnrichFr.SearchBackIsLatest | lib/taxes/taxes-rules-fr.ts:84-95 | the found day is the latest priced day searched; nothing is found exactly when none of the searched days has a price |
| EnrichFr.AdjustedSymbolDateSpec | lib/taxes/taxes-rules-fr.ts:74-101 | a priced day is its own price day; otherwise the price day is the latest priced day among the ten days before; there is none exactly when none of the eleven days has a price |
| EnrichFr.GetAdjustedSymbolDate | lib/taxes/taxes-rules-fr.ts:74-101 | the loop, at most ten steps back, returns the price day of `AdjustedSymbolDateSpec` |
| EnrichFr.Insert | lib/taxes/taxes-rules-fr.ts:117-121 | inserting a sale adds exactly that sale |
| EnrichFr.SortByDateSold | lib/taxes/taxes-rules-fr.ts:117-121 | the sort keeps the number of sales |
| EnrichFr.InsertSorted | lib/taxes/taxes-rules-fr.ts:117-121 | inserting into sales ordered by sale day keeps them ordered |
| EnrichFr.SortByDateSoldSorted | lib/taxes/taxes-rules-fr.ts:117-121 | the sorted sales are ordered by sale day |
| EnrichFr.SortByDateSoldPermutes | lib/taxes/taxes-rules-fr.ts:117-121 | the sort only reorders the sales (same multiset) |
| EnrichFr.SortByDateSoldFixesSorted | lib/taxes/taxes-rules-fr.ts:117-121 | sales already ordered by sale day are left as they are, ties included (the sort is stable) |
| EnrichFr.SortByDateSoldIdempotent | lib/taxes/taxes-rules-fr.ts:868-909 | sorting twice is sorting once, so the five enrichments inside `applyFrTaxes` see the same order |
| EnrichFr.SortInPlace | lib/taxes/taxes-rules-fr.ts:117-121 | the array is reordered in place into the sorted order of its old contents |
| EnrichFr.SortKeepsInputs | lib/taxes/taxes-rules-fr.ts:117-121 | reordering keeps every sale's rates and price table available |
| EnrichFr.Enriched | lib/taxes/taxes-rules-fr.ts:122-144 | one record per sorted sale, each built from the sale at that position, every one with usable rates |
| EnrichFr.EnrichEvent | lib/taxes/taxes-rules-fr.ts:122-144 | the map callback builds exactly the record `Enriched` puts at that position |
| EnrichFr.EnrichSorted | lib/taxes/taxes-rules-fr.ts:122-144 | the map over the sorted sales gives the enrichment of every sale, in order |
| EnrichFr.EnrichEtradeGlFrFr | lib/taxes/taxes-rules-fr.ts:103-145 | the input array ends up sorted by sale day, and the result is the enrichment of that sorted array |
| EnrichFr.FractionAsWritten | lib/taxes/taxes-rules-fr.ts:142 | `fractions[eventIdx]` is undefined exactly past the end of the array |
| EnrichFr.AcquisitionGainAsWritten | lib/taxes/taxes-rules-fr.ts:457-463 | the acquisition gain of the source is NaN exactly when the fraction is undefined |
| EnrichFr.FractionWhenGiven | lib/taxes/taxes-rules-fr.ts:142 | where the array has an entry, the model attaches that entry, as the source does |
| EnrichFr.NoFractionsAsWritten | lib/taxes/taxes-rules-fr.ts:142 | as written, a call with no fractions leaves every sale's fraction undefined and its acquisition gain NaN |
| EnrichFr.NoFractionsDefaultToOne | lib/taxes/taxes-rules-fr.ts:25-29 | with the documented default, a call with no fractions gives every sale fraction 1 and usable rates |
| EnrichFr.WholeFractionGains | lib/taxes/taxes-rules-fr.ts:453-465 | at fraction 1 a sale's acquisition gain is its whole value minus cost, per share and times the quantity, and capital plus acquisition gain is the gain from acquisition cost to sale price |
| EnrichFr.EnrichedSpec | lib/taxes/taxes-rules-fr.ts:103-145 | the records keep the sales in sale-day order and attach each sale's own rates and the fraction at its sorted position, or the default fraction 1 past the end of the fractions; the price is the opening price of the resolved price day, which is recorded only when it differs from the acquisition day (so an acquisition day with a price gives its own opening price and no recorded day); with no price day the fair market value is used and no day is recorded |
| TaxesRulesFr.Select | lib/taxes/taxes-rules-fr.ts:477 | a sale is kept exactly when it is one of the input sales and the rule's filter accepts it |
| TaxesRulesFr.SelectAppend | lib/taxes/taxes-rules-fr.ts:477 | the filter keeps the input order: the selection of `a + b` is the selection of `a` followed by that of `b` |
| TaxesRulesFr.SelectEmpty | lib/taxes/taxes-rules-fr.ts:736-738 | when the filter accepts no sale, nothing is selected |
| TaxesRulesFr.IsRoughlyEqualOneSided | lib/taxes/taxes-rules-fr.ts:657-661 | any `a` not above `b` is "roughly equal" to it; both directions hold exactly when the values differ by less than 0.001 |
| TaxesRulesFr.Choice | lib/taxes/taxes-rules-fr.ts:487-524 | the acquisition value is always converted at the rate of the acquisition day or of the sale day |
| TaxesRulesFr.TaxableEventsFor | lib/taxes/taxes-rules-fr.ts:485-529 | one taxable event per selected sale |
| TaxesRulesFr.TaxableEventsForIndex | lib/taxes/taxes-rules-fr.ts:485-529 | the taxable event at each position is the one the rule makes of the sale at that position |
| TaxesRulesFr.TaxableEventsStep | lib/taxes/taxes-rules-fr.ts:485-529 | one more sale appends its taxable event and adds its acquisition gain to the running sum |
| TaxesRulesFr.CollectTaxableEvents | lib/taxes/taxes-rules-fr.ts:485-529 | the `forEach` loop collects the rule's taxable events in order and sums their acquisition gains |
| TaxesRulesFr.Relink | lib/taxes/taxes-rules-fr.ts:370-377 | only the rule's own explanation entry is changed: it then lists the events as the page builder left them |
| TaxesRulesFr.GetFrTaxesForFrQualifiedSo | lib/taxes/taxes-rules-fr.ts:469-549 | the rule's return is `RuleTaxes` for French-qualified stock options; its effect is stated by `FrRulesProperties` |
| TaxesRulesFr.AddRsuAcquisitionGains | lib/taxes/taxes-rules-fr.ts:616-643 | the RSU boxes and explanations are those of the 300 000 EUR split (`FrRulesProperties.QualifiedRsuBoxes`) |
| TaxesRulesFr.GetFrTaxesForFrQualifiedRsu | lib/taxes/taxes-rules-fr.ts:551-655 | the rule's return is `RuleTaxes` for French-qualified RSUs |
| TaxesRulesFr.GetFrTaxesForEspp | lib/taxes/taxes-rules-fr.ts:662-724 | the rule's return is `RuleTaxes` for ESPP sales |
| TaxesRulesFr.GetFrTaxesForNonFrQualified | lib/taxes/taxes-rules-fr.ts:726-866 | the shared body of both non-French-qualified rules is `RuleTaxes` for that rule, including the early return when no sale matches |
| TaxesRulesFr.GetFrTaxesForNonFrQualifiedSo | lib/taxes/taxes-rules-fr.ts:726-791 | the rule's return is `RuleTaxes` for US-qualified stock options |
| TaxesRulesFr.GetFrTaxesForNonFrQualifiedRsu | lib/taxes/taxes-rules-fr.ts:793-866 | the rule's return is `RuleTaxes` for US-qualified RSUs |
| FrTaxReturn.Floor6 | lib/taxes/taxes-rules-fr.ts:42 | the six-digit floor is at most the value and less than one millionth below it |
| FrTaxReturn.WholeEurosBounds | lib/taxes/taxes-rules-fr.ts:45 | a rounded total is a whole number of euros within half a euro of price times quantity |
| FrTaxReturn.WholeShares | lib/taxes/taxes-rules-fr.ts:43 | the declared quantity is the whole number of shares not above the quantity |
| FrTaxReturn.Cents | lib/taxes/taxes-rules-fr.ts:44 | the acquisition value is raised to the next cent, never lowered |
| FrTaxReturn.TaxableEventFigures | lib/taxes/taxes-rules-fr.ts:394-467 | the sale, acquisition value, cost and symbol price are each converted to EUR and floored to six digits; the capital gain is sale minus acquisition value per share, times the quantity; the acquisition gain is value minus cost, times the French fraction, times the quantity |
| FrTaxReturn.GainsAddUp | lib/taxes/taxes-rules-fr.ts:394-467 | with the whole income in France, capital gain plus acquisition gain is the EUR sale price minus the EUR cost, times the quantity |
| FrTaxReturn.EmptyTaxesBalanced | lib/taxes/taxes-rules-fr.ts:275-292 | the empty return has all boxes at zero and no pages, so 3VG matches its (empty) pages and 1TZ matches 1WZ |
| FrTaxReturn.Sum524Append | lib/taxes/taxes-rules-fr.ts:362 | the line-524 total of two lists of pages is the sum of their totals |
| FrTaxReturn.PageFigures | lib/taxes/taxes-rules-fr.ts:325-356 | a page declares the six-digit EUR sale price, the whole shares and the cent-rounded acquisition value; 516 and 521 are those prices times the shares, rounded to whole euros; 518 = 516, 523 = 521, 524 = 518 - 523; the fixed cells are zero; line 511 reads "SYMBOL (plan)" |
| FrTaxReturn.NewPages | lib/taxes/taxes-rules-fr.ts:314-364 | there is at most one page per taxable event |
| FrTaxReturn.NewPagesInOrder | lib/taxes/taxes-rules-fr.ts:314-364 | the pages follow the order of the events: the pages of `a + b` are those of `a` followed by those of `b` |
| FrTaxReturn.NewPagesOne | lib/taxes/taxes-rules-fr.ts:314-364 | a single event gives exactly its own page when it is declared (it has a sale and a non-zero capital gain), and no page otherwise |
| FrTaxReturn.ReconciledEvents | lib/taxes/taxes-rules-fr.ts:358-360 | every declared event has its capital gain replaced by its page's figures; the other events are unchanged |
| FrTaxReturn.NoGainNoPages | lib/taxes/taxes-rules-fr.ts:320-323 | events without capital gain produce no page |
| FrTaxReturn.CapitalGainTaxes | lib/taxes/taxes-rules-fr.ts:294-384 | the builder only appends explanations, never removes them |
| FrTaxReturn.BuildPages | lib/taxes/taxes-rules-fr.ts:311-364 | the loop produces exactly the pages of the declared events, 3VG's increment is their line-524 total, and the events come back reconciled |
| FrTaxReturn.GetFrTaxesCapitalGain | lib/taxes/taxes-rules-fr.ts:294-384 | the builder, early returns included, computes `CapitalGainTaxes` |
| FrTaxReturn.CapitalGainAddsPages | lib/taxes/taxes-rules-fr.ts:294-384 | the builder appends the new pages to Page 510 and adds their line-524 total to 3VG; it changes no other box and adds at most one explanation |
| FrTaxReturn.CapitalGainKeepsBalance | lib/taxes/taxes-rules-fr.ts:362-381 | if 3VG equalled the line-524 total of the pages before, it still does after |
| FrTaxReturn.CapitalGainNoOp | lib/taxes/taxes-rules-fr.ts:304-309 | with no events, or no event with a capital gain, the return and the events are left as they were |
| FrRulesProperties.RuleAddsItsPages | lib/taxes/taxes-rules-fr.ts:294-384 | every rule appends exactly the pages of its own taxable events and adds their line-524 total to 3VG, keeping 3VH and the earlier explanations |
| FrRulesProperties.QualifiedSoAddsPages | lib/taxes/taxes-rules-fr.ts:469-549 | the French-qualified SO rule appends the pages of its events and adds their total to 3VG |
| FrRulesProperties.QualifiedRsuAddsPages | lib/taxes/taxes-rules-fr.ts:551-655 | the same for the French-qualified RSU rule |
| FrRulesProperties.EsppAddsPages | lib/taxes/taxes-rules-fr.ts:662-724 | the same for the ESPP rule |
| FrRulesProperties.NonFrQualifiedAddsPages | lib/taxes/taxes-rules-fr.ts:726-866 | the same for both non-French-qualified rules, with or without matching sales |
| FrRulesProperties.QualifiedSoBoxes | lib/taxes/taxes-rules-fr.ts:531-537 | the SO rule adds the six-digit floor of its summed acquisition gains to 1TT, leaves 1TZ, 1WZ and 1AJ alone, and explains 1TT first |
| FrRulesProperties.QualifiedRsuBoxes | lib/taxes/taxes-rules-fr.ts:616-643 | the RSU rule adds half of the gain up to 300 000 EUR to both 1TZ and 1WZ (nothing unless the gain is positive), adds the part above 300 000 EUR to 1TT, and leaves 1AJ alone |
| FrRulesProperties.RsuBoxesFigures | lib/taxes/taxes-rules-fr.ts:616-643 | the box updates of the RSU rule are the discount and the excess above the threshold |
| FrRulesProperties.RsuThresholdSplit | lib/taxes/taxes-rules-fr.ts:616-643 | the discount lies in [0, 150 000]; the excess is never negative and is zero up to the threshold; for a positive gain, twice the discount plus the excess is the floored gain, less two millionths at most |
| FrRulesProperties.OtherRulesKeepIncomeBoxes | lib/taxes/taxes-rules-fr.ts:662-866 | the ESPP and non-French-qualified rules change none of 1TT, 1TZ, 1WZ, 1AJ and 3VH |
| FrRulesProperties.NonFrQualifiedNoMatch | lib/taxes/taxes-rules-fr.ts:768-770 | a non-French-qualified rule with no matching sale returns the return unchanged, adding no explanation |
| FrRulesProperties.RuleKeepsBalance | lib/taxes/taxes-rules-fr.ts:237-268 | each rule keeps 3VG equal to the line-524 total of all pages, and 1TZ equal to 1WZ |
| FrRulesProperties.QualifiedCapitalGain | lib/taxes/taxes-rules-fr.ts:485-529 | for qualified SO and RSU, a same-day sale or a sale at a loss has no capital gain; otherwise the acquisition value is the opening price and the capital gain is not negative; the cost is the acquisition cost |
| FrRulesProperties.EsppValuation | lib/taxes/taxes-rules-fr.ts:662-705 | ESPP uses the adjusted cost as acquisition value exactly when the fair market value is roughly equal to it, and then has no acquisition gain; otherwise it uses the fair market value; the cost is always the adjusted cost, at the acquisition-day rate |
| FrRulesProperties.NonFrQualifiedValuation | lib/taxes/taxes-rules-fr.ts:741-766 | for non-French-qualified plans a same-day sale has no capital gain, and any other sale is valued at the opening price |
| FrTaxEngine.ApplyRulesKeepsBalance | lib/taxes/taxes-rules-fr.ts:868-909 | any sequence of rules keeps 3VG equal to the total of the pages and 1TZ equal to 1WZ |
| FrTaxEngine.ApplyFiveRules | lib/taxes/taxes-rules-fr.ts:885-908 | the reduce over the rule array applies the five rules one after the other, in their order |
| FrTaxEngine.ApplyFrTaxesBalanced | lib/taxes/taxes-rules-fr.ts:868-909 | the final return has 3VG equal to the total of its pages, and 1TZ equal to 1WZ |
| FrTaxEngine.ApplyFrTaxesPages | lib/taxes/taxes-rules-fr.ts:868-909 | the pages of the final return are those of each rule's events, rule after rule |
| FrTaxEngine.ApplyFrTaxesBoxes | lib/taxes/taxes-rules-fr.ts:868-909 | the final 1TT is the floored SO acquisition gain plus the RSU gain above 300 000 EUR; 1TZ and 1WZ are the RSU discount, at most 150 000 EUR; 1AJ and 3VH stay zero |
| FrTaxEngine.RunRule | lib/taxes/taxes-rules-fr.ts:892-906 | one reduce step runs the rule function the array holds at that place |
| FrTaxEngine.ApplyFrTaxes | lib/taxes/taxes-rules-fr.ts:868-909 | the input array ends up sorted by sale day, and the return is the five rules applied to its enrichment, starting from the empty return |
| FrFixtures.SameDaySoEvent | lib/taxes/taxes-rules-fr.test.ts:61-93 | a same-day French-qualified SO sale is valued at its sale price and has no capital gain |
| FrFixtures.QualifiedSoSameDayExample | lib/taxes/taxes-rules-fr.test.ts:61-93 | that sale puts its acquisition gain in 1TT and produces no page |
| FrFixtures.LossSoEvent | lib/taxes/taxes-rules-fr.test.ts:94-126 | a French-qualified SO sale at a loss is valued at its sale price: acquisition gain 617.88875 EUR and no capital gain |
| FrFixtures.QualifiedSoLossExample | lib/taxes/taxes-rules-fr.test.ts:94-126 | that sale gives 1TT = 617.88875 and no page |
| FrFixtures.GainsExampleEvent | lib/taxes/taxes-rules-fr.test.ts:127-178 | a French-qualified SO sale with a gain has sale price 97.345132 EUR, acquisition value 89.285714, cost 17.857142, capital gain 80.59418 and acquisition gain 714.28572 |
| FrFixtures.GainsExamplePage | lib/taxes/taxes-rules-fr.test.ts:127-178 | its page reads "DDOG (Stock Options)", 514 = 97.345132, 515 = 10, 516 = 518 = 973, 520 = 89.29, 521 = 523 = 893, 524 = 80 |
| FrFixtures.SingleSoSaleWithCapitalGain | lib/taxes/taxes-rules-fr.ts:528-546 | the SO rule on one declared sale puts its acquisition gain in 1TT, and its page is the only page and all of 3VG |
| FrFixtures.QualifiedSoGainsExample | lib/taxes/taxes-rules-fr.test.ts:127-178 | the rule on that sale gives 1TT = 714.28572, 3VG = 80 and that single page |
| FrFixtures.SameDayRsuEvent | lib/taxes/taxes-rules-fr.test.ts:181-214 | a same-day French-qualified RSU sale is valued at its sale price and has no capital gain |
| FrFixtures.QualifiedRsuSameDayExample | lib/taxes/taxes-rules-fr.test.ts:181-214 | the RSU rule on that sale gives 1TZ = 1WZ = 491.071425, 1TT = 0, 3VG = 0 and no page |

## Left out

- Texts:
  - the explanation descriptions (their `formatNumber(...)` text included) are a closed set of reasons, `FrTaxReturn.Reason`;
  - the acquisition descriptions are the closed set `TaxableEventFr.Valuation`;
  - `formatNumber` itself (`toFixed(2)`) is not modelled.
- Page 510 line 512 (`formatDateForFrTaxes`) keeps the sale day rather than its `DD/MM/YYYY` text. Line 519 (`undefined`) is not modelled.
- `enrichEtradeBenefitsFrFr` is not modelled. The five rules never read the enriched benefits.
- JsNumber: `Number` reads "Infinity", "+Infinity" and "-Infinity" (with optional white space) as infinities. The model has no infinite values and returns None for them.
- ToNumber: a text cell holding "Infinity" is accepted by the source and rejected as `InvalidNumber` here, for the reason given for JsNumber.
- Floating point: all arithmetic is exact, so IEEE rounding of products and quotients is not modelled.
- NaN paths are preconditions instead of being modelled:
  - `EnrichFr.EnrichInputs` requires a non-zero rate for both days of every sale and a price table for every symbol. Without a rate the source divides by `undefined` or zero. Without a price table `getAdjustedSymbolDate` indexes `undefined` and throws a `TypeError` (lib/taxes/taxes-rules-fr.ts:83);
  - `CalcTotals.FiniteRates` requires the rates that are present to be non-zero.
- EnrichFr.Enriched: a sale past the end of `fractions` gets the documented default of 1 (lib/taxes/taxes-rules-fr.ts:27), which the source does not implement (see "## Findings"). This is the usual path, not an edge case:
  - the report passes `fractions: []` for every file without a restricted-stock sale and still shows the taxes (app/report/_Report.tsx:37,82-88,125-127);
  - the rule tests' sales carry no `fractionFrIncome` (lib/taxes/taxes-rules-fr.test.ts:62-77 and the others), and `FrFixtures` give them the default 1;
  - the enrichment test passes no `fractions` array at all (lib/taxes/taxes-rules-fr.test.ts:39), so `fractions[eventIdx]` throws a `TypeError` there. The model always receives an array, and an empty one stands for "no fractions".
- ParseEtradeGL: the date, plan-type, symbol and qualified-plan cells are text (`Option<string>`). A numeric or boolean worksheet cell in one of those columns cannot be represented. In the source, `parseEtradeDate` would call `split` on such a value and throw.
- Sorting: `Array.prototype.sort` is stable, so sales sold on the same day keep their input order; the model's insertion sort on the sale day does the same (`EnrichFr.SortByDateSoldFixesSorted`). Only the sort algorithm itself differs.
- EnrichFr.GetAdjustedSymbolDate: steps back by day number (`date - 1`) rather than through the `YYYY-MM-DD` text. The two agree for years 100-9999 (`Dates.PreviousDayTextIsDayBefore`). For years 0-99 the source's step jumps to the 1900s (`Dates.PreviousDayEarlyYears`); after year 9999 it throws a `RangeError` (`Dates.PreviousDayAfterYear9999`); before year 0 it does not go one day back either. The model keeps stepping one day back in all these cases.
- PreviousDayTextIsDayBefore: stated for years 100-9999 only; outside them the step does not go one day back, as the two lemmas above show.
- Keys: rates and symbol prices are keyed by day number, not by the `YYYY-MM-DD` text. `Dates.GetDateStringIsYmd` shows the two agree on years 0-9999.
- ExchangeRates.LastDayWithAvailableRates: works on the day number. The `new Date(string)` parse of its argument is not modelled, and neither are bank holidays.
- Time: the clock (`Date.now()`) is the `today` parameter of `EsppCalculator.LastWeekDayText`. Local time zones are not modelled; everything is UTC.
- I/O: fetching rates and symbol prices, reading the XLSX file, React state and rendering are not modelled. `ExchangeRates.CombineExchangeRates` receives the query results as a sequence.
- `ParseEtradeGL.ParseEtradeGL` works on rows already read from the worksheet. A thrown error is an `Err` result, not a rejected promise.
- `lib/calc-totals.test.ts` passes rate records (`{ rate, isFetching, ... }`) where `calcTotals` reads plain numbers or null. The model follows `calcTotals`: a loading rate is null (`CalcTotals.LoadingExample`).
- `isWeekendDay` and `getNumDaysSinceLastFriday` of lib/date.ts, which hooks/use-fetch-exr.ts:1-5 and app/guide/shared/Calculator/Calculator.tsx:26-30 import, are not part of this model. `Weekdays` takes the ESPP calculator's copies (app/guide/resident_fr/espp/sell_year/grant_fr/report_fr/Calculator.tsx:22-29) as the definition for all three callers. The ESPP `getDateString` shares `Dates.GetDateString`.
- `Choice` for ESPP: the warning text on the fair-market-value path is the `Valuation` case `EsppFairMarketValue`.

## Findings

| source | as written | input that shows it | evidently intended | confidence | as-written member | corrected member |
|---|---|---|---|---|---|---|
| lib/taxes/taxes-rules-fr.ts:142 | `fractionFrIncome: fractions[eventIdx]` with no fallback, so a sale without a fraction gets `undefined` and its acquisition gain (lines 457-463) is NaN, which reaches 1TT | `fractions: []`, which the report passes for any file without a restricted-stock sale (app/report/_Report.tsx:37,87) | the default fractionFrIncome = 1 documented at lib/taxes/taxes-rules-fr.ts:27 | high; not executed | EnrichFr.NoFractionsAsWritten | EnrichFr.NoFractionsDefaultToOne |
