# Gold purity calculator — Dafny model

This project models the gold calculator of a jewelry shop's back-office
dashboard: the reference table of gold karats (after the Indonesian national
standard SNI 13-3487-2005), the purity conversion `calculateGoldPurity`, the
closest-karat classification `calculateWeightByMix`, and the calculator
page's two click handlers, which parse the form, check the mix percentages
and store what they compute.

Modules, one per component:

- `Common` (`common.dfy`): `Option`, `Result` (for the thrown `Error`) and `Abs`.
- `StandardTable` (`standard_table.dfy`): the `GOLD_STANDARDS` table as the function
  `GoldStandards()`, its shape (14 rows, distinct karats, strictly decreasing
  karats and percentages, the acceptance ranges), and `Find`, the
  `Array.prototype.find` lookup by karat.
- `Purity` (`purity.dfy`): `CalculateGoldPurity`, its arithmetic `Convert`, and the
  lemmas on gold conservation, the 50/50 split, the round trip and the sign of
  the alloy masses.
- `ClosestKarat` (`closest_karat.dfy`): the specification of the closest karat
  (`IsClosest`, earliest row at minimal distance), the reference function
  `ClosestIndex`/`NearestKarat`, and the imperative scan `CalculateWeightByMix`
  proved equal to it.
- `CalculatorPage` (`calculator_page.dfy`): the page's React state as a class
  `Calculator` whose fields are the form and the two results, with the
  handlers `HandlePurityCalculate` and `HandleMixCalculate`.

All numbers are Dafny `real`: the table's decimals are exact and every
identity below is about the intended formulas over exact arithmetic, not
about IEEE rounding.

The code rejects no weight: zero and negative weights are converted (see
`Purity.NegativeWeightAccepted`). It measures the alloy as
`totalWeight - weight`, so unless the weight is 0, gold, copper and silver
do not add up to the total (`Purity.PartsMissTotalByNonGoldInput`).

## Model

| member | source | states |
|---|---|---|
| `StandardTable.GoldStandards` | src/lib/utils.ts:4-19 | the table has 14 rows whose karats are, in order, 24, 23, 22, 21, 20, 19, 18, 17, 16, 15, 14, 10, 9, 8; every percentage is in (0, 100]; the first is 99.99 and the last 33.3 |
| `StandardTable.StandardsDescending` | src/lib/utils.ts:4-19 | karats and percentages strictly decrease in listed order |
| `StandardTable.DescendingBetween` | src/lib/utils.ts:4-19 | stepwise descent gives descent between any two positions |
| `StandardTable.KaratsDistinct` | src/lib/utils.ts:4-19 | karat values are pairwise distinct |
| `StandardTable.KaratOrderIsPercentageOrder` | src/lib/utils.ts:4-19 | for any two rows, comparing karats and comparing percentages agree |
| `StandardTable.StandardRanges` | src/lib/utils.ts:5-18 | 24K to 18K have `0 < sniMin <= sniMax` and each range ends below the start of the next-higher karat's range; 17K and below have `sniMin = sniMax = 0` |
| `StandardTable.NominalAgainstRange` | src/lib/utils.ts:5-11 | 24K to 19K contain their nominal percentage in their range; 18K's nominal 75.0 lies below its `sniMin` of 75.40 |
| `StandardTable.Find` | src/lib/utils.ts:33-34 | the lookup returns nothing exactly when no row has the karat, and otherwise the first row with that karat |
| `StandardTable.FindResolvesExactlyTheKarats` | src/lib/utils.ts:33-34 | a karat resolves in the table iff it is one of the 14 karat values |
| `StandardTable.PercentageOf` | src/lib/utils.ts:33-34 | the percentage of a listed karat is in (0, 100] and is the percentage of that karat's row |
| `StandardTable.PercentageOfRow` | src/lib/utils.ts:4-19 | looking up a row's karat gives back that row's own percentage |
| `Purity.Convert` | src/lib/utils.ts:40-48 | pure gold is weight times the current percentage over 100; the total times the desired percentage over 100 equals the pure gold (gold conserved); copper equals silver and together they are total minus input weight |
| `Purity.CalculateGoldPurity` | src/lib/utils.ts:28-50 | fails with "Invalid karat value" exactly when the current or desired karat is not in the table; otherwise returns the conversion for the two karats' percentages, whatever the weight |
| `Purity.TotalIsScaledWeight` | src/lib/utils.ts:40-41 | the total is the weight scaled by current over desired percentage |
| `Purity.ConvertRoundTrip` | src/lib/utils.ts:40-41 | converting the total back to the first percentage recovers the weight |
| `Purity.RoundTrip` | src/lib/utils.ts:40-41 | converting the total of an A-to-B conversion from B back to A gives a total equal to the original weight |
| `Purity.ConvertSamePercentage` | src/lib/utils.ts:40-47 | equal percentages keep the weight and add no copper or silver |
| `Purity.SameKaratIsIdentity` | src/lib/utils.ts:40-47 | converting a karat to itself gives total = weight and zero copper and silver |
| `Purity.TotalAgainstPercentage` | src/lib/utils.ts:40-42 | for weight >= 0 a lower desired percentage does not shrink the total and a higher one does not grow it |
| `Purity.PercentageFollowsKarat` | src/lib/utils.ts:4-19 | a lower karat never has a higher percentage |
| `Purity.DilutionAddsAlloy` | src/lib/utils.ts:40-47 | for weight >= 0 and a desired karat not above the current one, the total is at least the weight and both alloy masses are non-negative |
| `Purity.EnrichmentRemovesAlloy` | src/lib/utils.ts:40-47 | for weight >= 0 and a desired karat not below the current one, the total is at most the weight and both alloy masses are at most 0 |
| `Purity.PartsMissTotalByNonGoldInput` | src/lib/utils.ts:42-48 | gold + copper + silver equals the total minus the input's non-gold mass, and whenever the weight is not 0 the parts differ from the total |
| `Purity.PercentageBelowPure` | src/lib/utils.ts:4-19 | every karat of the table has a percentage below 100 |
| `Purity.ConvertPartsMissTotal` | src/lib/utils.ts:40-48 | from a percentage below 100, a non-zero weight gives parts that do not add up to the total |
| `Purity.Example24KTo18K` | src/lib/utils.ts:28-50 | 10 g from 24K to 18K gives 9.999 g gold, 1.666 g copper, 1.666 g silver, 13.332 g total |
| `Purity.Example18KTo24K` | src/lib/utils.ts:28-50 | 10 g from 18K to 24K gives 7.5 g gold, total 750/99.99 g and negative copper |
| `Purity.UnknownKaratFails` | src/lib/utils.ts:33-38 | 13K is not listed, so the conversion fails with "Invalid karat value" |
| `Purity.NegativeWeightAccepted` | src/lib/utils.ts:28-50 | a weight of -5 g is converted (gold -3.75 g), not rejected |
| `ClosestKarat.Distance` | src/lib/utils.ts:64 | `Math.abs(standard.percentage - goldPercentage)`: never negative, and 0 exactly when the row's percentage is the gold percentage; the handler's inline scan computes the same expression at src/app/dashboard/calculator/page.tsx:68 |
| `ClosestKarat.ClosestIsUnique` | src/lib/utils.ts:63-69 | at most one row is the earliest row at minimal distance |
| `ClosestKarat.ClosestIndex` | src/lib/utils.ts:60-69 | among the first n rows, the index found is at minimal distance from the gold percentage and every earlier row is strictly farther |
| `ClosestKarat.NearestKarat` | src/lib/utils.ts:52-72 | the classification is a table karat and it is the karat of the earliest closest row |
| `ClosestKarat.NearestKaratIsTheOnly` | src/lib/utils.ts:52-72 | a karat is the earliest closest one iff it is the classification |
| `ClosestKarat.NearestKaratAt` | src/lib/utils.ts:52-72 | any earliest closest row gives the classification |
| `ClosestKarat.CalculateWeightByMix` | src/lib/utils.ts:52-72 | the loop returns the karat of the earliest row minimising the absolute difference of percentages (by `NearestKaratIsTheOnly`, exactly `NearestKarat` of the gold percentage); the copper, silver, platinum and palladium arguments play no part |
| `ClosestKarat.ExactMatchIs18K` | src/lib/utils.ts:52-72 | 75.0 classifies as 18K |
| `ClosestKarat.NinetyNineIs24K` | src/lib/utils.ts:52-72 | 99.0 classifies as 24K |
| `ClosestKarat.ZeroIs8K` | src/lib/utils.ts:52-72 | 0 classifies as 8K |
| `ClosestKarat.TieGoesToEarlierRow` | src/lib/utils.ts:63-69 | 97.895 is equally far from 24K and 23K and classifies as 24K, the earlier row |
| `CalculatorPage.MixInputs.With` | src/app/dashboard/calculator/page.tsx:195-258 | editing one metal's field sets that field and leaves the other four as they were |
| `CalculatorPage.OrZero` | src/app/dashboard/calculator/page.tsx:50-56 | `parseFloat(field) \|\| 0`: a field that does not parse reads as 0, a parsed one as its value |
| `CalculatorPage.MixTotal` | src/app/dashboard/calculator/page.tsx:50-56 | `totalPercentage`: a form with no parsed field totals 0, and with no negative field the total is at least every field |
| `CalculatorPage.MixAccepted` | src/app/dashboard/calculator/page.tsx:58-61 | a total passes iff it lies in the closed interval [99.9, 100.1] |
| `CalculatorPage.UnparsedFieldCountsAsZero` | src/app/dashboard/calculator/page.tsx:50-56 | an unparseable or empty field adds the same as a field holding 0; the total is the sum of the five parsed fields |
| `CalculatorPage.NinetyNinePercentRejected` | src/app/dashboard/calculator/page.tsx:58-61 | gold 60, silver 20, copper 19 (total 99) is rejected |
| `CalculatorPage.ScanForClosestKarat` | src/app/dashboard/calculator/page.tsx:63-73 | the inline scan returns a row whose karat is that of the earliest closest row, the same specification `CalculateWeightByMix` meets, so both return the same karat |
| `CalculatorPage.Calculator.constructor` | src/app/dashboard/calculator/page.tsx:18-33 | the page starts with current karat 18, desired karat 24, empty mix fields and no results |
| `CalculatorPage.Calculator.SetWeight` | src/app/dashboard/calculator/page.tsx:135 | typing a weight changes only the weight |
| `CalculatorPage.Calculator.SetDesiredKarat` | src/app/dashboard/calculator/page.tsx:147 | choosing a karat changes only the desired karat; no control changes the current karat |
| `CalculatorPage.Calculator.SetMixInput` | src/app/dashboard/calculator/page.tsx:199-255 | typing into a mix field changes only that field |
| `CalculatorPage.Calculator.HandlePurityCalculate` | src/app/dashboard/calculator/page.tsx:35-46 | converts from 18K; on success stores the record, on an unknown desired karat alerts and leaves the last result, and it alerts exactly when the desired karat is not in the table |
| `CalculatorPage.Calculator.HandleMixCalculate` | src/app/dashboard/calculator/page.tsx:48-79 | alerts and leaves the last result exactly when the parsed total is more than 0.1 from 100; otherwise stores the nearest karat of the parsed gold percentage |

## Left out

- Floating point: every number is an exact `real`, so IEEE rounding and the NaN that `parseFloat` gives for an empty or unparseable weight are not modelled; the weight field holds a real and starts at 0.0, where the page starts with empty text.
- Text parsing: the mix fields are held as what `parseFloat` makes of them (`None` for NaN), and the two karat fields as the integers `parseInt` makes of them; the parsing of strings itself is not modelled.
- The `catch` of `handleMixCalculate`: nothing in its body throws in the model, so that alert path never occurs.
- Alerts are returned by the handlers as an optional message instead of being shown.
- `CalculatorPage.ScanForClosestKarat`: the handler's inline loop is modelled as a method of the page module that the handler calls where the loop stands, so the loop's proof is kept apart from the handler's state.
- The tab switch between the two calculators and all rendering of the page.
- `formatCurrency` (depends on `Intl.NumberFormat`), `formatWeight` (float `toFixed`) and `generateSerialNumber` (clock and randomness).
- The inventory, purchase, order and sales pages, the dashboard's monthly charts, the layout and the gold-price scraping route: hosted-database calls, UI, the current time and network scraping, none of which is part of the calculator.
