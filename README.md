# Stock simulator: contribution plan and compounding engine

A Dafny model of the projection engine of the stock simulator (`src/main.ts`).
The engine takes one stock with monthly capital and income rates and a list of
contribution periods. It has three steps:

- `InvestmentPlan` sorts the periods by start month and refuses an empty list,
  an inverted period or two overlapping periods.
- `PerformanceCalculator` turns the plan into a 360-month contribution
  schedule. It compounds the schedule against the capital rate, with income
  paid out and never reinvested. It then builds the cumulative performance
  series and caches it on first read.
- `calcInvestmentTrends` is a small helper: the running total of a constant
  monthly contribution.

Modules, one per part of the source file:

- `Plan` (plan.dfy): `MAX_MONTH`, the `Stock`, `InvestmentPeriod` and
  `InvestmentPlan` shapes, and the stable sort by start month. It also holds
  `validateMonth` and the plan constructor `NewPlan`, which returns
  `Ok(plan)` or the error the constructor throws.
- `Schedule` (schedule.dfy): the month-by-month contribution schedule. A
  month's amount is the sum of the amounts of every period covering it.
- `Returns` (returns.dfy): the compounding pass. `AssetBase` is the running
  `prevTotalAssets`, and `ReturnAt` is one month's income and capital gain.
  `Earned(invested, rate)` names the product `invested * rate` that both use.
- `Performance` (performance.dfy): the cumulative series `Record` / `Series`
  and the lemmas about it.
- `Calculator` (calculator.dfy): class `PerformanceCalculator` with its cache
  field and the three imperative methods. Each method is proved against the
  specification functions above. The loop of `estimatePerformance` is the
  separate method `Accumulate`, which `EstimatePerformance` calls right after
  seeding record 0. The loop's proof then does not carry the two estimators'
  postconditions.
- `Trends` (trends.dfy): `calcInvestmentTrends`.

Amounts and rates are `real`. Months are `int`. `MAX_MONTH` is `12 * 30`.

## Behaviour worth knowing

- The plan constructor does not drop periods whose amount is 0 or less. Only
  the spreadsheet reader filters them. `NewPlan` accepts a plan made of a
  single period with amount 0 (`Plan.TouchingAcceptedOverlapRefused`).
- The performance series has `MAX_MONTH + 1` records, numbered 1 to 361. The
  first month's contribution is counted twice from record 1 onwards: the seed
  record holds it, and the step to record 1 adds it again.
- Take one period of 1000 from month 1 to 12, with zero rates. The record for
  month 12 reads 12000. Every record from month 13 onwards reads 13000: the
  twelve contributions plus the first month counted a second time
  (`Performance.SinglePeriodAtZeroRates`).
- Periods that touch (one ends in the month the next starts) are accepted. The
  shared month receives the amounts of every period covering it
  (`Schedule.TouchingMonthOfPlan` states it for two periods that each last
  more than one month).
- The sort is stable, as `Array.prototype.sort` is. So whether two periods
  with the same start month pass the overlap check depends on their input
  order (`Plan.TieOrderDecidesOverlap`).

## Model

| member | source | states |
|---|---|---|
| `Plan.NewPlan` | src/main.ts:101-105 | The constructor fails with NoInvestPlan on an empty list. It fails with StartAfterEnd when some period starts after it ends. It fails with OverlappingPeriods exactly when the periods are non-empty and non-inverted but the stably sorted copy has a period ending after the next starts. Otherwise it succeeds with the given stock and the sorted copy. That copy is well formed, a permutation of the input, and keeps the input order of periods that share a start month. |
| `Plan.ValidateMonth` | src/main.ts:108-128 | Each of the three errors, and passing, holds exactly under its condition, checked in the source's order: empty list first, then an inverted period, then an overlap between neighbours. |
| `Plan.HasInvertedPeriod` | src/main.ts:113-119 | The `forEach` check fires exactly when some period has startMonth > endMonth. |
| `Plan.NoOverlapFrom` | src/main.ts:121-127 | The `reduce` check, started with a null accumulator, passes exactly when every period ends no later than the next one starts. Equality (touching) passes. |
| `Plan.SortByStartSpec` | src/main.ts:103 | The copy's sort yields a list sorted by startMonth that is a permutation of the input. For every start month, the periods starting in it keep their input order (the sort is stable). |
| `Plan.InsertKeepsOrder` | src/main.ts:103 | Inserting one period into a sorted list keeps it sorted. |
| `Plan.InsertAddsOne` | src/main.ts:103 | Inserting one period adds exactly that period to the list, as a multiset. |
| `Plan.InsertBound` | src/main.ts:103 | A lower bound on the start months of the inserted period and of the list still holds after the insertion. |
| `Plan.InsertTies` | src/main.ts:103 | An inserted period lands ahead of the periods with its start month that followed it in the input. |
| `Plan.ChainedSpansPlan` | src/main.ts:122-127 | In a list that passed validation, every period ends no later than any later period starts, not only the next one. |
| `Plan.TieOrderDecidesOverlap` | src/main.ts:103-127 | Take periods (5..5) and (5..9). They are accepted in that input order and refused with OverlappingPeriods in the other. |
| `Plan.TouchingAcceptedOverlapRefused` | src/main.ts:108-128 | 1..12 then 12..24 is accepted. 1..12 with 6..18 is refused as overlapping. 5..3 is refused as inverted. A zero-amount period is accepted. |
| `Schedule.MonthlyAmountAppend` | src/main.ts:160-165 | Contributions from two lists of periods to one month add up. |
| `Schedule.UncoveredMonthGetsNothing` | src/main.ts:158-165 | A month that no period covers keeps the initial 0. |
| `Schedule.SoleCoverGetsItsAmount` | src/main.ts:160-165 | A month covered by exactly one period receives exactly that period's amount. |
| `Schedule.TwoCoversGetBoth` | src/main.ts:163 | A month covered by two periods receives the sum of both amounts (`+=`, not assignment). |
| `Schedule.InteriorMonthOfPlan` | src/main.ts:157-166 | In a constructed plan, a month strictly inside a period receives that period's amount alone. |
| `Schedule.TouchingMonthOfPlan` | src/main.ts:160-165 | In a constructed plan, the month where one period ends and the next starts receives both amounts, when neither period is a single month (a single-month period at that month would add its amount too). |
| `Schedule.MonthlyAmountNonNegative` | src/main.ts:158-165 | With no negative amount, no month's contribution is negative. |
| `Schedule.BackToBackPeriods` | src/main.ts:160-165 | For 1000 over months 1..12 and 2000 over months 13..24: month 12 gets 1000, month 13 gets exactly 2000 and month 25 gets 0. |
| `Returns.BaseIsContributionsPlusCapital` | src/main.ts:173-178 | The running asset base before month i is the contributions before i plus the capital gains before i. Income never enters it. |
| `Returns.ZeroRatesEarnNothing` | src/main.ts:174-177 | At zero rates every month earns nothing, and the base is just the contributions so far. |
| `Returns.BaseGrows` | src/main.ts:173-178 | With non-negative contributions and rates, the base is non-negative and never shrinks, and every month's income and capital gain are non-negative. |
| `Performance.SeriesNumbering` | src/main.ts:206-213 | The series has MAX_MONTH + 1 records. Record k is numbered k + 1, with no gaps. |
| `Performance.RecordIsRunningTotal` | src/main.ts:197-219 | Record k's investment is the first month's contribution plus the contributions of months 0..k-1, so month 1 is counted twice. Its income and capital are the running sums of the monthly returns. |
| `Performance.RecordIdentities` | src/main.ts:197-219 | At every record, assets = investment + capital and totalReturn = income + capital. |
| `Performance.AssetsFollowTheBase` | src/main.ts:177 | A record's assets equal the compounding pass's asset base after the same months, plus the first month's contribution once more. |
| `Performance.SeriesNonDecreasing` | src/main.ts:206-219 | With non-negative contributions and returns, every cumulative field is non-decreasing from record to record. |
| `Performance.PlanSeriesNonDecreasing` | src/main.ts:157-223 | A plan with non-negative amounts and rates yields a series whose cumulative fields never decrease. |
| `Performance.ZeroRatesSeries` | src/main.ts:170-219 | At zero rates, income, capital and total return stay 0 and assets equal investment at every record. |
| `Performance.SinglePeriodAtZeroRates` | src/main.ts:157-223 | For a plan whose only period pays a from month 1 to month `last`, at zero rates, record k is numbered k + 1 and holds a * (1 + min(k, last)) in investment and assets, and 0 in income, capital and total return. |
| `Performance.SinglePeriodSeries` | src/main.ts:157-219 | The same record, stated for the schedule of that single period rather than for a constructed plan. |
| `Performance.StepScheduleAtZeroRates` | src/main.ts:197-219 | For any schedule that pays a in its first `last` months and nothing after, at zero rates, record k holds a * (1 + min(k, last)) in investment and assets and 0 elsewhere. |
| `Performance.SinglePeriodSchedule` | src/main.ts:160-165 | A single period from month 1 to `last` fills the first `last` entries of the schedule with its amount and leaves the rest at 0. |
| `Performance.StepPrefixSum` | src/main.ts:214 | The running total of a schedule that pays a for its first `last` months and nothing after is a * min(k, last). |
| `Calculator.PerformanceCalculator.constructor` | src/main.ts:143-148 | A new calculator holds the plan and an empty (null) cache. |
| `Calculator.PerformanceCalculator.MonthlyPerformances` | src/main.ts:150-155 | The first read computes a fresh array holding the plan's series and stores it in the cache. Every later read returns the identical cached array and changes nothing. The cache invariant is preserved. |
| `Calculator.PerformanceCalculator.EstimateMonthlyInvestments` | src/main.ts:157-168 | It returns a fresh array. The nested loops leave entry i equal to the sum of the amounts of every period covering month i + 1. |
| `Calculator.PerformanceCalculator.EstimateMonthlyReturns` | src/main.ts:170-180 | It returns a fresh array. The single pass threading `prevTotalAssets` yields, for every month, the income and capital of the compounding fold. |
| `Calculator.PerformanceCalculator.EstimatePerformance` | src/main.ts:182-223 | It yields a fresh array equal to the plan's series: the seed record from the first month's contribution, then each record built from the previous one. |
| `Calculator.Accumulate` | src/main.ts:206-219 | Given the seed record at index 0, the loop over month = 1..MAX_MONTH leaves the array holding the whole cumulative series of the given contributions and returns. |
| `Calculator.ReadTwice` | src/main.ts:150-155 | Two reads of `monthlyPerformances` return the same array. |
| `Trends.CalcInvestmentTrends` | src/main.ts:71-77 | The result has max(durationMonth, 0) entries. Entry i is investment * (i + 1), which is the sum of i + 1 contributions of `investment`. |
| `Trends.ConstantSum` | src/main.ts:74 | n equal contributions of x add up to x * n. |

## Left out

- `main`, `readInvestmentInfo` and `writePerdformance` read from and write to a
  Google spreadsheet and the console. That I/O is not modelled. So the `/ 12`
  scaling of yearly rates and the `investment > 0` filter, both done in the
  reader, are not part of the plan constructor.
- IEEE-754 rounding, NaN and Infinity: amounts and rates are exact `real`s. A
  comparator that returns NaN is not modelled either.
- Months outside 1..MAX_MONTH: in the source they write past the end of the
  array or to index -1. The methods of `PerformanceCalculator` require every
  period to lie in the horizon (`InHorizon`).
- Non-integer months read from the sheet: months are `int`.
- `estimatePerformance` writes index MAX_MONTH of an array built with
  MAX_MONTH entries, which grows the array by one. The model allocates the
  MAX_MONTH + 1 entries up front. The pre-filled zero record at the last index
  is overwritten by the loop in both.
- The caller's period list cannot be mutated by the constructor in the model,
  since lists are values. The source's `[...periods]` copy has no counterpart
  to prove.
- TypeScript's `private` on `_performances` and `readonly` on the plan: the
  cache is a plain field and the plan a `const` field.
- `Calculator.PerformanceCalculator.MonthlyPerformances`: on a later read, the
  contents of the returned array match the plan's series only while nobody has
  written to that array (the `Valid()` cache invariant). The source hands out
  the same mutable array, so a caller's writes show in later reads there too.
- `Stock.name` is carried but used by nothing, as in the source.
