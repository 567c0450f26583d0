# fire-planner calculation core in Dafny

fire-planner is a small early-retirement ("FIRE") planner. Its calculation
core, `src/utils/calculations.ts`, holds:

- two static estimators: how many months today's assets last at today's burn
  rate, and how many months of saving it takes to reach a target;
- a safety score built on those two estimators;
- two month-by-month projections of assets, income and expenses.
  `simulateInvestment` compounds every rate monthly.
  `calculateInvestmentScenarios` compounds returns monthly and applies raises,
  an optional income cap and inflation at each year end. The chart uses this one.
- helpers that price child rearing by age band.

The input form (`src/components/FinancialInput.tsx`) takes amounts in manwon
(10,000 won) as text. It stores them in won and shows them back in manwon.
The model reads that text as a digit string; see "## Left out".

This project models all of the above over exact reals and proves, about the
model:

- the bounds, the if-and-only-if cases and the first-hit property of the
  estimators;
- that each projection loop emits exactly the snapshots of an independent
  month-indexed reference definition;
- closed forms for the income and expenses;
- the retirement, income-cap and monotonicity properties;
- how the static survival count agrees with the zero-rate projection;
- round trips between what the form stores and what it shows.

Modules, one file each:

| file | module | covers |
|---|---|---|
| `common.dfy` | `Common` | `Option`, `Months` (a count or `Inf`), manwon/won conversion, `Floor`, `Round` (JavaScript `Math.round`), `Min`, powers and compounding |
| `types.dfy` | `Types` | the `FinancialData` form state, the `Snapshot` record, total income, the retirement test |
| `estimators.dfy` | `Estimators` | `calculateSurvivalMonths`, `calculateTargetAchievementTime`, `calculateSafetyScore` |
| `scenarios.dfy` | `Scenarios` | `calculateInvestmentScenarios` |
| `simulation.dfy` | `Simulation` | `simulateInvestment` |
| `child_cost.dfy` | `ChildCost` | `calculateChildMonthlyCost`, `calculateChildRearingCost` |
| `financial_input.dfy` | `FinancialInput` | `handleInputChange`, `formatToManwon` |
| `consistency.dfy` | `Consistency` | the survival estimate compared with the zero-rate projection |

JavaScript's `Infinity` results are the `Inf` case of `Months`. An undefined
`sideIncome`, cap or retirement offset is `None`. A JavaScript truthiness test
on a number (`x || 0`, `maxAnnualIncome && …`, `value ? … : 0`) treats `None`
and `0` alike.

## Model

| member | source | states |
|---|---|---|
| Types.RetirementIsPermanent | fire-planner/src/utils/calculations.ts:155-162 | once a month is in or after the retirement year, so is every later month |
| Types.WholeYearReachesOffset | fire-planner/src/utils/calculations.ts:155-160 | the whole year `Math.floor(i / 12)` reaches a possibly fractional retirement offset `o` exactly when it reaches `ceil(o)`, so integer offsets cover every case |
| Estimators.SurvivalMonths | fire-planner/src/utils/calculations.ts:3-9 | `Inf` exactly when salary plus side income covers the expenses; otherwise the count is the last month whose static balance (assets minus that many months of burn) is still non-negative, and one month more makes it negative |
| Estimators.AccumulatedShift | fire-planner/src/utils/calculations.ts:29-33 | one loop iteration (add this month's savings, grow the savings) leaves the same remaining path as accumulating one more month from the original state |
| Estimators.CountMonths | fire-planner/src/utils/calculations.ts:29-35 | the loop stops at a count between its start and 1200; below 1200 the accumulated assets have reached the target, and at every earlier count they were still below it |
| Estimators.TargetAchievementTime | fire-planner/src/utils/calculations.ts:11-36 | `Inf` exactly when the monthly savings are not positive; otherwise a count in [0, 1200] that is 0 when the target is already met, is the first month the accumulated assets reach the target when below 1200, and has every earlier month below the target |
| Estimators.SafetyScore | fire-planner/src/utils/calculations.ts:38-54 | the score lies in [0, 100]; it is 100 exactly when survival is infinite and 0 when survival is at most 0 months; otherwise it is half the survival score, rounded, and at most 50, because the target term is always 0 there |
| Estimators.ScoreNeverDividesByZero | fire-planner/src/utils/calculations.ts:39-51 | whenever survival is finite the target time is `Inf`, so the unguarded `1200 / targetTime` contributes 0 and never divides by 0 |
| Estimators.PositiveSurvivalNeedsAssets | fire-planner/src/utils/calculations.ts:8 | a survival count above 0 is only possible with positive current assets |
| Scenarios.RaiseIncome | fire-planner/src/utils/calculations.ts:181-192 | with a cap set, the year-end raise yields the smaller of the monthly cap and the grown income; the comparison is made on annual amounts with the cap converted from manwon to won; with no cap (or a zero cap) the income simply grows |
| Scenarios.InvestmentScenarios | fire-planner/src/utils/calculations.ts:135-206 | the loop emits `years * 12` snapshots with no leading initial-state entry; snapshot `i` has month `i` and equals the month-indexed reference `SnapshotAt(c, i)` |
| Scenarios.AdvanceMonth | fire-planner/src/utils/calculations.ts:155-202 | one loop iteration moves the tracked assets, income and expenses from the state at the start of month `i` to that at the start of month `i + 1`, and emits snapshot `i` |
| Scenarios.MonthStep | fire-planner/src/utils/calculations.ts:159-202 | the effect of the iteration body (retirement zeroing, assets update, year-end raise and inflation) agrees with the reference definitions of month `i` and month `i + 1` |
| Scenarios.NextYearState | fire-planner/src/utils/calculations.ts:181-195 | after month `i` the tracked income and expenses are those of the year that month `i + 1` falls in |
| Scenarios.AssetsRecurrence | fire-planner/src/utils/calculations.ts:177-178 | each snapshot's assets are the previous snapshot's assets with one month of return, plus the income it reports, minus the expenses the previous snapshot reported; the first snapshot starts from the initial assets and expenses; no floor is applied |
| Scenarios.RetirementZeroesIncome | fire-planner/src/utils/calculations.ts:159-162 | the reported income is 0 in retired months and the tracked income otherwise; a retirement offset of 0 zeroes it in every month from month 0 |
| Scenarios.RetiredIncomeStaysZero | fire-planner/src/utils/calculations.ts:159-162 | once a month's income has been zeroed for retirement, every later month's income is zero too |
| Scenarios.IncomeRespectsCap | fire-planner/src/utils/calculations.ts:186-188 | with a cap set, the tracked income never exceeds the monthly cap from the first year end on, so no income reported before retirement from month 12 on exceeds it |
| Scenarios.ExpensesClosedForm | fire-planner/src/utils/calculations.ts:194 | the tracked expenses after `y` year ends are the base expenses compounded `y` times by `1 + inflationRate/100` |
| Scenarios.ReportedExpenses | fire-planner/src/utils/calculations.ts:194-201 | snapshot `i` reports expenses inflated once per year end up to and including month `i`, so they change only in the last month of a year |
| Scenarios.ExpensesChangeOnlyAtYearEnd | fire-planner/src/utils/calculations.ts:181-201 | consecutive snapshots report the same expenses, except that the snapshot of the last month of a year reports the previous expenses inflated once |
| Scenarios.ExpensesNonDecreasing | fire-planner/src/utils/calculations.ts:194-201 | with non-negative inflation and base expenses, the reported expenses never fall from one snapshot to a later one |
| Scenarios.FlatAccumulation | fire-planner/src/utils/calculations.ts:177-178 | with zero return, growth and inflation, no retirement and a cap that does not bind, snapshot `i` holds the initial assets plus `i + 1` equal monthly net savings |
| Scenarios.OneYearOfSavings | fire-planner/src/utils/calculations.ts:154-202 | assets 0, income 3,000,000 and expenses 2,000,000 with no growth, inflation or return give assets of 12,000,000 in the month-11 snapshot |
| Simulation.SimulateInvestment | fire-planner/src/utils/calculations.ts:56-106 | the loop emits 1201 snapshots: index 0 is the initial state, and entry `k` has month `k` and equals the month-indexed reference `SimSnapshotAt(s, k)` |
| Simulation.IncomeClosedForm | fire-planner/src/utils/calculations.ts:90-92 | the tracked income has been multiplied by `1 + monthlyIncomeGrowthRate` exactly once per month worked, and never in a retired month |
| Simulation.WorkedUntilRetirement | fire-planner/src/utils/calculations.ts:81-82 | every month up to one that is not yet retired has been worked |
| Simulation.RetiredIncome | fire-planner/src/utils/calculations.ts:82-98 | in a retired month the tracked income does not grow and the snapshot reports an income of 0 |
| Simulation.WorkingIncome | fire-planner/src/utils/calculations.ts:90-98 | before retirement, snapshot `k + 1` reports the total income grown `k + 1` times |
| Simulation.ExpensesClosedForm | fire-planner/src/utils/calculations.ts:93-99 | the expenses in snapshot `k` are the base expenses inflated once per month, `k` times |
| Simulation.ExpensesGrowEveryMonth | fire-planner/src/utils/calculations.ts:93-99 | with non-negative monthly inflation and base expenses, each month's expenses are at least the previous month's |
| ChildCost.ChildMonthlyCost | fire-planner/src/utils/calculations.ts:115-123 | the cost is 0 exactly before birth and from age 23 on; every paid age costs between 500,000 and 1,250,000 won, and only the five band amounts occur |
| ChildCost.ChildRearingCost | fire-planner/src/utils/calculations.ts:126-133 | the cost is 0 exactly when the current year precedes the birth year or lies more than 22 years after it |
| ChildCost.RearingCostDependsOnAgeOnly | fire-planner/src/utils/calculations.ts:126-133 | shifting the current and birth years together, or changing the parent's age, leaves the cost unchanged |
| ChildCost.CostFromAgeBounds | fire-planner/src/utils/calculations.ts:115-123 | summed over twelve months of each age from a starting age to 22, the cost lies between the cheapest band (500,000) and the dearest band (1,250,000) times the number of months |
| ChildCost.LifetimeCost | fire-planner/src/utils/calculations.ts:115-123 | a worked example of the band table: twelve months at every age from 0 to 22 add up to 247,200,000 won |
| FinancialInput.Set | fire-planner/src/components/FinancialInput.tsx:13-23 | the spread update gives the named field the new value and leaves every other field as it was |
| FinancialInput.SetOwnValue | fire-planner/src/components/FinancialInput.tsx:23 | writing a field's own value back leaves the form state unchanged |
| FinancialInput.StripLeadingZeros | fire-planner/src/components/FinancialInput.tsx:18 | the result is a suffix of the input, everything removed was a `'0'`, and the result does not begin with `'0'` |
| FinancialInput.ParseNumber | fire-planner/src/components/FinancialInput.tsx:19-22 | a string yields a number exactly when it is a digit string; otherwise it is NaN and yields nothing |
| FinancialInput.StripKeepsDigits | fire-planner/src/components/FinancialInput.tsx:18-19 | stripping leading zeros keeps a digit string a digit string and a non-digit string a non-digit string, and keeps the value of a digit string |
| FinancialInput.HandleInputChange | fire-planner/src/components/FinancialInput.tsx:10-25 | an empty string stores 0; a string is rejected (no update) exactly when it is not a digit string; a digit string denoting `n` stores `n * 10000` in the named field |
| FinancialInput.AllZerosStoreZero | fire-planner/src/components/FinancialInput.tsx:18-23 | a non-empty string of zeros such as "000" strips to the empty string and stores 0 in the named field, like the empty string does |
| FinancialInput.FormatToManwon | fire-planner/src/components/FinancialInput.tsx:27-29 | an undefined or zero value shows 0; any other value shows its amount in manwon rounded to the nearest integer |
| FinancialInput.EntryRoundTrip | fire-planner/src/components/FinancialInput.tsx:10-29 | typing a digit string into a field and then displaying that field shows the number the string denotes |
| FinancialInput.ShowWholeManwon | fire-planner/src/components/FinancialInput.tsx:27-29 | a whole number `n` of manwon, stored in won, is shown as `n` |
| FinancialInput.DecimalStringValue | fire-planner/src/components/FinancialInput.tsx:19-41 | the decimal rendering of a natural number, which is how each input shows `formatToManwon(...)` (lines 41, 52, 63 and 74), is a digit string that `Number` reads back as that number |
| FinancialInput.RedisplayIsStable | fire-planner/src/components/FinancialInput.tsx:10-29 | a field holding a whole number of manwon, shown and then typed back exactly as shown, leaves the form state unchanged |
| Consistency.DepletionMonthMatchesSurvival | fire-planner/src/utils/calculations.ts:3-9 | when survival is finite, the zero-rate projection of today's profile, started from salary plus side income, has negative assets exactly from snapshot `SurvivalMonths` on |
| Consistency.NoDepletionWhenSurvivalInfinite | fire-planner/src/utils/calculations.ts:5-7 | when survival is infinite, the zero-rate projection started from salary plus side income never drops below the starting assets |

## Left out

- The monthly rates that `Math.pow(1 + r/100, 1/12) - 1` computes (calculations.ts lines 23 and 63-65) are parameters of the model. A twelfth root has no exact real counterpart in Dafny's arithmetic.
- Estimators.TargetAchievementTime: takes the monthly income-growth rate as an argument for the same reason; it is not derived from `incomeGrowthRate`.
- JavaScript numbers are IEEE-754 doubles; the model computes over exact reals. Rounding error, overflow to `Infinity` and `NaN` inputs (for example a `NaN` side income, which `|| 0` would also replace by 0) are not modelled.
- Estimators.SafetyScore: computes `1200 / 0` as JavaScript does (`Infinity`, so the target term is 100). That case is never reached, because a finite survival count means the target time is `Inf`.
- `new Date()` in `calculateInvestmentScenarios` (lines 151-152) feeds only the commented-out child-cost code, so the clock is not modelled.
- The `childRearingCost` argument of `calculateInvestmentScenarios` is accepted but unused (its use at lines 164-174 is commented out), so `ScenarioInput` has no such field. The cost helpers are modelled on their own in `ChildCost`.
- `years` in `calculateInvestmentScenarios` is a whole number of years. A fractional `years` would run `ceil(years * 12)` iterations; that case is not modelled.
- FinancialInput.ParseNumber: `Number(s)` is modelled on digit strings only. The text inputs accept any string; for a numeric string that is not all digits, such as "1.5", " 12" or "1e3", the code stores `Number(s) * 10000` while the model makes no update. Signs, decimal points, exponents and surrounding whitespace fall in this case. So do hexadecimal, octal and binary forms that start with whitespace, such as " 0x1F". A bare "0x1F" loses its leading `0` to the strip, and `Number("x1F")` is NaN, so neither the code nor the model updates anything. Strings with no digits at all can also be numbers: a blank string such as " " (and so "0 ", which strips to " ") gives 0 and the code stores 0, and "Infinity" makes the code store `Infinity`; the model makes no update for any of them.
- FinancialInput.HandleInputChange: the `onDataChange` callback and React state are replaced by the returned new form state, with `None` for "no call".
- The React components and JSX, `InvestmentChart.tsx`, `App.tsx` and `Home.tsx` are not part of this model. That includes how `Home.tsx` derives the horizon and retirement offset from ages. `types.ts` is mirrored only as the `FinancialData` and `Snapshot` records.
- `console.log` calls and other logging have no counterpart.
- The retirement offset (`retirementOffsetYear`, `retirementYear`) is an `Option<int>`. The source takes any number, and `Home.tsx` can pass a fractional one. Because the year it is compared with is always whole, a fractional offset `o` behaves exactly like `ceil(o)`, so an integer offset covers every case (`Types.WholeYearReachesOffset`).
- ChildCost.ChildRearingCost: takes whole years and ages (`int`) where the source takes numbers. Its only caller, now commented out, passes `getFullYear()` plus `Math.floor(i / 12)` and a birth year, so whole numbers are all the program produces.
- Scenarios.IncomeRespectsCap: holds only from month 12 on. The code applies the cap only at a year end, so an initial income above the cap is reported unchanged for the whole first year. Retired months are not covered either: they report 0, which exceeds a negative cap (the code treats any non-zero cap, negative ones included, as set).
- Estimators.SurvivalMonths: with negative current assets the code returns a negative count (`Math.floor` of a negative quotient), and the model keeps this.
