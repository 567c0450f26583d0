/** calculateInvestmentScenarios: the month-by-month projection behind the
    chart. Returns compound every month; raises, the income cap and
    inflation apply only in the last month of each year. */
module Scenarios {
  import opened Common
  import opened Types

  /** The arguments of one projection. `monthlyReturnRate` is already a
      monthly fraction; the other two rates are annual percentages.
      `maxAnnualIncome` is in manwon per year. The child-rearing argument,
      which the source no longer uses, is not part of this record. */
  datatype ScenarioInput = ScenarioInput(
    initialAssets: real,
    monthlyIncome: real,
    monthlyExpenses: real,
    monthlyReturnRate: real,
    inflationRate: real,
    incomeGrowthRate: real,
    years: int,
    retirementOffsetYear: Option<int>,
    maxAnnualIncome: Option<real>)

  /** Number of iterations of `for (i = 0; i < years * 12; i++)`. */
  function HorizonMonths(c: ScenarioInput): nat
  {
    if c.years <= 0 then 0 else c.years * 12
  }

  /** The cap applies only when `maxAnnualIncome` is truthy (set and non-zero). */
  predicate CapActive(c: ScenarioInput)
  {
    c.maxAnnualIncome.Some? && c.maxAnnualIncome.value != 0.0
  }

  /** The capped monthly income, in won. */
  function MonthlyCap(c: ScenarioInput): real
    requires CapActive(c)
  {
    ToWon(c.maxAnnualIncome.value) / 12.0
  }

  function GrowthFactor(c: ScenarioInput): real
  {
    1.0 + c.incomeGrowthRate / 100.0
  }

  function InflationFactor(c: ScenarioInput): real
  {
    1.0 + c.inflationRate / 100.0
  }

  /** The year-end inflation step applied to the monthly expenses. */
  function Inflate(c: ScenarioInput, expenses: real): real
  {
    expenses * InflationFactor(c)
  }

  /** The year-end raise: the grown income, limited to the cap when one is set. */
  function RaiseIncome(c: ScenarioInput, income: real): (r: real)
    ensures CapActive(c) ==> r == Min(MonthlyCap(c), income * GrowthFactor(c))
    ensures !CapActive(c) ==> r == income * GrowthFactor(c)
  {
    if CapActive(c) && income * 12.0 * GrowthFactor(c) > ToWon(c.maxAnnualIncome.value) then MonthlyCap(c)
    else income * GrowthFactor(c)
  }

  /** Tracked monthly income during year `y` (after `y` raises). */
  function IncomeInYear(c: ScenarioInput, y: nat): real
  {
    if y == 0 then c.monthlyIncome else RaiseIncome(c, IncomeInYear(c, y - 1))
  }

  /** Tracked monthly expenses during year `y` (after `y` inflation steps). */
  function ExpensesInYear(c: ScenarioInput, y: nat): real
  {
    if y == 0 then c.monthlyExpenses else Inflate(c, ExpensesInYear(c, y - 1))
  }

  /** The income counted in month `i`: zero once retired, else the tracked income. */
  function MonthIncome(c: ScenarioInput, i: nat): real
  {
    if RetiredAt(c.retirementOffsetYear, i) then 0.0 else IncomeInYear(c, i / 12)
  }

  /** One month of return on `assets`. */
  function WithReturn(c: ScenarioInput, assets: real): real
  {
    assets * (1.0 + c.monthlyReturnRate)
  }

  /** Assets at the start of month `i`: the initial assets, then each
      month's closing assets. */
  function OpeningAssets(c: ScenarioInput, i: nat): real
    decreases i, 0
  {
    if i == 0 then c.initialAssets else AssetsAfterMonth(c, i - 1)
  }

  /** Assets at the end of month `i`: the opening assets with one month of
      return, plus the month's income, minus the month's expenses as they
      stood before any year-end inflation. */
  function AssetsAfterMonth(c: ScenarioInput, i: nat): real
    decreases i, 1
  {
    WithReturn(c, OpeningAssets(c, i)) + (MonthIncome(c, i) - ExpensesInYear(c, i / 12))
  }

  /** The snapshot the projection emits for month `i`. */
  function SnapshotAt(c: ScenarioInput, i: nat): Snapshot
  {
    Snapshot(i, AssetsAfterMonth(c, i), MonthIncome(c, i), ExpensesInYear(c, (i + 1) / 12))
  }

  /** The loop state at the start of month `i`. */
  datatype Tracked = Tracked(assets: real, income: real, expenses: real)

  function StartOfMonth(c: ScenarioInput, i: nat): Tracked
  {
    Tracked(OpeningAssets(c, i), IncomeInYear(c, i / 12), ExpensesInYear(c, i / 12))
  }

  /** The projection, one snapshot per simulated month with no leading
      initial-state entry. Each snapshot reports the expenses after that
      month's possible year-end inflation. */
  method InvestmentScenarios(c: ScenarioInput) returns (r: seq<Snapshot>)
    ensures |r| == HorizonMonths(c)
    ensures forall i :: 0 <= i < |r| ==> r[i].month == i
    ensures forall i :: 0 <= i < |r| ==> r[i] == SnapshotAt(c, i)
  {
    var assets := c.initialAssets;
    var income := c.monthlyIncome;
    var expenses := c.monthlyExpenses;
    var n := HorizonMonths(c);
    r := [];
    var i := 0;
    while i < n
      invariant 0 <= i <= n
      invariant |r| == i
      invariant Tracked(assets, income, expenses) == StartOfMonth(c, i)
      invariant forall k :: 0 <= k < i ==> r[k] == SnapshotAt(c, k)
    {
      var counted, next := AdvanceMonth(c, i, Tracked(assets, income, expenses));
      assets, income, expenses := next.assets, next.income, next.expenses;
      r := r + [Snapshot(i, assets, counted, expenses)];
      i := i + 1;
    }
  }

  /** The body of the month loop: the income counted this month (0 once
      retired), then the assets update, then the year-end raise and
      inflation after the twelfth month of a year. */
  method AdvanceMonth(c: ScenarioInput, i: nat, start: Tracked) returns (counted: real, next: Tracked)
    requires start == StartOfMonth(c, i)
    ensures next == StartOfMonth(c, i + 1)
    ensures Snapshot(i, next.assets, counted, next.expenses) == SnapshotAt(c, i)
  {
    var year := i / 12;
    var month := i % 12;
    counted := start.income;
    if c.retirementOffsetYear.Some? && year >= c.retirementOffsetYear.value {
      counted := 0.0;
    }
    var assets := WithReturn(c, start.assets) + (counted - start.expenses);
    var income := start.income;
    var expenses := start.expenses;
    if month == 11 {
      income := RaiseIncome(c, income);
      expenses := Inflate(c, expenses);
    }
    next := Tracked(assets, income, expenses);
    MonthStep(c, i, start, counted, next);
  }

  /** One iteration of the loop takes the state at the start of month `i`
      to the state at the start of month `i + 1` and emits snapshot `i`. */
  lemma MonthStep(c: ScenarioInput, i: nat, start: Tracked, counted: real, next: Tracked)
    requires start == StartOfMonth(c, i)
    requires counted == if RetiredAt(c.retirementOffsetYear, i) then 0.0 else start.income
    requires next.assets == WithReturn(c, start.assets) + (counted - start.expenses)
    requires next.income == if i % 12 == 11 then RaiseIncome(c, start.income) else start.income
    requires next.expenses == if i % 12 == 11 then Inflate(c, start.expenses) else start.expenses
    ensures next == StartOfMonth(c, i + 1)
    ensures Snapshot(i, next.assets, counted, next.expenses) == SnapshotAt(c, i)
  {
    NextYearState(c, i, start, next.income, next.expenses);
    assert counted == MonthIncome(c, i);
    MonthAssets(c, i, start, counted, next.assets);
    assert OpeningAssets(c, i + 1) == AssetsAfterMonth(c, i);
  }

  /** After month `i` the tracked income and expenses are those of the year month `i + 1` falls in. */
  lemma NextYearState(c: ScenarioInput, i: nat, start: Tracked, income: real, expenses: real)
    requires start == StartOfMonth(c, i)
    requires income == if i % 12 == 11 then RaiseIncome(c, start.income) else start.income
    requires expenses == if i % 12 == 11 then Inflate(c, start.expenses) else start.expenses
    ensures income == IncomeInYear(c, (i + 1) / 12)
    ensures expenses == ExpensesInYear(c, (i + 1) / 12)
  {
    if i % 12 == 11 {
      YearEnd(c, i);
    } else {
      MidYear(i);
    }
  }

  /** The loop's assets update is one step of `AssetsAfterMonth`. */
  lemma MonthAssets(c: ScenarioInput, i: nat, start: Tracked, counted: real, assets: real)
    requires start == StartOfMonth(c, i)
    requires counted == MonthIncome(c, i)
    requires assets == WithReturn(c, start.assets) + (counted - start.expenses)
    ensures assets == AssetsAfterMonth(c, i)
  {
    assert start.assets == OpeningAssets(c, i);
    assert start.expenses == ExpensesInYear(c, i / 12);
  }

  /** The last month of a year moves the tracked income and expenses on to the next year's. */
  lemma YearEnd(c: ScenarioInput, i: nat)
    requires i % 12 == 11
    ensures (i + 1) / 12 == i / 12 + 1
    ensures IncomeInYear(c, (i + 1) / 12) == RaiseIncome(c, IncomeInYear(c, i / 12))
    ensures ExpensesInYear(c, (i + 1) / 12) == Inflate(c, ExpensesInYear(c, i / 12))
  {
  }

  /** Any other month stays in the same year. */
  lemma MidYear(i: nat)
    requires i % 12 != 11
    ensures (i + 1) / 12 == i / 12
  {
  }

  /** Each snapshot's assets are the previous snapshot's assets with one
      month of return, plus the income it reports, minus the expenses the
      previous snapshot reported; the first starts from the initial assets
      and expenses, so there is no separate initial-state entry. No floor is
      applied. */
  lemma AssetsRecurrence(c: ScenarioInput, i: nat)
    ensures i == 0 ==>
      SnapshotAt(c, 0).assets == WithReturn(c, c.initialAssets) + SnapshotAt(c, 0).monthlyIncome - c.monthlyExpenses
    ensures i > 0 ==>
      SnapshotAt(c, i).assets == WithReturn(c, SnapshotAt(c, i - 1).assets)
                                 + SnapshotAt(c, i).monthlyIncome - SnapshotAt(c, i - 1).monthlyExpenses
  {
    if i == 0 {
      FirstMonthAssets(c);
    } else {
      LaterMonthAssets(c, i);
    }
  }

  lemma FirstMonthAssets(c: ScenarioInput)
    ensures SnapshotAt(c, 0).assets == WithReturn(c, c.initialAssets) + SnapshotAt(c, 0).monthlyIncome - c.monthlyExpenses
  {
    assert OpeningAssets(c, 0) == c.initialAssets;
  }

  lemma LaterMonthAssets(c: ScenarioInput, i: nat)
    requires i > 0
    ensures SnapshotAt(c, i).assets == WithReturn(c, SnapshotAt(c, i - 1).assets)
                                      + SnapshotAt(c, i).monthlyIncome - SnapshotAt(c, i - 1).monthlyExpenses
  {
    assert (i - 1 + 1) / 12 == i / 12;
    assert SnapshotAt(c, i - 1).monthlyExpenses == ExpensesInYear(c, i / 12);
    assert SnapshotAt(c, i - 1).assets == OpeningAssets(c, i);
  }

  /** The reported income is zero exactly in retired months and the tracked
      income otherwise; a retirement offset of 0 zeroes every month. */
  lemma RetirementZeroesIncome(c: ScenarioInput, i: nat)
    ensures RetiredAt(c.retirementOffsetYear, i) ==> SnapshotAt(c, i).monthlyIncome == 0.0
    ensures !RetiredAt(c.retirementOffsetYear, i) ==> SnapshotAt(c, i).monthlyIncome == IncomeInYear(c, i / 12)
    ensures c.retirementOffsetYear == Some(0) ==> SnapshotAt(c, i).monthlyIncome == 0.0
  {
  }

  /** Once a month's income has been zeroed for retirement, so has every later month's. */
  lemma RetiredIncomeStaysZero(c: ScenarioInput, i: nat, j: nat)
    requires i <= j
    requires RetiredAt(c.retirementOffsetYear, i)
    ensures SnapshotAt(c, j).monthlyIncome == 0.0
  {
    RetirementIsPermanent(c.retirementOffsetYear, i, j);
  }

  /** With a cap set, every year-end update leaves the tracked income at or
      below it, so from month 12 on no income reported before retirement
      exceeds the cap. */
  lemma IncomeRespectsCap(c: ScenarioInput, i: nat)
    requires CapActive(c)
    requires i >= 12
    ensures IncomeInYear(c, i / 12) <= MonthlyCap(c)
    ensures !RetiredAt(c.retirementOffsetYear, i) ==> SnapshotAt(c, i).monthlyIncome <= MonthlyCap(c)
  {
    assert i / 12 >= 1;
  }

  /** The tracked expenses after `y` year ends, in closed form. */
  lemma {:induction false} ExpensesClosedForm(c: ScenarioInput, y: nat)
    ensures ExpensesInYear(c, y) == Compound(c.monthlyExpenses, InflationFactor(c), y)
  {
    if y > 0 {
      ExpensesClosedForm(c, y - 1);
      CompoundStep(c.monthlyExpenses, InflationFactor(c), y - 1);
    }
  }

  /** Snapshot `i` reports the base expenses inflated once per completed
      year, counting the year that ends in month `i` itself. */
  lemma ReportedExpenses(c: ScenarioInput, i: nat)
    ensures SnapshotAt(c, i).monthlyExpenses == Compound(c.monthlyExpenses, 1.0 + c.inflationRate / 100.0, (i + 1) / 12)
  {
    ExpensesClosedForm(c, (i + 1) / 12);
  }

  /** Consecutive snapshots report the same expenses, except that a
      snapshot taken in the last month of a year reports them inflated once. */
  lemma ExpensesChangeOnlyAtYearEnd(c: ScenarioInput, i: nat)
    ensures (i + 1) % 12 != 11 ==> SnapshotAt(c, i + 1).monthlyExpenses == SnapshotAt(c, i).monthlyExpenses
    ensures (i + 1) % 12 == 11 ==> SnapshotAt(c, i + 1).monthlyExpenses == Inflate(c, SnapshotAt(c, i).monthlyExpenses)
  {
    if (i + 1) % 12 == 11 {
      YearEnd(c, i + 1);
    } else {
      MidYear(i + 1);
    }
  }

  /** With non-negative inflation and base expenses, the reported expenses never fall. */
  lemma ExpensesNonDecreasing(c: ScenarioInput, i: nat, j: nat)
    requires c.inflationRate >= 0.0 && c.monthlyExpenses >= 0.0
    requires i <= j
    ensures SnapshotAt(c, i).monthlyExpenses <= SnapshotAt(c, j).monthlyExpenses
  {
    var m, n := (i + 1) / 12, (j + 1) / 12;
    assert m <= n;
    ExpensesClosedForm(c, m);
    ExpensesClosedForm(c, n);
    CompoundMonotone(c.monthlyExpenses, InflationFactor(c), m, n);
  }

  /** No raises, no inflation, no return, no retirement, and a cap (if any)
      that the starting income does not exceed. */
  predicate Flat(c: ScenarioInput)
  {
    && c.monthlyReturnRate == 0.0 && c.inflationRate == 0.0 && c.incomeGrowthRate == 0.0
    && c.retirementOffsetYear.None?
    && (CapActive(c) ==> c.monthlyIncome * 12.0 <= ToWon(c.maxAnnualIncome.value))
  }

  lemma {:induction false} FlatIncome(c: ScenarioInput, y: nat)
    requires Flat(c)
    ensures IncomeInYear(c, y) == c.monthlyIncome
  {
    if y > 0 {
      FlatIncome(c, y - 1);
    }
  }

  /** Under flat rates every month nets the same saving. */
  lemma FlatNet(c: ScenarioInput, i: nat)
    requires Flat(c)
    ensures MonthIncome(c, i) - ExpensesInYear(c, i / 12) == c.monthlyIncome - c.monthlyExpenses
  {
    FlatIncome(c, i / 12);
    ExpensesClosedForm(c, i / 12);
    CompoundAtOne(c.monthlyExpenses, i / 12);
  }

  /** Under flat rates the first month adds exactly the net saving to the initial assets. */
  lemma FlatFirstMonth(c: ScenarioInput)
    requires Flat(c)
    ensures AssetsAfterMonth(c, 0) == c.initialAssets + (c.monthlyIncome - c.monthlyExpenses)
  {
    FlatNet(c, 0);
  }

  /** Under flat rates every later month adds exactly the net saving to the previous assets. */
  lemma FlatLaterMonth(c: ScenarioInput, i: nat)
    requires Flat(c) && i > 0
    ensures AssetsAfterMonth(c, i) == AssetsAfterMonth(c, i - 1) + (c.monthlyIncome - c.monthlyExpenses)
  {
    FlatNet(c, i);
  }

  /** `n` equal monthly savings `d`, added up one month at a time. */
  function Repeated(d: real, n: nat): real
  {
    if n == 0 then 0.0 else Repeated(d, n - 1) + d
  }

  /** Adding up `n` savings of `d` gives `n·d`. */
  lemma {:induction false} RepeatedIsProduct(d: real, n: nat)
    ensures Repeated(d, n) == n as real * d
  {
    if n > 0 {
      RepeatedIsProduct(d, n - 1);
      assert (n - 1) as real * d + d == n as real * d;
    }
  }

  /** `a` plus `n` savings of `d` is `a + n·d`. */
  lemma RepeatedSum(x: real, a: real, d: real, n: nat)
    requires x == a + Repeated(d, n)
    ensures x == a + n as real * d
  {
    RepeatedIsProduct(d, n);
  }

  /** Under flat rates the assets grow by exactly the net saving each month. */
  lemma FlatAccumulation(c: ScenarioInput, i: nat)
    requires Flat(c)
    ensures SnapshotAt(c, i).assets == c.initialAssets + (i + 1) as real * (c.monthlyIncome - c.monthlyExpenses)
  {
    FlatAssets(c, i);
    assert SnapshotAt(c, i).assets == AssetsAfterMonth(c, i);
    RepeatedSum(SnapshotAt(c, i).assets, c.initialAssets, c.monthlyIncome - c.monthlyExpenses, i + 1);
  }

  /** The month-by-month form of `FlatAccumulation`. */
  lemma {:induction false} FlatAssets(c: ScenarioInput, i: nat)
    requires Flat(c)
    ensures AssetsAfterMonth(c, i) == c.initialAssets + Repeated(c.monthlyIncome - c.monthlyExpenses, i + 1)
  {
    if i == 0 {
      FlatFirstMonth(c);
    } else {
      FlatLaterMonth(c, i);
      FlatAssets(c, i - 1);
    }
  }

  /** Assets 0, income 3,000,000, expenses 2,000,000, nothing else, one
      year: the month-11 snapshot holds 12 months of 1,000,000 savings. */
  lemma OneYearOfSavings()
    ensures SnapshotAt(ScenarioInput(0.0, 3000000.0, 2000000.0, 0.0, 0.0, 0.0, 1, None, None), 11).assets == 12000000.0
  {
    FlatAccumulation(ScenarioInput(0.0, 3000000.0, 2000000.0, 0.0, 0.0, 0.0, 1, None, None), 11);
  }
}
