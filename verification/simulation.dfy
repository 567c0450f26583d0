/** simulateInvestment: the alternative projection that compounds returns,
    raises and inflation every month over a fixed 100-year span. */
module Simulation {
  import opened Common
  import opened Types

  /** The loop runs `while (months < 1200)`. */
  const SimulatedMonths: nat := 1200

  /** The three monthly rates, each `(1 + annual/100)^(1/12) - 1`; the
      twelfth root is taken by the caller. */
  datatype MonthlyRates = MonthlyRates(returnRate: real, incomeGrowthRate: real, inflationRate: real)

  /** One call: the profile, its monthly rates and the optional retirement year. */
  datatype SimInput = SimInput(data: FinancialData, rates: MonthlyRates, retirementYear: Option<int>)

  /** One month of return on `assets`. */
  function ReturnOn(s: SimInput, assets: real): real
  {
    assets * s.rates.returnRate
  }

  /** One month of income growth. */
  function Raise(s: SimInput, income: real): real
  {
    income * (1.0 + s.rates.incomeGrowthRate)
  }

  /** One month of inflation. */
  function Inflate(s: SimInput, expenses: real): real
  {
    expenses * (1.0 + s.rates.inflationRate)
  }

  /** Tracked monthly income at the start of month `k`: grown once in every
      earlier month that was not retired, left alone in retired ones. */
  function TrackedIncome(s: SimInput, k: nat): real
  {
    if k == 0 then TotalIncome(s.data)
    else if RetiredAt(s.retirementYear, k - 1) then TrackedIncome(s, k - 1)
    else Raise(s, TrackedIncome(s, k - 1))
  }

  /** Tracked monthly expenses at the start of month `k`: inflated every month. */
  function TrackedExpenses(s: SimInput, k: nat): real
  {
    if k == 0 then s.data.monthlyExpenses else Inflate(s, TrackedExpenses(s, k - 1))
  }

  /** Assets at the start of month `k`: one month of return on the previous
      assets plus the net income, which is minus the expenses when retired. */
  function SimAssets(s: SimInput, k: nat): real
  {
    if k == 0 then s.data.currentAssets
    else
      var previous := SimAssets(s, k - 1);
      var net := if RetiredAt(s.retirementYear, k - 1) then -TrackedExpenses(s, k - 1)
                 else TrackedIncome(s, k - 1) - TrackedExpenses(s, k - 1);
      previous + ReturnOn(s, previous) + net
  }

  /** Entry `k` of the result: the initial state for `k = 0`, otherwise the
      state after `k` months with the income reported as 0 if month `k - 1`
      was retired. */
  function SimSnapshotAt(s: SimInput, k: nat): Snapshot
  {
    if k == 0 then Snapshot(0, s.data.currentAssets, TotalIncome(s.data), s.data.monthlyExpenses)
    else Snapshot(k, SimAssets(s, k),
                  if RetiredAt(s.retirementYear, k - 1) then 0.0 else TrackedIncome(s, k),
                  TrackedExpenses(s, k))
  }

  /** The month loop, one snapshot pushed before it and one per iteration. */
  method SimulateInvestment(s: SimInput) returns (r: seq<Snapshot>)
    ensures |r| == SimulatedMonths + 1
    ensures r[0] == Snapshot(0, s.data.currentAssets, TotalIncome(s.data), s.data.monthlyExpenses)
    ensures forall k :: 0 <= k < |r| ==> r[k].month == k
    ensures forall k :: 0 <= k < |r| ==> r[k] == SimSnapshotAt(s, k)
  {
    var monthlyIncome := TotalIncome(s.data);
    var currentAssets := s.data.currentAssets;
    var currentMonthlyIncome := monthlyIncome;
    var currentMonthlyExpenses := s.data.monthlyExpenses;
    var months := 0;
    r := [Snapshot(0, currentAssets, currentMonthlyIncome, currentMonthlyExpenses)];
    while months < SimulatedMonths
      invariant 0 <= months <= SimulatedMonths
      invariant |r| == months + 1
      invariant currentAssets == SimAssets(s, months)
      invariant currentMonthlyIncome == TrackedIncome(s, months)
      invariant currentMonthlyExpenses == TrackedExpenses(s, months)
      invariant forall k :: 0 <= k <= months ==> r[k] == SimSnapshotAt(s, k)
    {
      var year := months / 12;
      var isRetired := s.retirementYear.Some? && year >= s.retirementYear.value;
      var investmentReturn := ReturnOn(s, currentAssets);
      var monthlyNetIncome := if isRetired then -currentMonthlyExpenses else currentMonthlyIncome - currentMonthlyExpenses;
      currentAssets := currentAssets + investmentReturn + monthlyNetIncome;
      if !isRetired {
        currentMonthlyIncome := Raise(s, currentMonthlyIncome);
      }
      currentMonthlyExpenses := Inflate(s, currentMonthlyExpenses);
      r := r + [Snapshot(months + 1, currentAssets, if isRetired then 0.0 else currentMonthlyIncome, currentMonthlyExpenses)];
      months := months + 1;
    }
  }

  /** How many of the months before `k` were worked (not retired). */
  function WorkedMonths(retirementYear: Option<int>, k: nat): (r: nat)
    ensures r <= k
  {
    match retirementYear
    case None => k
    case Some(y) => if y <= 0 then 0 else if k <= 12 * y then k else 12 * y
  }

  /** Retired months are exactly those from `12 * retirementYear` on. */
  lemma RetiredFromMonth(y: int, m: nat)
    ensures RetiredAt(Some(y), m) <==> m >= 12 * y
  {
  }

  /** The tracked income has grown exactly once per worked month. */
  lemma {:induction false} IncomeClosedForm(s: SimInput, k: nat)
    ensures TrackedIncome(s, k) == Compound(TotalIncome(s.data), 1.0 + s.rates.incomeGrowthRate, WorkedMonths(s.retirementYear, k))
  {
    if k > 0 {
      IncomeClosedForm(s, k - 1);
      var w := WorkedMonths(s.retirementYear, k - 1);
      if RetiredAt(s.retirementYear, k - 1) {
        RetiredFromMonth(s.retirementYear.value, k - 1);
        assert WorkedMonths(s.retirementYear, k) == w;
      } else {
        WorkedUntilRetirement(s.retirementYear, k - 1);
        assert w == k - 1;
        CompoundStep(TotalIncome(s.data), 1.0 + s.rates.incomeGrowthRate, w);
      }
    }
  }

  /** Every month up to a month not yet retired was worked. */
  lemma WorkedUntilRetirement(retirementYear: Option<int>, k: nat)
    requires !RetiredAt(retirementYear, k)
    ensures WorkedMonths(retirementYear, k + 1) == k + 1
  {
    if retirementYear.Some? {
      RetiredFromMonth(retirementYear.value, k);
    }
  }

  /** While retired the tracked income is not grown, and the reported income is 0. */
  lemma RetiredIncome(s: SimInput, k: nat)
    requires RetiredAt(s.retirementYear, k)
    ensures WorkedMonths(s.retirementYear, k + 1) == WorkedMonths(s.retirementYear, k)
    ensures TrackedIncome(s, k + 1) == TrackedIncome(s, k)
    ensures SimSnapshotAt(s, k + 1).monthlyIncome == 0.0
  {
    RetiredFromMonth(s.retirementYear.value, k);
  }

  /** Before retirement the reported income is the total income grown once per month. */
  lemma WorkingIncome(s: SimInput, k: nat)
    requires !RetiredAt(s.retirementYear, k)
    ensures SimSnapshotAt(s, k + 1).monthlyIncome == Compound(TotalIncome(s.data), 1.0 + s.rates.incomeGrowthRate, k + 1)
  {
    IncomeClosedForm(s, k + 1);
    WorkedUntilRetirement(s.retirementYear, k);
    assert SimSnapshotAt(s, k + 1).monthlyIncome == TrackedIncome(s, k + 1);
  }

  /** The reported expenses have been inflated once per month. */
  lemma {:induction false} ExpensesClosedForm(s: SimInput, k: nat)
    ensures SimSnapshotAt(s, k).monthlyExpenses == Compound(s.data.monthlyExpenses, 1.0 + s.rates.inflationRate, k)
    ensures TrackedExpenses(s, k) == Compound(s.data.monthlyExpenses, 1.0 + s.rates.inflationRate, k)
  {
    if k > 0 {
      ExpensesClosedForm(s, k - 1);
      CompoundStep(s.data.monthlyExpenses, 1.0 + s.rates.inflationRate, k - 1);
    }
  }

  /** With non-negative monthly inflation and expenses, each month's expenses
      are at least the previous month's. */
  lemma ExpensesGrowEveryMonth(s: SimInput, k: nat)
    requires s.rates.inflationRate >= 0.0 && s.data.monthlyExpenses >= 0.0
    ensures SimSnapshotAt(s, k).monthlyExpenses <= SimSnapshotAt(s, k + 1).monthlyExpenses
  {
    ExpensesClosedForm(s, k);
    ExpensesClosedForm(s, k + 1);
    CompoundMonotone(s.data.monthlyExpenses, 1.0 + s.rates.inflationRate, k, k + 1);
  }
}
