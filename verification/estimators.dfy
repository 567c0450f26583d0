/** The two static estimators and the safety score built on them
    (calculateSurvivalMonths, calculateTargetAchievementTime,
    calculateSafetyScore). */
module Estimators {
  import opened Common
  import opened Types

  /** The month loop of the target estimator stops after this many months. */
  const MonthCap: nat := 1200

  /** The target used by the safety score: 300 times the current assets. */
  const TargetMultiplier: real := 300.0

  /** Net monthly outflow under today's income and expenses. */
  function Burn(data: FinancialData): real
  {
    data.monthlyExpenses - TotalIncome(data)
  }

  /** Months until `currentAssets` is used up at today's burn rate, with no
      growth, inflation or return; `Inf` when income covers expenses. The
      count is the last month whose static balance is still non-negative. */
  function SurvivalMonths(data: FinancialData): (r: Months)
    ensures r.Inf? <==> TotalIncome(data) >= data.monthlyExpenses
    ensures r.Finite? ==> data.currentAssets - r.n as real * Burn(data) >= 0.0
    ensures r.Finite? ==> data.currentAssets - (r.n + 1) as real * Burn(data) < 0.0
  {
    var income := TotalIncome(data);
    if income >= data.monthlyExpenses then Inf
    else
      var burn := data.monthlyExpenses - income;
      var n := Floor(data.currentAssets / burn);
      FloorTimes(data.currentAssets, burn, n);
      Finite(n)
  }

  /** `n = floor(a / d)` with `d > 0` brackets `a` between `n·d` and `(n+1)·d`. */
  lemma FloorTimes(a: real, d: real, n: int)
    requires d > 0.0
    requires n == Floor(a / d)
    ensures n as real * d <= a
    ensures a < (n + 1) as real * d
  {
    var q := a / d;
    var m := n as real + 1.0;
    assert q * d == a;
    assert q < m;
    assert (m - q) * d > 0.0;
    assert m * d - q * d == (m - q) * d;
    assert (n + 1) as real * d == m * d;
    assert a < m * d;
  }

  /** Assets after `k` months of the target loop, starting from `assets` and
      saving `savings` in the first month, each later month's saving being
      the previous one times `factor`. */
  function Accumulated(assets: real, savings: real, factor: real, k: nat): real
  {
    if k == 0 then assets else Accumulated(assets, savings, factor, k - 1) + Compound(savings, factor, k - 1)
  }

  /** One loop iteration is the same as accumulating one more month. */
  lemma {:induction false} AccumulatedShift(assets: real, savings: real, factor: real, k: nat)
    ensures Accumulated(assets + savings, savings * factor, factor, k) == Accumulated(assets, savings, factor, k + 1)
  {
    if k > 0 {
      AccumulatedShift(assets, savings, factor, k - 1);
      CompoundShift(savings, factor, k - 1);
    }
  }

  /** The `while (currentAssets < targetAmount && months < 1200)` loop, entered
      with `months` months already counted. The result is the first month
      count whose accumulated assets reach the target, or 1200. */
  function CountMonths(assets: real, savings: real, factor: real, target: real, months: nat): (r: nat)
    requires months <= MonthCap
    ensures months <= r <= MonthCap
    ensures r < MonthCap ==> Accumulated(assets, savings, factor, r - months) >= target
    ensures forall k :: 0 <= k < r - months ==> Accumulated(assets, savings, factor, k) < target
    decreases MonthCap - months
  {
    if assets < target && months < MonthCap then
      var r := CountMonths(assets + savings, savings * factor, factor, target, months + 1);
      AccumulatedShift(assets, savings, factor, r - months - 1);
      forall k | 0 <= k < r - months
        ensures Accumulated(assets, savings, factor, k) < target
      {
        if k > 0 {
          AccumulatedShift(assets, savings, factor, k - 1);
        }
      }
      r
    else
      months
  }

  /** The per-month factor applied to the savings: compound monthly income
      growth (supplied already converted, since it is a twelfth root) net of
      a simple monthly inflation fraction. */
  function SavingsFactor(data: FinancialData, monthlyIncomeGrowthRate: real): real
  {
    1.0 + monthlyIncomeGrowthRate - data.inflationRate / 100.0 / 12.0
  }

  /** The target loop's assets after `k` months, from today's profile. */
  function AssetsAfter(data: FinancialData, monthlyIncomeGrowthRate: real, k: nat): real
  {
    Accumulated(data.currentAssets, TotalIncome(data) - data.monthlyExpenses, SavingsFactor(data, monthlyIncomeGrowthRate), k)
  }

  /** Months until the assets reach `target`: `Inf` when nothing is saved,
      otherwise the first month at which the target is met, capped at 1200. */
  function TargetAchievementTime(data: FinancialData, target: real, monthlyIncomeGrowthRate: real): (r: Months)
    ensures r.Inf? <==> TotalIncome(data) - data.monthlyExpenses <= 0.0
    ensures r.Finite? ==> 0 <= r.n <= MonthCap as int
    ensures r.Finite? && data.currentAssets >= target ==> r.n == 0
    ensures r.Finite? && r.n < MonthCap as int ==> AssetsAfter(data, monthlyIncomeGrowthRate, r.n) >= target
    ensures r.Finite? ==> forall k: nat :: k < r.n ==> AssetsAfter(data, monthlyIncomeGrowthRate, k) < target
  {
    var savings := TotalIncome(data) - data.monthlyExpenses;
    if savings <= 0.0 then Inf
    else Finite(CountMonths(data.currentAssets, savings, SavingsFactor(data, monthlyIncomeGrowthRate), target, 0))
  }

  /** `Math.min(100, (survivalMonths / 120) * 100)`. */
  function SurvivalScore(n: int): real
  {
    Min(100.0, n as real / 120.0 * 100.0)
  }

  /** `Math.min(100, (1200 / targetTime) * 100)` under JavaScript arithmetic:
      dividing by `Infinity` gives 0 and dividing by 0 gives `Infinity`. */
  function TargetScore(t: Months): real
  {
    match t
    case Inf => 0.0
    case Finite(n) => if n == 0 then 100.0 else Min(100.0, 1200.0 / n as real * 100.0)
  }

  /** A score in [0,100]: 100 exactly when the assets never deplete, 0 when
      they last no month, otherwise half the survival score rounded, since
      a finite survival means nothing is saved and the target term is 0. */
  function SafetyScore(data: FinancialData, monthlyIncomeGrowthRate: real): (r: int)
    ensures 0 <= r <= 100
    ensures r == 100 <==> SurvivalMonths(data).Inf?
    ensures SurvivalMonths(data).Finite? && SurvivalMonths(data).n <= 0 ==> r == 0
    ensures SurvivalMonths(data).Finite? && SurvivalMonths(data).n > 0 ==>
      r == Round(Min(100.0, SurvivalMonths(data).n as real / 120.0 * 100.0) / 2.0) && r <= 50
  {
    var survival := SurvivalMonths(data);
    var targetTime := TargetAchievementTime(data, data.currentAssets * TargetMultiplier, monthlyIncomeGrowthRate);
    match survival
    case Inf => 100
    case Finite(n) =>
      if n <= 0 then 0
      else
        assert targetTime.Inf?;
        Round((SurvivalScore(n) + TargetScore(targetTime)) / 2.0)
  }

  /** Whenever the score reaches its averaging step, the target time is
      `Inf`, so the unguarded `1200 / targetTime` never divides by zero. */
  lemma ScoreNeverDividesByZero(data: FinancialData, monthlyIncomeGrowthRate: real)
    requires SurvivalMonths(data).Finite?
    ensures TargetAchievementTime(data, data.currentAssets * TargetMultiplier, monthlyIncomeGrowthRate).Inf?
    ensures TargetScore(TargetAchievementTime(data, data.currentAssets * TargetMultiplier, monthlyIncomeGrowthRate)) == 0.0
  {
  }

  /** A positive survival count needs positive assets. */
  lemma PositiveSurvivalNeedsAssets(data: FinancialData)
    requires SurvivalMonths(data).Finite? && SurvivalMonths(data).n > 0
    ensures data.currentAssets > 0.0
  {
    var n := SurvivalMonths(data).n;
    ScaleMonotone(Burn(data), 1.0, n as real);
  }
}
