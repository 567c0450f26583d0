/** How the static survival estimate relates to the month-by-month
    projection: with every rate at zero the projection's assets fall by the
    burn each month, and the survival count is the first month in which
    they go negative. */
module Consistency {
  import opened Common
  import opened Types
  import opened Estimators
  import opened Scenarios

  /** A projection of today's profile with no return, raises, inflation,
      retirement or cap, started from the combined income. */
  function StaticScenario(data: FinancialData, years: int): (c: ScenarioInput)
    ensures Flat(c)
  {
    ScenarioInput(data.currentAssets, TotalIncome(data), data.monthlyExpenses, 0.0, 0.0, 0.0, years, None, None)
  }

  /** When survival is finite, snapshot `i` of the static projection is
      negative exactly from index `SurvivalMonths` on. */
  lemma DepletionMonthMatchesSurvival(data: FinancialData, years: int, i: nat)
    requires SurvivalMonths(data).Finite?
    ensures SnapshotAt(StaticScenario(data, years), i).assets < 0.0 <==> i >= SurvivalMonths(data).n
  {
    var n := SurvivalMonths(data).n;
    FlatAccumulation(StaticScenario(data, years), i);
    FirstNegativeMonth(data.currentAssets, Burn(data), n, i);
  }

  /** A balance falling by `burn > 0` a month, non-negative after `n`
      months and negative after `n + 1`, is negative after `i + 1` months
      exactly when `i >= n`. */
  lemma FirstNegativeMonth(assets: real, burn: real, n: int, i: nat)
    requires burn > 0.0
    requires assets - n as real * burn >= 0.0
    requires assets - (n + 1) as real * burn < 0.0
    ensures assets - (i + 1) as real * burn < 0.0 <==> i >= n
  {
    if i >= n {
      ScaleMonotone(burn, (n + 1) as real, (i + 1) as real);
      assert (n + 1) as real * burn <= (i + 1) as real * burn;
    } else {
      ScaleMonotone(burn, (i + 1) as real, n as real);
      assert (i + 1) as real * burn <= n as real * burn;
    }
  }

  /** When survival is infinite, the static projection never drops below
      its starting assets. */
  lemma NoDepletionWhenSurvivalInfinite(data: FinancialData, years: int, i: nat)
    requires SurvivalMonths(data).Inf?
    ensures SnapshotAt(StaticScenario(data, years), i).assets >= data.currentAssets
  {
    var c := StaticScenario(data, years);
    FlatAccumulation(c, i);
    ScaleMonotone((i + 1) as real, 0.0, TotalIncome(data) - data.monthlyExpenses);
  }
}
