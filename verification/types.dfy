/** The two record shapes the engine exchanges with its callers. */
module Types {
  import opened Common

  /** The form state of the planner. Every field is a JavaScript number;
      `sideIncome` is the one optional field. */
  datatype FinancialData = FinancialData(
    currentAssets: real,
    monthlyExpenses: real,
    monthlyIncome: real,
    sideIncome: Option<real>,
    incomeGrowthRate: real,
    inflationRate: real,
    initialAssets: real,
    monthlyReturnRate: real,
    years: real,
    currentAge: real,
    maxAnnualIncome: real)

  /** One month of a projection. */
  datatype Snapshot = Snapshot(month: int, assets: real, monthlyIncome: real, monthlyExpenses: real)

  /** `data.sideIncome || 0`: an absent (or zero) side income counts as 0. */
  function SideOrZero(side: Option<real>): (r: real)
    ensures side.None? ==> r == 0.0
    ensures side.Some? ==> r == side.value
  {
    match side
    case None => 0.0
    case Some(v) => if v != 0.0 then v else 0.0
  }

  /** Salary plus side income, as both estimators compute it. */
  function TotalIncome(data: FinancialData): real
  {
    data.monthlyIncome + SideOrZero(data.sideIncome)
  }

  /** Whether month `month` (zero-based) falls in or after the retirement
      year `offset`, counted in whole years from the start; `None` means
      no retirement is set. */
  predicate RetiredAt(offset: Option<int>, month: nat)
  {
    offset.Some? && month / 12 >= offset.value
  }

  /** A whole year reaches a fractional retirement offset `o` exactly when it
      reaches `ceil(o)`, written `-Floor(-o)`; an integer offset therefore
      covers every offset a caller can pass. */
  lemma WholeYearReachesOffset(year: int, o: real)
    ensures year as real >= o <==> year >= -Floor(-o)
  {
    var f := Floor(-o);
    assert f as real <= -o < f as real + 1.0;
  }

  /** Retirement never ends: a retired month is followed by retired months. */
  lemma RetirementIsPermanent(offset: Option<int>, i: nat, j: nat)
    requires i <= j
    ensures RetiredAt(offset, i) ==> RetiredAt(offset, j)
  {
    assert i / 12 <= j / 12;
  }
}
