/** The child-rearing cost helpers: a monthly cost by age band. The
    projection no longer calls them (the call is commented out), but they
    remain part of the calculations. */
module ChildCost {

  /** The last age of the last paid band; from 23 on nothing is paid. */
  const LastPaidAge: int := 22

  /** Monthly cost, in won, of a child of the given age in years:
      0-3 750,000; 4-6 500,000; 7-12 750,000; 13-18 1,100,000;
      19-22 1,250,000; nothing before birth or from 23 on. */
  function ChildMonthlyCost(childAge: int): (r: real)
    ensures r == 0.0 <==> childAge < 0 || childAge > LastPaidAge
    ensures 0 <= childAge <= LastPaidAge ==> 500000.0 <= r <= 1250000.0
    ensures r == 0.0 || r == 500000.0 || r == 750000.0 || r == 1100000.0 || r == 1250000.0
  {
    if childAge < 0 then 0.0
    else if childAge <= 3 then 750000.0
    else if childAge <= 6 then 500000.0
    else if childAge <= 12 then 750000.0
    else if childAge <= 18 then 1100000.0
    else if childAge <= 22 then 1250000.0
    else 0.0
  }

  /** The monthly cost in `currentYear` for a child born in `childBirthYear`;
      the parent's age is accepted but plays no part. */
  function ChildRearingCost(currentYear: int, childBirthYear: int, currentAge: int): (r: real)
    ensures r == 0.0 <==> currentYear < childBirthYear || currentYear > childBirthYear + LastPaidAge
  {
    var childAge := currentYear - childBirthYear;
    ChildMonthlyCost(childAge)
  }

  /** The cost depends only on the child's age: shifting both years together,
      or changing the parent's age, leaves it unchanged. */
  lemma RearingCostDependsOnAgeOnly(currentYear: int, childBirthYear: int, currentAge: int, shift: int, otherAge: int)
    ensures ChildRearingCost(currentYear + shift, childBirthYear + shift, otherAge)
         == ChildRearingCost(currentYear, childBirthYear, currentAge)
  {
    assert (currentYear + shift) - (childBirthYear + shift) == currentYear - childBirthYear;
  }

  /** Twelve months' cost summed over the ages `from` to `LastPaidAge`. */
  function CostFromAge(from: nat): real
    decreases LastPaidAge + 1 - from
  {
    if from > LastPaidAge then 0.0 else 12.0 * ChildMonthlyCost(from) + CostFromAge(from + 1)
  }

  /** Twelve months at each age from `from` to `LastPaidAge` cost between
      the cheapest and the dearest band for every one of those years. */
  lemma {:induction false} CostFromAgeBounds(from: nat)
    requires from <= LastPaidAge + 1
    ensures 12.0 * 500000.0 * (LastPaidAge + 1 - from) as real <= CostFromAge(from)
    ensures CostFromAge(from) <= 12.0 * 1250000.0 * (LastPaidAge + 1 - from) as real
    decreases LastPaidAge + 1 - from
  {
    if from <= LastPaidAge {
      CostFromAgeBounds(from + 1);
    }
  }

  /** A child costs 247,200,000 won from birth to age 22 inclusive:
      12 months times (4·750,000 + 3·500,000 + 6·750,000 + 6·1,100,000 + 4·1,250,000). */
  lemma {:induction false} LifetimeCost()
    ensures CostFromAge(0) == 247200000.0
  {
    assert CostFromAge(19) == 60000000.0 by {
      assert CostFromAge(23) == 0.0;
      assert CostFromAge(22) == 15000000.0;
      assert CostFromAge(21) == 30000000.0;
      assert CostFromAge(20) == 45000000.0;
    }
    assert CostFromAge(13) == 139200000.0 by {
      assert CostFromAge(18) == 73200000.0;
      assert CostFromAge(17) == 86400000.0;
      assert CostFromAge(16) == 99600000.0;
      assert CostFromAge(15) == 112800000.0;
      assert CostFromAge(14) == 126000000.0;
    }
    assert CostFromAge(7) == 193200000.0 by {
      assert CostFromAge(12) == 148200000.0;
      assert CostFromAge(11) == 157200000.0;
      assert CostFromAge(10) == 166200000.0;
      assert CostFromAge(9) == 175200000.0;
      assert CostFromAge(8) == 184200000.0;
    }
    assert CostFromAge(4) == 211200000.0 by {
      assert CostFromAge(6) == 199200000.0;
      assert CostFromAge(5) == 205200000.0;
    }
    assert CostFromAge(3) == 220200000.0;
    assert CostFromAge(2) == 229200000.0;
    assert CostFromAge(1) == 238200000.0;
  }
}
