/** The unit conversion of the input form: amounts are typed in manwon
    (10,000 won) as digit strings and stored in won (handleInputChange),
    and shown back in manwon (formatToManwon). */
module FinancialInput {
  import opened Common
  import opened Types

  /** The keys of the form state a change handler can write. */
  datatype Field =
    | CurrentAssets | MonthlyExpenses | MonthlyIncome | SideIncome
    | IncomeGrowthRate | InflationRate | InitialAssets | MonthlyReturnRate
    | Years | CurrentAge | MaxAnnualIncome

  /** `data[field]`; only the side income can be undefined. */
  function Get(data: FinancialData, f: Field): Option<real>
  {
    match f
    case CurrentAssets => Some(data.currentAssets)
    case MonthlyExpenses => Some(data.monthlyExpenses)
    case MonthlyIncome => Some(data.monthlyIncome)
    case SideIncome => data.sideIncome
    case IncomeGrowthRate => Some(data.incomeGrowthRate)
    case InflationRate => Some(data.inflationRate)
    case InitialAssets => Some(data.initialAssets)
    case MonthlyReturnRate => Some(data.monthlyReturnRate)
    case Years => Some(data.years)
    case CurrentAge => Some(data.currentAge)
    case MaxAnnualIncome => Some(data.maxAnnualIncome)
  }

  /** `{ ...data, [field]: v }`: the named field becomes `v`, every other field is kept. */
  function Set(data: FinancialData, f: Field, v: real): (r: FinancialData)
    ensures Get(r, f) == Some(v)
    ensures forall g :: g != f ==> Get(r, g) == Get(data, g)
  {
    match f
    case CurrentAssets => data.(currentAssets := v)
    case MonthlyExpenses => data.(monthlyExpenses := v)
    case MonthlyIncome => data.(monthlyIncome := v)
    case SideIncome => data.(sideIncome := Some(v))
    case IncomeGrowthRate => data.(incomeGrowthRate := v)
    case InflationRate => data.(inflationRate := v)
    case InitialAssets => data.(initialAssets := v)
    case MonthlyReturnRate => data.(monthlyReturnRate := v)
    case Years => data.(years := v)
    case CurrentAge => data.(currentAge := v)
    case MaxAnnualIncome => data.(maxAnnualIncome := v)
  }

  /** Writing back a field's own value changes nothing. */
  lemma SetOwnValue(data: FinancialData, f: Field)
    requires Get(data, f).Some?
    ensures Set(data, f, Get(data, f).value) == data
  {
  }

  predicate IsDigit(ch: char)
  {
    '0' <= ch <= '9'
  }

  predicate AllDigits(s: string)
  {
    forall i :: 0 <= i < |s| ==> IsDigit(s[i])
  }

  function DigitValue(ch: char): nat
    requires IsDigit(ch)
  {
    (ch as int - '0' as int) as nat
  }

  /** The natural number a digit string denotes; the empty string denotes 0. */
  function DigitsValue(s: string): nat
    requires AllDigits(s)
  {
    if |s| == 0 then 0 else DigitsValue(s[..|s| - 1]) * 10 + DigitValue(s[|s| - 1])
  }

  /** `s.replace(/^0+/, '')`. */
  function StripLeadingZeros(s: string): (r: string)
    ensures |r| <= |s| && r == s[|s| - |r|..]
    ensures forall i :: 0 <= i < |s| - |r| ==> s[i] == '0'
    ensures |r| > 0 ==> r[0] != '0'
  {
    if |s| > 0 && s[0] == '0' then StripLeadingZeros(s[1..]) else s
  }

  /** `Number(s)` on the strings modelled here: a digit string (the empty
      string included) gives its value, anything else gives NaN (`None`). */
  function ParseNumber(s: string): (r: Option<real>)
    ensures r.Some? <==> AllDigits(s)
  {
    if AllDigits(s) then Some(DigitsValue(s) as real) else None
  }

  /** Leading zeros change neither which strings are digit strings nor their value. */
  lemma StripKeepsDigits(s: string)
    ensures AllDigits(StripLeadingZeros(s)) <==> AllDigits(s)
    ensures AllDigits(s) ==> DigitsValue(StripLeadingZeros(s)) == DigitsValue(s)
  {
    if AllDigits(s) {
      StripKeepsValue(s);
    } else {
      StripKeepsNonDigit(s);
    }
  }

  /** A string with a non-digit still has one once its leading zeros are stripped. */
  lemma StripKeepsNonDigit(s: string)
    requires !AllDigits(s)
    ensures !AllDigits(StripLeadingZeros(s))
  {
    var r := StripLeadingZeros(s);
    var i :| 0 <= i < |s| && !IsDigit(s[i]);
    var z := |s| - |r|;
    assert i >= z;
    assert r[i - z] == s[i];
  }

  /** What `Number` makes of a string once its leading zeros are stripped. */
  lemma ParseStripped(s: string)
    ensures ParseNumber(StripLeadingZeros(s)) == if AllDigits(s) then Some(DigitsValue(s) as real) else None
  {
    StripKeepsDigits(s);
  }

  /** A leading zero does not change the value of a digit string. */
  lemma {:induction false} PrependZero(t: string)
    requires AllDigits(t)
    ensures AllDigits(['0'] + t)
    ensures DigitsValue(['0'] + t) == DigitsValue(t)
  {
    var s := ['0'] + t;
    if |t| > 0 {
      var u := t[..|t| - 1];
      assert s[..|s| - 1] == ['0'] + u;
      PrependZero(u);
      assert s[|s| - 1] == t[|t| - 1];
    } else {
      assert s[..|s| - 1] == [];
    }
  }

  /** Stripping leading zeros keeps the value of a digit string. */
  lemma {:induction false} StripKeepsValue(s: string)
    requires AllDigits(s)
    ensures AllDigits(StripLeadingZeros(s))
    ensures DigitsValue(StripLeadingZeros(s)) == DigitsValue(s)
  {
    if |s| > 0 && s[0] == '0' {
      var t := s[1..];
      assert AllDigits(t) by {
        forall i | 0 <= i < |t|
          ensures IsDigit(t[i])
        {
          assert t[i] == s[i + 1];
        }
      }
      StripKeepsValue(t);
      assert StripLeadingZeros(s) == StripLeadingZeros(t);
      PrependZero(t);
      assert s == ['0'] + t;
    }
  }

  /** The change handler. `None` means it makes no update: the string,
      once its leading zeros are stripped, is NaN to `Number`. An empty
      string stores 0; a digit string denoting `n` stores `n * 10000` in
      the named field and leaves every other field as it was. */
  function HandleInputChange(data: FinancialData, f: Field, valueAsString: string): (r: Option<FinancialData>)
    ensures valueAsString == "" ==> r == Some(Set(data, f, 0.0))
    ensures r.None? <==> !AllDigits(valueAsString)
    ensures AllDigits(valueAsString) ==> r == Some(Set(data, f, ToWon(DigitsValue(valueAsString) as real)))
  {
    if valueAsString == "" then Some(Set(data, f, 0.0))
    else
      var cleanValue := StripLeadingZeros(valueAsString);
      ParseStripped(valueAsString);
      match ParseNumber(cleanValue)
      case None => None
      case Some(value) => Some(Set(data, f, ToWon(value)))
  }

  /** A string of zeros only, such as "000", strips to the empty string and
      stores 0 in the named field. */
  lemma AllZerosStoreZero(data: FinancialData, f: Field, s: string)
    requires forall i :: 0 <= i < |s| ==> s[i] == '0'
    ensures StripLeadingZeros(s) == ""
    ensures HandleInputChange(data, f, s) == Some(Set(data, f, 0.0))
  {
    assert AllDigits(s);
    ZerosValue(s);
  }

  /** A string of zeros only denotes 0. */
  lemma {:induction false} ZerosValue(s: string)
    requires forall i :: 0 <= i < |s| ==> s[i] == '0'
    ensures AllDigits(s) && DigitsValue(s) == 0
  {
    if |s| > 0 {
      ZerosValue(s[..|s| - 1]);
    }
  }

  /** The displayed amount: 0 for an undefined or zero value, otherwise the
      value in manwon rounded to the nearest integer (halves up). */
  function FormatToManwon(value: Option<real>): (r: int)
    ensures value.None? || value.value == 0.0 ==> r == 0
    ensures value.Some? && value.value != 0.0 ==> ToManwon(value.value) - 0.5 < r as real <= ToManwon(value.value) + 0.5
  {
    if value.Some? && value.value != 0.0 then Round(ToManwon(value.value)) else 0
  }

  /** Typing the digits of `n` into a field and displaying that field shows `n`. */
  lemma EntryRoundTrip(data: FinancialData, f: Field, s: string)
    requires AllDigits(s)
    ensures HandleInputChange(data, f, s).Some?
    ensures FormatToManwon(Get(HandleInputChange(data, f, s).value, f)) == DigitsValue(s)
  {
    var n := DigitsValue(s);
    var stored := Set(data, f, ToWon(n as real));
    assert HandleInputChange(data, f, s) == Some(stored);
    assert Get(stored, f) == Some(ToWon(n as real));
    ShowWholeManwon(n);
  }

  /** A whole number `n` of manwon, stored in won, is shown as `n`. */
  lemma ShowWholeManwon(n: nat)
    ensures FormatToManwon(Some(ToWon(n as real))) == n
  {
    assert ToManwon(ToWon(n as real)) == n as real;
    RoundWhole(n);
  }

  /** `String(n)` for a natural number: its decimal digits, "0" for zero. */
  function DecimalString(n: nat): (r: string)
    ensures |r| > 0
  {
    if n < 10 then [('0' as int + n) as char]
    else DecimalString(n / 10) + [('0' as int + n % 10) as char]
  }

  lemma {:induction false} DecimalStringValue(n: nat)
    ensures AllDigits(DecimalString(n))
    ensures DigitsValue(DecimalString(n)) == n
  {
    var r := DecimalString(n);
    if n < 10 {
      assert r[..|r| - 1] == [];
      assert DigitValue(r[0]) == n;
    } else {
      var q, d := n / 10, n % 10;
      DecimalStringValue(q);
      assert r == DecimalString(q) + [('0' as int + d) as char];
      assert r[..|r| - 1] == DecimalString(q);
      assert DigitValue(r[|r| - 1]) == d;
      assert q * 10 + d == n;
    }
  }

  /** A field holding a whole number of manwon, shown and typed back
      unchanged, is left exactly as it was. */
  lemma RedisplayIsStable(data: FinancialData, f: Field, n: nat)
    requires Get(data, f) == Some(ToWon(n as real))
    ensures HandleInputChange(data, f, DecimalString(FormatToManwon(Get(data, f)) as nat)) == Some(data)
  {
    ShowWholeManwon(n);
    assert FormatToManwon(Get(data, f)) as nat == n;
    TypeBackWholeManwon(data, f, n);
  }

  /** Typing the decimal digits of `n` into a field that holds `n` manwon changes nothing. */
  lemma TypeBackWholeManwon(data: FinancialData, f: Field, n: nat)
    requires Get(data, f) == Some(ToWon(n as real))
    ensures HandleInputChange(data, f, DecimalString(n)) == Some(data)
  {
    DecimalStringValue(n);
    assert HandleInputChange(data, f, DecimalString(n)) == Some(Set(data, f, ToWon(n as real)));
    SetOwnValue(data, f);
  }
}
