/** Shared vocabulary of the projection engine: optional values, the
    "finite or never" month count, and the real-number helpers that stand
    in for JavaScript's Math.floor, Math.round, Math.min and integer powers. */
module Common {

  /** A JavaScript value that may be `undefined` or `null`. */
  datatype Option<+T> = None | Some(value: T)

  /** An amount in "manwon", the form's unit of 10,000 won, converted to won. */
  function ToWon(manwon: real): real
  {
    manwon * 10000.0
  }

  /** An amount in won converted to manwon. */
  function ToManwon(won: real): real
  {
    won / 10000.0
  }

  /** A month count that may be `Infinity` ("never"). */
  datatype Months = Finite(n: int) | Inf

  /** Math.floor over the reals. */
  function Floor(x: real): (r: int)
    ensures r as real <= x < r as real + 1.0
  {
    x.Floor
  }

  /** Math.round: the nearest integer, halves rounded towards +infinity. */
  function Round(x: real): (r: int)
    ensures x - 0.5 < r as real <= x + 0.5
  {
    Floor(x + 0.5)
  }

  /** A whole number rounds to itself. */
  lemma RoundWhole(n: int)
    ensures Round(n as real) == n
  {
  }

  /** Math.min of two numbers. */
  function Min(a: real, b: real): (r: real)
    ensures r <= a && r <= b
    ensures r == a || r == b
  {
    if a <= b then a else b
  }

  /** `b` raised to the natural power `n`. */
  function Pow(b: real, n: nat): real
  {
    if n == 0 then 1.0 else Pow(b, n - 1) * b
  }

  lemma {:induction false} PowOne(n: nat)
    ensures Pow(1.0, n) == 1.0
  {
    if n > 0 {
      PowOne(n - 1);
    }
  }

  /** A factor of at least 1 never shrinks under further powers. */
  lemma {:induction false} PowMonotone(b: real, m: nat, n: nat)
    requires b >= 1.0
    requires m <= n
    ensures 1.0 <= Pow(b, m) <= Pow(b, n)
  {
    if m < n {
      PowMonotone(b, m, n - 1);
      var p := Pow(b, n - 1);
      assert p * b - p == p * (b - 1.0);
      assert p * (b - 1.0) >= 0.0;
    } else if m > 0 {
      PowMonotone(b, m - 1, m - 1);
      var p := Pow(b, m - 1);
      assert p * b - p == p * (b - 1.0);
      assert p * (b - 1.0) >= 0.0;
    }
  }

  /** `amount` compounded over `periods` periods at `factor` per period. */
  function Compound(amount: real, factor: real, periods: nat): real
  {
    amount * Pow(factor, periods)
  }

  /** One more period multiplies the compounded amount by the factor once more. */
  lemma CompoundStep(a: real, b: real, n: nat)
    ensures Compound(a, b, n + 1) == Compound(a, b, n) * b
  {
    assert a * (Pow(b, n) * b) == a * Pow(b, n) * b;
  }

  /** Starting one period later is the same as compounding one period more. */
  lemma CompoundShift(a: real, b: real, n: nat)
    ensures Compound(a * b, b, n) == Compound(a, b, n + 1)
  {
    assert a * b * Pow(b, n) == a * (Pow(b, n) * b);
  }

  /** At a factor of 1 nothing is compounded. */
  lemma CompoundAtOne(a: real, n: nat)
    ensures Compound(a, 1.0, n) == a
  {
    PowOne(n);
  }

  /** A non-negative amount compounded over more periods at a factor of at
      least 1 is at least as large. */
  lemma CompoundMonotone(a: real, b: real, m: nat, n: nat)
    requires a >= 0.0 && b >= 1.0 && m <= n
    ensures Compound(a, b, m) <= Compound(a, b, n)
  {
    PowMonotone(b, m, n);
    ScaleMonotone(a, Pow(b, m), Pow(b, n));
  }

  /** Multiplying by a non-negative amount preserves order. */
  lemma ScaleMonotone(a: real, x: real, y: real)
    requires a >= 0.0
    requires x <= y
    ensures a * x <= a * y
  {
    assert a * y - a * x == a * (y - x);
  }
}
