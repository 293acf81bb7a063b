/** app/core/money.py: amounts are counted in halalas (0.01 SAR). An exact Decimal is a `real`
    number of halalas; an amount on the money grid is an `int`. */
module Money {

  /** ROUND_HALF_UP to the grid: nearest halala, ties away from zero. */
  function Quantize(x: real): (q: int)
    ensures x >= 0.0 ==> q as real - 0.5 <= x < q as real + 0.5
    ensures x < 0.0 ==> q as real - 0.5 < x <= q as real + 0.5
  {
    if x >= 0.0 then (x + 0.5).Floor else -((0.5 - x).Floor)
  }

  predicate OnGrid(x: real) {
    x == x.Floor as real
  }

  lemma QuantizeOnGrid(n: int)
    ensures Quantize(n as real) == n && OnGrid(n as real)
  {
  }

  /** Adding an on-grid amount to a balance is exact. */
  lemma GridAdd(balance: int, x: real)
    requires OnGrid(x)
    ensures Quantize(balance as real + x) == balance + Quantize(x) && x == Quantize(x) as real
  {
    var n := x.Floor;
    QuantizeOnGrid(n);
    QuantizeOnGrid(balance + n);
    assert balance as real + x == (balance + n) as real;
  }

  /** Odd symmetry: a debit rounds exactly as the matching credit. */
  lemma QuantizeOdd(x: real)
    ensures Quantize(-x) == -Quantize(x)
  {
  }

  lemma QuantizeMonotone(x: real, y: real)
    requires x <= y
    ensures Quantize(x) <= Quantize(y)
  {
  }

  /** Whole halalas slide through the rounding on the non-negative side ... */
  lemma QuantizeShift(x: real, n: int)
    requires x >= 0.0 && n >= 0
    ensures Quantize(x + n as real) == Quantize(x) + n
  {
  }

  /** ... and in general exactly when a tie does not change side of zero. */
  lemma QuantizeTranslates(x: real, n: int)
    ensures Quantize(x + n as real) == Quantize(x) + n
       <==> (IsTie(x) ==> (x >= 0.0 <==> x + n as real >= 0.0))
  {
    QuantizeByFloor(x);
    QuantizeByFloor(x + n as real);
    assert (x + n as real).Floor == x.Floor + n;
  }

  /** Rounding read off the fractional part. */
  lemma QuantizeByFloor(x: real)
    ensures var fraction := x - x.Floor as real;
            Quantize(x) == x.Floor + (if fraction > 0.5 || (fraction == 0.5 && x >= 0.0) then 1 else 0)
  {
  }

  predicate IsTie(x: real) {
    x - x.Floor as real == 0.5
  }

  /** Rounding at most doubles a non-negative value. */
  lemma QuantizeAtMostDoubles(x: real)
    requires x >= 0.0
    ensures 0 <= Quantize(x) && Quantize(x) as real <= 2.0 * x
  {
  }
}
