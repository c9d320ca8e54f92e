/** Python's floor division `a // b` on floats, taken over exact reals.
    Python rounds the true quotient towards negative infinity (not towards
    zero) and raises ZeroDivisionError for a zero divisor, which the model
    turns into the precondition `b != 0.0`. */
module PyFloat {

  /** `a // b`: the unique whole number q with q <= a / b < q + 1. On
      floats Python returns it as a float, hence the real result. */
  function FloorDiv(a: real, b: real): (q: real)
    requires b != 0.0
    ensures q == q.Floor as real
    ensures q <= a / b < q + 1.0
  {
    (a / b).Floor as real
  }

  /** For a positive divisor, `a // b` times the divisor is at most the
      dividend, and the next multiple is above it: the converse of
      `FloorDivUnique`. */
  lemma FloorDivBetweenMultiples(a: real, b: real)
    requires b > 0.0
    ensures FloorDiv(a, b) * b <= a < (FloorDiv(a, b) + 1.0) * b
  {
    MultiplesAround(a, b, FloorDiv(a, b));
  }

  /** Multiplying `q <= a / b < q + 1` by a positive b. */
  lemma MultiplesAround(a: real, b: real, q: real)
    requires b > 0.0 && q <= a / b < q + 1.0
    ensures q * b <= a < (q + 1.0) * b
  {
    ScaleQuotient(q, a / b, b, a);
    ScaleQuotient(a / b, q + 1.0, b, a);
  }

  /** Multiplying t < y (or t <= y) by a positive b, with one of the two
      products known as a. */
  lemma ScaleQuotient(t: real, y: real, b: real, a: real)
    requires b > 0.0
    ensures t * b == a && t < y ==> a < y * b
    ensures y * b == a && t <= y ==> t * b <= a
  {
    assert y * b - t * b == (y - t) * b;
  }

  /** `a % b`: what `a // b` leaves over, so that `a == (a // b) * b + a % b`. */
  function Mod(a: real, b: real): real
    requires b != 0.0
  {
    a - FloorDiv(a, b) * b
  }

  /** The remainder takes the sign of the divisor and is smaller than it in
      magnitude. */
  lemma ModBounds(a: real, b: real)
    requires b != 0.0
    ensures b > 0.0 ==> 0.0 <= Mod(a, b) < b
    ensures b < 0.0 ==> b < Mod(a, b) <= 0.0
  {
    var q := FloorDiv(a, b);
    FractionOfDivisor(a, b, q);
    FractionTimesDivisor(Mod(a, b), a / b - q, b);
  }

  /** A fraction f in [0, 1) of a divisor b lies between 0 and b. */
  lemma FractionTimesDivisor(m: real, f: real, b: real)
    requires m == f * b && 0.0 <= f < 1.0 && b != 0.0
    ensures b > 0.0 ==> 0.0 <= m < b
    ensures b < 0.0 ==> b < m <= 0.0
  {
    if b > 0.0 {
      ScaleWeak(0.0, f, b);
      ScaleStrict(f, 1.0, b);
    } else {
      ScaleWeak(0.0, f, -b);
      ScaleStrict(f, 1.0, -b);
      assert f * -b == -(f * b);
    }
  }

  /** What is left after q whole divisors is the fractional part of the
      quotient, times the divisor. */
  lemma FractionOfDivisor(a: real, b: real, q: real)
    requires b != 0.0
    ensures a - q * b == (a / b - q) * b
  {
    assert (a / b) * b == a;
  }

  /** For a positive divisor, `a // b` is the whole number n with
      n * b <= a < (n + 1) * b: the quotient is determined by multiples of
      the divisor alone, without a division. */
  lemma FloorDivUnique(a: real, b: real, n: int)
    requires b > 0.0 && n as real * b <= a < (n as real + 1.0) * b
    ensures FloorDiv(a, b) == n as real
  {
    QuotientBetween(a, b, n);
    var t := a / b;
    assert n as real <= t < n as real + 1.0;
    assert t.Floor == n;
  }

  /** Dividing `n * b <= a < (n + 1) * b` by a positive b. */
  lemma QuotientBetween(a: real, b: real, n: int)
    requires b > 0.0 && n as real * b <= a < (n as real + 1.0) * b
    ensures n as real <= a / b < n as real + 1.0
  {
    var t := a / b;
    var x := n as real;
    var y := x + 1.0;
    assert t * b == a;
    if t < x {
      ScaleStrict(t, x, b);
      assert false;
    }
    if t >= y {
      ScaleWeak(y, t, b);
      assert false;
    }
  }

  /** Multiplying x < y by a positive b keeps the strict order. */
  lemma ScaleStrict(x: real, y: real, b: real)
    requires x < y && b > 0.0
    ensures x * b < y * b
  {
  }

  /** Multiplying x <= y by a positive b keeps the order. */
  lemma ScaleWeak(x: real, y: real, b: real)
    requires x <= y && b > 0.0
    ensures x * b <= y * b
  {
  }
}
