/** JavaScript numbers as the three engines use them: a finite value, kept exact
    as a real, or NaN. The arithmetic here is the part of IEEE behaviour the
    engines rely on: NaN propagates, and `%` truncates toward zero. */
module Numbers {

  datatype Option<T> = None | Some(value: T)

  /** A JavaScript number. Infinities and signed zero are not modelled. */
  datatype Num = Fin(v: real) | NaN

  function Abs(x: real): (r: real)
    ensures r >= 0.0 && (r == x || r == -x)
  {
    if x < 0.0 then -x else x
  }

  /** `Number.isInteger` on a finite value. */
  predicate IsInteger(x: real) {
    x.Floor as real == x
  }

  /** Rounds toward zero, as JavaScript's `Math.trunc`. */
  function Trunc(x: real): (t: int)
    ensures Abs(x - t as real) < 1.0
    ensures x >= 0.0 ==> 0.0 <= t as real <= x
    ensures x <= 0.0 ==> x <= t as real <= 0.0
  {
    if x >= 0.0 then x.Floor else -((-x).Floor)
  }

  function Add(a: Num, b: Num): Num {
    if a.Fin? && b.Fin? then Fin(a.v + b.v) else NaN
  }

  function Sub(a: Num, b: Num): Num {
    if a.Fin? && b.Fin? then Fin(a.v - b.v) else NaN
  }

  function Mul(a: Num, b: Num): Num {
    if a.Fin? && b.Fin? then Fin(a.v * b.v) else NaN
  }

  /** `a / b` for a non-zero divisor (the engines test for zero before dividing). */
  function Div(a: Num, b: Num): Num
    requires b != Fin(0.0)
  {
    if a.Fin? && b.Fin? then Fin(a.v / b.v) else NaN
  }

  /** JavaScript's remainder `a % b` on finite operands: the result has the sign
      of the dividend, is smaller than the divisor in magnitude, and differs from
      the dividend by a whole multiple of the divisor. */
  function Rem(a: real, b: real): (r: real)
    requires b != 0.0
    ensures a >= 0.0 ==> 0.0 <= r < Abs(b)
    ensures a <= 0.0 ==> -Abs(b) < r <= 0.0
    ensures IsInteger((a - r) / b)
  {
    var n := Trunc(a / b);
    RemFacts(a, b, n);
    a - b * n as real
  }

  lemma RemFacts(a: real, b: real, n: int)
    requires b != 0.0 && n == Trunc(a / b)
    ensures a >= 0.0 ==> 0.0 <= a - b * n as real < Abs(b)
    ensures a <= 0.0 ==> -Abs(b) < a - b * n as real <= 0.0
    ensures IsInteger((a - (a - b * n as real)) / b)
  {
    RemInteger(a, b, n);
    QuotientSign(a, b);
    RemBound(a, b, a / b, n as real);
  }

  lemma RemInteger(a: real, b: real, n: int)
    requires b != 0.0
    ensures IsInteger((a - (a - b * n as real)) / b)
  {
    RemQuotient(a, b, n as real);
    assert (n as real).Floor == n;
  }

  lemma RemQuotient(a: real, b: real, t: real)
    requires b != 0.0
    ensures (a - (a - b * t)) / b == t
  {
    assert a - (a - b * t) == b * t;
  }

  lemma RemBound(a: real, b: real, q: real, t: real)
    requires b != 0.0 && q == a / b && -1.0 < q - t < 1.0
    requires q >= 0.0 ==> q - t >= 0.0
    requires q <= 0.0 ==> q - t <= 0.0
    requires (a >= 0.0) == (b > 0.0) ==> q >= 0.0
    requires (a <= 0.0) == (b > 0.0) ==> q <= 0.0
    ensures a >= 0.0 ==> 0.0 <= a - b * t < Abs(b)
    ensures a <= 0.0 ==> -Abs(b) < a - b * t <= 0.0
  {
    var d := q - t;
    assert a == b * q;
    assert a - b * t == b * d;
    ScaledFraction(b, d);
    ScaledSign(b, d);
  }

  lemma PositiveProduct(x: real, y: real)
    requires x > 0.0 && y > 0.0
    ensures x * y > 0.0
  {
  }

  lemma ProductBelow(m: real, e: real)
    requires m > 0.0 && e < 1.0
    ensures m * e < m
  {
    PositiveProduct(m, 1.0 - e);
    assert m * (1.0 - e) == m - m * e;
  }

  /** A fraction of `b` strictly between -1 and 1 of it stays inside `b`'s magnitude. */
  lemma ScaledFraction(b: real, d: real)
    requires b != 0.0 && -1.0 < d < 1.0
    ensures -Abs(b) < b * d < Abs(b)
  {
    if b > 0.0 {
      ProductBelow(b, d);
      ProductBelow(b, -d);
      assert b * -d == -(b * d);
    } else {
      ProductBelow(-b, d);
      ProductBelow(-b, -d);
      assert -b * -d == b * d;
      assert -b * d == -(b * d);
    }
  }

  /** The quotient `a / b` has the sign the signs of `a` and `b` give. */
  lemma QuotientSign(a: real, b: real)
    requires b != 0.0
    ensures (a >= 0.0) == (b > 0.0) ==> a / b >= 0.0
    ensures (a <= 0.0) == (b > 0.0) ==> a / b <= 0.0
  {
    var q := a / b;
    assert a == b * q;
    ScaledSign(b, q);
  }

  lemma ScaledSign(b: real, q: real)
    requires b != 0.0
    ensures b > 0.0 && q > 0.0 ==> b * q > 0.0
    ensures b > 0.0 && q < 0.0 ==> b * q < 0.0
    ensures b < 0.0 && q > 0.0 ==> b * q < 0.0
    ensures b < 0.0 && q < 0.0 ==> b * q > 0.0
  {
    if b > 0.0 && q < 0.0 { PositiveProduct(b, -q); assert b * -q == -(b * q); }
    if b < 0.0 && q > 0.0 { PositiveProduct(-b, q); assert -b * q == -(b * q); }
    if b < 0.0 && q < 0.0 { PositiveProduct(-b, -q); assert -b * -q == b * q; }
  }

  /** `a % b` on JavaScript numbers, for a non-zero divisor. */
  function Mod(a: Num, b: Num): Num
    requires b != Fin(0.0)
  {
    if a.Fin? && b.Fin? then Fin(Rem(a.v, b.v)) else NaN
  }
}
