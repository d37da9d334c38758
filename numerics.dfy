/** Small numeric vocabulary shared by the model: the host's math library
    (which the model cannot compute and so receives as a value), and the
    rounding helpers JavaScript and Python use. JavaScript and Python numbers
    are modelled as exact reals. */
module Numerics {

  datatype Option<+T> = None | Some(value: T)

  /** Math.PI, written as JavaScript prints the double. */
  const Pi: real := 3.141592653589793

  /** The two library calls of the host the model cannot evaluate:
      Math.sqrt (Python's math.sqrt) and Math.cos. */
  datatype MathLib = MathLib(sqrt: real -> real, cos: real -> real)

  /** What the model relies on about the library: sqrt returns the
      non-negative square root, cos stays in [-1, 1], and cos(Math.PI) is
      exactly -1 (as it is for JavaScript doubles). */
  ghost predicate Sound(m: MathLib) {
    && (forall x :: 0.0 <= x ==> 0.0 <= m.sqrt(x) && m.sqrt(x) * m.sqrt(x) == x)
    && (forall x :: -1.0 <= m.cos(x) <= 1.0)
    && m.cos(Pi) == -1.0
  }

  /** The product of two positive reals is positive. */
  lemma MulPositive(a: real, b: real)
    ensures 0.0 < a && 0.0 < b ==> 0.0 < a * b
  {
  }

  /** The quotient of a non-negative real by a positive one is
      non-negative. */
  lemma DivNonNegative(a: real, b: real)
    ensures 0.0 <= a && 0.0 < b ==> 0.0 <= a / b
  {
  }

  /** A sound sqrt is the only non-negative root. */
  lemma SqrtUnique(m: MathLib, x: real, r: real)
    requires Sound(m) && 0.0 <= r && r * r == x
    ensures m.sqrt(x) == r
  {
    var s := m.sqrt(x);
    assert s * s == r * r;
    SquaresOrdered(s, r);
    SquaresOrdered(r, s);
  }

  /** Square roots preserve order. */
  lemma SqrtMonotone(m: MathLib, a: real, b: real)
    requires Sound(m) && 0.0 <= a <= b
    ensures m.sqrt(a) <= m.sqrt(b)
  {
    SquaresOrdered(m.sqrt(a), m.sqrt(b));
  }

  /** Of two non-negative reals, the one with the smaller square is smaller. */
  lemma SquaresOrdered(p: real, q: real)
    requires 0.0 <= p && 0.0 <= q && p * p <= q * q
    ensures p <= q
  {
    assert (p - q) * (p + q) == p * p - q * q;
    MulPositive(p - q, p + q);
  }

  function Min(a: real, b: real): real { if a <= b then a else b }

  function Max(a: real, b: real): real { if a >= b then a else b }

  function Abs(a: real): real { if a < 0.0 then -a else a }

  /** Math.ceil on a real. */
  function Ceil(a: real): (c: int)
    ensures a <= c as real < a + 1.0
    ensures c == a.Floor || c == a.Floor + 1
    ensures c == a.Floor <==> a == a.Floor as real
  {
    -((-a).Floor)
  }

  /** Math.round: the nearest integer, halves rounded towards +infinity. */
  function Round(a: real): (n: int)
    ensures n as real - 0.5 <= a < n as real + 0.5
  {
    (a + 0.5).Floor
  }

  /** Python's pow(x, n) for a natural exponent. */
  function Pow(x: real, n: nat): (r: real)
    ensures 0.0 < x ==> 0.0 < r
    ensures 0.0 <= x ==> 0.0 <= r
  {
    if n == 0 then 1.0 else x * Pow(x, n - 1)
  }

  /** Linear interpolation from p (t = 0) to q (t = 1). */
  function Lerp(p: real, q: real, t: real): real
  {
    p * (1.0 - t) + q * t
  }

  /** For t in [0, 1] a linear interpolation stays between its ends. */
  lemma LerpBetween(p: real, q: real, t: real, lo: real, hi: real)
    requires 0.0 <= t <= 1.0 && lo <= p <= hi && lo <= q <= hi
    ensures lo <= Lerp(p, q, t) <= hi
  {
    assert Lerp(p, q, t) - lo == (p - lo) * (1.0 - t) + (q - lo) * t;
    assert hi - Lerp(p, q, t) == (hi - p) * (1.0 - t) + (hi - q) * t;
    MulNonNegative(p - lo, 1.0 - t);
    MulNonNegative(q - lo, t);
    MulNonNegative(hi - p, 1.0 - t);
    MulNonNegative(hi - q, t);
  }

  lemma MulNonNegative(a: real, b: real)
    requires 0.0 <= a && 0.0 <= b
    ensures 0.0 <= a * b
  {
  }
}
