/** windmap.js `Vector`: a pair of reals with length, distance and rescaling.
    Vectors are values in this model, so `copy` is the identity; `setLength`,
    which the source applies to a fresh local, returns the rescaled value. */
module Vectors {
  import opened Numerics

  datatype Vector = Vector(x: real, y: real)

  const Zero: Vector := Vector(0.0, 0.0)

  /** The squared Euclidean norm, the argument Vector.prototype.length
      passes to Math.sqrt. */
  function SquaredLength(v: Vector): real
  {
    v.x * v.x + v.y * v.y
  }

  /** Vector.prototype.length: the Euclidean norm. */
  function Length(v: Vector, m: MathLib): (r: real)
    requires Sound(m)
    ensures 0.0 <= r && r * r == SquaredLength(v)
  {
    m.sqrt(SquaredLength(v))
  }

  /** The zero vector has length zero. */
  lemma LengthOfZero(m: MathLib)
    requires Sound(m)
    ensures Length(Zero, m) == 0.0
  {
    SqrtUnique(m, SquaredLength(Zero), 0.0);
  }

  /** The vector from `a` to `b`. */
  function Delta(a: Vector, b: Vector): Vector
  {
    Vector(b.x - a.x, b.y - a.y)
  }

  /** Vector.prototype.d: the distance from `a` to `b`, the length of the
      difference vector. */
  function Distance(a: Vector, b: Vector, m: MathLib): (r: real)
    requires Sound(m)
    ensures 0.0 <= r && r * r == (b.x - a.x) * (b.x - a.x) + (b.y - a.y) * (b.y - a.y)
  {
    Length(Delta(a, b), m)
  }

  /** Distance does not depend on the direction it is measured in, and a
      point is at distance zero from itself. */
  lemma DistanceSymmetric(a: Vector, b: Vector, m: MathLib)
    requires Sound(m)
    ensures Distance(a, b, m) == Distance(b, a, m)
    ensures Distance(a, a, m) == 0.0
  {
    assert (b.x - a.x) * (b.x - a.x) == (a.x - b.x) * (a.x - b.x);
    assert (b.y - a.y) * (b.y - a.y) == (a.y - b.y) * (a.y - b.y);
    assert SquaredLength(Delta(a, b)) == SquaredLength(Delta(b, a));
    assert Delta(a, a) == Zero;
    LengthOfZero(m);
  }

  /** Vector.prototype.setLength: rescale to the given length; a vector of
      length zero is left as it is. */
  function SetLength(v: Vector, len: real, m: MathLib): (r: Vector)
    requires Sound(m)
  {
    var current := Length(v, m);
    if current != 0.0 then
      var scale := len / current;
      Vector(v.x * scale, v.y * scale)
    else
      v
  }

  /** After setLength(len) a vector of non-zero length has length |len|, and
      for a non-negative len it still points the same way (it is a
      non-negative multiple of the original); a vector of length zero is
      unchanged. */
  lemma SetLengthSetsLength(v: Vector, len: real, m: MathLib)
    requires Sound(m)
    ensures Length(v, m) == 0.0 ==> SetLength(v, len, m) == v
    ensures Length(v, m) != 0.0 ==> Length(SetLength(v, len, m), m) == Abs(len)
    ensures Length(v, m) != 0.0 && 0.0 <= len ==>
      var k := len / Length(v, m);
      0.0 <= k && SetLength(v, len, m) == Vector(k * v.x, k * v.y)
  {
    var c := Length(v, m);
    if c != 0.0 {
      var s := len / c;
      var r := SetLength(v, len, m);
      assert r == Vector(v.x * s, v.y * s);
      ScaledSquares(v.x, v.y, s, c, len);
      assert SquaredLength(r) == len * len;
      assert Abs(len) * Abs(len) == len * len;
      SqrtUnique(m, SquaredLength(r), Abs(len));
      if 0.0 <= len {
        DivNonNegative(len, c);
      }
    }
  }

  /** Scaling a vector of squared length c*c by s = len/c gives squared
      length len*len. */
  lemma ScaledSquares(x: real, y: real, s: real, c: real, len: real)
    requires c != 0.0 && s == len / c && c * c == x * x + y * y
    ensures (x * s) * (x * s) + (y * s) * (y * s) == len * len
  {
    assert s * c == len;
    calc {
      (x * s) * (x * s) + (y * s) * (y * s);
      s * s * (x * x + y * y);
      s * s * (c * c);
      (s * c) * (s * c);
    }
  }
}
