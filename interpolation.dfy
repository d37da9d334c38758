/** interpolation.py: inverse-distance weighting of station values onto a
    grid.

    `pointValue` estimates the value at one point as the average of the
    station values weighted by 1 / dist^power, where dist is the distance
    to the station softened by `smoothing`. A station closer than 1e-10
    answers outright with its own value; with no weight at all (no
    stations) the answer is the sentinel -9999. `invDist` evaluates
    `pointValue` at every integer point of an xsize x ysize grid.

    math.sqrt is the `sqrt` of a sound `MathLib` received as a value; the
    exponent is a natural number. */
module Interpolation {
  import opened Numerics

  /** The distance under which a station counts as hit exactly. */
  const HitDistance: real := 0.0000000001

  /** What pointValue returns when no station gives any weight. */
  const NoData: real := -9999.0

  /** The stations: their coordinates xv, yv and their values. */
  datatype Stations = Stations(xv: seq<real>, yv: seq<real>, values: seq<real>)

  /** pointValue reads xv[i] and yv[i] for every i < len(values). */
  predicate WellFormed(st: Stations)
  {
    |st.values| <= |st.xv| && |st.values| <= |st.yv|
  }

  /** Where and how pointValue estimates: the point (x, y), the exponent
      and the smoothing. */
  datatype Probe = Probe(x: real, y: real, power: nat, smoothing: real)

  /** The squared, smoothed distance from the probe to (sx, sy). */
  function Spread(q: Probe, sx: real, sy: real): (r: real)
    ensures q.smoothing * q.smoothing <= r
  {
    var dx, dy := q.x - sx, q.y - sy;
    Square(dx);
    Square(dy);
    dx * dx + dy * dy + q.smoothing * q.smoothing
  }

  lemma Square(a: real)
    ensures 0.0 <= a * a
  {
    MulPositive(a, a);
    MulPositive(-a, -a);
  }

  /** The smoothed distance from the probe to (sx, sy); it is never below
      the smoothing. */
  function PointDist(q: Probe, sx: real, sy: real, m: MathLib): (d: real)
    requires Sound(m)
    ensures 0.0 <= d && d * d == Spread(q, sx, sy)
    ensures 0.0 <= q.smoothing ==> q.smoothing <= d
  {
    var s := Spread(q, sx, sy);
    Square(q.smoothing);
    var d := m.sqrt(s);
    RootOrdered(q.smoothing, d);
    d
  }

  /** The smoothed distance from the probe to station i. */
  function Dist(q: Probe, st: Stations, i: nat, m: MathLib): (d: real)
    requires Sound(m) && WellFormed(st) && i < |st.values|
    ensures 0.0 <= d
    ensures 0.0 <= q.smoothing ==> q.smoothing <= d
  {
    PointDist(q, st.xv[i], st.yv[i], m)
  }

  lemma RootOrdered(a: real, d: real)
    ensures 0.0 <= a && 0.0 <= d && a * a <= d * d ==> a <= d
  {
    if 0.0 <= a && 0.0 <= d && a * a <= d * d {
      SquaresOrdered(a, d);
    }
  }

  /** None of the first n stations is hit. */
  predicate NoHit(q: Probe, st: Stations, m: MathLib, n: nat)
    requires Sound(m) && WellFormed(st) && n <= |st.values|
  {
    forall i :: 0 <= i < n ==> Dist(q, st, i, m) >= HitDistance
  }

  /** The first of the first n stations that is hit, if any. */
  function FirstHit(q: Probe, st: Stations, m: MathLib, n: nat): (h: Option<nat>)
    requires Sound(m) && WellFormed(st) && n <= |st.values|
    ensures h.None? <==> NoHit(q, st, m, n)
    ensures h.Some? ==> h.value < n && Dist(q, st, h.value, m) < HitDistance && NoHit(q, st, m, h.value)
  {
    if n == 0 then None
    else
      var h := FirstHit(q, st, m, n - 1);
      if h.Some? then h
      else if Dist(q, st, n - 1, m) < HitDistance then Some(n - 1)
      else None
  }

  /** A station's weight 1 / dist^power and its weighted value. */
  function Weight(q: Probe, st: Stations, i: nat, m: MathLib): (w: real)
    requires Sound(m) && WellFormed(st) && i < |st.values| && Dist(q, st, i, m) >= HitDistance
    ensures 0.0 < w
  {
    var p := Pow(Dist(q, st, i, m), q.power);
    DivPositive(1.0, p);
    1.0 / p
  }

  lemma DivPositive(a: real, b: real)
    requires 0.0 < a && 0.0 < b
    ensures 0.0 < a / b
  {
  }

  /** nominator and denominator after the first n stations. */
  function Nominator(q: Probe, st: Stations, m: MathLib, n: nat): real
    requires Sound(m) && WellFormed(st) && n <= |st.values| && NoHit(q, st, m, n)
  {
    if n == 0 then 0.0
    else Nominator(q, st, m, n - 1) + st.values[n - 1] / Pow(Dist(q, st, n - 1, m), q.power)
  }

  function Denominator(q: Probe, st: Stations, m: MathLib, n: nat): real
    requires Sound(m) && WellFormed(st) && n <= |st.values| && NoHit(q, st, m, n)
  {
    if n == 0 then 0.0
    else Denominator(q, st, m, n - 1) + Weight(q, st, n - 1, m)
  }

  /** What pointValue returns: the value of the first station hit;
      otherwise the weighted average, or NoData when the weights sum to
      nothing. */
  function Estimate(q: Probe, st: Stations, m: MathLib): real
    requires Sound(m) && WellFormed(st)
  {
    var n := |st.values|;
    var h := FirstHit(q, st, m, n);
    if h.Some? then st.values[h.value]
    else
      var den := Denominator(q, st, m, n);
      if den > 0.0 then Nominator(q, st, m, n) / den else NoData
  }

  /** pointValue: one pass over the stations accumulating nominator and
      denominator, returning at the first station hit. */
  method PointValue(q: Probe, st: Stations, m: MathLib) returns (value: real)
    requires Sound(m) && WellFormed(st)
    ensures value == Estimate(q, st, m)
  {
    var nominator := 0.0;
    var denominator := 0.0;
    var i := 0;
    while i < |st.values|
      invariant 0 <= i <= |st.values| && NoHit(q, st, m, i)
      invariant nominator == Nominator(q, st, m, i) && denominator == Denominator(q, st, m, i)
    {
      var dist := Dist(q, st, i, m);
      if dist < HitDistance {
        FirstHitStays(q, st, m, i, |st.values|);
        return st.values[i];
      }
      var p := Pow(dist, q.power);
      nominator := nominator + st.values[i] / p;
      denominator := denominator + 1.0 / p;
      i := i + 1;
    }
    if denominator > 0.0 {
      value := nominator / denominator;
    } else {
      value := NoData;
    }
  }

  /** Once station i is the first hit, it stays the first hit however many
      stations follow. */
  lemma {:induction false} FirstHitStays(q: Probe, st: Stations, m: MathLib, i: nat, n: nat)
    requires Sound(m) && WellFormed(st) && i < n <= |st.values|
    requires NoHit(q, st, m, i) && Dist(q, st, i, m) < HitDistance
    ensures FirstHit(q, st, m, n) == Some(i)
    decreases n
  {
    if n > i + 1 {
      FirstHitStays(q, st, m, i, n - 1);
    }
  }

  /** The stations after the first one hit do not matter: any station
      list that agrees up to and including it gives the same estimate, that
      station's value. */
  lemma LaterStationsIgnored(q: Probe, st: Stations, other: Stations, m: MathLib, j: nat)
    requires Sound(m) && WellFormed(st) && WellFormed(other)
    requires FirstHit(q, st, m, |st.values|) == Some(j)
    requires j < |other.values|
    requires forall i :: 0 <= i <= j ==>
      other.xv[i] == st.xv[i] && other.yv[i] == st.yv[i] && other.values[i] == st.values[i]
    ensures Estimate(q, other, m) == Estimate(q, st, m) == st.values[j]
  {
    assert forall i :: 0 <= i <= j ==> Dist(q, other, i, m) == Dist(q, st, i, m);
    FirstHitStays(q, other, m, j, |other.values|);
  }

  /** Without stations pointValue answers NoData. */
  lemma NoStationsNoData(q: Probe, st: Stations, m: MathLib)
    requires Sound(m) && WellFormed(st) && |st.values| == 0
    ensures Estimate(q, st, m) == NoData
  {
  }

  /** With at least one station the estimate lies within any bounds of the
      station values: it is one of them, or an average with positive
      weights. In particular NoData comes back only for no stations or
      when it is itself within the values' range. */
  lemma EstimateWithinValues(q: Probe, st: Stations, m: MathLib, lo: real, hi: real)
    requires Sound(m) && WellFormed(st) && |st.values| > 0
    requires forall i :: 0 <= i < |st.values| ==> lo <= st.values[i] <= hi
    ensures lo <= Estimate(q, st, m) <= hi
  {
    var n := |st.values|;
    if FirstHit(q, st, m, n).None? {
      SumsBounded(q, st, m, n, lo, hi);
      AverageBounded(Nominator(q, st, m, n), Denominator(q, st, m, n), lo, hi);
    }
  }

  /** lo * den <= nom <= hi * den and den > 0 put nom / den in [lo, hi]. */
  lemma AverageBounded(nom: real, den: real, lo: real, hi: real)
    requires 0.0 < den && Bounded(nom, den, lo, hi)
    ensures lo <= nom / den <= hi
  {
    assert nom / den - lo == (nom - lo * den) / den;
    assert hi - nom / den == (hi * den - nom) / den;
    DivNonNegative(nom - lo * den, den);
    DivNonNegative(hi * den - nom, den);
  }

  /** nom is a combination of values in [lo, hi] with total weight den. */
  predicate Bounded(nom: real, den: real, lo: real, hi: real)
  {
    lo * den <= nom <= hi * den
  }

  /** The sums are a positive-weight combination: the nominator lies
      between lo and hi times the denominator, which is positive as soon as
      one station counts. */
  lemma {:induction false} SumsBounded(q: Probe, st: Stations, m: MathLib, n: nat, lo: real, hi: real)
    requires Sound(m) && WellFormed(st) && n <= |st.values| && NoHit(q, st, m, n)
    requires forall i :: 0 <= i < n ==> lo <= st.values[i] <= hi
    ensures Bounded(Nominator(q, st, m, n), Denominator(q, st, m, n), lo, hi)
    ensures n > 0 ==> 0.0 < Denominator(q, st, m, n)
  {
    if n == 0 {
      assert lo * 0.0 == 0.0 && hi * 0.0 == 0.0;
    } else {
      SumsBounded(q, st, m, n - 1, lo, hi);
      var p := Pow(Dist(q, st, n - 1, m), q.power);
      AddBounds(Nominator(q, st, m, n - 1), Denominator(q, st, m, n - 1), st.values[n - 1], p, lo, hi);
    }
  }

  /** Adding a station's term keeps the sums bounded. */
  lemma AddBounds(nom: real, den: real, v: real, p: real, lo: real, hi: real)
    requires Bounded(nom, den, lo, hi) && 0.0 < p && lo <= v <= hi
    ensures Bounded(nom + v / p, den + 1.0 / p, lo, hi)
  {
    TermBounded(v, p, lo, hi);
    var w := 1.0 / p;
    assert lo * (den + w) == lo * den + lo * w;
    assert hi * (den + w) == hi * den + hi * w;
  }

  /** v / p lies between lo / p and hi / p for a positive p. */
  lemma TermBounded(v: real, p: real, lo: real, hi: real)
    requires 0.0 < p && lo <= v <= hi
    ensures lo * (1.0 / p) <= v / p <= hi * (1.0 / p)
  {
    assert v / p - lo * (1.0 / p) == (v - lo) / p;
    assert hi * (1.0 / p) - v / p == (hi - v) / p;
    DivNonNegative(v - lo, p);
    DivNonNegative(hi - v, p);
  }

  /** With smoothing of at least 1e-10 no station is ever hit, so the
      early return never fires. */
  lemma SmoothingPreventsHits(q: Probe, st: Stations, m: MathLib)
    requires Sound(m) && WellFormed(st) && HitDistance <= q.smoothing
    ensures FirstHit(q, st, m, |st.values|) == None
  {
  }

  /** Without smoothing, a probe exactly on station k hits k or an earlier
      station, and the estimate is that station's value. */
  lemma ExactHit(q: Probe, st: Stations, m: MathLib, k: nat)
    requires Sound(m) && WellFormed(st) && k < |st.values|
    requires q.smoothing == 0.0 && q.x == st.xv[k] && q.y == st.yv[k]
    ensures var h := FirstHit(q, st, m, |st.values|);
      h.Some? && h.value <= k && Estimate(q, st, m) == st.values[h.value]
  {
    var d := Dist(q, st, k, m);
    assert Spread(q, st.xv[k], st.yv[k]) == 0.0;
    MulPositive(d, d);
    assert d < HitDistance;
  }

  /** invDist: a ysize x xsize grid whose cell [y, x] holds pointValue at
      the point (x, y) (x outer, y inner, as the loops run). */
  method InvDist(st: Stations, xsize: nat, ysize: nat, power: nat, smoothing: real, m: MathLib)
    returns (grid: array2<real>)
    requires Sound(m) && WellFormed(st)
    ensures fresh(grid) && grid.Length0 == ysize && grid.Length1 == xsize
    ensures forall y, x :: 0 <= y < ysize && 0 <= x < xsize ==>
      grid[y, x] == Estimate(Probe(x as real, y as real, power, smoothing), st, m)
  {
    grid := new real[ysize, xsize]((y, x) => 0.0);
    var x := 0;
    while x < xsize
      invariant 0 <= x <= xsize
      invariant forall y', x' :: 0 <= y' < ysize && 0 <= x' < x ==>
        grid[y', x'] == Estimate(Probe(x' as real, y' as real, power, smoothing), st, m)
    {
      FillColumn(grid, x, st, power, smoothing, m);
      x := x + 1;
    }
  }

  /** invDist's inner loop: column x of the grid, row by row; the other
      columns are left as they are. */
  method FillColumn(grid: array2<real>, x: nat, st: Stations, power: nat, smoothing: real, m: MathLib)
    requires Sound(m) && WellFormed(st) && x < grid.Length1
    modifies grid
    ensures forall y', x' :: 0 <= y' < grid.Length0 && 0 <= x' < grid.Length1 ==>
      grid[y', x'] == if x' == x then Estimate(Probe(x as real, y' as real, power, smoothing), st, m)
                      else old(grid[y', x'])
  {
    var y := 0;
    while y < grid.Length0
      invariant 0 <= y <= grid.Length0
      invariant forall y', x' :: 0 <= y' < grid.Length0 && 0 <= x' < grid.Length1 ==>
        grid[y', x'] == if x' == x && y' < y then Estimate(Probe(x as real, y' as real, power, smoothing), st, m)
                        else old(grid[y', x'])
    {
      var v := PointValue(Probe(x as real, y as real, power, smoothing), st, m);
      grid[y, x] := v;
      y := y + 1;
    }
  }
}
