/** windmap.js `VectorField`: a wind field sampled on a w x h grid over the
    box [x0, x1) x [y0, y1), stored column by column (x-major), read from a
    flat interleaved array, and sampled between grid nodes by bilinear
    interpolation. */
module Fields {
  import opened Numerics
  import opened Vectors

  /** The component `bilinear` reads: 'x' or 'y'. */
  datatype Coord = X | Y

  function Component(v: Vector, c: Coord): real
  {
    match c
    case X => v.x
    case Y => v.y
  }

  /** Every column of `g` holds at least `h` cells: the constructor reads
      cells 0 .. h-1 of every column, with h taken from the first one. */
  predicate Covers(g: seq<seq<Vector>>, h: nat)
  {
    forall i :: 0 <= i < |g| ==> h <= |g[i]|
  }

  // ---------------------------------------------------------------------
  // maxLength

  /** The running maximum of the constructor's inner loop: the largest
      length among the first `j` cells of a column, starting from 0. */
  function ColumnMax(col: seq<Vector>, j: nat, m: MathLib): real
    requires Sound(m) && j <= |col|
  {
    if j == 0 then 0.0 else Max(ColumnMax(col, j - 1, m), Length(col[j - 1], m))
  }

  /** The running maximum of the constructor's outer loop: the largest
      cell length in the first `i` columns, starting from 0. */
  function GridMax(g: seq<seq<Vector>>, i: nat, h: nat, m: MathLib): real
    requires Sound(m) && i <= |g| && Covers(g, h)
  {
    if i == 0 then 0.0 else Max(GridMax(g, i - 1, h, m), ColumnMax(g[i - 1], h, m))
  }

  /** ColumnMax bounds every length it has seen and is one of them, or 0
      when they are all 0 (or there are none). */
  lemma {:induction false} ColumnMaxIsMax(col: seq<Vector>, j: nat, m: MathLib)
    requires Sound(m) && j <= |col|
    ensures 0.0 <= ColumnMax(col, j, m)
    ensures forall k :: 0 <= k < j ==> Length(col[k], m) <= ColumnMax(col, j, m)
    ensures ColumnMax(col, j, m) == 0.0 || exists k :: 0 <= k < j && ColumnMax(col, j, m) == Length(col[k], m)
  {
    if j > 0 {
      ColumnMaxIsMax(col, j - 1, m);
    }
  }

  /** maxLength, as the constructor computes it, is the largest length of
      any cell of the grid, or 0 for a grid of zero vectors (or no cells). */
  lemma {:induction false} GridMaxIsMax(g: seq<seq<Vector>>, i: nat, h: nat, m: MathLib)
    requires Sound(m) && i <= |g| && Covers(g, h)
    ensures 0.0 <= GridMax(g, i, h, m)
    ensures forall a, b :: 0 <= a < i && 0 <= b < h ==> Length(g[a][b], m) <= GridMax(g, i, h, m)
    ensures GridMax(g, i, h, m) == 0.0 ||
            exists a, b :: 0 <= a < i && 0 <= b < h && GridMax(g, i, h, m) == Length(g[a][b], m)
  {
    if i > 0 {
      GridMaxIsMax(g, i - 1, h, m);
      var last := g[i - 1];
      ColumnMaxIsMax(last, h, m);
      var col := ColumnMax(last, h, m);
      assert forall b :: 0 <= b < h ==> Length(last[b], m) <= col;
      if GridMax(g, i, h, m) != 0.0 && GridMax(g, i, h, m) == col {
        var b :| 0 <= b < h && col == Length(last[b], m);
        assert GridMax(g, i, h, m) == Length(g[i - 1][b], m);
      }
    }
  }

  // ---------------------------------------------------------------------
  // VectorField.read: the flat layout

  /** The JSON object `read` receives: grid size, the flat interleaved
      components, and the geographic box. */
  datatype GridData = GridData(gridWidth: nat, gridHeight: nat, field: seq<real>,
                               x0: real, y0: real, x1: real, y1: real)

  /** Where cell (x, y)'s x component sits in the flat array; its y
      component follows it. */
  function FlatIndex(x: nat, y: nat, h: nat): nat
  {
    2 * (x * h + y)
  }

  /** The layout is a bijection between the cells of a w x h grid and the
      even positions below 2wh: every cell's pair lies inside the 2wh
      numbers read, two cells share a position only if they are the same
      cell, and every pair of the array belongs to some cell. */
  lemma FlatIndexLayout(w: nat, h: nat, x: nat, y: nat, x': nat, y': nat)
    requires x < w && y < h && x' < w && y' < h
    ensures FlatIndex(x, y, h) + 1 < 2 * w * h
    ensures FlatIndex(x, y, h) == FlatIndex(x', y', h) <==> x == x' && y == y'
  {
    RowStart(x, y, h, w);
    if x < x' {
      RowStart(x, y, h, x');
    } else if x' < x {
      RowStart(x', y', h, x);
    }
  }

  /** Within column x the cell indices x*h+y stay below the start of any
      later column x2. */
  lemma RowStart(x: nat, y: nat, h: nat, x2: nat)
    requires y < h && x < x2
    ensures x * h + y < x2 * h
  {
    MulMonotone(x + 1, x2, h);
    assert (x + 1) * h == x * h + h;
  }

  lemma MulMonotone(a: nat, b: nat, c: nat)
    ensures a <= b ==> a * c <= b * c
  {
    if a <= b {
      var k: nat := b - a;
      assert b * c == a * c + k * c;
    }
  }

  /** Every pair position k < wh of the flat array is read for some cell. */
  lemma FlatIndexCovers(w: nat, h: nat, k: nat)
    requires k < w * h
    ensures 0 < h && k / h < w && k % h < h
    ensures FlatIndex(k / h, k % h, h) == 2 * k
  {
    MulMonotone(w, k / h, h);
    assert k == (k / h) * h + k % h;
  }

  /** The data `read` can consume: at least one column (the constructor
      reads `field[0]`) and the 2wh numbers it reads. */
  predicate Readable(d: GridData)
  {
    1 <= d.gridWidth && 2 * d.gridWidth * d.gridHeight <= |d.field|
  }

  /** Cell (x, y) as read from the flat array, before any correction. */
  function RawCell(d: GridData, x: nat, y: nat): Vector
    requires Readable(d) && x < d.gridWidth && y < d.gridHeight
  {
    FlatIndexLayout(d.gridWidth, d.gridHeight, x, y, x, y);
    var i := FlatIndex(x, y, d.gridHeight);
    Vector(d.field[i], d.field[i + 1])
  }

  /** The latitude of grid row y: y0 at row 0 to y1 at row h-1. */
  function RowLatitude(d: GridData, y: nat): real
    requires 2 <= d.gridHeight
  {
    var uy := y as real / (d.gridHeight - 1) as real;
    d.y0 * (1.0 - uy) + d.y1 * uy
  }

  /** `Math.PI * lat / 180`. */
  function Radians(deg: real): real
  {
    Pi * deg / 180.0
  }

  /** What the sphere correction needs: h >= 2 (it divides by h - 1) and a
      latitude whose cosine it can divide by in every row. */
  predicate Correctable(d: GridData, m: MathLib)
  {
    && 2 <= d.gridHeight
    && forall y: nat :: y < d.gridHeight ==> m.cos(Radians(RowLatitude(d, y))) != 0.0
  }

  /** Cell (x, y) of the field `read` builds. With the sphere correction the
      x component is divided by cos(latitude) and the vector is rescaled to
      its original length. */
  function Cell(d: GridData, x: nat, y: nat, correct: bool, m: MathLib): Vector
    requires Sound(m) && Readable(d) && x < d.gridWidth && y < d.gridHeight
    requires correct ==> Correctable(d, m)
  {
    var v := RawCell(d, x, y);
    if correct then
      var rad := Radians(RowLatitude(d, y));
      SetLength(Vector(v.x / m.cos(rad), v.y), Length(v, m), m)
    else
      v
  }

  /** A corrected cell keeps the length of the raw one whenever the
      x-stretched vector is not of length zero. */
  lemma CorrectionKeepsLength(d: GridData, x: nat, y: nat, m: MathLib)
    requires Sound(m) && Readable(d) && x < d.gridWidth && y < d.gridHeight && Correctable(d, m)
    requires var v := RawCell(d, x, y);
      Length(Vector(v.x / m.cos(Radians(RowLatitude(d, y))), v.y), m) != 0.0
    ensures Length(Cell(d, x, y, true, m), m) == Length(RawCell(d, x, y), m)
  {
    var v := RawCell(d, x, y);
    var s := Vector(v.x / m.cos(Radians(RowLatitude(d, y))), v.y);
    SetLengthSetsLength(s, Length(v, m), m);
  }

  // ---------------------------------------------------------------------
  // VectorField.read: the average length

  /** The running `total` and `weight` of `read`. */
  datatype Sums = Sums(total: real, weight: real)

  const NoSums: Sums := Sums(0.0, 0.0)

  function Add(s: Sums, t: Sums): Sums
  {
    Sums(s.total + t.total, s.weight + t.weight)
  }

  /** What a cell of length `len` in a row at `rad` radians of latitude
      adds: len * rad to the total and rad to the weight, if len is not 0. */
  function Contribution(len: real, rad: real): Sums
  {
    if len != 0.0 then Sums(len * rad, rad) else NoSums
  }

  /** The contribution of cell (x, y). */
  function CellContribution(d: GridData, x: nat, y: nat, m: MathLib): Sums
    requires Sound(m) && Readable(d) && x < d.gridWidth && y < d.gridHeight && 2 <= d.gridHeight
  {
    Contribution(Length(RawCell(d, x, y), m), Radians(RowLatitude(d, y)))
  }

  /** The sums over the first j cells of column x. */
  function ColumnSums(d: GridData, x: nat, j: nat, m: MathLib): Sums
    requires Sound(m) && Readable(d) && x < d.gridWidth && j <= d.gridHeight && 2 <= d.gridHeight
  {
    if j == 0 then NoSums else Add(ColumnSums(d, x, j - 1, m), CellContribution(d, x, j - 1, m))
  }

  /** The sums over the first i columns. */
  function GridSums(d: GridData, i: nat, m: MathLib): Sums
    requires Sound(m) && Readable(d) && i <= d.gridWidth && 2 <= d.gridHeight
  {
    if i == 0 then NoSums else Add(GridSums(d, i - 1, m), ColumnSums(d, i - 1, d.gridHeight, m))
  }

  /** `result.averageLength`: total / weight when the sphere correction ran
      and both are non-zero; otherwise the field has none. */
  function AverageLength(d: GridData, correct: bool, m: MathLib): Option<real>
    requires Sound(m) && Readable(d) && (correct ==> Correctable(d, m))
  {
    if correct then
      var s := GridSums(d, d.gridWidth, m);
      if s.total != 0.0 && s.weight != 0.0 then Some(s.total / s.weight) else None
    else
      None
  }

  /** Every raw cell of the data has length `len`. */
  ghost predicate UniformLength(d: GridData, len: real, m: MathLib)
    requires Sound(m) && Readable(d)
  {
    forall x: nat, y: nat :: x < d.gridWidth && y < d.gridHeight ==> Length(RawCell(d, x, y), m) == len
  }

  /** Sums whose total is `len` times their weight. */
  predicate Proportional(s: Sums, len: real)
  {
    s.total == len * s.weight
  }

  lemma AddProportional(s: Sums, t: Sums, len: real)
    requires Proportional(s, len) && Proportional(t, len)
    ensures Proportional(Add(s, t), len)
  {
    assert len * s.weight + len * t.weight == len * (s.weight + t.weight);
  }

  /** A cell of length len contributes in proportion len. */
  lemma ContributionProportional(d: GridData, x: nat, y: nat, len: real, m: MathLib)
    requires Sound(m) && Readable(d) && x < d.gridWidth && y < d.gridHeight && 2 <= d.gridHeight
    requires Length(RawCell(d, x, y), m) == len
    ensures Proportional(CellContribution(d, x, y, m), len)
  {
  }

  /** In a field whose cells all have length len, the sums keep total ==
      len * weight. */
  lemma {:induction false} ColumnSumsUniform(d: GridData, x: nat, j: nat, len: real, m: MathLib)
    requires Sound(m) && Readable(d) && x < d.gridWidth && j <= d.gridHeight && 2 <= d.gridHeight
    requires UniformLength(d, len, m)
    ensures Proportional(ColumnSums(d, x, j, m), len)
  {
    if j > 0 {
      ColumnSumsUniform(d, x, j - 1, len, m);
      ContributionProportional(d, x, j - 1, len, m);
      AddProportional(ColumnSums(d, x, j - 1, m), CellContribution(d, x, j - 1, m), len);
    }
  }

  lemma {:induction false} GridSumsUniform(d: GridData, i: nat, len: real, m: MathLib)
    requires Sound(m) && Readable(d) && i <= d.gridWidth && 2 <= d.gridHeight
    requires forall x: nat :: x < i ==> Proportional(ColumnSums(d, x, d.gridHeight, m), len)
    ensures Proportional(GridSums(d, i, m), len)
  {
    if i > 0 {
      GridSumsUniform(d, i - 1, len, m);
      AddProportional(GridSums(d, i - 1, m), ColumnSums(d, i - 1, d.gridHeight, m), len);
    }
  }

  /** A field whose cells all share one non-zero length has that length as
      its average, whatever the latitude weights, as long as they do not
      cancel out. */
  lemma UniformAverage(d: GridData, len: real, m: MathLib)
    requires Sound(m) && Readable(d) && Correctable(d, m)
    requires len != 0.0 && UniformLength(d, len, m)
    requires GridSums(d, d.gridWidth, m).weight != 0.0
    ensures AverageLength(d, true, m) == Some(len)
  {
    forall x: nat | x < d.gridWidth
      ensures Proportional(ColumnSums(d, x, d.gridHeight, m), len)
    {
      ColumnSumsUniform(d, x, d.gridHeight, len, m);
    }
    GridSumsUniform(d, d.gridWidth, len, m);
    ProportionalAverage(GridSums(d, d.gridWidth, m), len);
  }

  lemma ProportionalAverage(s: Sums, len: real)
    requires Proportional(s, len) && len != 0.0 && s.weight != 0.0
    ensures s.total != 0.0 && s.total / s.weight == len
  {
  }

  /** Cells of length zero add nothing: */
  lemma {:induction false} ColumnSumsStill(d: GridData, x: nat, j: nat, m: MathLib)
    requires Sound(m) && Readable(d) && x < d.gridWidth && j <= d.gridHeight && 2 <= d.gridHeight
    requires UniformLength(d, 0.0, m)
    ensures ColumnSums(d, x, j, m) == NoSums
  {
    if j > 0 {
      ColumnSumsStill(d, x, j - 1, m);
      assert Length(RawCell(d, x, j - 1), m) == 0.0;
    }
  }

  lemma {:induction false} GridSumsStill(d: GridData, i: nat, m: MathLib)
    requires Sound(m) && Readable(d) && i <= d.gridWidth && 2 <= d.gridHeight
    requires forall x: nat :: x < i ==> ColumnSums(d, x, d.gridHeight, m) == NoSums
    ensures GridSums(d, i, m) == NoSums
  {
    if i > 0 {
      GridSumsStill(d, i - 1, m);
    }
  }

  /** ...so a field without wind has no average length. */
  lemma StillAverage(d: GridData, correct: bool, m: MathLib)
    requires Sound(m) && Readable(d) && (correct ==> Correctable(d, m))
    requires UniformLength(d, 0.0, m)
    ensures AverageLength(d, correct, m) == None
  {
    if correct {
      forall x: nat | x < d.gridWidth
        ensures ColumnSums(d, x, d.gridHeight, m) == NoSums
      {
        ColumnSumsStill(d, x, d.gridHeight, m);
      }
      GridSumsStill(d, d.gridWidth, m);
    }
  }

  // ---------------------------------------------------------------------
  // bilinear blending on plain numbers

  /** The formula of `bilinear`: the four corner values p00 (at floor a,
      floor b), p10 (ceil a, floor b), p01 (floor a, ceil b) and p11 (ceil a,
      ceil b) weighted by the fractional parts fa and fb. */
  function Blend(p00: real, p10: real, p01: real, p11: real, fa: real, fb: real): real
  {
    p00 * (1.0 - fa) * (1.0 - fb) + p10 * fa * (1.0 - fb) + p01 * (1.0 - fa) * fb + p11 * fa * fb
  }

  /** The bilinear blend is a lerp (along b) of two lerps (along a). */
  lemma BlendIsNestedLerp(p00: real, p10: real, p01: real, p11: real, fa: real, fb: real)
    ensures Blend(p00, p10, p01, p11, fa, fb) == Lerp(Lerp(p00, p10, fa), Lerp(p01, p11, fa), fb)
  {
  }

  /** With fractional parts in [0, 1] the blend never leaves the range of
      its four corner values. */
  lemma BlendBetween(p00: real, p10: real, p01: real, p11: real, fa: real, fb: real, lo: real, hi: real)
    requires 0.0 <= fa <= 1.0 && 0.0 <= fb <= 1.0
    requires lo <= p00 <= hi && lo <= p10 <= hi && lo <= p01 <= hi && lo <= p11 <= hi
    ensures lo <= Blend(p00, p10, p01, p11, fa, fb) <= hi
  {
    BlendIsNestedLerp(p00, p10, p01, p11, fa, fb);
    LerpBetween(p00, p10, fa, lo, hi);
    LerpBetween(p01, p11, fa, lo, hi);
    LerpBetween(Lerp(p00, p10, fa), Lerp(p01, p11, fa), fb, lo, hi);
  }

  /** With both fractional parts zero the blend is its first corner. */
  lemma BlendAtCorner(p00: real, p10: real, p01: real, p11: real)
    ensures Blend(p00, p10, p01, p11, 0.0, 0.0) == p00
  {
  }

  /** A fractional index in [0, 1) scaled by k stays in [0, k). */
  lemma ScaledFraction(k: real, p: real, q: real)
    requires 0.0 < k && 0.0 <= p < q
    ensures 0.0 <= k * p / q < k
  {
    var n := k * p;
    assert n < k * q;
    DivBelow(n, q, k);
  }

  /** The closed form of ScaledFraction: with p = q the index reaches k. */
  lemma ScaledFractionClosed(k: real, p: real, q: real)
    requires 0.0 < k && 0.0 <= p <= q && 0.0 < q
    ensures 0.0 <= k * p / q <= k
  {
    if p < q {
      ScaledFraction(k, p, q);
    } else {
      assert k * p / q == k;
    }
  }

  lemma DivBelow(n: real, q: real, k: real)
    requires 0.0 < q && n < k * q
    ensures n / q < k
  {
  }

  // ---------------------------------------------------------------------
  // The VectorField object

  class VectorField {
    const x0: real
    const y0: real
    const x1: real
    const y1: real
    /** field[x][y], column x of the grid, row y. */
    const field: seq<seq<Vector>>
    const w: nat
    const h: nat
    var maxLength: real
    /** Set by `read` when the sphere correction computed one. */
    var averageLength: Option<real>
    /** The vector `constant` makes getValue return everywhere. */
    var fixedValue: Option<Vector>

    /** w and h are the length of `field` and of its first column, and
        every column has at least h cells. */
    predicate Valid()
    {
      && w == |field| && 1 <= w
      && h == |field[0]|
      && Covers(field, h)
    }

    /** The VectorField constructor: scans every cell and keeps the largest
        length in maxLength. */
    constructor (field: seq<seq<Vector>>, x0: real, y0: real, x1: real, y1: real, m: MathLib)
      requires Sound(m) && 1 <= |field| && Covers(field, |field[0]|)
      ensures Valid()
      ensures this.field == field && this.x0 == x0 && this.y0 == y0 && this.x1 == x1 && this.y1 == y1
      ensures maxLength == GridMax(field, w, h, m)
      ensures averageLength == None && fixedValue == None
    {
      this.x0 := x0;
      this.y0 := y0;
      this.x1 := x1;
      this.y1 := y1;
      this.field := field;
      this.w := |field|;
      this.h := |field[0]|;
      var best := 0.0;
      var i := 0;
      while i < |field|
        invariant 0 <= i <= |field|
        invariant best == GridMax(field, i, |field[0]|, m)
      {
        var j := 0;
        while j < |field[0]|
          invariant 0 <= j <= |field[0]|
          invariant best == Max(GridMax(field, i, |field[0]|, m), ColumnMax(field[i], j, m))
        {
          best := Max(best, Length(field[i][j], m));
          j := j + 1;
        }
        i := i + 1;
      }
      maxLength := best;
      averageLength := None;
      fixedValue := None;
    }

    /** VectorField.read: builds the w x h grid column by column from the
        flat array, two numbers per cell, optionally correcting for the
        sphere and averaging the lengths. */
    static method Read(d: GridData, correctForSphere: bool, m: MathLib) returns (r: VectorField)
      requires Sound(m) && Readable(d) && (correctForSphere ==> Correctable(d, m))
      ensures fresh(r) && r.Valid()
      ensures r.w == d.gridWidth && r.h == d.gridHeight
      ensures forall x, y :: 0 <= x < r.w && 0 <= y < r.h ==> r.field[x][y] == Cell(d, x, y, correctForSphere, m)
      ensures r.x0 == d.x0 && r.y0 == d.y0 && r.x1 == d.x1 && r.y1 == d.y1
      ensures r.maxLength == GridMax(r.field, r.w, r.h, m)
      ensures r.averageLength == AverageLength(d, correctForSphere, m)
      ensures r.fixedValue == None
    {
      var columns, sums := ReadColumns(d, correctForSphere, m);
      r := new VectorField(columns, d.x0, d.y0, d.x1, d.y1, m);
      if correctForSphere && sums.total != 0.0 && sums.weight != 0.0 {
        r.averageLength := Some(sums.total / sums.weight);
      }
    }

    /** Read's outer loop: the w columns of h cells each, read column by
        column from the flat array, and the running sums over all cells. */
    static method ReadColumns(d: GridData, correctForSphere: bool, m: MathLib)
      returns (columns: seq<seq<Vector>>, sums: Sums)
      requires Sound(m) && Readable(d) && (correctForSphere ==> Correctable(d, m))
      ensures |columns| == d.gridWidth
      ensures forall c :: 0 <= c < d.gridWidth ==> |columns[c]| == d.gridHeight
      ensures forall c, y :: 0 <= c < d.gridWidth && 0 <= y < d.gridHeight ==>
        columns[c][y] == Cell(d, c, y, correctForSphere, m)
      ensures correctForSphere ==> sums == GridSums(d, d.gridWidth, m)
      ensures !correctForSphere ==> sums == NoSums
    {
      var w, h := d.gridWidth, d.gridHeight;
      columns := [];
      var i := 0;
      sums := NoSums;
      var x := 0;
      while x < w
        invariant 0 <= x <= w && i == 2 * (x * h)
        invariant |columns| == x
        invariant forall c :: 0 <= c < x ==> |columns[c]| == h
        invariant forall c, y :: 0 <= c < x && 0 <= y < h ==> columns[c][y] == Cell(d, c, y, correctForSphere, m)
        invariant correctForSphere ==> sums == GridSums(d, x, m)
        invariant !correctForSphere ==> sums == NoSums
      {
        var column;
        column, i, sums := ReadColumn(d, x, i, sums, correctForSphere, m);
        columns := columns + [column];
        x := x + 1;
      }
    }

    /** Read's inner loop: column x, read from positions 2xh to 2xh + 2h - 1
        of the flat array, and the running sums with its cells added. */
    static method ReadColumn(d: GridData, x: nat, i: nat, sums: Sums, correctForSphere: bool, m: MathLib)
      returns (column: seq<Vector>, i': nat, sums': Sums)
      requires Sound(m) && Readable(d) && x < d.gridWidth
      requires correctForSphere ==> Correctable(d, m)
      requires i == 2 * (x * d.gridHeight)
      ensures i' == 2 * ((x + 1) * d.gridHeight)
      ensures |column| == d.gridHeight
      ensures forall y :: 0 <= y < d.gridHeight ==> column[y] == Cell(d, x, y, correctForSphere, m)
      ensures correctForSphere ==> sums' == Add(sums, ColumnSums(d, x, d.gridHeight, m))
      ensures !correctForSphere ==> sums' == sums
    {
      var h := d.gridHeight;
      i' := i;
      column := [];
      sums' := sums;
      var y := 0;
      while y < h
        invariant 0 <= y <= h && i' == 2 * (x * h + y)
        invariant |column| == y
        invariant forall k :: 0 <= k < y ==> column[k] == Cell(d, x, k, correctForSphere, m)
        invariant correctForSphere ==> sums' == Add(sums, ColumnSums(d, x, y, m))
        invariant !correctForSphere ==> sums' == sums
      {
        var v;
        v, sums' := ReadCell(d, x, y, i', sums', correctForSphere, m);
        i' := i' + 2;
        column := column + [v];
        y := y + 1;
      }
      assert (x + 1) * h == x * h + h;
    }

    /** One pass of read's inner loop: cell (x, y) from positions i and
        i + 1 of the flat array, corrected for the sphere if asked, and the
        running total and weight with the cell's contribution added. */
    static method ReadCell(d: GridData, x: nat, y: nat, i: nat, sums: Sums, correctForSphere: bool, m: MathLib)
      returns (v: Vector, sums': Sums)
      requires Sound(m) && Readable(d) && x < d.gridWidth && y < d.gridHeight
      requires correctForSphere ==> Correctable(d, m)
      requires i == FlatIndex(x, y, d.gridHeight)
      ensures v == Cell(d, x, y, correctForSphere, m)
      ensures sums' == if correctForSphere then Add(sums, CellContribution(d, x, y, m)) else sums
    {
      FlatIndexLayout(d.gridWidth, d.gridHeight, x, y, x, y);
      var vx := d.field[i];
      var vy := d.field[i + 1];
      v := Vector(vx, vy);
      sums' := sums;
      if correctForSphere {
        var lat := RowLatitude(d, y);
        var rad := Radians(lat);
        var length := Length(v, m);
        if length != 0.0 {
          sums' := Sums(sums'.total + length * rad, sums'.weight + rad);
        }
        assert sums' == Add(sums, Contribution(length, rad));
        v := SetLength(Vector(v.x / m.cos(rad), v.y), length, m);
      }
    }

    /** VectorField.constant: a field of one fixed vector; its maxLength is
        that vector's length. */
    static method Constant(dx: real, dy: real, x0: real, y0: real, x1: real, y1: real, m: MathLib)
      returns (f: VectorField)
      requires Sound(m)
      ensures fresh(f) && f.Valid() && f.w == 1 && f.h == 0
      ensures f.x0 == x0 && f.y0 == y0 && f.x1 == x1 && f.y1 == y1
      ensures f.maxLength == Length(Vector(dx, dy), m)
      ensures forall x, y :: f.Samples(x, y) && f.GetValue(x, y) == Vector(dx, dy)
    {
      f := new VectorField([[]], x0, y0, x1, y1, m);
      f.maxLength := Length(Vector(dx, dy), m);
      f.fixedValue := Some(Vector(dx, dy));
    }

    /** VectorField.prototype.inBounds: the half-open box test. */
    predicate InBounds(x: real, y: real)
    {
      x >= x0 && x < x1 && y >= y0 && y < y1
    }

    /** Fractional grid indices bilinear can read: floor and ceil of both
        stay inside the grid. */
    predicate InGrid(a: real, b: real)
    {
      0.0 <= a <= (w - 1) as real && 0.0 <= b <= (h - 1) as real
    }

    /** VectorField.prototype.bilinear. */
    function Bilinear(coord: Coord, a: real, b: real): real
      requires Valid() && InGrid(a, b)
    {
      var na, nb := a.Floor, b.Floor;
      var ma, mb := Ceil(a), Ceil(b);
      Blend(Component(field[na][nb], coord), Component(field[ma][nb], coord),
            Component(field[na][mb], coord), Component(field[ma][mb], coord),
            a - na as real, b - nb as real)
    }

    /** The fractional column index getValue computes for x. */
    function GridA(x: real): real
      requires x1 != x0
    {
      ((w - 1) as real - 0.000001) * (x - x0) / (x1 - x0)
    }

    /** The fractional row index getValue computes for y. */
    function GridB(y: real): real
      requires y1 != y0
    {
      ((h - 1) as real - 0.000001) * (y - y0) / (y1 - y0)
    }

    /** Where getValue is defined: everywhere for a constant field,
        otherwise where its indices fall inside the grid. */
    predicate Samples(x: real, y: real)
      reads this
    {
      fixedValue.Some? || (x1 != x0 && y1 != y0 && InGrid(GridA(x), GridB(y)))
    }

    /** VectorField.prototype.getValue (or the function `constant` puts in
        its place). */
    function GetValue(x: real, y: real): Vector
      reads this
      requires Valid() && Samples(x, y)
    {
      if fixedValue.Some? then fixedValue.value
      else
        var a, b := GridA(x), GridB(y);
        Vector(Bilinear(X, a, b), Bilinear(Y, a, b))
    }
  
    /** inBounds guarantees that getValue reads inside the grid: for a grid
        of at least two columns and two rows, the fractional indices fall in
        [0, w-1) and [0, h-1), so their floors and ceilings name existing
        cells. */
    lemma InBoundsSamples(x: real, y: real)
      requires Valid() && 2 <= w && 2 <= h && InBounds(x, y)
      ensures x1 != x0 && y1 != y0
      ensures 0.0 <= GridA(x) < (w - 1) as real && 0.0 <= GridB(y) < (h - 1) as real
      ensures 0 <= GridA(x).Floor && Ceil(GridA(x)) <= w - 1
      ensures 0 <= GridB(y).Floor && Ceil(GridB(y)) <= h - 1
      ensures InGrid(GridA(x), GridB(y))
    {
      ScaledFraction((w - 1) as real - 0.000001, x - x0, x1 - x0);
      ScaledFraction((h - 1) as real - 0.000001, y - y0, y1 - y0);
    }

    /** The fields getValue can be asked about any in-bounds point: a
        constant field, or a grid of at least two columns and two rows. */
    predicate Sampleable()
      reads this
    {
      Valid() && (fixedValue.Some? || (2 <= w && 2 <= h))
    }

    /** On such a field getValue is defined at every in-bounds point. */
    lemma InBoundsSampled(x: real, y: real)
      requires Sampleable() && InBounds(x, y)
      ensures Samples(x, y)
    {
      if fixedValue.None? {
        InBoundsSamples(x, y);
      }
    }

    /** getValue is defined on the field's closed box as well, upper edges
        included: the 0.000001 taken off the scale keeps the index at most
        w - 1 and h - 1. */
    lemma InBoxSampled(x: real, y: real)
      requires Sampleable() && x0 < x1 && y0 < y1 && x0 <= x <= x1 && y0 <= y <= y1
      ensures Samples(x, y)
    {
      if fixedValue.None? {
        GridAInRange(x);
        GridBInRange(y);
      }
    }

    lemma GridAInRange(x: real)
      requires 2 <= w && x0 < x1 && x0 <= x <= x1
      ensures 0.0 <= GridA(x) <= (w - 1) as real
    {
      ScaledFractionClosed((w - 1) as real - 0.000001, x - x0, x1 - x0);
    }

    lemma GridBInRange(y: real)
      requires 2 <= h && y0 < y1 && y0 <= y <= y1
      ensures 0.0 <= GridB(y) <= (h - 1) as real
    {
      ScaledFractionClosed((h - 1) as real - 0.000001, y - y0, y1 - y0);
    }

    /** At integer indices the fractional parts are zero and floor equals
        ceil, so bilinear returns the grid value itself. */
    lemma BilinearAtNode(coord: Coord, i: nat, j: nat)
      requires Valid() && i < w && j < h
      ensures InGrid(i as real, j as real)
      ensures Bilinear(coord, i as real, j as real) == Component(field[i][j], coord)
    {
      var c := Component(field[i][j], coord);
      assert Ceil(i as real) == i && Ceil(j as real) == j;
      BlendAtCorner(c, c, c, c);
    }

    /** Between grid nodes bilinear stays within the range of the four
        surrounding values. */
    lemma BilinearBetweenCorners(coord: Coord, a: real, b: real, lo: real, hi: real)
      requires Valid() && InGrid(a, b)
      requires lo <= Component(field[a.Floor][b.Floor], coord) <= hi
      requires lo <= Component(field[Ceil(a)][b.Floor], coord) <= hi
      requires lo <= Component(field[a.Floor][Ceil(b)], coord) <= hi
      requires lo <= Component(field[Ceil(a)][Ceil(b)], coord) <= hi
      ensures lo <= Bilinear(coord, a, b) <= hi
    {
      BlendBetween(Component(field[a.Floor][b.Floor], coord), Component(field[Ceil(a)][b.Floor], coord),
                   Component(field[a.Floor][Ceil(b)], coord), Component(field[Ceil(a)][Ceil(b)], coord),
                   a - a.Floor as real, b - b.Floor as real, lo, hi);
    }

    /** getValue at the box's south-west corner (x0, y0) is grid cell
        [0][0]. */
    lemma GetValueAtCorner()
      requires Valid() && 1 <= h && x1 != x0 && y1 != y0 && fixedValue.None?
      ensures Samples(x0, y0) && GetValue(x0, y0) == field[0][0]
    {
      assert GridA(x0) == 0.0 && GridB(y0) == 0.0;
      BilinearAtNode(X, 0, 0);
      BilinearAtNode(Y, 0, 0);
    }
  }
}
