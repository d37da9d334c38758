/** The map projections of windmap.js: the identity projection, and
    `ScaledAlbers`, an affine screen layer (scale, Y flip, offset) over the
    Albers equal-area conic projection. The conic formulas need trigonometry
    the model does not have, so the conic is a pair of functions received as
    a value, and its round trip is a hypothesis stated point by point. */
module Projection {
  import opened Vectors

  /** The Albers conic projection: (lon, lat) to plane coordinates, and back. */
  datatype Conic = Conic(project: (real, real) -> Vector, invert: (real, real) -> Vector)

  /** The conic inverts its own projection of (lon, lat). */
  ghost predicate RoundTripsAt(c: Conic, lon: real, lat: real)
  {
    var p := c.project(lon, lat);
    c.invert(p.x, p.y) == Vector(lon, lat)
  }

  /** The conic projects its own inversion of (a, b) back to (a, b). */
  ghost predicate ProjectsBackAt(c: Conic, a: real, b: real)
  {
    var g := c.invert(a, b);
    c.project(g.x, g.y) == Vector(a, b)
  }

  /** A ScaledAlbers object: its constructor arguments and the projected
      south-west corner it caches. */
  datatype ScaledAlbers = ScaledAlbers(
    base: Conic,
    scale: real,
    offsetX: real,
    offsetY: real,
    longMin: real,
    latMin: real,
    swCorner: Vector)

  /** The ScaledAlbers constructor. The south-west corner (longMin, latMin)
      lands on the screen point (offsetX, offsetY). */
  function NewScaledAlbers(base: Conic, scale: real, offsetX: real, offsetY: real,
                           longMin: real, latMin: real): (s: ScaledAlbers)
    ensures s.base == base && s.scale == scale && s.offsetX == offsetX && s.offsetY == offsetY
    ensures s.longMin == longMin && s.latMin == latMin
    ensures Project(s, longMin, latMin) == Vector(offsetX, offsetY)
  {
    ScaledAlbers(base, scale, offsetX, offsetY, longMin, latMin, base.project(longMin, latMin))
  }

  /** The affine half of ScaledAlbers.prototype.project: conic plane
      coordinates to screen coordinates, with y flipped. */
  function ToScreen(s: ScaledAlbers, a: Vector): Vector
  {
    Vector(s.scale * (a.x - s.swCorner.x) + s.offsetX,
           -s.scale * (a.y - s.swCorner.y) + s.offsetY)
  }

  /** The affine half of ScaledAlbers.prototype.invert. */
  function FromScreen(s: ScaledAlbers, x: real, y: real): Vector
    requires s.scale != 0.0
  {
    Vector((x - s.offsetX) / s.scale + s.swCorner.x,
           (y - s.offsetY) / -s.scale + s.swCorner.y)
  }

  /** The affine layer inverts itself: screen, then back, is the identity. */
  lemma FromScreenToScreen(s: ScaledAlbers, a: Vector)
    requires s.scale != 0.0
    ensures var p := ToScreen(s, a); FromScreen(s, p.x, p.y) == a
  {
    var p := ToScreen(s, a);
    CancelScale(s.scale, a.x - s.swCorner.x);
    CancelScale(-s.scale, a.y - s.swCorner.y);
    assert p.x - s.offsetX == s.scale * (a.x - s.swCorner.x);
    assert p.y - s.offsetY == -s.scale * (a.y - s.swCorner.y);
  }

  /** ...and in the other order as well. */
  lemma ToScreenFromScreen(s: ScaledAlbers, x: real, y: real)
    requires s.scale != 0.0
    ensures ToScreen(s, FromScreen(s, x, y)) == Vector(x, y)
  {
    var a := FromScreen(s, x, y);
    ScaleCancels(s.scale, x - s.offsetX);
    ScaleCancels(-s.scale, y - s.offsetY);
    assert a.x - s.swCorner.x == (x - s.offsetX) / s.scale;
    assert a.y - s.swCorner.y == (y - s.offsetY) / -s.scale;
  }

  lemma CancelScale(k: real, d: real)
    requires k != 0.0
    ensures (k * d) / k == d
  {
  }

  lemma ScaleCancels(k: real, d: real)
    requires k != 0.0
    ensures k * (d / k) == d
  {
  }

  /** ScaledAlbers.prototype.project. */
  function Project(s: ScaledAlbers, lon: real, lat: real): Vector
  {
    ToScreen(s, s.base.project(lon, lat))
  }

  /** ScaledAlbers.prototype.invert. */
  function Invert(s: ScaledAlbers, x: real, y: real): Vector
    requires s.scale != 0.0
  {
    var a := FromScreen(s, x, y);
    s.base.invert(a.x, a.y)
  }

  /** Inverting a projected point gives the point back wherever the conic
      itself round-trips. */
  lemma InvertProject(s: ScaledAlbers, lon: real, lat: real)
    requires s.scale != 0.0 && RoundTripsAt(s.base, lon, lat)
    ensures var p := Project(s, lon, lat); Invert(s, p.x, p.y) == Vector(lon, lat)
  {
    FromScreenToScreen(s, s.base.project(lon, lat));
  }

  /** Projecting an inverted screen point gives the screen point back
      wherever the conic projects its inversion back. */
  lemma ProjectInvert(s: ScaledAlbers, x: real, y: real)
    requires s.scale != 0.0
    requires var a := FromScreen(s, x, y); ProjectsBackAt(s.base, a.x, a.y)
    ensures var g := Invert(s, x, y); Project(s, g.x, g.y) == Vector(x, y)
  {
    ToScreenFromScreen(s, x, y);
  }

  /** The projection a display holds: IDProjection, or a ScaledAlbers. */
  datatype MapProjection = Identity | Scaled(albers: ScaledAlbers)

  /** A projection whose invert is defined. */
  predicate Invertible(p: MapProjection)
  {
    p.Scaled? ==> p.albers.scale != 0.0
  }

  /** `projection.project(x, y)`; IDProjection returns its input. */
  function ProjectWith(p: MapProjection, x: real, y: real): (r: Vector)
    ensures p.Identity? ==> r == Vector(x, y)
  {
    match p
    case Identity => Vector(x, y)
    case Scaled(s) => Project(s, x, y)
  }

  /** `projection.invert(x, y)`; IDProjection returns its input. */
  function InvertWith(p: MapProjection, x: real, y: real): (r: Vector)
    requires Invertible(p)
    ensures p.Identity? ==> r == Vector(x, y)
  {
    match p
    case Identity => Vector(x, y)
    case Scaled(s) => Invert(s, x, y)
  }

  /** Whatever projection a display holds, inverting a projected point
      gives the map point back: trivially for IDProjection, and for a
      ScaledAlbers wherever its Albers base round-trips. */
  lemma InvertWithProjectWith(p: MapProjection, x: real, y: real)
    requires Invertible(p) && (p.Scaled? ==> RoundTripsAt(p.albers.base, x, y))
    ensures var q := ProjectWith(p, x, y); InvertWith(p, q.x, q.y) == Vector(x, y)
  {
    if p.Scaled? {
      InvertProject(p.albers, x, y);
    }
  }

  /** The converse: projecting an inverted screen point gives it back,
      for a ScaledAlbers wherever its base projects the inverse back. */
  lemma ProjectWithInvertWith(p: MapProjection, x: real, y: real)
    requires Invertible(p)
    requires p.Scaled? ==> var a := FromScreen(p.albers, x, y); ProjectsBackAt(p.albers.base, a.x, a.y)
    ensures var g := InvertWith(p, x, y); ProjectWith(p, g.x, g.y) == Vector(x, y)
  {
    if p.Scaled? {
      ProjectInvert(p.albers, x, y);
    }
  }
}
