/** windmap.js `Particle` and `MotionDisplay`: the pool of wind particles
    that moves with the field and is redrawn every animation tick.

    The canvas calls are left out; what `draw` would stroke is returned as a
    list of `Stroke`s (end points and colour index). Particles are values in
    a `seq` field that the methods reassign: nothing but the pool refers to
    them. `makeParticle` draws random numbers until an attempt is accepted;
    the model receives the random numbers of the accepted attempt as a
    `Seed`. The animator passed to each handler is represented by its
    current view. */
module Particles {
  import opened Numerics
  import opened Vectors
  import opened Projection
  import opened Fields
  import opened Animation
  import opened Canvas

  /** windmap.js Particle: the map position, the screen point it was last
      drawn at ((-1, -1) before its first draw), its remaining age, and a
      random number. */
  datatype Particle = Particle(x: real, y: real, oldX: real, oldY: real, age: real, rnd: real)

  /** The Math.random() results makeParticle uses in the attempt it
      accepts: a and b place the particle, c sets its age, r is `rnd`. */
  datatype Seed = Seed(a: real, b: real, c: real, r: real)

  predicate IsRandom(v: real) { 0.0 <= v < 1.0 }

  predicate ValidSeed(d: Seed) { IsRandom(d.a) && IsRandom(d.b) && IsRandom(d.c) && IsRandom(d.r) }

  /** The box the display seeds particles in (its x0, y0, x1, y1). */
  datatype Box = Box(x0: real, y0: real, x1: real, y1: real)

  predicate Between(v: real, p: real, q: real) { Min(p, q) <= v <= Max(p, q) }

  /** The particle makeParticle returns for the accepted draw d: at
      (a * x0 + (1 - a) * x1, b * y0 + (1 - b) * y1), not yet drawn, aged
      1 + 40 * c. With draws in [0, 1) it lies in the box and its age is in
      [1, 41). */
  function Spawn(box: Box, d: Seed): (p: Particle)
    ensures p.oldX == -1.0 && p.oldY == -1.0 && p.rnd == d.r
    ensures ValidSeed(d) ==> 1.0 <= p.age < 41.0 && Between(p.x, box.x0, box.x1) && Between(p.y, box.y0, box.y1)
  {
    var x := d.a * box.x0 + (1.0 - d.a) * box.x1;
    var y := d.b * box.y0 + (1.0 - d.b) * box.y1;
    WeightedBetween(d.a, box.x0, box.x1);
    WeightedBetween(d.b, box.y0, box.y1);
    Particle(x, y, -1.0, -1.0, 1.0 + 40.0 * d.c, d.r)
  }

  /** A weighted mean a * p + (1 - a) * q with a in [0, 1) lies between p
      and q. */
  lemma WeightedBetween(a: real, p: real, q: real)
    ensures IsRandom(a) ==> Between(a * p + (1.0 - a) * q, p, q)
  {
    if IsRandom(a) {
      assert a * p + (1.0 - a) * q == Lerp(q, p, a);
      LerpBetween(q, p, a, Min(p, q), Max(p, q));
    }
  }

  /** MotionDisplay's speedScale. */
  const SpeedScale: real := 0.5

  /** The map distance a particle covers per unit of wind in one tick. */
  function Speed(view: View): real
    requires view.scale != 0.0
  {
    0.01 * SpeedScale / view.scale
  }

  /** The colour-table index of a stroke: 90 + round(70 * len / maxLength),
      capped at 255. With maxLength 0 the quotient is +Infinity (capped to
      255) or, for a zero-length wind, NaN, which selects no colour. */
  function StrokeColor(len: real, maxLength: real): (c: Option<int>)
    ensures 0.0 <= len && 0.0 <= maxLength ==>
      (c.None? <==> maxLength == 0.0 && len == 0.0) && (c.Some? ==> 90 <= c.value <= 255)
  {
    if maxLength == 0.0 then
      if len > 0.0 then Some(255) else None
    else
      DivNonNegative(len, maxLength);
      var i := 90 + Round(70.0 * (len / maxLength));
      Some(if i > 255 then 255 else i)
  }

  /** Faster wind never gets a lower colour index, and up to maxLength the
      cap is never reached: the index runs from 90 (calm) to 160. */
  lemma StrokeColorMonotone(l1: real, l2: real, maxLength: real)
    requires 0.0 <= l1 <= l2 && 0.0 < maxLength
    ensures StrokeColor(l1, maxLength).value <= StrokeColor(l2, maxLength).value
    ensures StrokeColor(0.0, maxLength) == Some(90)
    ensures l2 <= maxLength ==> StrokeColor(l2, maxLength).value <= 160
  {
    DivMonotone(l1, l2, maxLength);
    var s1, s2 := l1 / maxLength, l2 / maxLength;
    assert 70.0 * s1 <= 70.0 * s2;
    if l2 <= maxLength {
      DivMonotone(l2, maxLength, maxLength);
      assert maxLength / maxLength == 1.0;
    }
  }

  lemma DivMonotone(a: real, b: real, c: real)
    requires a <= b && 0.0 < c
    ensures a / c <= b / c
  {
    assert b / c - a / c == (b - a) / c;
  }

  /** A line `draw` strokes from a particle's new screen point to the one it
      was drawn at last time. */
  datatype Stroke = Stroke(from: Vector, to: Vector, color: Option<int>)

  class MotionDisplay {
    const field: VectorField
    const projection: MapProjection
    /** The canvas size. */
    const width: real
    const height: real
    const numParticles: nat
    /** The field's maxLength when the display was made. */
    const maxLength: real
    /** x0, y0, x1, y1: where new particles are seeded. */
    var box: Box
    var first: bool
    var particles: seq<Particle>

    /** The field's extent. */
    function FieldBox(): Box
    {
      Box(field.x0, field.y0, field.x1, field.y1)
    }

    /** The MotionDisplay constructor; the particles are seeded over the
        field's whole box. A draw whose point getValue cannot sample makes
        makeNewParticles throw, and the pool stops short of it. */
    constructor(field: VectorField, numParticles: nat, projection: MapProjection, width: real, height: real,
                draws: seq<Seed>)
      requires |draws| == numParticles
      ensures this.field == field && this.projection == projection && this.numParticles == numParticles
      ensures this.width == width && this.height == height && maxLength == field.maxLength
      ensures box == FieldBox() && first
      ensures |particles| <= numParticles
      ensures forall k :: 0 <= k < |particles| ==> particles[k] == Spawn(box, draws[k]) && SeedSampled(draws[k])
      ensures |particles| == numParticles <==> forall k :: 0 <= k < numParticles ==> SeedSampled(draws[k])
      ensures |particles| < numParticles ==> !SeedSampled(draws[|particles|])
    {
      this.field := field;
      this.projection := projection;
      this.numParticles := numParticles;
      this.width, this.height := width, height;
      maxLength := field.maxLength;
      first := true;
      box := Box(field.x0, field.y0, field.x1, field.y1);
      new;
      var _ := MakeNewParticles(draws);
    }

    /** makeParticle's call of field.getValue at the point draw d places a
        particle at reads inside the grid (or the field is constant). When it
        does not, bilinear indexes a missing column or row and throws. */
    predicate SeedSampled(d: Seed)
      reads this`box, field
    {
      var p := Spawn(box, d);
      field.Samples(p.x, p.y)
    }

    /** MotionDisplay.prototype.makeNewParticles: numParticles fresh
        particles, the k-th built from the k-th draw. The throw of
        makeParticle is the result `ok == false`: the pool then holds the
        particles pushed before the draw that could not be sampled. */
    method MakeNewParticles(draws: seq<Seed>) returns (ok: bool)
      requires |draws| == numParticles
      modifies this`particles
      ensures |particles| <= numParticles
      ensures forall k :: 0 <= k < |particles| ==> particles[k] == Spawn(box, draws[k]) && SeedSampled(draws[k])
      ensures ok <==> |particles| == numParticles
      ensures ok <==> forall k :: 0 <= k < numParticles ==> SeedSampled(draws[k])
      ensures !ok ==> !SeedSampled(draws[|particles|])
    {
      particles := [];
      var i := 0;
      while i < numParticles
        invariant 0 <= i <= numParticles && |particles| == i
        invariant forall k :: 0 <= k < i ==> particles[k] == Spawn(box, draws[k]) && SeedSampled(draws[k])
      {
        var p := Spawn(box, draws[i]);
        if !field.Samples(p.x, p.y) {
          return false;
        }
        particles := particles + [p];
        i := i + 1;
      }
      ok := true;
    }

    /** A particle that moveThings advances: it moves by speed times the
        wind at its position, and its age drops by one. */
    function Advance(p: Particle, speed: real): Particle
      reads field
      requires field.Sampleable() && field.InBounds(p.x, p.y)
    {
      field.InBoundsSampled(p.x, p.y);
      var v := field.GetValue(p.x, p.y);
      p.(x := p.x + speed * v.x, y := p.y + speed * v.y, age := p.age - 1.0)
    }

    /** moveThings' treatment of one particle: advanced while it has age
        left and is inside the field, replaced otherwise. */
    function Moved(p: Particle, d: Seed, speed: real): Particle
      reads this`box, field
      requires field.Sampleable()
    {
      if p.age > 0.0 && field.InBounds(p.x, p.y) then Advance(p, speed) else Spawn(box, d)
    }

    /** moveThings can handle p without a throw: p is advanced, or the
        draw that replaces it can be sampled. */
    predicate MoveSafe(p: Particle, d: Seed)
      reads this`box, field
    {
      (p.age > 0.0 && field.InBounds(p.x, p.y)) || SeedSampled(d)
    }

    /** The first particle from i on that moveThings cannot handle, or
        |ps| when it handles them all: where its throw stops the loop. */
    function FirstUnsafe(ps: seq<Particle>, draws: seq<Seed>, i: nat): (j: nat)
      reads this`box, field
      requires i <= |ps| <= |draws|
      ensures i <= j <= |ps|
      ensures forall k :: i <= k < j ==> MoveSafe(ps[k], draws[k])
      ensures j < |ps| ==> !MoveSafe(ps[j], draws[j])
      decreases |ps| - i
    {
      if i == |ps| || !MoveSafe(ps[i], draws[i]) then i else FirstUnsafe(ps, draws, i + 1)
    }

    /** FirstUnsafe from j is i when the particles from j up to i are safe
        and i is the end or unsafe. */
    lemma {:induction false} FirstUnsafeIs(ps: seq<Particle>, draws: seq<Seed>, j: nat, i: nat)
      requires j <= i <= |ps| <= |draws|
      requires forall k :: j <= k < i ==> MoveSafe(ps[k], draws[k])
      requires i < |ps| ==> !MoveSafe(ps[i], draws[i])
      ensures FirstUnsafe(ps, draws, j) == i
      decreases i - j
    {
      if j < i {
        FirstUnsafeIs(ps, draws, j + 1, i);
      }
    }

    /** MotionDisplay.prototype.moveThings: the pool keeps its size; a
        particle with age left inside the field moves with the wind and ages
        by exactly one, every other particle is replaced by a new one. A
        replacement whose draw cannot be sampled throws (`ok == false`):
        the particles before it are handled, it and the rest are left as
        they were. */
    method MoveThings(view: View, draws: seq<Seed>) returns (ok: bool)
      requires field.Sampleable() && view.scale != 0.0 && |draws| == |particles|
      modifies this`particles
      ensures |particles| == |old(particles)|
      ensures ok <==> FirstUnsafe(old(particles), draws, 0) == |particles|
      ensures forall k :: 0 <= k < FirstUnsafe(old(particles), draws, 0) ==>
        particles[k] == Moved(old(particles)[k], draws[k], Speed(view))
      ensures forall k :: FirstUnsafe(old(particles), draws, 0) <= k < |particles| ==>
        particles[k] == old(particles)[k]
    {
      var speed := 0.01 * SpeedScale / view.scale;
      var i := 0;
      while i < |particles|
        invariant 0 <= i <= |particles| == |old(particles)|
        invariant forall k :: 0 <= k < i ==> MoveSafe(old(particles)[k], draws[k])
        invariant forall k :: 0 <= k < i ==> particles[k] == Moved(old(particles)[k], draws[k], speed)
        invariant forall k :: i <= k < |particles| ==> particles[k] == old(particles)[k]
      {
        var p, safe := MoveParticle(particles[i], draws[i], speed);
        if !safe {
          FirstUnsafeIs(old(particles), draws, 0, i);
          return false;
        }
        particles := particles[i := p];
        i := i + 1;
      }
      FirstUnsafeIs(old(particles), draws, 0, i);
      ok := true;
    }

    /** The body of moveThings' loop for one particle; `safe` is false
        when makeParticle would throw. */
    method MoveParticle(p: Particle, d: Seed, speed: real) returns (p': Particle, safe: bool)
      requires field.Sampleable()
      ensures safe == MoveSafe(p, d)
      ensures safe ==> p' == Moved(p, d, speed)
    {
      safe := true;
      if p.age > 0.0 && field.InBounds(p.x, p.y) {
        field.InBoundsSampled(p.x, p.y);
        var a := field.GetValue(p.x, p.y);
        p' := p.(x := p.x + speed * a.x, y := p.y + speed * a.y, age := p.age - 1.0);
      } else {
        p' := Spawn(box, d);
        safe := field.Samples(p'.x, p'.y);
      }
    }

    /** What `draw` leaves of a particle: outside the field it is retired
        (age -2) and not drawn; otherwise it records its screen point, and
        is retired as well when that point is off the canvas. */
    function Drawn(p: Particle, view: View): Particle
      reads field
    {
      if !field.InBounds(p.x, p.y) then p.(age := -2.0)
      else
        var s := CanvasPoint(projection, view, p.x, p.y);
        p.(age := if OffCanvas(s, width, height) then -2.0 else p.age, oldX := s.x, oldY := s.y)
    }

    /** The line `draw` strokes for a particle: only for one inside the
        field that has been drawn before (oldX != -1), from its new screen
        point to its previous one, coloured by the wind speed there. */
    function StrokeOf(p: Particle, view: View, m: MathLib): Option<Stroke>
      reads field
      requires Sound(m) && field.Sampleable()
    {
      if !field.InBounds(p.x, p.y) || p.oldX == -1.0 then None
      else
        field.InBoundsSampled(p.x, p.y);
        var wind := field.GetValue(p.x, p.y);
        Some(Stroke(CanvasPoint(projection, view, p.x, p.y), Vector(p.oldX, p.oldY), StrokeColor(Length(wind, m), maxLength)))
    }

    /** The strokes of the first n particles, in pool order. */
    function Strokes(ps: seq<Particle>, n: nat, view: View, m: MathLib): seq<Stroke>
      reads field
      requires n <= |ps| && Sound(m) && field.Sampleable()
    {
      if n == 0 then []
      else
        var s := StrokeOf(ps[n - 1], view, m);
        Strokes(ps, n - 1, view, m) + (if s.Some? then [s.value] else [])
    }

    /** MotionDisplay.prototype.draw (the canvas calls left out): the first
        draw paints a solid background and later ones a translucent one
        (`solid`); every particle is updated as `Drawn` says, and the
        strokes are returned in pool order. */
    method Draw(view: View, m: MathLib) returns (solid: bool, strokes: seq<Stroke>)
      requires Sound(m) && field.Sampleable()
      modifies this`particles, this`first
      ensures solid == old(first) && !first
      ensures |particles| == |old(particles)|
      ensures forall k :: 0 <= k < |particles| ==> particles[k] == Drawn(old(particles)[k], view)
      ensures strokes == Strokes(old(particles), |particles|, view, m)
    {
      solid := first;
      first := false;
      strokes := [];
      var i := 0;
      while i < |particles|
        invariant 0 <= i <= |particles| == |old(particles)| && !first
        invariant forall k :: 0 <= k < i ==> particles[k] == Drawn(old(particles)[k], view)
        invariant forall k :: i <= k < |particles| ==> particles[k] == old(particles)[k]
        invariant strokes == Strokes(old(particles), i, view, m)
      {
        var p, s := DrawParticle(particles[i], view, m);
        particles := particles[i := p];
        if s.Some? {
          strokes := strokes + [s.value];
        }
        i := i + 1;
      }
    }

    /** The body of draw's loop for one particle: its new state and the
        line stroked for it, if any. */
    method DrawParticle(p: Particle, view: View, m: MathLib) returns (p': Particle, stroke: Option<Stroke>)
      requires Sound(m) && field.Sampleable()
      ensures p' == Drawn(p, view) && stroke == StrokeOf(p, view, m)
    {
      p' := p;
      stroke := None;
      if !field.InBounds(p.x, p.y) {
        p' := p.(age := -2.0);
        return;
      }
      var proj := ProjectWith(projection, p.x, p.y);
      var sx := proj.x * view.scale + view.dx;
      var sy := proj.y * view.scale + view.dy;
      if sx < 0.0 || sy < 0.0 || sx > width || sy > height {
        p' := p'.(age := -2.0);
      }
      if p.oldX != -1.0 {
        field.InBoundsSampled(p.x, p.y);
        var wind := field.GetValue(p.x, p.y);
        var c := StrokeColor(Length(wind, m), maxLength);
        stroke := Some(Stroke(Vector(sx, sy), Vector(p.oldX, p.oldY), c));
      }
      p' := p'.(oldX := sx, oldY := sy);
    }

    /** MotionDisplay.prototype.animate: move, then draw. When moveThings
        throws (`ok == false`) nothing is drawn. */
    method Animate(view: View, draws: seq<Seed>, m: MathLib) returns (ok: bool, solid: bool, strokes: seq<Stroke>)
      requires Sound(m) && field.Sampleable() && view.scale != 0.0 && |draws| == |particles|
      modifies this`particles, this`first
      ensures |particles| == |old(particles)|
      ensures ok <==> forall k :: 0 <= k < |particles| ==> MoveSafe(old(particles)[k], draws[k])
      ensures ok ==> forall k :: 0 <= k < |particles| ==>
        particles[k] == Drawn(Moved(old(particles)[k], draws[k], Speed(view)), view)
      ensures !ok ==> first == old(first) && strokes == []
      ensures !ok ==> forall k :: 0 <= k < FirstUnsafe(old(particles), draws, 0) ==>
        particles[k] == Moved(old(particles)[k], draws[k], Speed(view))
      ensures !ok ==> forall k :: FirstUnsafe(old(particles), draws, 0) <= k < |particles| ==>
        particles[k] == old(particles)[k]
    {
      solid, strokes := false, [];
      ok := MoveThings(view, draws);
      if ok {
        solid, strokes := Draw(view, m);
      }
    }

    /** endMove's inverse of the view and projection for a canvas point. */
    function ViewInvert(view: View, x: real, y: real): Vector
      requires Invertible(projection) && view.scale != 0.0
    {
      InvertWith(projection, (x - view.dx) / view.scale, (y - view.dy) / view.scale)
    }

    /** The box endMove seeds new particles in. Zoomed out (scale < 1.1) it
        is the field's box. Otherwise it is the bounding box of the map
        points under the canvas points (0, 0), (top, height), (width, top)
        and (width, height), with top = -0.2 * height, clipped to the
        field's box. */
    function ViewportBox(view: View): Box
      requires Invertible(projection)
    {
      if view.scale < 1.1 then FieldBox()
      else
        var top := -0.2 * height;
        var c0 := ViewInvert(view, 0.0, 0.0);
        var c1 := ViewInvert(view, top, height);
        var c2 := ViewInvert(view, width, top);
        var c3 := ViewInvert(view, width, height);
        var x0 := Min(c3.x, Min(c2.x, Min(c1.x, c0.x)));
        var x1 := Max(c3.x, Max(c2.x, Max(c1.x, c0.x)));
        var y0 := Min(c3.y, Min(c2.y, Min(c1.y, c0.y)));
        var y1 := Max(c3.y, Max(c2.y, Max(c1.y, c0.y)));
        Box(Max(field.x0, x0), Max(field.y0, y0), Min(field.x1, x1), Min(field.y1, y1))
    }

    /** The seeding box's corners are clamped to the field's: its x0, y0 are
        at least the field's and its x1, y1 at most. So a box that is not
        inverted lies in the field's box; when the view misses the field
        the box is inverted (ViewportBoxMissesField). Zoomed in, it covers
        every one of the four probed map points that lies in the field's
        box. */
    lemma ViewportBoxClamped(view: View)
      requires Invertible(projection)
      ensures var b := ViewportBox(view);
        && field.x0 <= b.x0 && field.y0 <= b.y0 && b.x1 <= field.x1 && b.y1 <= field.y1
        && (view.scale < 1.1 ==> b == FieldBox())
      ensures 1.1 <= view.scale ==>
        var b := ViewportBox(view);
        var top := -0.2 * height;
        forall c :: c in [ViewInvert(view, 0.0, 0.0), ViewInvert(view, top, height),
                          ViewInvert(view, width, top), ViewInvert(view, width, height)] ==>
          (field.x0 <= c.x <= field.x1 ==> b.x0 <= c.x <= b.x1) &&
          (field.y0 <= c.y <= field.y1 ==> b.y0 <= c.y <= b.y1)
    {
    }

    /** Zoomed in with all four probed points beyond the field's right
        edge, the seeding box is inverted (x0 > x1) and every point drawn in
        it lies outside the field. */
    lemma ViewportBoxMissesField(view: View, d: Seed)
      requires Invertible(projection) && 1.1 <= view.scale && ValidSeed(d)
      requires var top := -0.2 * height;
        && ViewInvert(view, 0.0, 0.0).x > field.x1 && ViewInvert(view, top, height).x > field.x1
        && ViewInvert(view, width, top).x > field.x1 && ViewInvert(view, width, height).x > field.x1
      ensures ViewportBox(view).x0 > ViewportBox(view).x1
      ensures var p := Spawn(ViewportBox(view), d); !field.InBounds(p.x, p.y)
    {
      var b := ViewportBox(view);
      assert b.x1 == field.x1 < b.x0;
    }

    /** A box that is not inverted: when it is also not degenerate, every
        valid draw in it can be sampled, so makeNewParticles fills the pool. */
    lemma ViewportSeedsSampled(view: View, d: Seed)
      requires Invertible(projection) && field.Sampleable() && ValidSeed(d)
      requires field.x0 < field.x1 && field.y0 < field.y1
      requires box == ViewportBox(view) && box.x0 <= box.x1 && box.y0 <= box.y1
      ensures SeedSampled(d)
    {
      ViewportBoxClamped(view);
      var p := Spawn(box, d);
      field.InBoxSampled(p.x, p.y);
    }

    /** MotionDisplay.prototype.endMove: recompute the seeding box for the
        new view and reseed the whole pool in it. makeNewParticles throws
        (`ok == false`) at the first draw that cannot be sampled, as when
        the view misses the field. */
    method EndMove(view: View, draws: seq<Seed>) returns (ok: bool)
      requires Invertible(projection) && |draws| == numParticles
      modifies this`box, this`particles
      ensures box == ViewportBox(view)
      ensures |particles| <= numParticles
      ensures forall k :: 0 <= k < |particles| ==> particles[k] == Spawn(box, draws[k]) && SeedSampled(draws[k])
      ensures ok <==> |particles| == numParticles
      ensures ok <==> forall k :: 0 <= k < numParticles ==> SeedSampled(draws[k])
      ensures !ok ==> !SeedSampled(draws[|particles|])
    {
      if view.scale < 1.1 {
        box := Box(field.x0, field.y0, field.x1, field.y1);
      } else {
        var loc := ViewInvert(view, 0.0, 0.0);
        var x0, x1, y0, y1 := loc.x, loc.x, loc.y, loc.y;
        var top := -0.2 * height;
        var v := ViewInvert(view, top, height);
        x0, x1, y0, y1 := Min(v.x, x0), Max(v.x, x1), Min(v.y, y0), Max(v.y, y1);
        v := ViewInvert(view, width, top);
        x0, x1, y0, y1 := Min(v.x, x0), Max(v.x, x1), Min(v.y, y0), Max(v.y, y1);
        v := ViewInvert(view, width, height);
        x0, x1, y0, y1 := Min(v.x, x0), Max(v.x, x1), Min(v.y, y0), Max(v.y, y1);
        box := Box(Max(field.x0, x0), Max(field.y0, y0), Min(field.x1, x1), Min(field.y1, y1));
      }
      ok := MakeNewParticles(draws);
    }

    /** A particle `draw` retires (outside the field or off the canvas) is
        replaced by the next moveThings. */
    lemma RetiredIsReplaced(p: Particle, view: View, d: Seed, speed: real)
      requires field.Sampleable()
      requires !field.InBounds(p.x, p.y) || OffCanvas(CanvasPoint(projection, view, p.x, p.y), width, height)
      ensures Moved(Drawn(p, view), d, speed) == Spawn(box, d)
    {
    }

    /** Ages stay in (-1, 41) after moveThings when they were below 41 and
        the draws are random numbers: an advanced particle had age above 0,
        and a new one gets an age in [1, 41). */
    lemma MovedAgeBounded(p: Particle, d: Seed, speed: real)
      requires field.Sampleable() && ValidSeed(d) && p.age < 41.0
      ensures -1.0 < Moved(p, d, speed).age < 41.0
    {
    }

    /** The strokes all carry a colour in 90..255, or none when the wind and
        maxLength are both zero. */
    lemma {:induction false} StrokeColorsInRange(ps: seq<Particle>, n: nat, view: View, m: MathLib)
      requires n <= |ps| && Sound(m) && field.Sampleable() && 0.0 <= maxLength
      ensures forall s :: s in Strokes(ps, n, view, m) && s.color.Some? ==> 90 <= s.color.value <= 255
    {
      if n > 0 {
        StrokeColorsInRange(ps, n - 1, view, m);
      }
    }
  }
}
