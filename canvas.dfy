/** The canvas a display draws on: where a map point lands under the
    projection and the animator's view, and the test both MotionDisplay.draw
    and CityDisplay use to skip a point that falls outside the canvas. */
module Canvas {
  import opened Vectors
  import opened Projection
  import opened Animation

  /** The canvas point of map point (x, y): its projection, scaled by the
      view and shifted by the view's offset. */
  function CanvasPoint(projection: MapProjection, view: View, x: real, y: real): Vector
  {
    var q := ProjectWith(projection, x, y);
    Vector(q.x * view.scale + view.dx, q.y * view.scale + view.dy)
  }

  /** A point left of, above, right of or below a width x height canvas;
      points on its edges are still on it. */
  predicate OffCanvas(s: Vector, width: real, height: real)
  {
    s.x < 0.0 || s.y < 0.0 || s.x > width || s.y > height
  }
}
