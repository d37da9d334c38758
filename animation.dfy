/** windmap.js `Animator`: the pan / zoom state machine behind the map.
    Mouse handlers move between 'animate', 'mouse-down', 'pan' and 'zoom';
    `loop` advances a zoom; `notify` tells the registered listeners.

    The object is a class whose methods update its fields in place. Each
    method is tied to a pure step function on a `Snapshot` of all fields;
    the properties of the state machine are lemmas about those functions.
    Listeners are represented by the set of handlers they define, and a
    call of a handler is recorded in the `log` field. Whether the optional
    `animFunc` gate lets a notification through is a parameter of each
    method that notifies (each notifies at most once). */
module Animation {
  import opened Numerics
  import opened Vectors

  datatype State = Animate | MouseDown | Pan | Zoom

  /** The messages notify sends: 'startMove', 'move', 'endMove', 'animate'
      and 'hover'. */
  datatype Event = StartMove | Move | EndMove | AnimateTick | Hover

  /** A listener, seen through the handlers it defines. */
  datatype Listener = Listener(handlers: set<Event>)

  /** Handler `event` of listener number `listener` was called. */
  datatype Delivery = Delivery(listener: nat, event: Event)

  /** The pointer fields: mouseIsDown, mouseX/mouseY and the landing point
      landingX/landingY of the last accepted press or pan step. */
  datatype Pointer = Pointer(isDown: bool, x: real, y: real, landingX: real, landingY: real)

  /** A view transform: screen = scale * map + (dx, dy). The animator keeps
      three: the current one (dx, dy, scale), the one a move started from
      (dxStart, dyStart, scaleStart) and the one a zoom aims at (dxTarget,
      dyTarget, scaleTarget). */
  datatype View = View(dx: real, dy: real, scale: real)

  /** All fields of an Animator. */
  datatype Snapshot = Snapshot(
    state: State,
    pointer: Pointer,
    view: View,
    start: View,
    target: View,
    zoomProgress: real,
    listeners: seq<Listener>,
    hasGate: bool,
    hasUnzoomButton: bool,
    unzoomVisible: bool,
    log: seq<Delivery>)

  // ---------------------------------------------------------------------
  // notify

  /** The handler calls of notify's loop over the first n listeners, in
      listener order. */
  function Deliveries(ls: seq<Listener>, ev: Event, n: nat): seq<Delivery>
    requires n <= |ls|
  {
    if n == 0 then []
    else Deliveries(ls, ev, n - 1) + (if ev in ls[n - 1].handlers then [Delivery(n - 1, ev)] else [])
  }

  /** notify calls exactly the listeners that define a handler for the
      message, each once, in the order they were added. */
  lemma {:induction false} DeliveriesExactly(ls: seq<Listener>, ev: Event, n: nat)
    requires n <= |ls|
    ensures forall d :: d in Deliveries(ls, ev, n) <==> d.event == ev && d.listener < n && ev in ls[d.listener].handlers
    ensures forall i, j :: 0 <= i < j < |Deliveries(ls, ev, n)| ==>
      Deliveries(ls, ev, n)[i].listener < Deliveries(ls, ev, n)[j].listener
  {
    if n > 0 {
      DeliveriesExactly(ls, ev, n - 1);
    }
  }

  /** The unzoom button's visibility test, as written: the scale differs
      from 1, or dx differs from 0, or dy is above 0.001 (the parenthesis
      in `Math.abs(this.dy > 0.001)` makes the last test signed). */
  predicate Displaced(v: View)
  {
    Abs(v.scale - 1.0) > 0.001 || Abs(v.dx) > 0.001 || v.dy > 0.001
  }

  /** Animator.prototype.notify. */
  function Notified(s: Snapshot, ev: Event, gateOpen: bool): Snapshot
  {
    var s1 := if s.hasUnzoomButton then s.(unzoomVisible := Displaced(s.view)) else s;
    if s.hasGate && !gateOpen then s1
    else s1.(log := s1.log + Deliveries(s.listeners, ev, |s.listeners|))
  }

  /** notify changes nothing but the button and the log; a closed gate
      stops every handler call. */
  lemma NotifiedChangesOnlyLog(s: Snapshot, ev: Event, gateOpen: bool)
    ensures Notified(s, ev, gateOpen).(log := s.log, unzoomVisible := s.unzoomVisible) == s
    ensures s.hasGate && !gateOpen ==> Notified(s, ev, gateOpen).log == s.log
    ensures !s.hasGate || gateOpen ==>
      Notified(s, ev, gateOpen).log == s.log + Deliveries(s.listeners, ev, |s.listeners|)
  {
  }


  // ---------------------------------------------------------------------
  // mouse handlers

  /** The jQuery mousedown handler: record the pointer, then
      Animator.prototype.mousedown. */
  function MouseDownStep(s: Snapshot, x: real, y: real, gateOpen: bool): Snapshot
  {
    var s1 := Notified(s.(pointer := s.pointer.(x := x, y := y), state := MouseDown), StartMove, gateOpen);
    s1.(pointer := Pointer(true, x, y, x, y), start := s1.view)
  }

  /** The jQuery mousemove handler: record the pointer, then
      Animator.prototype.mousemove. */
  function MouseMoveStep(s: Snapshot, x: real, y: real, gateOpen: bool): Snapshot
  {
    var s1 := s.(pointer := s.pointer.(x := x, y := y));
    if !s1.pointer.isDown then Notified(s1, Hover, gateOpen)
    else
      var ddx := x - s1.pointer.landingX;
      var ddy := y - s1.pointer.landingY;
      if Abs(ddx) + Abs(ddy) > 2.0 || s1.state == Pan then
        Notified(s1.(state := Pan, view := s1.view.(dx := s1.view.dx + ddx, dy := s1.view.dy + ddy),
                     pointer := s1.pointer.(landingX := x, landingY := y)),
                 Move, gateOpen)
      else
        s1
  }

  /** The jQuery mouseup handler: record the pointer, then
      Animator.prototype.mouseup. */
  function MouseUpStep(s: Snapshot, x: real, y: real, gateOpen: bool): Snapshot
  {
    var s1 := s.(pointer := s.pointer.(x := x, y := y, isDown := false));
    if s1.state == Pan then Notified(s1.(state := Animate), EndMove, gateOpen)
    else ZoomClickStep(s1, x, y, gateOpen)
  }

  /** Animator.prototype.zoom: start a zoom towards the transform `to`. */
  function ZoomStep(s: Snapshot, to: View, gateOpen: bool): Snapshot
  {
    Notified(s.(state := Zoom, zoomProgress := 0.0, start := s.view, target := to), StartMove, gateOpen)
  }

  /** The zoom factor of a click. */
  const ClickZoom: real := 1.7

  /** Animator.prototype.zoomClick: zoom in by 1.7 about the point (x, y). */
  function ZoomClickStep(s: Snapshot, x: real, y: real, gateOpen: bool): Snapshot
  {
    ZoomStep(s, View(x - ClickZoom * (x - s.view.dx), y - ClickZoom * (y - s.view.dy), ClickZoom * s.view.scale),
             gateOpen)
  }

  /** The identity transform. */
  const Home: View := View(0.0, 0.0, 1.0)

  /** Animator.prototype.unzoom: zoom back to the identity view. */
  function UnzoomStep(s: Snapshot, gateOpen: bool): Snapshot
  {
    ZoomStep(s, Home, gateOpen)
  }

  /** Animator.prototype.add. */
  function AddStep(s: Snapshot, l: Listener): Snapshot
  {
    s.(listeners := s.listeners + [l])
  }

  // ---------------------------------------------------------------------
  // loop

  /** How far one tick advances a zoom. */
  const ZoomIncrement: real := 0.07

  /** The cosine ease weight of the start values at progress p. */
  function Ease(p: real, m: MathLib): real
  {
    (1.0 + m.cos(Pi * p)) / 2.0
  }

  /** loop's `lerp(a, b)`, u * a + (1 - u) * b, applied to each part of the
      start and target transforms. */
  function Eased(start: View, target: View, u: real): View
  {
    View(Lerp(target.dx, start.dx, u), Lerp(target.dy, start.dy, u), Lerp(target.scale, start.scale, u))
  }

  /** Animator.prototype.loop, one tick. */
  function LoopStep(s: Snapshot, gateOpen: bool, m: MathLib): Snapshot
  {
    match s.state
    case MouseDown => s
    case Pan => s
    case Animate => Notified(s, AnimateTick, gateOpen)
    case Zoom =>
      var p := Min(1.0, s.zoomProgress + ZoomIncrement);
      var s1 := s.(zoomProgress := p, view := Eased(s.start, s.target, Ease(p, m)));
      if p < 1.0 then Notified(s1, Move, gateOpen)
      else Notified(s1.(state := Animate), EndMove, gateOpen)
  }

  /** Animator.prototype.relativeZoom. */
  function RelativeZoom(s: Snapshot): real
    requires s.start.scale != 0.0
  {
    s.view.scale / s.start.scale
  }

  /** Animator.prototype.relativeDx. */
  function RelativeDx(s: Snapshot): real
  {
    s.view.dx - s.start.dx
  }

  /** Animator.prototype.relativeDy. */
  function RelativeDy(s: Snapshot): real
  {
    s.view.dy - s.start.dy
  }

  // ---------------------------------------------------------------------
  // Properties of the state machine

  /** The animator's standing invariant: zoom progress in [0, 1] and
      positive scales. */
  predicate Settled(s: Snapshot)
  {
    0.0 <= s.zoomProgress <= 1.0 && 0.0 < s.view.scale && 0.0 < s.start.scale && 0.0 < s.target.scale
  }

  /** The ease weight lies in [0, 1] and is 0 when the zoom is complete. */
  lemma EaseBounds(p: real, m: MathLib)
    requires Sound(m)
    ensures 0.0 <= Ease(p, m) <= 1.0
    ensures p == 1.0 ==> Ease(p, m) == 0.0
  {
    if p == 1.0 {
      assert Pi * p == Pi;
    }
  }

  /** At ease weight 0 the eased transform is the target. */
  lemma EasedAtEnd(start: View, target: View)
    ensures Eased(start, target, 0.0) == target
  {
  }

  /** The mouse handlers and zoom requests keep the invariant (a zoom only
      towards a positive scale). */
  lemma DownKeepsSettled(s: Snapshot, x: real, y: real, gateOpen: bool)
    requires Settled(s)
    ensures Settled(MouseDownStep(s, x, y, gateOpen))
  {
    NotifiedKeepsSettled(s, StartMove, gateOpen);
  }

  lemma MoveKeepsSettled(s: Snapshot, x: real, y: real, gateOpen: bool)
    requires Settled(s)
    ensures Settled(MouseMoveStep(s, x, y, gateOpen))
  {
  }

  lemma UpKeepsSettled(s: Snapshot, x: real, y: real, gateOpen: bool)
    requires Settled(s)
    ensures Settled(MouseUpStep(s, x, y, gateOpen))
  {
    ClickKeepsSettled(s.(pointer := s.pointer.(x := x, y := y, isDown := false)), x, y, gateOpen);
  }

  lemma NotifiedKeepsSettled(s: Snapshot, ev: Event, gateOpen: bool)
    ensures Settled(Notified(s, ev, gateOpen)) == Settled(s)
  {
  }

  lemma ClickKeepsSettled(s: Snapshot, x: real, y: real, gateOpen: bool)
    requires Settled(s)
    ensures Settled(ZoomClickStep(s, x, y, gateOpen))
  {
    MulPositive(ClickZoom, s.view.scale);
    ZoomKeepsSettled(s, View(x - ClickZoom * (x - s.view.dx), y - ClickZoom * (y - s.view.dy), ClickZoom * s.view.scale), gateOpen);
  }

  lemma ZoomKeepsSettled(s: Snapshot, to: View, gateOpen: bool)
    requires Settled(s) && 0.0 < to.scale
    ensures Settled(ZoomStep(s, to, gateOpen))
  {
  }

  /** Unzoom keeps the invariant. */
  lemma UnzoomKeepsSettled(s: Snapshot, gateOpen: bool)
    requires Settled(s)
    ensures Settled(UnzoomStep(s, gateOpen))
  {
    ZoomKeepsSettled(s, Home, gateOpen);
  }

  /** A tick of loop keeps the invariant: the eased scale lies between two
      positive scales. */
  lemma LoopKeepsSettled(s: Snapshot, gateOpen: bool, m: MathLib)
    requires Settled(s) && Sound(m)
    ensures Settled(LoopStep(s, gateOpen, m))
  {
    if s.state == Zoom {
      var p := Min(1.0, s.zoomProgress + ZoomIncrement);
      var u := Ease(p, m);
      EaseBounds(p, m);
      var a, b := s.target.scale, s.start.scale;
      LerpBetween(a, b, u, Min(a, b), Max(a, b));
      assert LoopStep(s, gateOpen, m).view.scale == Lerp(a, b, u);
    }
  }

  /** A press records the landing point and the view the drag starts from. */
  lemma MouseDownStarts(s: Snapshot, x: real, y: real, gateOpen: bool)
    ensures var t := MouseDownStep(s, x, y, gateOpen);
      && t.state == MouseDown && t.pointer == Pointer(true, x, y, x, y)
      && t.start == t.view == s.view
      && RelativeDx(t) == 0.0 && RelativeDy(t) == 0.0
  {
  }

  /** While the button is down and no pan has begun, a move within 2 pixels
      (|ddx| + |ddy| <= 2) of the landing point changes only the recorded
      pointer; a larger one, or any move during a pan, pans by exactly the
      pointer's displacement since the last accepted move. */
  lemma MouseMovePans(s: Snapshot, x: real, y: real, gateOpen: bool)
    requires s.pointer.isDown
    ensures s.state != Pan && Abs(x - s.pointer.landingX) + Abs(y - s.pointer.landingY) <= 2.0 ==>
      MouseMoveStep(s, x, y, gateOpen) == s.(pointer := s.pointer.(x := x, y := y))
    ensures s.state == Pan || Abs(x - s.pointer.landingX) + Abs(y - s.pointer.landingY) > 2.0 ==>
      var t := MouseMoveStep(s, x, y, gateOpen);
      && t.state == Pan && t.pointer == Pointer(true, x, y, x, y)
      && t.view == View(s.view.dx + (x - s.pointer.landingX), s.view.dy + (y - s.pointer.landingY), s.view.scale)
      && t.start == s.start
  {
  }

  /** Without the button down a move only reports a hover. */
  lemma HoverKeepsView(s: Snapshot, x: real, y: real, gateOpen: bool)
    requires !s.pointer.isDown
    ensures MouseMoveStep(s, x, y, gateOpen) == Notified(s.(pointer := s.pointer.(x := x, y := y)), Hover, gateOpen)
    ensures MouseMoveStep(s, x, y, gateOpen).(log := s.log, unzoomVisible := s.unzoomVisible)
      == s.(pointer := s.pointer.(x := x, y := y))
  {
  }

  /** A sequence of mouse moves with the button held, under one gate. */
  function Drag(s: Snapshot, points: seq<Vector>, gateOpen: bool): Snapshot
    decreases |points|
  {
    if |points| == 0 then s
    else Drag(MouseMoveStep(s, points[0].x, points[0].y, gateOpen), points[1..], gateOpen)
  }

  /** Once a drag pans, the pans add up: the view moves by the pointer's
      total displacement from the landing point, and the last point becomes
      the landing point. */
  lemma {:induction false} DragTelescopes(s: Snapshot, points: seq<Vector>, gateOpen: bool)
    requires s.pointer.isDown && |points| > 0
    requires s.state == Pan || Abs(points[0].x - s.pointer.landingX) + Abs(points[0].y - s.pointer.landingY) > 2.0
    ensures var t := Drag(s, points, gateOpen);
      var last := points[|points| - 1];
      && t.state == Pan && t.pointer == Pointer(true, last.x, last.y, last.x, last.y)
      && t.view == View(s.view.dx + (last.x - s.pointer.landingX), s.view.dy + (last.y - s.pointer.landingY), s.view.scale)
      && t.start == s.start
    decreases |points|
  {
    MouseMovePans(s, points[0].x, points[0].y, gateOpen);
    if |points| > 1 {
      DragTelescopes(MouseMoveStep(s, points[0].x, points[0].y, gateOpen), points[1..], gateOpen);
      assert points[1..][|points[1..]| - 1] == points[|points| - 1];
    }
  }

  /** Press at (x, y) and drag past the threshold: relativeDx and
      relativeDy report the pointer's displacement from the press, and
      relativeZoom stays 1. */
  lemma PressAndDrag(s: Snapshot, x: real, y: real, points: seq<Vector>, gateOpen: bool)
    requires 0.0 < s.view.scale
    requires |points| > 0 && Abs(points[0].x - x) + Abs(points[0].y - y) > 2.0
    ensures var t := Drag(MouseDownStep(s, x, y, gateOpen), points, gateOpen);
      var last := points[|points| - 1];
      && t.state == Pan
      && RelativeDx(t) == last.x - x && RelativeDy(t) == last.y - y
      && t.view.dx == s.view.dx + (last.x - x) && t.view.dy == s.view.dy + (last.y - y)
      && t.start.scale == s.view.scale && RelativeZoom(t) == 1.0
  {
    DragTelescopes(MouseDownStep(s, x, y, gateOpen), points, gateOpen);
    DivSelf(s.view.scale);
  }

  lemma DivSelf(a: real)
    requires a != 0.0
    ensures a / a == 1.0
  {
  }

  /** Releasing after a pan goes back to 'animate' and keeps the view;
      releasing otherwise (a click) zooms about the pointer. */
  lemma MouseUpEnds(s: Snapshot, x: real, y: real, gateOpen: bool)
    ensures !MouseUpStep(s, x, y, gateOpen).pointer.isDown
    ensures s.state == Pan ==>
      var t := MouseUpStep(s, x, y, gateOpen);
      t.state == Animate && t.view == s.view
    ensures s.state != Pan ==>
      MouseUpStep(s, x, y, gateOpen) == ZoomClickStep(s.(pointer := s.pointer.(x := x, y := y, isDown := false)), x, y, gateOpen)
  {
  }

  /** A zoom starts from the current view at progress 0 and aims at the
      requested view. */
  lemma ZoomStarts(s: Snapshot, to: View, gateOpen: bool)
    ensures var t := ZoomStep(s, to, gateOpen);
      && t.state == Zoom && t.zoomProgress == 0.0
      && t.start == t.view == s.view && t.target == to && t.pointer == s.pointer
  {
  }

  /** A click zooms in by 1.7 and keeps the clicked point fixed: the map
      point under (x, y) in the target view is the one under it now. */
  lemma ClickKeepsPointFixed(s: Snapshot, x: real, y: real, gateOpen: bool)
    requires s.view.scale != 0.0
    ensures var t := ZoomClickStep(s, x, y, gateOpen);
      && t.state == Zoom && t.zoomProgress == 0.0
      && t.target.scale == 1.7 * s.view.scale
      && (x - t.target.dx) / t.target.scale == (x - s.view.dx) / s.view.scale
      && (y - t.target.dy) / t.target.scale == (y - s.view.dy) / s.view.scale
  {
    var t := ZoomClickStep(s, x, y, gateOpen);
    assert x - t.target.dx == ClickZoom * (x - s.view.dx);
    assert y - t.target.dy == ClickZoom * (y - s.view.dy);
    CancelFactor(ClickZoom, x - s.view.dx, s.view.scale);
    CancelFactor(ClickZoom, y - s.view.dy, s.view.scale);
  }

  lemma CancelFactor(k: real, a: real, b: real)
    requires k != 0.0 && b != 0.0
    ensures (k * a) / (k * b) == a / b
  {
    var q := a / b;
    assert a == q * b;
    assert k * a == q * (k * b);
  }

  /** Unzoom aims at the identity view. */
  lemma UnzoomAimsHome(s: Snapshot, gateOpen: bool)
    ensures var t := UnzoomStep(s, gateOpen);
      t.state == Zoom && t.zoomProgress == 0.0 && t.target == View(0.0, 0.0, 1.0) && t.start == s.view
  {
  }

  /** While the button is down or a pan is under way, loop does nothing. */
  lemma LoopIdleWhileDragging(s: Snapshot, gateOpen: bool, m: MathLib)
    requires s.state == MouseDown || s.state == Pan
    ensures LoopStep(s, gateOpen, m) == s
  {
  }

  /** One tick of a zoom advances the progress by 0.07, capped at 1, so it
      never decreases; the zoom goes on exactly while the progress is below
      1. */
  lemma LoopAdvancesZoom(s: Snapshot, gateOpen: bool, m: MathLib)
    requires s.state == Zoom && s.zoomProgress <= 1.0
    ensures var t := LoopStep(s, gateOpen, m);
      && t.zoomProgress == Min(1.0, s.zoomProgress + ZoomIncrement)
      && s.zoomProgress <= t.zoomProgress <= 1.0
      && (t.state == Zoom <==> t.zoomProgress < 1.0)
      && (t.state != Zoom ==> t.state == Animate)
      && t.start == s.start && t.target == s.target
  {
  }

  /** n ticks of loop, each under the same gate. */
  function Ticks(s: Snapshot, n: nat, gateOpen: bool, m: MathLib): Snapshot
    decreases n
  {
    if n == 0 then s else Ticks(LoopStep(s, gateOpen, m), n - 1, gateOpen, m)
  }

  /** In 'animate', loop only notifies: state, progress and view stay. */
  lemma {:induction false} AnimateKeepsView(s: Snapshot, n: nat, gateOpen: bool, m: MathLib)
    requires s.state == Animate
    ensures var t := Ticks(s, n, gateOpen, m);
      t.state == Animate && t.zoomProgress == s.zoomProgress && t.view == s.view
    decreases n
  {
    if n > 0 {
      AnimateKeepsView(LoopStep(s, gateOpen, m), n - 1, gateOpen, m);
    }
  }

  /** A zoom whose progress can reach 1 within n ticks is over after n
      ticks: the state is 'animate' and the view is exactly the target. */
  lemma {:induction false} ZoomFinishes(s: Snapshot, n: nat, gateOpen: bool, m: MathLib)
    requires Sound(m) && s.state == Zoom && s.zoomProgress <= 1.0
    requires 0 < n && 1.0 <= s.zoomProgress + ZoomIncrement * n as real
    ensures var t := Ticks(s, n, gateOpen, m);
      t.state == Animate && t.zoomProgress == 1.0 && t.view == s.target
    decreases n
  {
    var s1 := LoopStep(s, gateOpen, m);
    LoopAdvancesZoom(s, gateOpen, m);
    if s1.zoomProgress < 1.0 {
      ZoomFinishes(s1, n - 1, gateOpen, m);
    } else {
      EaseBounds(1.0, m);
      EasedAtEnd(s.start, s.target);
      AnimateKeepsView(s1, n - 1, gateOpen, m);
    }
  }

  /** Every zoom completes within 15 ticks (15 * 0.07 >= 1). */
  lemma ZoomWithinFifteenTicks(s: Snapshot, gateOpen: bool, m: MathLib)
    requires Sound(m) && s.state == Zoom && 0.0 <= s.zoomProgress <= 1.0
    ensures var t := Ticks(s, 15, gateOpen, m);
      t.state == Animate && t.zoomProgress == 1.0 && t.view == s.target
  {
    ZoomFinishes(s, 15, gateOpen, m);
  }

  /** MotionDisplay.move redraws the image saved at the start of a move at
      offset (dx - z * dxStart, dy - z * dyStart), scaled by
      z = relativeZoom. A map point q the image showed at
      scaleStart * q + dxStart lands at scale * q + dx, where the current
      view shows it. */
  lemma SavedImageRealigned(s: Snapshot, q: real, r: real)
    requires s.start.scale != 0.0
    ensures var z := RelativeZoom(s);
      && (s.view.dx - z * s.start.dx) + z * (s.start.scale * q + s.start.dx) == s.view.scale * q + s.view.dx
      && (s.view.dy - z * s.start.dy) + z * (s.start.scale * r + s.start.dy) == s.view.scale * r + s.view.dy
  {
    var z := RelativeZoom(s);
    assert z * s.start.scale == s.view.scale;
  }

  // ---------------------------------------------------------------------
  // The object

  /** The fields an Animator starts with (fields the constructor leaves
      undefined start at 0). */
  function Initial(hasGate: bool, hasUnzoomButton: bool): Snapshot
  {
    Snapshot(Animate, Pointer(false, -1.0, -1.0, 0.0, 0.0), Home, View(0.0, 0.0, 1.0), View(0.0, 0.0, 1.0),
             0.0, [], hasGate, hasUnzoomButton, false, [])
  }

  /** A new animator satisfies the invariant. */
  lemma InitialSettled(hasGate: bool, hasUnzoomButton: bool)
    ensures Settled(Initial(hasGate, hasUnzoomButton))
  {
  }

  class Animator {
    var state: State
    var pointer: Pointer
    /** dx, dy, scale. */
    var view: View
    /** dxStart, dyStart, scaleStart. */
    var start: View
    /** dxTarget, dyTarget, scaleTarget. */
    var target: View
    var zoomProgress: real
    var listeners: seq<Listener>
    /** An `animFunc` was given. */
    const hasGate: bool
    /** An unzoom button was given. */
    const hasUnzoomButton: bool
    var unzoomVisible: bool
    /** The handler calls made so far. */
    var log: seq<Delivery>

    ghost function Snap(): Snapshot
      reads this
    {
      Snapshot(state, pointer, view, start, target, zoomProgress, listeners, hasGate, hasUnzoomButton,
               unzoomVisible, log)
    }

    constructor(hasGate: bool, hasUnzoomButton: bool)
      ensures Snap() == Initial(hasGate, hasUnzoomButton)
    {
      state := Animate;
      pointer := Pointer(false, -1.0, -1.0, 0.0, 0.0);
      view := Home;
      start, target := View(0.0, 0.0, 1.0), View(0.0, 0.0, 1.0);
      zoomProgress := 0.0;
      listeners := [];
      this.hasGate, this.hasUnzoomButton := hasGate, hasUnzoomButton;
      unzoomVisible, log := false, [];
    }

    method Add(l: Listener)
      modifies this`listeners
      ensures Snap() == AddStep(old(Snap()), l)
    {
      listeners := listeners + [l];
    }

    method Notify(ev: Event, gateOpen: bool)
      modifies this`unzoomVisible, this`log
      ensures Snap() == Notified(old(Snap()), ev, gateOpen)
    {
      if hasUnzoomButton {
        unzoomVisible := Displaced(view);
      }
      if hasGate && !gateOpen {
        return;
      }
      var i := 0;
      while i < |listeners|
        invariant 0 <= i <= |listeners|
        invariant log == old(log) + Deliveries(listeners, ev, i)
        invariant unzoomVisible == if hasUnzoomButton then Displaced(view) else old(unzoomVisible)
      {
        if ev in listeners[i].handlers {
          log := log + [Delivery(i, ev)];
        }
        i := i + 1;
      }
    }

    method MouseDown(x: real, y: real, gateOpen: bool)
      modifies this
      ensures Snap() == MouseDownStep(old(Snap()), x, y, gateOpen)
    {
      pointer := pointer.(x := x, y := y);
      state := State.MouseDown;
      Notify(StartMove, gateOpen);
      pointer := pointer.(landingX := pointer.x, landingY := pointer.y);
      start := view;
      pointer := pointer.(isDown := true);
    }

    method MouseMove(x: real, y: real, gateOpen: bool)
      modifies this
      ensures Snap() == MouseMoveStep(old(Snap()), x, y, gateOpen)
    {
      ghost var s0 := Snap();
      pointer := pointer.(x := x, y := y);
      ghost var s1 := Snap();
      assert s1 == s0.(pointer := s0.pointer.(x := x, y := y));
      if !pointer.isDown {
        Notify(Hover, gateOpen);
        return;
      }
      var ddx := pointer.x - pointer.landingX;
      var ddy := pointer.y - pointer.landingY;
      var slip := Abs(ddx) + Abs(ddy);
      if slip > 2.0 || state == Pan {
        state := Pan;
        view := view.(dx := view.dx + ddx, dy := view.dy + ddy);
        pointer := pointer.(landingX := pointer.x, landingY := pointer.y);
        ghost var s2 := Snap();
        assert s2 == s1.(state := Pan, view := s1.view.(dx := s1.view.dx + ddx, dy := s1.view.dy + ddy),
                         pointer := s1.pointer.(landingX := x, landingY := y));
        assert MouseMoveStep(s0, x, y, gateOpen) == Notified(s2, Move, gateOpen);
        Notify(Move, gateOpen);
      }
    }

    method MouseUp(x: real, y: real, gateOpen: bool)
      modifies this
      ensures Snap() == MouseUpStep(old(Snap()), x, y, gateOpen)
    {
      pointer := pointer.(x := x, y := y, isDown := false);
      if state == Pan {
        state := Animate;
        Notify(EndMove, gateOpen);
        return;
      }
      ZoomClick(pointer.x, pointer.y, gateOpen);
    }

    method Unzoom(gateOpen: bool)
      modifies this
      ensures Snap() == UnzoomStep(old(Snap()), gateOpen)
    {
      Zoom(Home.dx, Home.dy, Home.scale, gateOpen);
    }

    method ZoomClick(x: real, y: real, gateOpen: bool)
      modifies this
      ensures Snap() == ZoomClickStep(old(Snap()), x, y, gateOpen)
    {
      var z := ClickZoom;
      var scale := ClickZoom * view.scale;
      var dx := x - z * (x - view.dx);
      var dy := y - z * (y - view.dy);
      Zoom(dx, dy, scale, gateOpen);
    }

    method Zoom(dx: real, dy: real, scale: real, gateOpen: bool)
      modifies this
      ensures Snap() == ZoomStep(old(Snap()), View(dx, dy, scale), gateOpen)
    {
      state := State.Zoom;
      zoomProgress := 0.0;
      start := view;
      target := View(dx, dy, scale);
      Notify(StartMove, gateOpen);
    }

    method Loop(gateOpen: bool, m: MathLib)
      modifies this
      ensures Snap() == LoopStep(old(Snap()), gateOpen, m)
    {
      if state == State.MouseDown || state == Pan {
        return;
      }
      if state == Animate {
        Notify(AnimateTick, gateOpen);
        return;
      }
      zoomProgress := Min(1.0, zoomProgress + ZoomIncrement);
      var u := Ease(zoomProgress, m);
      view := View(Lerp(target.dx, start.dx, u), Lerp(target.dy, start.dy, u), Lerp(target.scale, start.scale, u));
      if zoomProgress < 1.0 {
        Notify(Move, gateOpen);
      } else {
        state := Animate;
        Notify(EndMove, gateOpen);
      }
    }
  }
}
