/** windmap.js `CityDisplay`: the city labels drawn over the map.

    The cities are kept in descending order of population. A marking pass
    walks them in that order and accepts a city when its dot and its name
    fit on the canvas without touching anything accepted before it in the
    same pass; an accepted city gains the pass's opacity. `move` runs one
    pass (two during a zoom, blended by the zoom progress) and then paints
    the cities that gained some opacity.

    The canvas calls are left out: what `move` would paint is returned as
    a list of `Label`s. The width of a city's name (measureText) and its
    dot radius (0.075 * pop^0.3) are inputs carried on each city. */
module Labels {
  import opened Numerics
  import opened Vectors
  import opened Projection
  import opened Animation
  import opened Canvas

  /** What a city is apart from its opacity: its position, its population,
      the radius of its dot and the width of its name in the label font. */
  datatype Site = Site(lon: real, lat: real, pop: real, radius: real, textWidth: real)

  /** A city object: its site and the `alpha` the marking passes
      accumulate. */
  datatype City = City(site: Site, alpha: real)

  /** A rectangle at (x, y) of width w and height h. */
  datatype Rect = Rect(x: real, y: real, w: real, h: real)

  /** CityDisplay's maxInView and pad. */
  const MaxInView: nat := 10
  const Pad: real := 3.0

  /** The height of a name and the distance from a dot to its name. */
  const TextHeight: real := 15.0

  // ---------------------------------------------------------------------
  // collide and isFree

  /** markCities' collide: the rectangles overlap or touch (neither lies
      strictly to one side of the other). */
  predicate Collide(r1: Rect, r2: Rect)
  {
    !(r1.x + r1.w < r2.x || r1.x > r2.x + r2.w || r1.y + r1.h < r2.y || r1.y > r2.y + r2.h)
  }

  /** Collide does not depend on the order of its arguments; a rectangle of
      non-negative size collides with itself; rectangles that only share an
      edge collide. */
  lemma CollideSymmetric(r1: Rect, r2: Rect)
    ensures Collide(r1, r2) <==> Collide(r2, r1)
    ensures 0.0 <= r1.w && 0.0 <= r1.h ==> Collide(r1, r1)
    ensures 0.0 <= r1.w && 0.0 <= r1.h && 0.0 <= r2.w && 0.0 <= r2.h && r1.x + r1.w == r2.x && r1.y == r2.y ==>
      Collide(r1, r2)
  {
  }

  /** Rectangle r collides with nothing in `taken`. */
  predicate Free(r: Rect, taken: seq<Rect>)
  {
    forall t :: t in taken ==> !Collide(r, t)
  }

  /** markCities' isFree: scan the rectangles taken so far, answering false
      at the first one r collides with. */
  method IsFree(r: Rect, taken: seq<Rect>) returns (free: bool)
    ensures free <==> Free(r, taken)
  {
    var i := 0;
    while i < |taken|
      invariant 0 <= i <= |taken|
      invariant forall k :: 0 <= k < i ==> !Collide(r, taken[k])
    {
      if Collide(r, taken[i]) {
        return false;
      }
      i := i + 1;
    }
    return true;
  }

  // ---------------------------------------------------------------------
  // The rectangles a city needs

  /** Where markCities works: the projection and canvas of the display, and
      the view (scale, dx, dy) of the pass. */
  datatype Frame = Frame(projection: MapProjection, width: real, height: real, view: View)

  /** The canvas point of a city's dot. */
  function Spot(s: Site, f: Frame): Vector
  {
    CanvasPoint(f.projection, f.view, s.lon, s.lat)
  }

  /** The two rectangles a city needs, padded by Pad on every side: the
      square around its dot, and the box of its name, centred under the dot
      with its top at the dot's height. */
  datatype Footprint = Footprint(dot: Rect, text: Rect)

  function FootprintOf(s: Site, f: Frame): (fp: Footprint)
    ensures 0.0 <= s.radius ==> 0.0 < fp.dot.w && fp.dot.w == fp.dot.h
    ensures fp.text.h == TextHeight + 2.0 * Pad
    ensures var p := Spot(s, f);
      fp.dot.x + fp.dot.w / 2.0 == p.x && fp.dot.y + fp.dot.h / 2.0 == p.y
      && fp.text.x + fp.text.w / 2.0 == p.x && fp.text.y + Pad == p.y
  {
    var p := Spot(s, f);
    var tx, ty := p.x, p.y + TextHeight;
    Footprint(
      Rect(p.x - s.radius - Pad, p.y - s.radius - Pad, 2.0 * (s.radius + Pad), 2.0 * (s.radius + Pad)),
      Rect(tx - s.textWidth / 2.0 - Pad, ty - TextHeight - Pad, s.textWidth + 2.0 * Pad, TextHeight + 2.0 * Pad))
  }

  /** The city's dot lands on the canvas. */
  predicate Visible(s: Site, f: Frame)
  {
    !OffCanvas(Spot(s, f), f.width, f.height)
  }

  /** Both rectangles of the city are free of `taken`. */
  predicate Fits(s: Site, f: Frame, taken: seq<Rect>)
  {
    var fp := FootprintOf(s, f);
    Free(fp.dot, taken) && Free(fp.text, taken)
  }

  /** The test markCities applies to one city: skip it when its dot is off
      the canvas, otherwise compute its two rectangles and check both with
      isFree. */
  method Candidate(s: Site, f: Frame, taken: seq<Rect>) returns (ok: bool, fp: Footprint)
    ensures fp == FootprintOf(s, f)
    ensures ok <==> Visible(s, f) && Fits(s, f, taken)
  {
    var at := CanvasPoint(f.projection, f.view, s.lon, s.lat);
    fp := FootprintOf(s, f);
    if OffCanvas(at, f.width, f.height) {
      return false, fp;
    }
    var dotFree := IsFree(fp.dot, taken);
    var textFree := IsFree(fp.text, taken);
    ok := dotFree && textFree;
  }

  // ---------------------------------------------------------------------
  // A marking pass

  /** The cities a markCities pass accepts, from index i on, when `taken`
      holds the rectangles accepted so far and `count` cities have been
      accepted: a city off the canvas or not fitting is skipped; an
      accepted one adds its name box and then its dot square to `taken`;
      the pass stops right after accepting a city that brings the count
      above MaxInView. */
  function Accepted(cs: seq<City>, f: Frame, i: nat, taken: seq<Rect>, count: nat): seq<nat>
    decreases |cs| - i
  {
    if i >= |cs| then []
    else
      var s := cs[i].site;
      if !Visible(s, f) || !Fits(s, f, taken) then Accepted(cs, f, i + 1, taken, count)
      else if count + 1 > MaxInView then [i]
      else
        var fp := FootprintOf(s, f);
        [i] + Accepted(cs, f, i + 1, taken + [fp.text, fp.dot], count + 1)
  }

  /** The cities one whole pass accepts. */
  function Pass(cs: seq<City>, f: Frame): seq<nat>
  {
    Accepted(cs, f, 0, [], 0)
  }

  /** The indices in `a` ascend strictly. */
  predicate Ascending(a: seq<nat>)
  {
    forall p, q :: 0 <= p < q < |a| ==> a[p] < a[q]
  }

  /** Every index in `a` names a city of cs, from index i on, whose dot is
      on the canvas. */
  predicate OnCanvasFrom(cs: seq<City>, f: Frame, a: seq<nat>, i: nat)
  {
    forall k :: 0 <= k < |a| ==> i <= a[k] < |cs| && Visible(cs[a[k]].site, f)
  }

  /** A pass accepts cities in the order it visits them, each at most once,
      only cities whose dot is on the canvas, and no more than
      MaxInView + 1 - count of them. */
  lemma {:induction false} AcceptedInOrder(cs: seq<City>, f: Frame, i: nat, taken: seq<Rect>, count: nat)
    requires count <= MaxInView
    ensures |Accepted(cs, f, i, taken, count)| <= MaxInView + 1 - count
    ensures OnCanvasFrom(cs, f, Accepted(cs, f, i, taken, count), i)
    ensures Ascending(Accepted(cs, f, i, taken, count))
    decreases |cs| - i
  {
    if i < |cs| {
      var s := cs[i].site;
      if !Visible(s, f) || !Fits(s, f, taken) {
        AcceptedInOrder(cs, f, i + 1, taken, count);
        assert Accepted(cs, f, i, taken, count) == Accepted(cs, f, i + 1, taken, count);
      } else if count + 1 <= MaxInView {
        var fp := FootprintOf(s, f);
        var more := taken + [fp.text, fp.dot];
        AcceptedInOrder(cs, f, i + 1, more, count + 1);
        var rest := Accepted(cs, f, i + 1, more, count + 1);
        assert Accepted(cs, f, i, taken, count) == [i] + rest;
        PrependInOrder(cs, f, i, rest);
      } else {
        assert Accepted(cs, f, i, taken, count) == [i];
      }
    }
  }

  /** Putting a visible city i ahead of indices that come after it keeps
      them ascending and on the canvas. */
  lemma PrependInOrder(cs: seq<City>, f: Frame, i: nat, rest: seq<nat>)
    requires i < |cs| && Visible(cs[i].site, f)
    requires OnCanvasFrom(cs, f, rest, i + 1) && Ascending(rest)
    ensures OnCanvasFrom(cs, f, [i] + rest, i) && Ascending([i] + rest)
  {
    var a := [i] + rest;
    forall p, q | 0 <= p < q < |a| ensures a[p] < a[q] {
      if p > 0 {
        assert a[p] == rest[p - 1] && a[q] == rest[q - 1];
      } else {
        assert a[q] == rest[q - 1];
      }
    }
  }

  /** Every city in `a` is a city of cs that fits beside `taken`. */
  predicate AllFit(cs: seq<City>, f: Frame, a: seq<nat>, taken: seq<Rect>)
  {
    forall k :: 0 <= k < |a| ==> a[k] < |cs| && Fits(cs[a[k]].site, f, taken)
  }

  /** Every accepted city fits beside the rectangles taken before the
      pass (from index i) started. */
  lemma {:induction false} AcceptedFit(cs: seq<City>, f: Frame, i: nat, taken: seq<Rect>, count: nat)
    ensures AllFit(cs, f, Accepted(cs, f, i, taken, count), taken)
    decreases |cs| - i
  {
    if i < |cs| {
      var s := cs[i].site;
      if !Visible(s, f) || !Fits(s, f, taken) {
        AcceptedFit(cs, f, i + 1, taken, count);
        assert Accepted(cs, f, i, taken, count) == Accepted(cs, f, i + 1, taken, count);
      } else if count + 1 <= MaxInView {
        var fp := FootprintOf(s, f);
        var more := taken + [fp.text, fp.dot];
        AcceptedFit(cs, f, i + 1, more, count + 1);
        var rest := Accepted(cs, f, i + 1, more, count + 1);
        AllFitPrefix(cs, f, rest, taken, [fp.text, fp.dot]);
        assert Accepted(cs, f, i, taken, count) == [i] + rest;
        PrependFit(cs, f, i, rest, taken);
      } else {
        assert Accepted(cs, f, i, taken, count) == [i];
      }
    }
  }

  /** Fitting beside a + b means fitting beside a, city by city. */
  lemma AllFitPrefix(cs: seq<City>, f: Frame, rest: seq<nat>, a: seq<Rect>, b: seq<Rect>)
    requires AllFit(cs, f, rest, a + b)
    ensures AllFit(cs, f, rest, a)
  {
    forall k | 0 <= k < |rest| ensures Fits(cs[rest[k]].site, f, a) {
      FitsPrefix(cs[rest[k]].site, f, a, b);
    }
  }

  /** A fitting city ahead of fitting cities: they all fit. */
  lemma PrependFit(cs: seq<City>, f: Frame, i: nat, rest: seq<nat>, taken: seq<Rect>)
    requires i < |cs| && Fits(cs[i].site, f, taken) && AllFit(cs, f, rest, taken)
    ensures AllFit(cs, f, [i] + rest, taken)
  {
    var a := [i] + rest;
    forall k | 0 < k < |a| ensures a[k] < |cs| && Fits(cs[a[k]].site, f, taken) {
      assert a[k] == rest[k - 1];
    }
  }

  /** Each city of `a` fits beside the dot and the name of every city
      before it in `a`. */
  predicate Apart(cs: seq<City>, f: Frame, a: seq<nat>)
  {
    forall p, q :: 0 <= p < q < |a| ==>
      a[p] < |cs| && AllFit(cs, f, [a[q]], [FootprintOf(cs[a[p]].site, f).text, FootprintOf(cs[a[p]].site, f).dot])
  }

  /** No rectangle a pass accepts collides with the dot or the name of a
      city accepted before it in the same pass. */
  lemma {:induction false} AcceptedApart(cs: seq<City>, f: Frame, i: nat, taken: seq<Rect>, count: nat)
    ensures Apart(cs, f, Accepted(cs, f, i, taken, count))
    decreases |cs| - i
  {
    if i < |cs| {
      var s := cs[i].site;
      if !Visible(s, f) || !Fits(s, f, taken) {
        AcceptedApart(cs, f, i + 1, taken, count);
        assert Accepted(cs, f, i, taken, count) == Accepted(cs, f, i + 1, taken, count);
      } else if count + 1 <= MaxInView {
        var fp := FootprintOf(s, f);
        var more := taken + [fp.text, fp.dot];
        AcceptedApart(cs, f, i + 1, more, count + 1);
        AcceptedFit(cs, f, i + 1, more, count + 1);
        var rest := Accepted(cs, f, i + 1, more, count + 1);
        var a := [i] + rest;
        assert Accepted(cs, f, i, taken, count) == a;
        forall q | 0 < q < |a| ensures AllFit(cs, f, [a[q]], [fp.text, fp.dot]) {
          assert a[q] == rest[q - 1];
          FitsSuffix(cs[a[q]].site, f, taken, [fp.text, fp.dot]);
        }
      }
    }
  }

  /** City j does not fit beside `taken` or beside the dot and name of a
      city of `a` visited before it. */
  predicate Blocked(cs: seq<City>, f: Frame, a: seq<nat>, taken: seq<Rect>, j: nat)
    requires j < |cs|
  {
    !Fits(cs[j].site, f, taken) ||
    exists p :: 0 <= p < |a| && a[p] < j && a[p] < |cs| &&
      !Fits(cs[j].site, f, [FootprintOf(cs[a[p]].site, f).text, FootprintOf(cs[a[p]].site, f).dot])
  }

  /** The pass is greedy: a city on the canvas that it visits (it visits
      every city when it does not stop early, and the ones before its last
      acceptance otherwise) and does not accept is blocked by what was
      taken before it. */
  lemma {:induction false} AcceptedGreedy(cs: seq<City>, f: Frame, i: nat, taken: seq<Rect>, count: nat, j: nat)
    requires count <= MaxInView && i <= j < |cs| && Visible(cs[j].site, f)
    requires var a := Accepted(cs, f, i, taken, count);
      j !in a && (|a| <= MaxInView - count || (|a| > 0 && j < a[|a| - 1]))
    ensures Blocked(cs, f, Accepted(cs, f, i, taken, count), taken, j)
    decreases |cs| - i
  {
    var s := cs[i].site;
    var a := Accepted(cs, f, i, taken, count);
    if !Visible(s, f) || !Fits(s, f, taken) {
      assert a == Accepted(cs, f, i + 1, taken, count);
      if j > i {
        AcceptedGreedy(cs, f, i + 1, taken, count, j);
      }
    } else if count + 1 <= MaxInView {
      var fp := FootprintOf(s, f);
      var more := taken + [fp.text, fp.dot];
      var rest := Accepted(cs, f, i + 1, more, count + 1);
      assert a == [i] + rest;
      AcceptedGreedy(cs, f, i + 1, more, count + 1, j);
      if !Fits(cs[j].site, f, more) {
        if Fits(cs[j].site, f, taken) {
          FitsJoin(cs[j].site, f, taken, [fp.text, fp.dot]);
          assert a[0] == i;
        }
      } else {
        var p :| 0 <= p < |rest| && rest[p] < j && rest[p] < |cs| &&
          !Fits(cs[j].site, f, [FootprintOf(cs[rest[p]].site, f).text, FootprintOf(cs[rest[p]].site, f).dot]);
        assert a[p + 1] == rest[p];
      }
    }
  }

  /** Fitting beside a and beside b means fitting beside a + b. */
  lemma FitsJoin(s: Site, f: Frame, a: seq<Rect>, b: seq<Rect>)
    ensures Fits(s, f, a) && Fits(s, f, b) ==> Fits(s, f, a + b)
  {
  }

  /** Fitting beside a + b means fitting beside a, and beside b. */
  lemma FitsPrefix(s: Site, f: Frame, a: seq<Rect>, b: seq<Rect>)
    requires Fits(s, f, a + b)
    ensures Fits(s, f, a)
  {
    var fp := FootprintOf(s, f);
    forall t | t in a ensures !Collide(fp.dot, t) && !Collide(fp.text, t) {
      assert t in a + b;
    }
  }

  lemma FitsSuffix(s: Site, f: Frame, a: seq<Rect>, b: seq<Rect>)
    requires Fits(s, f, a + b)
    ensures Fits(s, f, b)
  {
    var fp := FootprintOf(s, f);
    forall t | t in b ensures !Collide(fp.dot, t) && !Collide(fp.text, t) {
      assert t in a + b;
    }
  }

  /** A pass only looks at the sites: cities with the same sites (whatever
      their opacities) get the same cities accepted. */
  lemma {:induction false} AcceptedIgnoresAlpha(cs: seq<City>, ds: seq<City>, f: Frame, i: nat, taken: seq<Rect>, count: nat)
    requires |cs| == |ds| && forall k :: 0 <= k < |cs| ==> cs[k].site == ds[k].site
    ensures Accepted(cs, f, i, taken, count) == Accepted(ds, f, i, taken, count)
    decreases |cs| - i
  {
    if i < |cs| {
      var s := cs[i].site;
      if !Visible(s, f) || !Fits(s, f, taken) {
        AcceptedIgnoresAlpha(cs, ds, f, i + 1, taken, count);
      } else if count + 1 <= MaxInView {
        var fp := FootprintOf(s, f);
        AcceptedIgnoresAlpha(cs, ds, f, i + 1, taken + [fp.text, fp.dot], count + 1);
      }
    }
  }

  /** The opacities after a pass of opacity `alpha` accepted the cities
      `a`. */
  function Bumped(cs: seq<City>, a: seq<nat>, alpha: real): (r: seq<City>)
    ensures |r| == |cs|
    ensures forall k :: 0 <= k < |cs| ==> r[k].site == cs[k].site
  {
    seq(|cs|, k requires 0 <= k < |cs| => cs[k].(alpha := cs[k].alpha + (if k in a then alpha else 0.0)))
  }

  /** What a pass adds: each accepted city gains exactly `alpha` (once,
      however often it is listed), every other city is unchanged. */
  lemma BumpedExactly(cs: seq<City>, a: seq<nat>, alpha: real)
    ensures forall k :: 0 <= k < |cs| && k !in a ==> Bumped(cs, a, alpha)[k] == cs[k]
    ensures forall k :: 0 <= k < |cs| && k in a ==> Bumped(cs, a, alpha)[k].alpha == cs[k].alpha + alpha
  {
  }

  /** Bumping one more city, not bumped yet, is an update of that city
      alone. */
  lemma BumpOne(cs: seq<City>, a: seq<nat>, i: nat, alpha: real)
    requires i < |cs| && i !in a
    ensures var b := Bumped(cs, a, alpha);
      Bumped(cs, a + [i], alpha) == b[i := b[i].(alpha := b[i].alpha + alpha)]
  {
  }

  /** All opacities zero, as the constructor, endMove and move leave them. */
  function Cleared(cs: seq<City>): (r: seq<City>)
    ensures |r| == |cs|
    ensures forall k :: 0 <= k < |cs| ==> r[k].site == cs[k].site && r[k].alpha == 0.0
  {
    seq(|cs|, k requires 0 <= k < |cs| => cs[k].(alpha := 0.0))
  }

  // ---------------------------------------------------------------------
  // Sorting by population

  /** Descending population: the order the constructor's sort leaves. */
  predicate ByPopulation(cs: seq<City>)
  {
    forall p, q :: 0 <= p < q < |cs| ==> cs[p].site.pop >= cs[q].site.pop
  }

  /** Insert c into cities sorted by descending population, ahead of the
      first city that is not more populous. */
  function InsertByPop(c: City, cs: seq<City>): seq<City>
  {
    if cs == [] || cs[0].site.pop <= c.site.pop then [c] + cs
    else [cs[0]] + InsertByPop(c, cs[1..])
  }

  /** The constructor's cities.sort by descending population (an
      insertion sort: Array.prototype.sort is a library call, and only its
      result matters here). */
  function SortByPop(cs: seq<City>): seq<City>
  {
    if cs == [] then [] else InsertByPop(cs[0], SortByPop(cs[1..]))
  }

  /** Inserting keeps every city and adds c. */
  lemma {:induction false} InsertByPopPermutes(c: City, cs: seq<City>)
    ensures multiset(InsertByPop(c, cs)) == multiset(cs) + multiset{c}
  {
    if cs != [] && cs[0].site.pop > c.site.pop {
      InsertByPopPermutes(c, cs[1..]);
      assert cs == [cs[0]] + cs[1..];
    }
  }

  /** Inserting into a sorted list keeps it sorted; the result starts with
      c or with the list's first city. */
  lemma {:induction false} InsertByPopSorted(c: City, cs: seq<City>)
    requires ByPopulation(cs)
    ensures var r := InsertByPop(c, cs);
      && |r| == |cs| + 1 && ByPopulation(r)
      && (r[0] == c || (cs != [] && r[0] == cs[0]))
  {
    if cs != [] && cs[0].site.pop > c.site.pop {
      var tail := cs[1..];
      assert ByPopulation(tail);
      InsertByPopSorted(c, tail);
      var r' := InsertByPop(c, tail);
      var r := [cs[0]] + r';
      assert cs[0].site.pop >= r'[0].site.pop;
      forall p, q | 0 <= p < q < |r| ensures r[p].site.pop >= r[q].site.pop {
        if p == 0 && q > 1 {
          assert r'[0].site.pop >= r'[q - 1].site.pop;
        }
      }
    }
  }

  /** The sort leaves the cities in descending population order and is a
      permutation of them. */
  lemma {:induction false} SortByPopSorts(cs: seq<City>)
    ensures ByPopulation(SortByPop(cs))
    ensures multiset(SortByPop(cs)) == multiset(cs)
  {
    if cs != [] {
      SortByPopSorts(cs[1..]);
      InsertByPopSorted(cs[0], SortByPop(cs[1..]));
      InsertByPopPermutes(cs[0], SortByPop(cs[1..]));
      assert cs == [cs[0]] + cs[1..];
    }
  }

  /** A pass accepts cities in descending population order. */
  lemma PassByPopulation(cs: seq<City>, f: Frame)
    requires ByPopulation(cs)
    ensures var a := Pass(cs, f);
      forall p, q :: 0 <= p < q < |a| ==> a[p] < a[q] < |cs| && cs[a[p]].site.pop >= cs[a[q]].site.pop
  {
    AcceptedInOrder(cs, f, 0, [], 0);
  }

  // ---------------------------------------------------------------------
  // move

  /** The opacities `move` computes for an animator snapshot (None when no
      animator is given): all cleared, then during a zoom a pass at the
      start view with opacity 1 - u and one at the target view with
      opacity u (u the zoom progress), otherwise one pass at the current
      view (the home view without an animator) with opacity 1. */
  function Marked(cs: seq<City>, projection: MapProjection, width: real, height: real, a: Option<Snapshot>): seq<City>
  {
    var c := Cleared(cs);
    if a.Some? && a.value.state == Zoom then
      var u := a.value.zoomProgress;
      var c1 := Bumped(c, Pass(c, Frame(projection, width, height, a.value.start)), 1.0 - u);
      Bumped(c1, Pass(c1, Frame(projection, width, height, a.value.target)), u)
    else
      var view := if a.Some? then a.value.view else Home;
      Bumped(c, Pass(c, Frame(projection, width, height, view)), 1.0)
  }

  /** With a settled zoom progress (0 <= u <= 1) every city ends a move
      with an opacity in [0, 1]: 0 if no pass took it, 1 - u, u or 1
      otherwise. So the Math.min(1, alpha) cap of the paint loop never
      cuts. */
  lemma MarkedInUnitRange(cs: seq<City>, projection: MapProjection, width: real, height: real, a: Option<Snapshot>)
    requires a.Some? ==> 0.0 <= a.value.zoomProgress <= 1.0
    ensures var r := Marked(cs, projection, width, height, a);
      |r| == |cs| && forall k :: 0 <= k < |r| ==> 0.0 <= r[k].alpha <= 1.0 && r[k].site == cs[k].site
  {
    var c := Cleared(cs);
    if a.Some? && a.value.state == Zoom {
      var u := a.value.zoomProgress;
      var c1 := Bumped(c, Pass(c, Frame(projection, width, height, a.value.start)), 1.0 - u);
      assert forall k :: 0 <= k < |c1| ==> 0.0 <= c1[k].alpha <= 1.0 - u;
    }
  }

  /** What the paint loop of move draws for a city: the dot of `radius` at
      `at` and the name under it, with opacity `alpha`. */
  datatype Label = Label(city: nat, at: Vector, radius: real, alpha: real)

  /** The labels the paint loop draws for the first n cities, in order:
      a city with capped opacity min(1, alpha) zero is skipped, and so is
      one whose dot falls off the canvas under the current view. */
  function Painted(cs: seq<City>, f: Frame, n: nat): (r: seq<Label>)
    requires n <= |cs|
    ensures forall l :: l in r ==>
      l.city < n && l.alpha != 0.0 && l.alpha <= 1.0 && Visible(cs[l.city].site, f) && l.at == Spot(cs[l.city].site, f)
  {
    if n == 0 then []
    else
      var c := cs[n - 1];
      var alpha := Min(1.0, c.alpha);
      var rest := Painted(cs, f, n - 1);
      if alpha == 0.0 || !Visible(c.site, f) then rest
      else rest + [Label(n - 1, Spot(c.site, f), c.site.radius, alpha)]
  }

  class CityDisplay {
    const projection: MapProjection
    /** The canvas size. */
    const width: real
    const height: real
    var cities: seq<City>

    /** The CityDisplay constructor: the cities sorted by descending
        population, all with opacity zero. */
    constructor(cities: seq<City>, projection: MapProjection, width: real, height: real)
      ensures this.projection == projection && this.width == width && this.height == height
      ensures this.cities == Cleared(SortByPop(cities))
    {
      this.projection := projection;
      this.width, this.height := width, height;
      this.cities := SortByPop(cities);
      new;
      ClearAlphas();
    }

    /** The loop that zeroes every city's alpha (in the constructor, endMove
        and move). */
    method ClearAlphas()
      modifies this`cities
      ensures cities == Cleared(old(cities))
    {
      var i := 0;
      while i < |cities|
        invariant 0 <= i <= |cities| == |old(cities)|
        invariant forall k :: 0 <= k < i ==> cities[k] == old(cities)[k].(alpha := 0.0)
        invariant forall k :: i <= k < |cities| ==> cities[k] == old(cities)[k]
      {
        cities := cities[i := cities[i].(alpha := 0.0)];
        i := i + 1;
      }
    }

    /** CityDisplay.prototype.markCities: one greedy pass at `view`; every
        city the pass accepts gains `alpha`, the others keep theirs. */
    method MarkCities(view: View, alpha: real)
      modifies this`cities
      ensures cities == Bumped(old(cities), Pass(old(cities), Frame(projection, width, height, view)), alpha)
    {
      var f := Frame(projection, width, height, view);
      ghost var cs := cities;
      ghost var acc: seq<nat> := [];
      var taken: seq<Rect> := [];
      var numInView: nat := 0;
      var i := 0;
      while i < |cities|
        invariant 0 <= i <= |cities| == |cs| && numInView <= MaxInView
        invariant Pass(cs, f) == acc + Accepted(cs, f, i, taken, numInView)
        invariant forall k :: k in acc ==> k < i
        invariant cities == Bumped(cs, acc, alpha)
      {
        ghost var rest := Accepted(cs, f, i, taken, numInView);
        var s := cities[i].site;
        assert s == cs[i].site;
        var ok, fp := Candidate(s, f, taken);
        if !ok {
          assert rest == Accepted(cs, f, i + 1, taken, numInView);
          i := i + 1;
          continue;
        }
        taken := taken + [fp.text, fp.dot];
        BumpOne(cs, acc, i, alpha);
        cities := cities[i := cities[i].(alpha := cities[i].alpha + alpha)];
        acc := acc + [i];
        numInView := numInView + 1;
        if numInView > MaxInView {
          assert rest == [i];
          assert Pass(cs, f) == acc;
          break;
        }
        assert rest == [i] + Accepted(cs, f, i + 1, taken, numInView);
        i := i + 1;
      }
      ghost var pass := Pass(cs, f);
      assert pass == acc;
    }

    /** The paint loop of CityDisplay.prototype.move, returning the labels
        it would draw under `view`. */
    method Paint(view: View) returns (labels: seq<Label>)
      ensures labels == Painted(cities, Frame(projection, width, height, view), |cities|)
    {
      var f := Frame(projection, width, height, view);
      labels := [];
      var i := 0;
      while i < |cities|
        invariant 0 <= i <= |cities|
        invariant labels == Painted(cities, f, i)
      {
        var city := cities[i];
        var alpha := Min(1.0, city.alpha);
        if alpha != 0.0 {
          var at := CanvasPoint(projection, view, city.site.lon, city.site.lat);
          if !OffCanvas(at, width, height) {
            labels := labels + [Label(i, at, city.site.radius, alpha)];
          }
        }
        i := i + 1;
      }
    }

    /** CityDisplay.prototype.move for an animator snapshot `a` (None when
        called without an animator): the opacities are recomputed as
        `Marked` says and the labels painted under the current view. */
    method Move(a: Option<Snapshot>) returns (labels: seq<Label>)
      modifies this`cities
      ensures cities == Marked(old(cities), projection, width, height, a)
      ensures labels == Painted(cities, Frame(projection, width, height, if a.Some? then a.value.view else Home), |cities|)
    {
      ClearAlphas();
      if a.Some? {
        if a.value.state == Zoom {
          var u := a.value.zoomProgress;
          MarkCities(a.value.start, 1.0 - u);
          MarkCities(a.value.target, u);
        } else {
          MarkCities(a.value.view, 1.0);
        }
      } else {
        MarkCities(Home, 1.0);
      }
      labels := Paint(if a.Some? then a.value.view else Home);
    }

    /** CityDisplay.prototype.endMove: clear the opacities, then move. */
    method EndMove(a: Option<Snapshot>) returns (labels: seq<Label>)
      modifies this`cities
      ensures cities == Marked(old(cities), projection, width, height, a)
      ensures labels == Painted(cities, Frame(projection, width, height, if a.Some? then a.value.view else Home), |cities|)
    {
      ClearAlphas();
      ghost var cleared := cities;
      labels := Move(a);
      assert Cleared(cleared) == Cleared(old(cities));
    }
  }
}
