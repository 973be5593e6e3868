/** Gesture coordinates: from a point picked in a (cropped) image to the frame and on to the canvas, the viewport
    gestures, and the object under a point. Geometry is exact real arithmetic. */
module Coordinates {
  import opened Arithmetic
  import opened Basics
  import opened CanvasCore
  import opened Ordering

  // ---------------------------------------------------------------- points, frames and images

  datatype Viewport = Viewport(x: real, y: real, width: real, height: real, zoom: real)

  datatype Frame = Frame(width: real, height: real, viewport: Viewport)

  datatype Rect = Rect(x: real, y: real, width: real, height: real)

  datatype Space = FramePixel | NormalizedFrame

  datatype GestureError = OutsideUnit | OutsideFrame | NotMoved | BadFactor | ZoomClamped

  datatype Resolved = Resolved(frame: Point, world: Point)

  predicate Proper(f: Frame) { f.width > 0.0 && f.height > 0.0 && f.viewport.zoom > 0.0 }

  predicate CropInside(c: Rect, f: Frame) {
    0.0 <= c.x && 0.0 <= c.y && c.width > 0.0 && c.height > 0.0 && c.x + c.width <= f.width
    && c.y + c.height <= f.height
  }

  /** A coordinate in pixels of a side this long. */
  function Pixels(x: real, space: Space, side: real): real { if space == NormalizedFrame then x * side else x }

  /** A coordinate on a cropped side, as one on the side of the frame it was cropped from. */
  function Uncropped(x: real, space: Space, from: real, length: real, side: real): real
    requires side > 0.0
  {
    if space == FramePixel then from + x else (from + x * length) / side
  }

  /** From the picked image to the frame it was cropped from. */
  function ProjectPoint(p: Point, space: Space, f: Frame, crop: Option<Rect>): Point
    requires Proper(f)
  {
    if crop.None? then p
    else
      var c := crop.value;
      Point(Uncropped(p.x, space, c.x, c.width, f.width), Uncropped(p.y, space, c.y, c.height, f.height))
  }

  /** One axis of a displayed box, and of the map to the canvas. */
  function Shown(start: real, extent: real, side: real, pixel: real): real
    requires side > 0.0
  {
    start + pixel * extent / side
  }

  function ToWorld(origin: real, zoom: real, p: real): real
    requires zoom > 0.0
  {
    origin + p / zoom
  }

  function World(v: Viewport, p: Point): Point
    requires v.zoom > 0.0
  {
    Point(ToWorld(v.x, v.zoom, p.x), ToWorld(v.y, v.zoom, p.y))
  }

  function ResolvePoint(p: Point, space: Space, f: Frame): Result<Resolved, GestureError>
    requires Proper(f)
  {
    var q := Point(Pixels(p.x, space, f.width), Pixels(p.y, space, f.height));
    if space == NormalizedFrame && (p.x < 0.0 || p.x > 1.0 || p.y < 0.0 || p.y > 1.0) then Err(OutsideUnit)
    else if q.x < 0.0 || q.x > f.width || q.y < 0.0 || q.y > f.height then Err(OutsideFrame)
    else Ok(Resolved(q, World(f.viewport, q)))
  }

  /** The world rectangle an image shows: the viewBox of its SVG. */
  function ViewBox(f: Frame, crop: Option<Rect>): Rect
    requires Proper(f)
  {
    var v := f.viewport;
    match crop
    case None => Rect(v.x, v.y, f.width / v.zoom, f.height / v.zoom)
    case Some(c) => Rect(ToWorld(v.x, v.zoom, c.x), ToWorld(v.y, v.zoom, c.y), c.width / v.zoom, c.height / v.zoom)
  }

  function ImageWidth(f: Frame, crop: Option<Rect>): real { if crop.None? then f.width else crop.value.width }

  function ImageHeight(f: Frame, crop: Option<Rect>): real { if crop.None? then f.height else crop.value.height }

  /** The world point an image of this size shows at a pixel, when it displays `box`. */
  function ShownAt(box: Rect, width: real, height: real, pixel: Point): Point
    requires width > 0.0 && height > 0.0
  {
    Point(Shown(box.x, box.width, width, pixel.x), Shown(box.y, box.height, height, pixel.y))
  }

  /** The image pixel a pick names. */
  function PickedPixel(p: Point, space: Space, width: real, height: real): Point {
    Point(Pixels(p.x, space, width), Pixels(p.y, space, height))
  }

  predicate OnImage(pixel: Point, width: real, height: real) { 0.0 <= pixel.x <= width && 0.0 <= pixel.y <= height }

  // ---------------------------------------------------------------- one axis at a time

  lemma Rescale(p: real, w: real, z: real)
    requires w > 0.0 && z > 0.0
    ensures p * (w / z) / w == p / z
  {
    var t, r := w / z, p / z;
    assert t * z == w && r * z == p;
    assert p * t == r * w;
  }

  lemma AxisCommutes(origin: real, c: real, p: real, w: real, z: real)
    requires w > 0.0 && z > 0.0
    ensures origin + (c + p) / z == (origin + c / z) + p * (w / z) / w
  {
    Rescale(p, w, z);
    assert (c + p) / z == c / z + p / z;
  }

  lemma DivideAndMultiply(x: real, w: real)
    requires w > 0.0
    ensures x / w * w == x
  {
  }

  lemma UnitIff(x: real, w: real)
    requires w > 0.0
    ensures 0.0 <= x / w <= 1.0 <==> 0.0 <= x <= w
  {
    var q := x / w;
    assert q * w == x;
    if q < 0.0 {
      assert q * w < 0.0;
    } else if q > 1.0 {
      assert (q - 1.0) * w > 0.0;
    } else {
      assert (1.0 - q) * w >= 0.0;
    }
  }

  lemma UnitScales(n: real, w: real)
    requires w > 0.0
    ensures 0.0 <= n <= 1.0 <==> 0.0 <= n * w <= w
  {
    assert n * w / w == n;
    UnitIff(n * w, w);
  }

  // ---------------------------------------------------------------- picking commutes with showing

  lemma AxisResolves(x: real, space: Space, from: real, length: real, side: real)
    requires side > 0.0 && 0.0 <= from && length > 0.0 && from + length <= side
             && 0.0 <= Pixels(x, space, length) <= length
    ensures var back := Uncropped(x, space, from, length, side);
            && Pixels(back, space, side) == from + Pixels(x, space, length)
            && 0.0 <= Pixels(back, space, side) <= side && (space == NormalizedFrame ==> 0.0 <= back <= 1.0)
  {
    DivideAndMultiply(from + x * length, side);
    UnitIff(from + x * length, side);
  }

  lemma PickedPixelIsFrameOffset(p: Point, space: Space, f: Frame, c: Rect)
    requires Proper(f) && CropInside(c, f) && OnImage(PickedPixel(p, space, c.width, c.height), c.width, c.height)
    ensures var pixel := PickedPixel(p, space, c.width, c.height);
            var r := ResolvePoint(ProjectPoint(p, space, f, Some(c)), space, f);
            r.Ok? && r.value.frame == Point(c.x + pixel.x, c.y + pixel.y)
            && r.value.world == World(f.viewport, r.value.frame)
  {
    hide World, Pixels, Uncropped;
    AxisResolves(p.x, space, c.x, c.width, f.width);
    AxisResolves(p.y, space, c.y, c.height, f.height);
  }

  lemma AxisAccepted(x: real, space: Space, side: real)
    requires side > 0.0
    ensures space == NormalizedFrame ==> (0.0 <= Pixels(x, space, side) <= side <==> 0.0 <= x <= 1.0)
  {
    UnitScales(x, side);
  }

  lemma WholeImageResolves(p: Point, space: Space, f: Frame)
    requires Proper(f)
    ensures var pixel := PickedPixel(p, space, f.width, f.height);
            var r := ResolvePoint(p, space, f);
            && (r.Ok? <==> OnImage(pixel, f.width, f.height))
            && (r.Ok? ==> r.value.frame == pixel && r.value.world == World(f.viewport, pixel))
            && (r.Err? ==> r.error == if space == NormalizedFrame then OutsideUnit else OutsideFrame)
  {
    hide World, Pixels;
    AxisAccepted(p.x, space, f.width);
    AxisAccepted(p.y, space, f.height);
  }

  lemma BoxAxisShowsWorld(origin: real, zoom: real, from: real, length: real, pixel: real)
    requires zoom > 0.0 && length > 0.0
    ensures Shown(ToWorld(origin, zoom, from), length / zoom, length, pixel) == ToWorld(origin, zoom, from + pixel)
  {
    AxisCommutes(origin, from, pixel, length, zoom);
  }

  lemma BoxShowsWorld(f: Frame, c: Rect, pixel: Point)
    requires Proper(f) && CropInside(c, f)
    ensures ShownAt(ViewBox(f, Some(c)), c.width, c.height, pixel)
            == World(f.viewport, Point(c.x + pixel.x, c.y + pixel.y))
  {
    hide Shown, ToWorld;
    BoxAxisShowsWorld(f.viewport.x, f.viewport.zoom, c.x, c.width, pixel.x);
    BoxAxisShowsWorld(f.viewport.y, f.viewport.zoom, c.y, c.height, pixel.y);
  }

  lemma WholeBoxShowsWorld(f: Frame, pixel: Point)
    requires Proper(f)
    ensures ShownAt(ViewBox(f, None), f.width, f.height, pixel) == World(f.viewport, pixel)
  {
    Rescale(pixel.x, f.width, f.viewport.zoom);
    Rescale(pixel.y, f.height, f.viewport.zoom);
  }

  /**
   * A point picked on an image, whole or cropped, in either space, resolves to the world point the image shows there.
   */
  lemma PickResolvesToWhatIsShown(p: Point, space: Space, f: Frame, crop: Option<Rect>)
    requires Proper(f) && (crop.Some? ==> CropInside(crop.value, f))
    requires OnImage(PickedPixel(p, space, ImageWidth(f, crop), ImageHeight(f, crop)),
                     ImageWidth(f, crop), ImageHeight(f, crop))
    ensures var w, h := ImageWidth(f, crop), ImageHeight(f, crop);
            var r := ResolvePoint(ProjectPoint(p, space, f, crop), space, f);
            r.Ok? && r.value.world == ShownAt(ViewBox(f, crop), w, h, PickedPixel(p, space, w, h))
  {
    hide ResolvePoint, World, ShownAt, ViewBox;
    if crop.Some? {
      PickedPixelIsFrameOffset(p, space, f, crop.value);
      BoxShowsWorld(f, crop.value, PickedPixel(p, space, crop.value.width, crop.value.height));
    } else {
      WholeImageResolves(p, space, f);
      WholeBoxShowsWorld(f, PickedPixel(p, space, f.width, f.height));
    }
  }

  // ---------------------------------------------------------------- gestures

  datatype Gesture =
    | Drag(from: Point, to: Point) | Resize(from: Point, to: Point) | Pan(from: Point, to: Point)
    | DrawPath(points: seq<Point>)
    | Delete(at: Point) | Restyle(at: Point) | TypeText(at: Point, text: string) | Zoom(at: Point, factor: real)

  function GesturePoints(g: Gesture): seq<Point> {
    if g.Drag? || g.Resize? || g.Pan? then [g.from, g.to] else if g.DrawPath? then g.points else [g.at]
  }

  function ProjectGesture(g: Gesture, space: Space, f: Frame, crop: Option<Rect>): Gesture
    requires Proper(f)
  {
    if crop.None? then g
    else if g.Drag? then Drag(ProjectPoint(g.from, space, f, crop), ProjectPoint(g.to, space, f, crop))
    else if g.Resize? then Resize(ProjectPoint(g.from, space, f, crop), ProjectPoint(g.to, space, f, crop))
    else if g.Pan? then Pan(ProjectPoint(g.from, space, f, crop), ProjectPoint(g.to, space, f, crop))
    else if g.DrawPath? then
      DrawPath(seq(|g.points|, i requires 0 <= i < |g.points| => ProjectPoint(g.points[i], space, f, crop)))
    else g.(at := ProjectPoint(g.at, space, f, crop))
  }

  /** Every point of a projected gesture, in the order they are drawn, resolves to what the image shows at the pick. */
  lemma GestureResolvesToWhatIsShown(g: Gesture, space: Space, f: Frame, crop: Option<Rect>, k: nat)
    requires Proper(f) && (crop.Some? ==> CropInside(crop.value, f)) && k < |GesturePoints(g)|
    requires var w, h := ImageWidth(f, crop), ImageHeight(f, crop);
             OnImage(PickedPixel(GesturePoints(g)[k], space, w, h), w, h)
    ensures var w, h := ImageWidth(f, crop), ImageHeight(f, crop);
            var projected := GesturePoints(ProjectGesture(g, space, f, crop));
            |projected| == |GesturePoints(g)|
            && var r := ResolvePoint(projected[k], space, f);
               r.Ok? && r.value.world == ShownAt(ViewBox(f, crop), w, h, PickedPixel(GesturePoints(g)[k], space, w, h))
  {
    PickResolvesToWhatIsShown(GesturePoints(g)[k], space, f, crop);
    hide ResolvePoint, ShownAt, ViewBox, PickedPixel, OnImage;
  }

  // ---------------------------------------------------------------- viewport gestures

  function Clamp(z: real): real { var up := if z < 0.1 then 0.1 else z; if up > 8.0 then 8.0 else up }

  function NextZoom(zoom: real, factor: real): (r: real)
    ensures 0.1 <= r <= 8.0
  {
    Clamp(zoom * factor)
  }

  /** Pan by the displacement between two world points. */
  function Panned(v: Viewport, from: Point, to: Point): Result<Viewport, GestureError> {
    var next := v.(x := v.x - (to.x - from.x), y := v.y - (to.y - from.y));
    if next.x == v.x && next.y == v.y then Err(NotMoved) else Ok(next)
  }

  /** Zoom by a factor about a frame point. */
  function Zoomed(v: Viewport, anchor: Point, factor: real): Result<Viewport, GestureError>
    requires v.zoom > 0.0
  {
    if factor <= 0.0 || factor == 1.0 then Err(BadFactor) else ZoomedOnto(v, anchor, NextZoom(v.zoom, factor))
  }

  function ZoomedOnto(v: Viewport, anchor: Point, zoom: real): Result<Viewport, GestureError>
    requires v.zoom > 0.0 && zoom > 0.0
  {
    if zoom == v.zoom then Err(ZoomClamped) else Ok(ZoomedTo(v, World(v, anchor), anchor, zoom))
  }

  /** The viewport of this zoom that shows world point `at` at the anchor. */
  function ZoomedTo(v: Viewport, at: Point, anchor: Point, zoom: real): Viewport
    requires zoom > 0.0
  {
    v.(zoom := zoom, x := at.x - anchor.x / zoom, y := at.y - anchor.y / zoom)
  }

  /** The grabbed world point ends up under the pointer, and a pan is refused exactly when the pointer did not move. */
  lemma PanBringsGrabbedPointUnderPointer(v: Viewport, from: Point, to: Point)
    requires v.zoom > 0.0
    ensures var r := Panned(v, World(v, from), World(v, to));
            && (r.Err? <==> from == to)
            && (r.Ok? ==> World(r.value, to) == World(v, from) && r.value == v.(x := r.value.x, y := r.value.y))
  {
    SameQuotientIff(from.x, to.x, v.zoom);
    SameQuotientIff(from.y, to.y, v.zoom);
  }

  lemma SameQuotientIff(a: real, b: real, z: real)
    requires z > 0.0
    ensures a / z == b / z <==> a == b
  {
    assert a / z * z == a && b / z * z == b;
  }

  /** A zoom scales the world about the anchor: the anchor keeps its world point, and distances to it shrink in the
      ratio of the zooms, which stay within the clamp. */
  lemma ZoomScalesAboutAnchor(v: Viewport, anchor: Point, factor: real, p: Point)
    requires v.zoom > 0.0 && Zoomed(v, anchor, factor).Ok?
    ensures var next := Zoomed(v, anchor, factor).value;
            && 0.1 <= next.zoom <= 8.0 && next.zoom != v.zoom
            && World(next, anchor) == World(v, anchor)
            && (World(next, p).x - World(v, anchor).x) * next.zoom == (World(v, p).x - World(v, anchor).x) * v.zoom
            && (World(next, p).y - World(v, anchor).y) * next.zoom == (World(v, p).y - World(v, anchor).y) * v.zoom
  {
    var next := Zoomed(v, anchor, factor).value;
    ScaledOffset(p.x, anchor.x, next.zoom);
    ScaledOffset(p.y, anchor.y, next.zoom);
    ScaledOffset(p.x, anchor.x, v.zoom);
    ScaledOffset(p.y, anchor.y, v.zoom);
  }

  /** A zoom goes to the product of the factor, or to the nearer limit, and is refused exactly for a factor that is not
      positive or 1, and where the limit leaves the zoom as it is. */
  lemma ZoomGoesTo(v: Viewport, anchor: Point, factor: real)
    requires v.zoom > 0.0
    ensures var r, product := Zoomed(v, anchor, factor), v.zoom * factor;
            var zoom := if product < 0.1 then 0.1 else if product > 8.0 then 8.0 else product;
            && (r == Err(BadFactor) <==> factor <= 0.0 || factor == 1.0)
            && (factor > 0.0 && factor != 1.0 ==> (r == Err(ZoomClamped) <==> zoom == v.zoom))
            && (r.Ok? ==> r.value.zoom == zoom && r.value.width == v.width && r.value.height == v.height)
            && (r.Err? ==> r.error in {BadFactor, ZoomClamped})
  {
    hide World, NextZoom, ZoomedOnto;
    var product := v.zoom * factor;
    NextZoomIs(v.zoom, factor, product);
    OntoZoom(v, anchor, if product < 0.1 then 0.1 else if product > 8.0 then 8.0 else product);
  }

  lemma NextZoomIs(zoom: real, factor: real, product: real)
    requires product == zoom * factor
    ensures NextZoom(zoom, factor) == if product < 0.1 then 0.1 else if product > 8.0 then 8.0 else product
  {
  }

  lemma OntoZoom(v: Viewport, anchor: Point, zoom: real)
    requires v.zoom > 0.0 && zoom > 0.0
    ensures var r := ZoomedOnto(v, anchor, zoom);
            && (r == Err(ZoomClamped) <==> zoom == v.zoom) && (r.Err? ==> r.error == ZoomClamped)
            && (r.Ok? ==> r.value.zoom == zoom && r.value.width == v.width && r.value.height == v.height)
  {
    hide World;
  }

  lemma ScaledOffset(p: real, a: real, z: real)
    requires z > 0.0
    ensures (p / z - a / z) * z == p - a
  {
    assert p / z * z == p && a / z * z == a;
  }

  /** Any run of zooms about one frame point; a refused zoom changes nothing. */
  function ZoomAll(v: Viewport, anchor: Point, factors: seq<real>): (r: Viewport)
    requires v.zoom > 0.0
    ensures r.zoom > 0.0
  {
    if factors == [] then v
    else
      var before := ZoomAll(v, anchor, factors[..|factors| - 1]);
      var next := Zoomed(before, anchor, factors[|factors| - 1]);
      if next.Ok? then next.value else before
  }

  lemma {:induction false} EveryZoomRunKeepsAnchor(v: Viewport, anchor: Point, factors: seq<real>)
    requires v.zoom > 0.0
    ensures World(ZoomAll(v, anchor, factors), anchor) == World(v, anchor)
  {
    hide World, Zoomed;
    if factors != [] {
      EveryZoomRunKeepsAnchor(v, anchor, factors[..|factors| - 1]);
      var before := ZoomAll(v, anchor, factors[..|factors| - 1]);
      if Zoomed(before, anchor, factors[|factors| - 1]).Ok? {
        ZoomScalesAboutAnchor(before, anchor, factors[|factors| - 1], anchor);
      }
    }
  }

  /** Zooming back by the inverse factor about the same point restores the viewport, unless the clamp bit. */
  lemma ZoomOutUndoesZoomIn(v: Viewport, anchor: Point, factor: real)
    requires 0.1 <= v.zoom <= 8.0 && factor > 0.0 && factor != 1.0 && 0.1 <= v.zoom * factor <= 8.0
    ensures Zoomed(v, anchor, factor).Ok? && Zoomed(v, anchor, factor).value.zoom > 0.0
    ensures Zoomed(Zoomed(v, anchor, factor).value, anchor, 1.0 / factor) == Ok(v)
  {
    hide World, Zoomed, ZoomedOnto;
    var zoom := v.zoom * factor;
    Inverse(v.zoom, factor, zoom);
    ZoomUnclamped(v, anchor, factor, zoom);
    OntoZoom(v, anchor, zoom);
    var next := Zoomed(v, anchor, factor).value;
    ZoomScalesAboutAnchor(v, anchor, factor, anchor);
    ZoomBack(v, next, anchor, 1.0 / factor);
  }

  lemma ZoomUnclamped(v: Viewport, anchor: Point, factor: real, zoom: real)
    requires v.zoom > 0.0 && factor > 0.0 && factor != 1.0 && zoom == v.zoom * factor && 0.1 <= zoom <= 8.0
    ensures Zoomed(v, anchor, factor) == ZoomedOnto(v, anchor, zoom)
  {
    hide ZoomedOnto, NextZoom;
    NextZoomIs(v.zoom, factor, zoom);
  }

  lemma ZoomBack(v: Viewport, next: Viewport, anchor: Point, back: real)
    requires v.zoom > 0.0 && next.zoom > 0.0 && World(next, anchor) == World(v, anchor)
    requires next.width == v.width && next.height == v.height && 0.1 <= v.zoom <= 8.0
    requires back > 0.0 && back != 1.0 && next.zoom * back == v.zoom && next.zoom != v.zoom
    ensures Zoomed(next, anchor, back) == Ok(v)
  {
    hide ZoomedTo, World, Zoomed;
    ZoomUnclamped(next, anchor, back, v.zoom);
    ZoomedToItself(v, next, anchor);
  }

  lemma ZoomedToItself(v: Viewport, next: Viewport, anchor: Point)
    requires v.zoom > 0.0 && next.width == v.width && next.height == v.height
    ensures ZoomedTo(next, World(v, anchor), anchor, v.zoom) == v
  {
    hide ToWorld;
    Recovered(v.x, v.zoom, anchor.x);
    Recovered(v.y, v.zoom, anchor.y);
  }

  lemma Recovered(origin: real, zoom: real, p: real)
    requires zoom > 0.0
    ensures ToWorld(origin, zoom, p) - p / zoom == origin
  {
  }

  lemma Inverse(z: real, factor: real, product: real)
    requires z > 0.0 && factor > 0.0 && factor != 1.0 && product == z * factor
    ensures product > 0.0 && product != z && 1.0 / factor > 0.0 && 1.0 / factor != 1.0 && product * (1.0 / factor) == z
  {
    var i := 1.0 / factor;
    assert i * factor == 1.0;
    assert product * i == z * (factor * i);
    assert product - z == z * (factor - 1.0);
  }

  // ---------------------------------------------------------------- the object under a point

  /** The style key that holds an object's opacity. */
  const OPACITY: Id := 0

  predicate Visible(o: CanvasObject) {
    OPACITY !in o.style || (o.style[OPACITY].Number? && o.style[OPACITY].n > 0.0)
  }

  predicate Hits(o: CanvasObject, p: Point)
    requires ValidObject(o)
  {
    var x, y, width, height := o.transform[X], o.transform[Y], o.transform[Width], o.transform[Height];
    if p.x < x || p.x > x + width || p.y < y || p.y > y + height then false
    else if o.kind != Ellipse then true
    else if width <= 0.0 || height <= 0.0 then false
    else
      var nx, ny := (p.x - (x + width / 2.0)) / (width / 2.0), (p.y - (y + height / 2.0)) / (height / 2.0);
      nx * nx + ny * ny <= 1.0
  }

  function Depth(s: CanvasState): Id -> real
  {
    (id: Id) => if id in s.objects && ZIndex in s.objects[id].transform then s.objects[id].transform[ZIndex] else 0.0
  }

  /** The objects of a canvas in the order they are painted. */
  function PaintOrder(s: CanvasState, c: Id): seq<Id> { SortBy(ObjectsOn(s, c), Depth(s)) }

  function VisibleOn(s: CanvasState, c: Id): set<Id> {
    set id | id in ObjectsOn(s, c) && id in s.objects && Visible(s.objects[id])
  }

  predicate Hit(s: CanvasState, p: Point, id: Id) {
    id in s.objects && Visible(s.objects[id]) && ValidObject(s.objects[id]) && Hits(s.objects[id], p)
  }

  /** In the box at (x, y), its border included. */
  predicate InBox(p: Point, t: Transform)
    requires X in t && Y in t && Width in t && Height in t
  {
    t[X] <= p.x <= t[X] + t[Width] && t[Y] <= p.y <= t[Y] + t[Height]
  }

  function Square(x: real): real { x * x }

  /** In the ellipse inscribed in that box: its equation without the denominators. `u` and `v` count from the corner. */
  predicate InEllipse(u: real, v: real, w: real, h: real) {
    w > 0.0 && h > 0.0 && Square(2.0 * u - w) * Square(h) + Square(2.0 * v - h) * Square(w) <= Square(w) * Square(h)
  }

  /** What is hit: an opaque, valid object whose box holds the point, and for an ellipse the ellipse itself. */
  lemma HitIff(s: CanvasState, p: Point, id: Id)
    ensures Hit(s, p, id) <==>
              id in s.objects && ValidObject(s.objects[id])
              && var o := s.objects[id];
                 && (OPACITY in o.style ==> o.style[OPACITY].Number? && o.style[OPACITY].n > 0.0)
                 && InBox(p, o.transform)
                 && (o.kind == Ellipse ==>
                       InEllipse(p.x - o.transform[X], p.y - o.transform[Y], o.transform[Width], o.transform[Height]))
  {
    hide InEllipse;
    if id in s.objects && ValidObject(s.objects[id]) {
      var o := s.objects[id];
      var t := o.transform;
      if o.kind == Ellipse {
        if t[Width] > 0.0 && t[Height] > 0.0 {
          EllipseIff(p.x - t[X], p.y - t[Y], t[Width], t[Height]);
          assert p.x - (t[X] + t[Width] / 2.0) == (p.x - t[X]) - t[Width] / 2.0;
          assert p.y - (t[Y] + t[Height] / 2.0) == (p.y - t[Y]) - t[Height] / 2.0;
        } else {
          FlatHasNoInside(p.x - t[X], p.y - t[Y], t[Width], t[Height]);
        }
      }
    }
  }

  lemma FlatHasNoInside(u: real, v: real, w: real, h: real)
    requires w <= 0.0 || h <= 0.0
    ensures !InEllipse(u, v, w, h)
  {
  }

  lemma EllipseIff(u: real, v: real, w: real, h: real)
    requires w > 0.0 && h > 0.0
    ensures var nx, ny := (u - w / 2.0) / (w / 2.0), (v - h / 2.0) / (h / 2.0);
            nx * nx + ny * ny <= 1.0 <==> InEllipse(u, v, w, h)
  {
    hide Square;
    var nx, ny := (u - w / 2.0) / (w / 2.0), (v - h / 2.0) / (h / 2.0);
    HalfScaled(u, w);
    HalfScaled(v, h);
    ScaledSquare(nx, w, 2.0 * u - w);
    ScaledSquare(ny, h, 2.0 * v - h);
    SquareIs(nx);
    SquareIs(ny);
    SquareIsPositive(w);
    SquareIsPositive(h);
    Weighed(Square(nx), Square(ny), Square(w), Square(h));
  }

  lemma Weighed(a: real, b: real, c: real, d: real)
    requires c > 0.0 && d > 0.0
    ensures a + b <= 1.0 <==> (a * c) * d + (b * d) * c <= c * d
  {
    ScaleRealStrictly(0.0, c, d);
    assert (a * c) * d + (b * d) * c == (a + b) * (c * d);
    if a + b <= 1.0 { ScaleReal(a + b, 1.0, c * d); } else { ScaleRealStrictly(1.0, a + b, c * d); }
  }

  lemma HalfScaled(u: real, w: real)
    requires w > 0.0
    ensures (u - w / 2.0) / (w / 2.0) * w == 2.0 * u - w
  {
    var half := w / 2.0;
    assert (u - half) / half * half == u - half;
    assert (u - half) / half * w == 2.0 * ((u - half) / half * half);
  }

  lemma SquareIs(x: real)
    ensures Square(x) == x * x
  {
  }

  lemma ScaledSquare(x: real, w: real, scaled: real)
    requires x * w == scaled
    ensures Square(scaled) == Square(x) * Square(w)
  {
  }

  lemma SquareIsPositive(x: real)
    requires x > 0.0
    ensures Square(x) > 0.0
  {
    assert Square(x) / x == x;
  }

  /** Sorted by falling depth, ties by falling id: what the hit test sorts the visible objects into. */
  ghost predicate Descending(ids: seq<Id>, s: set<Id>, rank: Id -> real) {
    && NoDuplicates(ids) && (forall id :: id in ids <==> id in s)
    && forall i, j :: 0 <= i < j < |ids| ==> Before(rank, ids[j], ids[i])
  }

  /** The object painted last among those the point hits. */
  function TopHit(s: CanvasState, c: Id, p: Point): Option<Id> {
    var hits := Filter((id: Id) => Hit(s, p, id), PaintOrder(s, c));
    if hits == [] then None else Some(hits[|hits| - 1])
  }

  ghost predicate InOrder(ids: seq<Id>, rank: Id -> real) {
    forall i, j :: 0 <= i < j < |ids| ==> Before(rank, ids[i], ids[j])
  }

  lemma {:induction false} FilterKeepsOrder(keep: Id -> bool, ids: seq<Id>, rank: Id -> real)
    requires InOrder(ids, rank)
    ensures InOrder(Filter(keep, ids), rank)
  {
    if ids != [] {
      var rest := Filter(keep, ids[1..]);
      FilterKeepsOrder(keep, ids[1..], rank);
      forall x | x in rest
        ensures Before(rank, ids[0], x)
      {
        FilterMember(keep, ids[1..], x);
        var k :| 0 <= k < |ids[1..]| && ids[1..][k] == x;
        assert ids[k + 1] == x;
      }
      assert InOrder([ids[0]] + rest, rank);
    }
  }

  /** The top hit is a hit, and every hit is painted no later. */
  lemma TopHitIsTopmost(s: CanvasState, c: Id, p: Point)
    ensures var top := TopHit(s, c, p);
            && (top.None? ==> forall id :: id in ObjectsOn(s, c) ==> !Hit(s, p, id))
            && (top.Some? ==>
                  && top.value in ObjectsOn(s, c) && Hit(s, p, top.value)
                  && forall id :: id in ObjectsOn(s, c) && Hit(s, p, id) ==> Before(Depth(s), id, top.value))
  {
    hide Hit, ObjectsOn, Depth;
    var keep := (id: Id) => Hit(s, p, id);
    var hits := Filter(keep, PaintOrder(s, c));
    assert InOrder(PaintOrder(s, c), Depth(s));
    FilterKeepsOrder(keep, PaintOrder(s, c), Depth(s));
    forall id ensures id in hits <==> id in ObjectsOn(s, c) && Hit(s, p, id) {
      FilterMember(keep, PaintOrder(s, c), id);
    }
    if hits != [] {
      var top := hits[|hits| - 1];
      assert top in hits;
      forall id | id in hits
        ensures Before(Depth(s), id, top)
      {
        var k :| 0 <= k < |hits| && hits[k] == id;
        assert k < |hits| - 1 ==> Before(Depth(s), hits[k], hits[|hits| - 1]);
      }
    }
  }

  /** In the objects' own terms: of the objects hit none has a greater zIndex, nor a later id at the same one. */
  lemma TopHitIsInFront(s: CanvasState, c: Id, p: Point, id: Id)
    requires TopHit(s, c, p).Some? && Hit(s, p, id) && s.objects[id].canvasId == c
    ensures var top := TopHit(s, c, p).value;
            && top in s.objects && ValidObject(s.objects[top]) && s.objects[top].canvasId == c
            && var z, front := s.objects[id].transform[ZIndex], s.objects[top].transform[ZIndex];
               z < front || (z == front && id <= top)
  {
    hide TopHit, Hits, Visible;
    TopHitIsTopmost(s, c, p);
    assert id in ObjectsOn(s, c);
  }

  function Reversed(ids: seq<Id>): seq<Id> { seq(|ids|, i requires 0 <= i < |ids| => ids[|ids| - 1 - i]) }

  /** Sorting the other way gives the paint order backwards. */
  lemma DescendingIsBackwards(s: set<Id>, rank: Id -> real)
    ensures Descending(Reversed(SortBy(s, rank)), s, rank)
  {
    var ids := SortBy(s, rank);
    var r := Reversed(ids);
    forall id ensures id in r <==> id in s {
      if id in ids { var k :| 0 <= k < |ids| && ids[k] == id; assert r[|ids| - 1 - k] == id; }
    }
  }

  /** In a descending list, the first object hit is the one painted last. */
  lemma FirstHitIsTop(s: CanvasState, c: Id, p: Point, objects: seq<Id>, k: nat)
    requires Descending(objects, VisibleOn(s, c), Depth(s)) && k < |objects| && Hit(s, p, objects[k])
    requires forall j :: 0 <= j < k ==> !Hit(s, p, objects[j])
    ensures TopHit(s, c, p) == Some(objects[k])
  {
    hide Hits, Depth, TopHit, Visible;
    TopHitIsTopmost(s, c, p);
    assert objects[k] in objects;
    var top := TopHit(s, c, p).value;
    assert top in VisibleOn(s, c);
    var j :| 0 <= j < |objects| && objects[j] == top;
    assert j > k ==> Before(Depth(s), objects[j], objects[k]);
    assert Before(Depth(s), objects[k], top);
  }

  lemma NoHitIsNone(s: CanvasState, c: Id, p: Point, objects: seq<Id>)
    requires Descending(objects, VisibleOn(s, c), Depth(s)) && forall j :: 0 <= j < |objects| ==> !Hit(s, p, objects[j])
    ensures TopHit(s, c, p) == None
  {
    hide Hits, Depth, TopHit, Visible;
    TopHitIsTopmost(s, c, p);
    forall id | id in VisibleOn(s, c)
      ensures !Hit(s, p, id)
    {
      assert id in objects;
      var k :| 0 <= k < |objects| && objects[k] == id;
    }
  }

  /**
   * The search from the front of the descending list finds the object painted last, whichever way the list was
   * sorted.
   */
  method HitTest(s: CanvasState, c: Id, p: Point, objects: seq<Id>) returns (hit: Option<Id>)
    requires AllValid(s) && Descending(objects, VisibleOn(s, c), Depth(s))
    ensures hit == TopHit(s, c, p)
  {
    hide Hits, Visible, Depth, TopHit, ValidObject;
    for k := 0 to |objects|
      invariant forall j :: 0 <= j < k ==> !Hit(s, p, objects[j])
    {
      assert objects[k] in VisibleOn(s, c);
      if Hits(s.objects[objects[k]], p) {
        FirstHitIsTop(s, c, p, objects, k);
        return Some(objects[k]);
      }
    }
    NoHitIsNone(s, c, p, objects);
    hit := None;
  }
}
