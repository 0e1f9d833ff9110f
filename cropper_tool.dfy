// The canvas crop-selection tool (apps/desktop/src/components/CropperTool.tsx):
// a box with move/resize/scale/constrain operations, and the mouse-driven
// controller that drags the box or one of its eight handles inside a canvas.
module CropperTool {
  import opened Wrappers
  import opened Handles

  /** Half-size, in canvas pixels, of the square around a handle that catches the pointer. */
  const HANDLE_HIT_AREA: real := 16.0
  /** A handle drag never brings an edge closer than this to the opposite edge. */
  const MIN_EDGE_GAP: real := 20.0

  function Min(a: real, b: real): real { if a <= b then a else b }
  function Max(a: real, b: real): real { if a >= b then a else b }
  function Abs(r: real): real { if r < 0.0 then -r else r }

  /** The coordinates of a box: `(x1, y1)` and `(x2, y2)` are opposite corners. */
  datatype BoxState = BoxState(x1: real, y1: real, x2: real, y2: real)

  function WidthOf(b: BoxState): real { Abs(b.x2 - b.x1) }
  function HeightOf(b: BoxState): real { Abs(b.y2 - b.y1) }

  /** `(x1, y1)` is the top-left and `(x2, y2)` the bottom-right corner. */
  predicate Normalized(b: BoxState) { b.x1 <= b.x2 && b.y1 <= b.y2 }

  predicate InsideCanvas(b: BoxState, w: real, h: real)
  {
    0.0 <= b.x1 <= b.x2 <= w && 0.0 <= b.y1 <= b.y2 <= h
  }

  /** The point at fractions `(ox, oy)` of the box's extent, measured from `(x1, y1)`. */
  function OriginX(b: BoxState, ox: real): real { b.x1 + WidthOf(b) * ox }
  function OriginY(b: BoxState, oy: real): real { b.y1 + HeightOf(b) * oy }

  /** `move(x, y)`: each given coordinate becomes the new left (top) edge and the size on that axis is kept. */
  function Moved(b: BoxState, x: Option<real>, y: Option<real>): BoxState
  {
    var (x1, x2) := if x.Some? then (x.value, x.value + WidthOf(b)) else (b.x1, b.x2);
    var (y1, y2) := if y.Some? then (y.value, y.value + HeightOf(b)) else (b.y1, b.y2);
    BoxState(x1, y1, x2, y2)
  }

  /** `move`: each given coordinate becomes the left (top) edge, the extent on that axis is kept, an absent one leaves the axis alone. */
  lemma {:induction false} MoveKeepsSize(b: BoxState, x: Option<real>, y: Option<real>)
    ensures var r := Moved(b, x, y);
      && (x.Some? ==> r.x1 == x.value && r.x2 - r.x1 == WidthOf(b))
      && (x.None? ==> r.x1 == b.x1 && r.x2 == b.x2)
      && (y.Some? ==> r.y1 == y.value && r.y2 - r.y1 == HeightOf(b))
      && (y.None? ==> r.y1 == b.y1 && r.y2 == b.y2)
      && WidthOf(r) == WidthOf(b) && HeightOf(r) == HeightOf(b)
  {
  }

  /** `resize(w, h, origin)`: the box takes the signed extents `w` and `h` while the origin point stays where it was. */
  function Resized(b: BoxState, w: real, h: real, ox: real, oy: real): BoxState
  {
    var x1 := OriginX(b, ox) - w * ox;
    var y1 := OriginY(b, oy) - h * oy;
    BoxState(x1, y1, x1 + w, y1 + h)
  }

  /** `resize`: the box takes the signed extents `w`, `h` and the origin point does not move. */
  lemma {:induction false} ResizeKeepsOrigin(b: BoxState, w: real, h: real, ox: real, oy: real)
    ensures var r := Resized(b, w, h, ox, oy);
      && r.x2 - r.x1 == w && r.y2 - r.y1 == h
      && r.x1 + w * ox == OriginX(b, ox) && r.y1 + h * oy == OriginY(b, oy)
  {
  }

  /** `scale(f, origin)`: both extents multiplied by `f` about the origin point. */
  function Scaled(b: BoxState, f: real, ox: real, oy: real): BoxState
  {
    Resized(b, WidthOf(b) * f, HeightOf(b) * f, ox, oy)
  }

  /** `scale`: both extents are multiplied by `f` and the origin point does not move. */
  lemma {:induction false} ScaleKeepsOrigin(b: BoxState, f: real, ox: real, oy: real)
    ensures var r := Scaled(b, f, ox, oy);
      && r.x2 - r.x1 == WidthOf(b) * f && r.y2 - r.y1 == HeightOf(b) * f
      && r.x1 + WidthOf(b) * f * ox == OriginX(b, ox) && r.y1 + HeightOf(b) * f * oy == OriginY(b, oy)
  {
  }

  /**
   * The largest extent on one axis that keeps the box inside `[0, bound]` when it
   * grows away from an origin at fraction `o` lying at coordinate `at`. The
   * direction `-2o + 1` is matched against -1, 0 and +1 only; any other origin
   * fraction leaves the limit at 0.
   */
  function MaxExtent(o: real, at: real, bound: real): (m: real)
    ensures o == 1.0 ==> m == at
    ensures o == 0.5 ==> m == 2.0 * Min(at, bound - at)
    ensures o == 0.0 ==> m == bound - at
    ensures o != 0.0 && o != 0.5 && o != 1.0 ==> m == 0.0
  {
    var direction := -2.0 * o + 1.0;
    if direction == -1.0 then at
    else if direction == 0.0 then Min(at, bound - at) * 2.0
    else if direction == 1.0 then bound - at
    else 0.0
  }

  /**
   * `constrainToBoundary(w, h, origin)`: if the box is wider than the room
   * around its origin point, it is scaled down (both axes) to that width; then,
   * if it is still taller than the room, it is scaled down to that height.
   * The limits are measured once, before either scaling. A zero extent facing a
   * negative limit leaves the box unchanged (the source divides by zero there
   * and every coordinate becomes non-finite).
   */
  function BoundaryConstrained(b: BoxState, w: real, h: real, ox: real, oy: real): BoxState
  {
    var maxW := MaxExtent(ox, OriginX(b, ox), w);
    var maxH := MaxExtent(oy, OriginY(b, oy), h);
    FitHeight(FitWidth(b, maxW, ox, oy), maxH, ox, oy)
  }

  /** The first step of `constrainToBoundary`: scale down to width `maxW` when wider. */
  function FitWidth(b: BoxState, maxW: real, ox: real, oy: real): BoxState
  {
    if WidthOf(b) > maxW && WidthOf(b) != 0.0 then Scaled(b, maxW / WidthOf(b), ox, oy) else b
  }

  /** The second step of `constrainToBoundary`: scale down to height `maxH` when taller. */
  function FitHeight(b: BoxState, maxH: real, ox: real, oy: real): BoxState
  {
    if HeightOf(b) > maxH && HeightOf(b) != 0.0 then Scaled(b, maxH / HeightOf(b), ox, oy) else b
  }

  datatype Grow = GrowHeight | GrowWidth

  /**
   * `constrainToRatio(ratio, origin, grow)`: the box takes width/height ratio
   * `ratio`, keeping its width and changing its height (`GrowHeight`), or
   * keeping its height and changing its width (`GrowWidth`), about the origin point.
   */
  function RatioConstrained(b: BoxState, ratio: real, ox: real, oy: real, grow: Grow): BoxState
    requires ratio != 0.0
  {
    match grow
    case GrowHeight => Resized(b, WidthOf(b), WidthOf(b) / ratio, ox, oy)
    case GrowWidth => Resized(b, HeightOf(b) * ratio, HeightOf(b), ox, oy)
  }

  /** `constrainToRatio`: afterwards width / height equals `ratio`, with the kept extent taken from the old box and the origin point unmoved. */
  lemma {:induction false} RatioConstrainedShape(b: BoxState, ratio: real, ox: real, oy: real, grow: Grow)
    requires ratio != 0.0
    ensures var r := RatioConstrained(b, ratio, ox, oy, grow);
      && (grow == GrowHeight ==> r.x2 - r.x1 == WidthOf(b) && (r.y2 - r.y1) * ratio == WidthOf(b))
      && (grow == GrowWidth ==> r.y2 - r.y1 == HeightOf(b) && r.x2 - r.x1 == HeightOf(b) * ratio)
      && r.x1 + (r.x2 - r.x1) * ox == OriginX(b, ox) && r.y1 + (r.y2 - r.y1) * oy == OriginY(b, oy)
  {
    match grow
    case GrowHeight => ResizeKeepsOrigin(b, WidthOf(b), WidthOf(b) / ratio, ox, oy);
    case GrowWidth => ResizeKeepsOrigin(b, HeightOf(b) * ratio, HeightOf(b), ox, oy);
  }

  /** Scaling a top-left/bottom-right box about its centre by a factor in [0, 1] keeps it normalized and centred, and shrinks it. */
  lemma {:induction false} ShrinkAboutCentre(b: BoxState, f: real)
    requires Normalized(b) && 0.0 <= f <= 1.0
    ensures var r := Scaled(b, f, 0.5, 0.5);
      && Normalized(r)
      && WidthOf(r) == WidthOf(b) * f <= WidthOf(b) && HeightOf(r) == HeightOf(b) * f <= HeightOf(b)
      && OriginX(r, 0.5) == OriginX(b, 0.5) && OriginY(r, 0.5) == OriginY(b, 0.5)
  {
    var r := Scaled(b, f, 0.5, 0.5);
    ScaleKeepsOrigin(b, f, 0.5, 0.5);
    assert WidthOf(b) * f >= 0.0 && HeightOf(b) * f >= 0.0;
    assert WidthOf(b) * f <= WidthOf(b) * 1.0;
    assert HeightOf(b) * f <= HeightOf(b) * 1.0;
  }

  lemma {:induction false} FractionBelowOne(m: real, d: real)
    requires 0.0 <= m < d
    ensures 0.0 <= m / d <= 1.0 && d * (m / d) == m
  {
  }

  /** Shrinking a box about its centre so that its width becomes `m`. */
  lemma {:induction false} ShrinkWidthTo(b: BoxState, m: real)
    requires Normalized(b) && 0.0 <= m < WidthOf(b)
    ensures var r := Scaled(b, m / WidthOf(b), 0.5, 0.5);
      && Normalized(r) && WidthOf(r) == m && HeightOf(r) <= HeightOf(b)
      && OriginX(r, 0.5) == OriginX(b, 0.5) && OriginY(r, 0.5) == OriginY(b, 0.5)
  {
    FractionBelowOne(m, WidthOf(b));
    ShrinkAboutCentre(b, m / WidthOf(b));
  }

  /** Shrinking a box about its centre so that its height becomes `m`. */
  lemma {:induction false} ShrinkHeightTo(b: BoxState, m: real)
    requires Normalized(b) && 0.0 <= m < HeightOf(b)
    ensures var r := Scaled(b, m / HeightOf(b), 0.5, 0.5);
      && Normalized(r) && HeightOf(r) == m && WidthOf(r) <= WidthOf(b)
      && OriginX(r, 0.5) == OriginX(b, 0.5) && OriginY(r, 0.5) == OriginY(b, 0.5)
  {
    FractionBelowOne(m, HeightOf(b));
    ShrinkAboutCentre(b, m / HeightOf(b));
  }

  /** A normalized box lies in `[0, w]` exactly when its width fits twice into the room on either side of its centre. */
  lemma {:induction false} InsideByCentre(b: BoxState, w: real, h: real)
    requires Normalized(b)
    ensures InsideCanvas(b, w, h) <==>
      && WidthOf(b) <= MaxExtent(0.5, OriginX(b, 0.5), w)
      && HeightOf(b) <= MaxExtent(0.5, OriginY(b, 0.5), h)
  {
  }

  /**
   * Constraining about the centre, as the drag handler does: when the centre
   * lies on the canvas, the result is a normalized box on the canvas with the
   * same centre and no larger extents, and a box already on the canvas is left
   * as it is.
   */
  lemma {:induction false} BoundaryConstrainedFits(b: BoxState, w: real, h: real)
    requires Normalized(b)
    requires 0.0 <= OriginX(b, 0.5) <= w && 0.0 <= OriginY(b, 0.5) <= h
    ensures var r := BoundaryConstrained(b, w, h, 0.5, 0.5);
      && Normalized(r) && InsideCanvas(r, w, h)
      && OriginX(r, 0.5) == OriginX(b, 0.5) && OriginY(r, 0.5) == OriginY(b, 0.5)
      && WidthOf(r) <= WidthOf(b) && HeightOf(r) <= HeightOf(b)
      && (InsideCanvas(b, w, h) ==> r == b)
  {
    var maxW := MaxExtent(0.5, OriginX(b, 0.5), w);
    var maxH := MaxExtent(0.5, OriginY(b, 0.5), h);
    assert maxW >= 0.0 && maxH >= 0.0;
    var b1 := FitWidth(b, maxW, 0.5, 0.5);
    if WidthOf(b) > maxW && WidthOf(b) != 0.0 {
      ShrinkWidthTo(b, maxW);
    }
    assert Normalized(b1) && WidthOf(b1) <= maxW && WidthOf(b1) <= WidthOf(b) && HeightOf(b1) <= HeightOf(b);
    assert OriginX(b1, 0.5) == OriginX(b, 0.5) && OriginY(b1, 0.5) == OriginY(b, 0.5);
    var r := FitHeight(b1, maxH, 0.5, 0.5);
    if HeightOf(b1) > maxH && HeightOf(b1) != 0.0 {
      ShrinkHeightTo(b1, maxH);
    }
    assert r == BoundaryConstrained(b, w, h, 0.5, 0.5);
    assert Normalized(r) && WidthOf(r) <= maxW && HeightOf(r) <= maxH;
    InsideByCentre(r, w, h);
    InsideByCentre(b, w, h);
  }

  /**
   * The box a handle drag produces before any ratio or boundary constraint:
   * each edge flagged in the mask follows the pointer, except that it stops
   * `MIN_EDGE_GAP` short of the opposite edge; the other edges stay.
   */
  function DragEdges(b: BoxState, e: Edges, dx: real, dy: real): BoxState
  {
    var y1 := if e.top then Min(b.y2 - MIN_EDGE_GAP, b.y1 + dy) else b.y1;
    var x2 := if e.right then Max(b.x1 + MIN_EDGE_GAP, b.x2 + dx) else b.x2;
    var y2 := if e.bottom then Max(y1 + MIN_EDGE_GAP, b.y2 + dy) else b.y2;
    var x1 := if e.left then Min(x2 - MIN_EDGE_GAP, b.x1 + dx) else b.x1;
    BoxState(x1, y1, x2, y2)
  }

  /** What a handle drag does to the edges: unflagged edges stay, flagged ones follow the pointer up to the minimum gap. */
  lemma {:induction false} DragEdgesRespectsMask(b: BoxState, e: Edges, dx: real, dy: real)
    ensures var r := DragEdges(b, e, dx, dy);
      && (!e.top ==> r.y1 == b.y1)
      && (!e.right ==> r.x2 == b.x2)
      && (!e.bottom ==> r.y2 == b.y2)
      && (!e.left ==> r.x1 == b.x1)
      && (e.top && !e.bottom ==> r.y2 - r.y1 >= MIN_EDGE_GAP && (r.y1 == b.y1 + dy || r.y1 == b.y2 - MIN_EDGE_GAP))
      && (e.right && !e.left ==> r.x2 - r.x1 >= MIN_EDGE_GAP && (r.x2 == b.x2 + dx || r.x2 == b.x1 + MIN_EDGE_GAP))
      && (e.bottom && !e.top ==> r.y2 - r.y1 >= MIN_EDGE_GAP && (r.y2 == b.y2 + dy || r.y2 == b.y1 + MIN_EDGE_GAP))
      && (e.left && !e.right ==> r.x2 - r.x1 >= MIN_EDGE_GAP && (r.x1 == b.x1 + dx || r.x1 == b.x2 - MIN_EDGE_GAP))
  {
  }

  /** The box a body drag produces before the boundary constraint: moved by the pointer delta, its top-left corner clamped so the box stays on the canvas. */
  function BodyDragged(b: BoxState, dx: real, dy: real, w: real, h: real): BoxState
  {
    Moved(b, Some(Max(0.0, Min(w - WidthOf(b), b.x1 + dx))), Some(Max(0.0, Min(h - HeightOf(b), b.y1 + dy))))
  }

  /** A body drag keeps the size, follows the pointer where there is room, and keeps a box that fits the canvas on it. */
  lemma {:induction false} BodyDragClamps(b: BoxState, dx: real, dy: real, w: real, h: real)
    ensures var r := BodyDragged(b, dx, dy, w, h);
      && WidthOf(r) == WidthOf(b) && HeightOf(r) == HeightOf(b)
      && (WidthOf(b) <= w && HeightOf(b) <= h ==> InsideCanvas(r, w, h))
      && (0.0 <= b.x1 + dx <= w - WidthOf(b) ==> r.x1 == b.x1 + dx)
      && (0.0 <= b.y1 + dy <= h - HeightOf(b) ==> r.y1 == b.y1 + dy)
  {
  }

  /** The JavaScript truthiness test on the optional aspect ratio. */
  predicate HasRatio(ratio: Option<real>) { ratio.Some? && ratio.value != 0.0 }

  /** The box after one pointer move of a drag by `(dx, dy)`, before the boundary constraint. */
  function DragMoved(b: BoxState, handle: Option<Handle>, ratio: Option<real>, dx: real, dy: real, w: real, h: real): BoxState
  {
    match handle
    case Some(hd) =>
      var e := DragEdges(b, hd.constraints, dx, dy);
      if HasRatio(ratio) then
        RatioConstrained(e, ratio.value, 0.5, 0.5, if hd.constraints.top || hd.constraints.bottom then GrowWidth else GrowHeight)
      else e
    case None => BodyDragged(b, dx, dy, w, h)
  }

  /** The box after one pointer move of a drag by `(dx, dy)` on a `w` by `h` canvas. */
  function Dragged(b: BoxState, handle: Option<Handle>, ratio: Option<real>, dx: real, dy: real, w: real, h: real): BoxState
  {
    BoundaryConstrained(DragMoved(b, handle, ratio, dx, dy, w, h), w, h, 0.5, 0.5)
  }

  /** Dragging the body of a box that fits the canvas translates it, clamped to the canvas: the size never changes. */
  lemma {:induction false} BodyDragKeepsSize(b: BoxState, ratio: Option<real>, dx: real, dy: real, w: real, h: real)
    requires WidthOf(b) <= w && HeightOf(b) <= h
    ensures var r := Dragged(b, None, ratio, dx, dy, w, h);
      && r == BodyDragged(b, dx, dy, w, h)
      && InsideCanvas(r, w, h) && WidthOf(r) == WidthOf(b) && HeightOf(r) == HeightOf(b)
  {
    var m := BodyDragged(b, dx, dy, w, h);
    BodyDragClamps(b, dx, dy, w, h);
    BoundaryConstrainedFits(m, w, h);
  }

  /**
   * A handle drag (with no aspect ratio, or a positive one) of a normalized box
   * whose dragged centre stays on the canvas ends with a normalized box on the
   * canvas, centred where the dragged edges put it, and at least as small.
   */
  lemma {:induction false} HandleDragStaysOnCanvas(b: BoxState, i: nat, ratio: Option<real>, dx: real, dy: real, w: real, h: real)
    requires i < |HANDLES| && Normalized(b)
    requires ratio.None? || ratio.value >= 0.0
    requires var e := DragEdges(b, HANDLES[i].constraints, dx, dy);
      0.0 <= OriginX(e, 0.5) <= w && 0.0 <= OriginY(e, 0.5) <= h
    ensures var e := DragEdges(b, HANDLES[i].constraints, dx, dy);
      var r := Dragged(b, Some(HANDLES[i]), ratio, dx, dy, w, h);
      && Normalized(r) && InsideCanvas(r, w, h)
      && OriginX(r, 0.5) == OriginX(e, 0.5) && OriginY(r, 0.5) == OriginY(e, 0.5)
  {
    HandleTable();
    var c := HANDLES[i].constraints;
    var e := DragEdges(b, c, dx, dy);
    DragEdgesRespectsMask(b, c, dx, dy);
    assert Normalized(e);
    var m := if HasRatio(ratio) then RatioConstrained(e, ratio.value, 0.5, 0.5, if c.top || c.bottom then GrowWidth else GrowHeight) else e;
    if HasRatio(ratio) {
      RatioConstrainedShape(e, ratio.value, 0.5, 0.5, if c.top || c.bottom then GrowWidth else GrowHeight);
      assert WidthOf(e) / ratio.value >= 0.0 && HeightOf(e) * ratio.value >= 0.0;
    }
    assert Normalized(m) && OriginX(m, 0.5) == OriginX(e, 0.5) && OriginY(m, 0.5) == OriginY(e, 0.5);
    BoundaryConstrainedFits(m, w, h);
  }

  /** The pointer is within `HANDLE_HIT_AREA` of the handle's position on box `b`, on both axes. */
  predicate HandleHit(hd: Handle, b: BoxState, x: real, y: real)
  {
    var hx := b.x1 + hd.x * WidthOf(b);
    var hy := b.y1 + hd.y * HeightOf(b);
    hx - HANDLE_HIT_AREA <= x <= hx + HANDLE_HIT_AREA && hy - HANDLE_HIT_AREA <= y <= hy + HANDLE_HIT_AREA
  }

  /** The first handle of `hs`, in table order, that the pointer hits. */
  function FirstHandleAt(hs: seq<Handle>, b: BoxState, x: real, y: real): (r: Option<Handle>)
    ensures r.None? <==> forall i :: 0 <= i < |hs| ==> !HandleHit(hs[i], b, x, y)
    ensures r.Some? ==> exists i :: 0 <= i < |hs| && hs[i] == r.value && HandleHit(hs[i], b, x, y)
                          && forall j :: 0 <= j < i ==> !HandleHit(hs[j], b, x, y)
  {
    if hs == [] then None
    else if HandleHit(hs[0], b, x, y) then Some(hs[0])
    else FirstHandleAt(hs[1..], b, x, y)
  }

  /** Inclusive point-in-box test against the stored corners. */
  predicate PointInBox(b: BoxState, x: real, y: real)
  {
    b.x1 <= x <= b.x2 && b.y1 <= y <= b.y2
  }

  datatype Point = Point(x: real, y: real)

  datatype Cursor = DefaultCursor | MoveCursor | ResizeCursor(direction: Direction)

  function CursorName(c: Cursor): string
  {
    match c
    case DefaultCursor => "default"
    case MoveCursor => "move"
    case ResizeCursor(d) => DirectionName(d) + "-resize"
  }

  /** The cursor shown while hovering (not dragging) at `(x, y)`. */
  function HoverCursor(b: BoxState, x: real, y: real): Cursor
  {
    match FirstHandleAt(HANDLES, b, x, y)
    case Some(hd) => ResizeCursor(hd.direction)
    case None => if PointInBox(b, x, y) then MoveCursor else DefaultCursor
  }

  function HoveredDirection(b: BoxState, x: real, y: real): Option<Direction>
  {
    match FirstHandleAt(HANDLES, b, x, y)
    case Some(hd) => Some(hd.direction)
    case None => None
  }

  /** A box created by `createBox`; its operations update the four coordinates in place. */
  class Box {
    var x1: real
    var y1: real
    var x2: real
    var y2: real

    constructor (x1: real, y1: real, x2: real, y2: real)
      ensures Value() == BoxState(x1, y1, x2, y2)
    {
      this.x1, this.y1, this.x2, this.y2 := x1, y1, x2, y2;
    }

    function Value(): BoxState
      reads this
    {
      BoxState(x1, y1, x2, y2)
    }

    function Width(): real
      reads this
    {
      Abs(x2 - x1)
    }

    function Height(): real
      reads this
    {
      Abs(y2 - y1)
    }

    method Move(x: Option<real>, y: Option<real>)
      modifies this
      ensures Value() == Moved(old(Value()), x, y)
    {
      if x.Some? {
        var width := Width();
        x1 := x.value;
        x2 := x.value + width;
      }
      if y.Some? {
        var height := Height();
        y1 := y.value;
        y2 := y.value + height;
      }
    }

    method Resize(newWidth: real, newHeight: real, ox: real, oy: real)
      modifies this
      ensures Value() == Resized(old(Value()), newWidth, newHeight, ox, oy)
      ensures x2 - x1 == newWidth && y2 - y1 == newHeight
      ensures x1 + newWidth * ox == OriginX(old(Value()), ox) && y1 + newHeight * oy == OriginY(old(Value()), oy)
    {
      var fromX := x1 + Width() * ox;
      var fromY := y1 + Height() * oy;
      x1 := fromX - newWidth * ox;
      y1 := fromY - newHeight * oy;
      x2 := x1 + newWidth;
      y2 := y1 + newHeight;
    }

    method ConstrainToBoundary(boundaryWidth: real, boundaryHeight: real, ox: real, oy: real)
      modifies this
      ensures Value() == BoundaryConstrained(old(Value()), boundaryWidth, boundaryHeight, ox, oy)
    {
      ghost var b0 := Value();
      var originX := x1 + Width() * ox;
      var originY := y1 + Height() * oy;
      assert originX == OriginX(b0, ox) && originY == OriginY(b0, oy);
      var maxWidth := MaxExtent(ox, originX, boundaryWidth);
      var maxHeight := MaxExtent(oy, originY, boundaryHeight);
      if Width() > maxWidth && Width() != 0.0 {
        var factor := maxWidth / Width();
        Scale(factor, ox, oy);
      }
      ghost var b1 := Value();
      assert b1 == FitWidth(b0, maxWidth, ox, oy);
      if Height() > maxHeight && Height() != 0.0 {
        var factor := maxHeight / Height();
        Scale(factor, ox, oy);
      }
      assert Value() == FitHeight(b1, maxHeight, ox, oy);
    }

    method Scale(factor: real, ox: real, oy: real)
      modifies this
      ensures Value() == Scaled(old(Value()), factor, ox, oy)
    {
      ghost var b := Value();
      var width, height := Width(), Height();
      assert width == WidthOf(b) && height == HeightOf(b);
      Resize(width * factor, height * factor, ox, oy);
      assert Value() == Resized(b, WidthOf(b) * factor, HeightOf(b) * factor, ox, oy);
    }

    method ConstrainToRatio(ratio: real, ox: real, oy: real, grow: Grow)
      requires ratio != 0.0
      modifies this
      ensures Value() == RatioConstrained(old(Value()), ratio, ox, oy, grow)
    {
      match grow
      case GrowHeight => Resize(Width(), Width() / ratio, ox, oy);
      case GrowWidth => Resize(Height() * ratio, Height(), ox, oy);
    }
  }

  /** The mouse-driven selection controller returned by `createCanvasSelection`. */
  class CanvasSelection {
    const aspectRatio: Option<real>
    var box: BoxState
    var isDragging: bool
    var dragStart: Option<Point>
    var activeHandle: Option<Handle>
    var hovered: Option<Direction>
    var cursor: Cursor

    constructor (aspectRatio: Option<real>)
      ensures this.aspectRatio == aspectRatio
      ensures box == BoxState(100.0, 100.0, 300.0, 200.0)
      ensures !isDragging && dragStart.None? && activeHandle.None? && hovered.None? && cursor == DefaultCursor
    {
      this.aspectRatio := aspectRatio;
      box := BoxState(100.0, 100.0, 300.0, 200.0);
      isDragging := false;
      dragStart := None;
      activeHandle := None;
      hovered := None;
      cursor := DefaultCursor;
    }

    /** The first handle, in table order, whose hit square contains `(x, y)`. */
    method GetHandleAtPosition(x: real, y: real) returns (hit: Option<Handle>)
      ensures hit == FirstHandleAt(HANDLES, box, x, y)
      ensures hit.Some? ==> hit.value in HANDLES && HandleHit(hit.value, box, x, y)
      ensures hit.None? ==> forall i :: 0 <= i < |HANDLES| ==> !HandleHit(HANDLES[i], box, x, y)
    {
      var i := 0;
      while i < |HANDLES|
        invariant 0 <= i <= |HANDLES|
        invariant FirstHandleAt(HANDLES[i..], box, x, y) == FirstHandleAt(HANDLES, box, x, y)
      {
        var hd := HANDLES[i];
        if HandleHit(hd, box, x, y) {
          return Some(hd);
        }
        assert HANDLES[i..][1..] == HANDLES[i + 1..];
        i := i + 1;
      }
      return None;
    }

    function IsPointInBox(x: real, y: real): bool
      reads this
    {
      PointInBox(box, x, y)
    }

    method MouseDown(x: real, y: real)
      modifies this
      ensures box == old(box) && hovered == old(hovered)
      ensures FirstHandleAt(HANDLES, box, x, y).Some? ==>
        && activeHandle == FirstHandleAt(HANDLES, box, x, y) && isDragging
        && dragStart == Some(Point(x, y)) && cursor == old(cursor)
      ensures FirstHandleAt(HANDLES, box, x, y).None? && PointInBox(box, x, y) ==>
        && activeHandle == old(activeHandle) && isDragging
        && dragStart == Some(Point(x, y)) && cursor == MoveCursor
      ensures FirstHandleAt(HANDLES, box, x, y).None? && !PointInBox(box, x, y) ==>
        && activeHandle == old(activeHandle) && isDragging == old(isDragging)
        && dragStart == old(dragStart) && cursor == old(cursor)
    {
      var hit := GetHandleAtPosition(x, y);
      if hit.Some? {
        activeHandle := hit;
        isDragging := true;
        dragStart := Some(Point(x, y));
        return;
      }
      if IsPointInBox(x, y) {
        isDragging := true;
        dragStart := Some(Point(x, y));
        cursor := MoveCursor;
      }
    }

    method MouseMove(x: real, y: real, canvasWidth: real, canvasHeight: real)
      modifies this
      ensures old(isDragging) && old(dragStart).Some? ==>
        && box == Dragged(old(box), old(activeHandle), aspectRatio,
                          x - old(dragStart).value.x, y - old(dragStart).value.y, canvasWidth, canvasHeight)
        && dragStart == Some(Point(x, y))
        && isDragging && activeHandle == old(activeHandle) && hovered == old(hovered) && cursor == old(cursor)
      ensures old(isDragging) && old(dragStart).None? ==>
        box == old(box) && dragStart == old(dragStart) && isDragging
        && activeHandle == old(activeHandle) && hovered == old(hovered) && cursor == old(cursor)
      ensures !old(isDragging) ==>
        && box == old(box) && !isDragging && dragStart == old(dragStart) && activeHandle == old(activeHandle)
        && hovered == HoveredDirection(box, x, y) && cursor == HoverCursor(box, x, y)
    {
      if isDragging {
        if dragStart.None? {
          return;
        }
        DragTo(x, y, canvasWidth, canvasHeight);
        return;
      }
      var hoveredHandle := GetHandleAtPosition(x, y);
      hovered := if hoveredHandle.Some? then Some(hoveredHandle.value.direction) else None;
      if hoveredHandle.Some? {
        cursor := ResizeCursor(hoveredHandle.value.direction);
      } else if IsPointInBox(x, y) {
        cursor := MoveCursor;
      } else {
        cursor := DefaultCursor;
      }
    }

    /** The dragging branch of the mouse-move handler: the box follows the pointer from the last drag position. */
    method DragTo(x: real, y: real, canvasWidth: real, canvasHeight: real)
      requires dragStart.Some?
      modifies this`box, this`dragStart
      ensures box == Dragged(old(box), activeHandle, aspectRatio,
                             x - old(dragStart).value.x, y - old(dragStart).value.y, canvasWidth, canvasHeight)
      ensures dragStart == Some(Point(x, y))
    {
      var b, handle, start := box, activeHandle, dragStart.value;
      var result := DraggedBox(b, handle, start, x, y, canvasWidth, canvasHeight);
      assert result == Dragged(b, handle, aspectRatio, x - start.x, y - start.y, canvasWidth, canvasHeight);
      box := result;
      dragStart := Some(Point(x, y));
    }

    /** The box a drag step produces, worked out on a fresh working box as the handler does. */
    method DraggedBox(b: BoxState, handle: Option<Handle>, start: Point, x: real, y: real, canvasWidth: real, canvasHeight: real)
      returns (r: BoxState)
      ensures r == Dragged(b, handle, aspectRatio, x - start.x, y - start.y, canvasWidth, canvasHeight)
    {
      ghost var moved := DragMoved(b, handle, aspectRatio, x - start.x, y - start.y, canvasWidth, canvasHeight);
      var newBox := new Box(b.x1, b.y1, b.x2, b.y2);
      if handle.Some? {
        DragHandleEdges(newBox, handle.value, x - start.x, y - start.y, canvasWidth, canvasHeight);
      } else {
        newBox.Move(Some(Max(0.0, Min(canvasWidth - newBox.Width(), b.x1 + (x - start.x)))),
                    Some(Max(0.0, Min(canvasHeight - newBox.Height(), b.y1 + (y - start.y)))));
        assert newBox.Value() == moved;
      }
      assert newBox.Value() == moved;
      newBox.ConstrainToBoundary(canvasWidth, canvasHeight, 0.5, 0.5);
      r := newBox.Value();
      assert r == BoundaryConstrained(moved, canvasWidth, canvasHeight, 0.5, 0.5);
      assert Dragged(b, handle, aspectRatio, x - start.x, y - start.y, canvasWidth, canvasHeight) == BoundaryConstrained(moved, canvasWidth, canvasHeight, 0.5, 0.5);
    }

    /** The handle branch of a drag: the flagged edges follow the pointer, then the aspect ratio, if any, is restored about the centre. */
    method DragHandleEdges(newBox: Box, handle: Handle, deltaX: real, deltaY: real, canvasWidth: real, canvasHeight: real)
      modifies newBox
      ensures newBox.Value() == DragMoved(old(newBox.Value()), Some(handle), aspectRatio, deltaX, deltaY, canvasWidth, canvasHeight)
    {
      var c := handle.constraints;
      var x1, y1, x2, y2 := newBox.x1, newBox.y1, newBox.x2, newBox.y2;
      y1 := if c.top then Min(y2 - MIN_EDGE_GAP, y1 + deltaY) else y1;
      x2 := if c.right then Max(x1 + MIN_EDGE_GAP, x2 + deltaX) else x2;
      y2 := if c.bottom then Max(y1 + MIN_EDGE_GAP, y2 + deltaY) else y2;
      x1 := if c.left then Min(x2 - MIN_EDGE_GAP, x1 + deltaX) else x1;
      newBox.x1, newBox.y1, newBox.x2, newBox.y2 := x1, y1, x2, y2;
      if HasRatio(aspectRatio) {
        var isVerticalMovement := c.top || c.bottom;
        newBox.ConstrainToRatio(aspectRatio.value, 0.5, 0.5, if isVerticalMovement then GrowWidth else GrowHeight);
      }
    }

    method MouseUp()
      modifies this
      ensures !isDragging && dragStart.None? && activeHandle.None? && cursor == DefaultCursor
      ensures box == old(box) && hovered == old(hovered)
    {
      isDragging := false;
      dragStart := None;
      activeHandle := None;
      cursor := DefaultCursor;
    }
  }
}
