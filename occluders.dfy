// The dimming overlays drawn around a selected area. Both components place
// four absolutely positioned bands, above, left of, right of and below the
// area: AreaOccluder.tsx inside a container of known size, Occluder.tsx inside
// the viewport (`100vw` by `100vh`). CssBox resolves the style records they
// produce into rectangles, following CSS absolute positioning.
module CssBox {
  import opened Wrappers

  /** The inset and size properties an overlay sets; absent ones are `auto`. */
  datatype Style = Style(left: Option<real>, right: Option<real>, top: Option<real>, bottom: Option<real>,
                         width: Option<real>, height: Option<real>)

  /** A half-open rectangle `[x, x + w) x [y, y + h)`. */
  datatype Rect = Rect(x: real, y: real, w: real, h: real)

  predicate Covers(r: Rect, px: real, py: real)
  {
    r.x <= px < r.x + r.w && r.y <= py < r.y + r.h
  }

  /**
   * Start and extent on one axis of an absolutely positioned empty box in a
   * containing block of size `extent`: both insets and no size stretch the box
   * between them; a size with one inset is placed against that inset; when all
   * three are set the end inset is ignored (left-to-right, top-to-bottom); with
   * no inset the box sits at its static position 0; with no size and one inset
   * it shrinks to nothing.
   */
  function ResolveAxis(start: Option<real>, end: Option<real>, size: Option<real>, extent: real): (real, real)
  {
    match (start, end, size)
    case (Some(s), _, Some(z)) => (s, z)
    case (Some(s), Some(e), None) => (s, extent - s - e)
    case (None, Some(e), Some(z)) => (extent - e - z, z)
    case (None, None, Some(z)) => (0.0, z)
    case (Some(s), None, None) => (s, 0.0)
    case (None, Some(e), None) => (extent - e, 0.0)
    case (None, None, None) => (0.0, 0.0)
  }

  function Resolve(s: Style, containerWidth: real, containerHeight: real): Rect
  {
    var (x, w) := ResolveAxis(s.left, s.right, s.width, containerWidth);
    var (y, h) := ResolveAxis(s.top, s.bottom, s.height, containerHeight);
    Rect(x, y, w, h)
  }

  function ResolveAll(styles: seq<Style>, containerWidth: real, containerHeight: real): (rs: seq<Rect>)
    ensures |rs| == |styles|
    ensures forall i :: 0 <= i < |styles| ==> rs[i] == Resolve(styles[i], containerWidth, containerHeight)
  {
    if styles == [] then [] else [Resolve(styles[0], containerWidth, containerHeight)] + ResolveAll(styles[1..], containerWidth, containerHeight)
  }

  function Indicator(r: Rect, px: real, py: real): nat { if Covers(r, px, py) then 1 else 0 }

  /** How many of `rs` cover the point. */
  function CoverCount(rs: seq<Rect>, px: real, py: real): nat
  {
    if rs == [] then 0 else Indicator(rs[0], px, py) + CoverCount(rs[1..], px, py)
  }

  lemma {:induction false} CoverCountFive(a: Rect, b: Rect, c: Rect, d: Rect, e: Rect, px: real, py: real)
    ensures CoverCount([a, b, c, d, e], px, py)
         == Indicator(a, px, py) + Indicator(b, px, py) + Indicator(c, px, py) + Indicator(d, px, py) + Indicator(e, px, py)
  {
    assert [e][1..] == [];
    assert CoverCount([e], px, py) == Indicator(e, px, py);
    assert [d, e][1..] == [e];
    assert CoverCount([d, e], px, py) == Indicator(d, px, py) + CoverCount([e], px, py);
    assert [c, d, e][1..] == [d, e];
    assert CoverCount([c, d, e], px, py) == Indicator(c, px, py) + CoverCount([d, e], px, py);
    assert [b, c, d, e][1..] == [c, d, e];
    assert CoverCount([b, c, d, e], px, py) == Indicator(b, px, py) + CoverCount([c, d, e], px, py);
    assert [a, b, c, d, e][1..] == [b, c, d, e];
  }
}

module AreaOccluder {
  import opened Wrappers
  import opened CssBox

  datatype XY = XY(x: real, y: real)

  /** The four overlay styles, top, left, right and bottom, around the area at `position` of `size`. */
  function Overlays(position: XY, size: XY, containerSize: XY): seq<Style>
  {
    [
      Style(Some(0.0), Some(0.0), Some(0.0), None, None, Some(position.y)),
      Style(Some(0.0), None, Some(position.y), None, Some(position.x), Some(size.y)),
      Style(Some(position.x + size.x), None, Some(position.y), None,
            Some(containerSize.x - (position.x + size.x)), Some(size.y)),
      Style(Some(0.0), Some(0.0), Some(position.y + size.y), None, None,
            Some(containerSize.y - (position.y + size.y)))
    ]
  }

  predicate AreaInside(position: XY, size: XY, containerSize: XY)
  {
    0.0 <= position.x && 0.0 <= position.y && 0.0 <= size.x && 0.0 <= size.y
    && position.x + size.x <= containerSize.x && position.y + size.y <= containerSize.y
  }

  /**
   * For an area inside the container, the area and the four overlays tile the
   * container: every point of it is covered by exactly one of them, so the
   * whole container except the area is dimmed, and nothing twice.
   */
  lemma {:induction false} OverlaysTileContainer(position: XY, size: XY, containerSize: XY, px: real, py: real)
    requires AreaInside(position, size, containerSize)
    requires 0.0 <= px < containerSize.x && 0.0 <= py < containerSize.y
    ensures var area := Rect(position.x, position.y, size.x, size.y);
      var bands := ResolveAll(Overlays(position, size, containerSize), containerSize.x, containerSize.y);
      CoverCount([area] + bands, px, py) == 1
  {
    var area := Rect(position.x, position.y, size.x, size.y);
    var bands := ResolveAll(Overlays(position, size, containerSize), containerSize.x, containerSize.y);
    assert bands[0] == Rect(0.0, 0.0, containerSize.x, position.y);
    assert bands[1] == Rect(0.0, position.y, position.x, size.y);
    assert bands[2] == Rect(position.x + size.x, position.y, containerSize.x - (position.x + size.x), size.y);
    assert bands[3] == Rect(0.0, position.y + size.y, containerSize.x, containerSize.y - (position.y + size.y));
    var all := [area] + bands;
    assert all == [area, bands[0], bands[1], bands[2], bands[3]];
    CoverCountFive(area, bands[0], bands[1], bands[2], bands[3], px, py);
  }
}

module Occluder {
  import opened Wrappers
  import opened CssBox
  import AreaOccluder

  /**
   * The four overlay styles for a viewport of `viewportWidth` by
   * `viewportHeight`: the top and bottom bands span the viewport (`inset-x-0`),
   * the right band is anchored to the right edge and the bottom band to the
   * bottom edge, their sizes given by `calc(100vw - ...)` and `calc(100vh - ...)`.
   */
  function Overlays(position: AreaOccluder.XY, size: AreaOccluder.XY, viewportWidth: real, viewportHeight: real): seq<Style>
  {
    [
      Style(Some(0.0), Some(0.0), Some(0.0), None, None, Some(position.y)),
      Style(Some(0.0), None, Some(position.y), None, Some(position.x), Some(size.y)),
      Style(None, Some(0.0), Some(position.y), None, Some(viewportWidth - (position.x + size.x)), Some(size.y)),
      Style(Some(0.0), Some(0.0), None, Some(0.0), None, Some(viewportHeight - (position.y + size.y)))
    ]
  }

  /** The viewport-anchored overlays land exactly where AreaOccluder puts its bands for a container the size of the viewport. */
  lemma {:induction false} SameBandsAsAreaOccluder(position: AreaOccluder.XY, size: AreaOccluder.XY, viewportWidth: real, viewportHeight: real)
    ensures ResolveAll(Overlays(position, size, viewportWidth, viewportHeight), viewportWidth, viewportHeight)
         == ResolveAll(AreaOccluder.Overlays(position, size, AreaOccluder.XY(viewportWidth, viewportHeight)), viewportWidth, viewportHeight)
  {
  }
}
