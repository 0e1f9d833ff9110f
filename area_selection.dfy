// The capture-area selection rectangle
// (apps/desktop/src/routes/capture-area-selection/selection.tsx): a rectangle
// on the window that the user drags by its body or resizes by one of eight
// handles, always kept within the window and at least 10 pixels on a side.
module AreaSelection {
  import opened Wrappers
  import opened Handles

  /** The smallest width or height a resize leaves. */
  const MIN_SIZE: real := 10.0

  /** `clamp(v, lo, hi) = max(lo, min(hi, v))`; when `hi < lo` the result is `lo`. */
  function Clamp(v: real, lo: real, hi: real): (r: real)
    ensures lo <= hi ==> lo <= r <= hi
    ensures lo <= v <= hi ==> r == v
    ensures hi < lo ==> r == lo
  {
    var m := if hi <= v then hi else v;
    if lo >= m then lo else m
  }

  /** Position and size of the selection, in window pixels. */
  datatype Frame = Frame(x: real, y: real, width: real, height: real)

  /** The selection lies within a `w` by `h` window and is at least `MIN_SIZE` on each side. */
  predicate InWindow(f: Frame, w: real, h: real)
  {
    0.0 <= f.x && 0.0 <= f.y && MIN_SIZE <= f.width && MIN_SIZE <= f.height
    && f.x + f.width <= w && f.y + f.height <= h
  }

  /** A body drag by `(mx, my)`: the position follows the pointer, clamped so that the selection stays in the window. */
  function DraggedFrame(f: Frame, mx: real, my: real, w: real, h: real): Frame
  {
    f.(x := Clamp(f.x + mx, 0.0, w - f.width), y := Clamp(f.y + my, 0.0, h - f.height))
  }

  predicate Includes(d: Direction, letter: char) { letter in DirectionName(d) }

  /**
   * A resize in direction `d` by `(mx, my)`: an east or south edge follows the
   * pointer up to the window edge; a west or north edge follows it up to the
   * window's left or top edge, the opposite edge staying put. Every resized
   * extent is at least `MIN_SIZE`.
   */
  function ResizedFrame(f: Frame, d: Direction, mx: real, my: real, w: real, h: real): Frame
  {
    ResizedEdges(f, Includes(d, 'e'), Includes(d, 's'), Includes(d, 'w'), Includes(d, 'n'), mx, my, w, h)
  }

  /** The resize by the edges it moves: east, south, west and north, applied in that order. */
  function ResizedEdges(f: Frame, east: bool, south: bool, west: bool, north: bool, mx: real, my: real, w: real, h: real): Frame
  {
    var width1 := if east then Clamp(f.width + mx, MIN_SIZE, w - f.x) else f.width;
    var height1 := if south then Clamp(f.height + my, MIN_SIZE, h - f.y) else f.height;
    var width2 := if west then Clamp(width1 - mx, MIN_SIZE, f.x + width1) else width1;
    var x2 := if west then f.x + (width1 - width2) else f.x;
    var height2 := if north then Clamp(height1 - my, MIN_SIZE, f.y + height1) else height1;
    var y2 := if north then f.y + (height1 - height2) else f.y;
    Frame(x2, y2, width2, height2)
  }

  /** Which edges a resize moves: the right edge stays unless the direction names east or west, and only a west resize moves the left edge. */
  lemma {:induction false} ResizeMovesNamedEdges(f: Frame, d: Direction, mx: real, my: real, w: real, h: real)
    requires InWindow(f, w, h)
    ensures var r := ResizedFrame(f, d, mx, my, w, h);
      && (Includes(d, 'w') ==> r.x + r.width == f.x + f.width)
      && (Includes(d, 'n') ==> r.y + r.height == f.y + f.height)
      && (!Includes(d, 'w') ==> r.x == f.x)
      && (!Includes(d, 'n') ==> r.y == f.y)
      && (!Includes(d, 'e') && !Includes(d, 'w') ==> r.width == f.width)
      && (!Includes(d, 's') && !Includes(d, 'n') ==> r.height == f.height)
  {
    DirectionLetters(d);
  }

  /** No direction names both east and west, or both north and south. */
  lemma {:induction false} DirectionLetters(d: Direction)
    ensures !(Includes(d, 'e') && Includes(d, 'w'))
    ensures !(Includes(d, 'n') && Includes(d, 's'))
  {
    match d
    case N => assert DirectionName(d) == "n";
    case NE => assert DirectionName(d) == "ne";
    case E => assert DirectionName(d) == "e";
    case SE => assert DirectionName(d) == "se";
    case S => assert DirectionName(d) == "s";
    case SW => assert DirectionName(d) == "sw";
    case W => assert DirectionName(d) == "w";
    case NW => assert DirectionName(d) == "nw";
  }

  /** Dragging a selection that lies in the window keeps it in the window with its size unchanged. */
  lemma {:induction false} DragStaysInWindow(f: Frame, mx: real, my: real, w: real, h: real)
    requires InWindow(f, w, h)
    ensures var r := DraggedFrame(f, mx, my, w, h);
      InWindow(r, w, h) && r.width == f.width && r.height == f.height
  {
  }

  /** Resizing a selection that lies in the window, in any direction, keeps it in the window and at least `MIN_SIZE` on a side. */
  lemma {:induction false} ResizeStaysInWindow(f: Frame, d: Direction, mx: real, my: real, w: real, h: real)
    requires InWindow(f, w, h)
    ensures InWindow(ResizedFrame(f, d, mx, my, w, h), w, h)
  {
    DirectionLetters(d);
  }

  /** The selection overlay's state: the rectangle and the gesture in progress. */
  class Selection {
    var x: real
    var y: real
    var width: real
    var height: real
    var isDragging: bool
    var isResizing: bool
    var resizeDirection: Option<Direction>

    function Value(): Frame
      reads this
    {
      Frame(x, y, width, height)
    }

    /** The selection starts centred, a quarter of the window in from each side. */
    constructor (innerWidth: real, innerHeight: real)
      ensures Value() == Frame(innerWidth / 4.0, innerHeight / 4.0, innerWidth / 2.0, innerHeight / 2.0)
      ensures !isDragging && !isResizing && resizeDirection.None?
      ensures innerWidth >= 2.0 * MIN_SIZE && innerHeight >= 2.0 * MIN_SIZE ==> InWindow(Value(), innerWidth, innerHeight)
    {
      x, y := innerWidth / 4.0, innerHeight / 4.0;
      width, height := innerWidth / 2.0, innerHeight / 2.0;
      isDragging, isResizing := false, false;
      resizeDirection := None;
    }

    /** Mouse-down on the selection body itself (not on a handle) starts a drag. */
    method BodyMouseDown(targetIsSelection: bool)
      modifies this
      ensures isDragging == (old(isDragging) || targetIsSelection)
      ensures Value() == old(Value()) && isResizing == old(isResizing) && resizeDirection == old(resizeDirection)
    {
      if targetIsSelection {
        isDragging := true;
      }
    }

    /** Mouse-down on a handle starts a resize in its direction. */
    method HandleMouseDown(d: Direction)
      modifies this
      ensures isResizing && resizeDirection == Some(d)
      ensures Value() == old(Value()) && isDragging == old(isDragging)
    {
      isResizing := true;
      resizeDirection := Some(d);
    }

    /** A pointer move by `(movementX, movementY)` in a window of `innerWidth` by `innerHeight`. */
    method MouseMove(movementX: real, movementY: real, innerWidth: real, innerHeight: real)
      modifies this
      ensures isDragging == old(isDragging) && isResizing == old(isResizing) && resizeDirection == old(resizeDirection)
      ensures old(isDragging) ==> Value() == DraggedFrame(old(Value()), movementX, movementY, innerWidth, innerHeight)
      ensures !old(isDragging) && old(isResizing) && old(resizeDirection).Some? ==>
        Value() == ResizedFrame(old(Value()), old(resizeDirection).value, movementX, movementY, innerWidth, innerHeight)
      ensures !old(isDragging) && !(old(isResizing) && old(resizeDirection).Some?) ==> Value() == old(Value())
      ensures InWindow(old(Value()), innerWidth, innerHeight) ==> InWindow(Value(), innerWidth, innerHeight)
    {
      ghost var before := Value();
      if isDragging {
        x, y := Clamp(x + movementX, 0.0, innerWidth - width), Clamp(y + movementY, 0.0, innerHeight - height);
        if InWindow(before, innerWidth, innerHeight) {
          DragStaysInWindow(before, movementX, movementY, innerWidth, innerHeight);
        }
      } else if isResizing && resizeDirection.Some? {
        ResizeBy(resizeDirection.value, movementX, movementY, innerWidth, innerHeight);
        if InWindow(before, innerWidth, innerHeight) {
          ResizeStaysInWindow(before, resizeDirection.value, movementX, movementY, innerWidth, innerHeight);
        }
      }
    }

    /** The resizing branch of the mouse-move handler; the position is read once, before any edge moves. */
    method ResizeBy(dir: Direction, movementX: real, movementY: real, innerWidth: real, innerHeight: real)
      modifies this`x, this`y, this`width, this`height
      ensures Value() == ResizedFrame(old(Value()), dir, movementX, movementY, innerWidth, innerHeight)
    {
      var newWidth, newHeight := width, height;
      var px, py := x, y;
      var east, south, west, north := Includes(dir, 'e'), Includes(dir, 's'), Includes(dir, 'w'), Includes(dir, 'n');
      if east { newWidth := Clamp(newWidth + movementX, MIN_SIZE, innerWidth - px); }
      if south { newHeight := Clamp(newHeight + movementY, MIN_SIZE, innerHeight - py); }
      var newX, newY := px, py;
      if west {
        var w := Clamp(newWidth - movementX, MIN_SIZE, px + newWidth);
        newX := px + (newWidth - w);
        newWidth := w;
      }
      if north {
        var h := Clamp(newHeight - movementY, MIN_SIZE, py + newHeight);
        newY := py + (newHeight - h);
        newHeight := h;
      }
      assert Frame(newX, newY, newWidth, newHeight) == ResizedEdges(Value(), east, south, west, north, movementX, movementY, innerWidth, innerHeight);
      x, y, width, height := newX, newY, newWidth, newHeight;
    }

    method MouseUp()
      modifies this
      ensures !isDragging && !isResizing && resizeDirection.None?
      ensures Value() == old(Value())
    {
      isDragging := false;
      isResizing := false;
      resizeDirection := None;
    }
  }
}
