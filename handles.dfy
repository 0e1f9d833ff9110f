// The eight resize handles of the crop rectangle (apps/desktop/src/components/Cropper.tsx).
// CropperTool.tsx repeats the same table with its own cursor names; both
// components use this one definition.
module Handles {
  datatype Direction = N | NE | E | SE | S | SW | W | NW

  function DirectionName(d: Direction): string
  {
    match d
    case N => "n"
    case NE => "ne"
    case E => "e"
    case SE => "se"
    case S => "s"
    case SW => "sw"
    case W => "w"
    case NW => "nw"
  }

  /** The constraint mask `[top, right, bottom, left]`: which edges a drag of the handle moves. */
  datatype Edges = Edges(top: bool, right: bool, bottom: bool, left: bool)

  /** A handle sits at `(x, y)` as fractions of the box's width and height. */
  datatype Handle = Handle(x: real, y: real, constraints: Edges, direction: Direction)

  const HANDLES: seq<Handle> := [
    Handle(0.0, 0.0, Edges(true, false, false, true), NW),
    Handle(0.5, 0.0, Edges(true, false, false, false), N),
    Handle(1.0, 0.0, Edges(true, true, false, false), NE),
    Handle(1.0, 0.5, Edges(false, true, false, false), E),
    Handle(1.0, 1.0, Edges(false, true, true, false), SE),
    Handle(0.5, 1.0, Edges(false, false, true, false), S),
    Handle(0.0, 1.0, Edges(false, false, true, true), SW),
    Handle(0.0, 0.5, Edges(false, false, false, true), W)
  ]

  /** Where a handle with these compass letters belongs on one axis: 0 at the low edge, 1 at the high edge, 0.5 in the middle. */
  function Anchor(low: bool, high: bool): real
  {
    if low then 0.0 else if high then 1.0 else 0.5
  }

  /** The handle's mask flags exactly the edges its direction names, and it sits where those letters say. */
  predicate MatchesDirection(h: Handle)
  {
    var name := DirectionName(h.direction);
    && (h.constraints.top <==> 'n' in name)
    && (h.constraints.right <==> 'e' in name)
    && (h.constraints.bottom <==> 's' in name)
    && (h.constraints.left <==> 'w' in name)
    && h.x == Anchor('w' in name, 'e' in name)
    && h.y == Anchor('n' in name, 's' in name)
  }

  /** Position of the handle for `d` in the table. */
  function HandleIndex(d: Direction): nat
  {
    match d
    case NW => 0
    case N => 1
    case NE => 2
    case E => 3
    case SE => 4
    case S => 5
    case SW => 6
    case W => 7
  }

  /** The table has one handle per direction, at the direction's index. */
  lemma {:induction false} HandleTable()
    ensures |HANDLES| == 8
    ensures forall d: Direction :: HandleIndex(d) < |HANDLES| && HANDLES[HandleIndex(d)].direction == d
    ensures forall i :: 0 <= i < |HANDLES| ==> HandleIndex(HANDLES[i].direction) == i
    ensures forall i :: 0 <= i < |HANDLES| ==> MatchesDirection(HANDLES[i])
    ensures forall i :: 0 <= i < |HANDLES| ==>
      !(HANDLES[i].constraints.top && HANDLES[i].constraints.bottom)
      && !(HANDLES[i].constraints.left && HANDLES[i].constraints.right)
  {
    HandlesIndexed();
    HandlesMatchDirections();
  }

  lemma {:induction false} HandlesIndexed()
    ensures |HANDLES| == 8
    ensures forall d: Direction :: HandleIndex(d) < |HANDLES| && HANDLES[HandleIndex(d)].direction == d
    ensures forall i :: 0 <= i < |HANDLES| ==> HandleIndex(HANDLES[i].direction) == i
  {
  }

  /** Each handle's mask and position agree with its compass letters, so no handle moves two opposite edges. */
  lemma {:induction false} HandlesMatchDirections()
    ensures forall i :: 0 <= i < |HANDLES| ==> MatchesDirection(HANDLES[i])
    ensures forall i :: 0 <= i < |HANDLES| ==>
      !(HANDLES[i].constraints.top && HANDLES[i].constraints.bottom)
      && !(HANDLES[i].constraints.left && HANDLES[i].constraints.right)
  {
    forall i | 0 <= i < |HANDLES| ensures MatchesDirection(HANDLES[i]) {
      var name := DirectionName(HANDLES[i].direction);
      if i == 0 { assert name == "nw"; }
      else if i == 1 { assert name == "n"; }
      else if i == 2 { assert name == "ne"; }
      else if i == 3 { assert name == "e"; }
      else if i == 4 { assert name == "se"; }
      else if i == 5 { assert name == "s"; }
      else if i == 6 { assert name == "sw"; }
      else { assert name == "w"; }
    }
  }
}
