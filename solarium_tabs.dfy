// The Solarium tab strip: an indicator the pointer can drag along the tabs.
// A press starts a drag; moving beyond a small threshold turns it from a
// click into a drag, the indicator follows the pointer along one axis with
// rubber banding past the ends, and the nearest tab becomes the snap
// candidate; releasing commits the clicked tab or the candidate.
module SolariumTabs {
  import opened Wrappers

  datatype Point = Point(x: real, y: real)

  datatype Size = Size(width: real, height: real)

  /** A tab's measured box relative to the container, with its centre. */
  datatype Rect = Rect(left: real, top: real, width: real, height: real, centerX: real, centerY: real)

  datatype Orientation = Horizontal | Vertical

  /** How far the pointer must travel on either axis before a press counts as a drag. */
  const DRAG_THRESHOLD: real := 5.0

  function Abs(v: real): real { if v < 0.0 then -v else v }

  /**
   * `applyRubberBand`: a position inside [min, max] is kept; one outside is
   * drawn back towards the bound it passed by `pull` of its distance beyond
   * it (logarithmic in the source).
   */
  function RubberBand(pos: real, min: real, max: real, pull: real -> real): (r: real)
    ensures min <= pos <= max ==> r == pos
  {
    if pos >= min && pos <= max then pos
    else if pos < min then min - pull(min - pos)
    else max + pull(pos - max)
  }

  /** A pull that is positive for every positive distance. */
  ghost predicate PullsOutward(pull: real -> real)
  {
    forall d: real :: d > 0.0 ==> pull(d) > 0.0
  }

  /** Rubber banding never brings a position from outside the range back inside it, nor moves one across to the other side. */
  lemma {:induction false} RubberBandStaysOutside(pos: real, min: real, max: real, pull: real -> real)
    requires PullsOutward(pull)
    ensures (min <= RubberBand(pos, min, max, pull) <= max) <==> (min <= pos <= max)
    ensures pos < min ==> RubberBand(pos, min, max, pull) < min
    ensures pos > max && pos >= min ==> RubberBand(pos, min, max, pull) > max
  {
    if pos < min {
      assert pull(min - pos) > 0.0;
    } else if pos > max {
      assert pull(pos - max) > 0.0;
    }
  }

  /** Squared distance from `p` to a tab's centre; comparing these orders tabs as the Euclidean distance does. */
  function Dist2(p: Point, r: Rect): (d: real)
    ensures d >= 0.0
  {
    (p.x - r.centerX) * (p.x - r.centerX) + (p.y - r.centerY) * (p.y - r.centerY)
  }

  /** The measured tabs in the order the record lists them, each key once. */
  predicate UniqueKeys(tabs: seq<(string, Rect)>)
  {
    forall i, j :: 0 <= i < j < |tabs| ==> tabs[i].0 != tabs[j].0
  }

  /** The position of the first tab at the smallest distance from `p`: a later tab replaces the best only when strictly nearer. */
  function NearestIndex(tabs: seq<(string, Rect)>, p: Point): (k: nat)
    requires tabs != []
    ensures k < |tabs|
    ensures forall j :: 0 <= j < |tabs| ==> Dist2(p, tabs[k].1) <= Dist2(p, tabs[j].1)
    ensures forall j :: 0 <= j < k ==> Dist2(p, tabs[j].1) > Dist2(p, tabs[k].1)
  {
    if |tabs| == 1 then 0
    else
      var k := NearestIndex(tabs[..|tabs| - 1], p);
      assert forall j :: 0 <= j < |tabs| - 1 ==> tabs[..|tabs| - 1][j] == tabs[j];
      if Dist2(p, tabs[|tabs| - 1].1) < Dist2(p, tabs[k].1) then |tabs| - 1 else k
  }

  /** `getClosestTab`: the current value when no tab is measured, else the first tab nearest to `p`. */
  function ClosestTab(tabs: seq<(string, Rect)>, current: string, p: Point): (id: string)
    ensures tabs == [] ==> id == current
    ensures tabs != [] ==> id == tabs[NearestIndex(tabs, p)].0
  {
    if tabs == [] then current else tabs[NearestIndex(tabs, p)].0
  }

  /** `getClosestTab`'s loop: keeps the best distance so far, starting from none (infinity) and the current value. */
  method FindClosestTab(tabs: seq<(string, Rect)>, current: string, p: Point) returns (closestId: string)
    ensures closestId == ClosestTab(tabs, current, p)
  {
    closestId := current;
    var minDist: Option<real> := None;
    var i := 0;
    while i < |tabs|
      invariant 0 <= i <= |tabs|
      invariant i == 0 ==> closestId == current && minDist.None?
      invariant i > 0 ==> minDist == Some(Dist2(p, tabs[NearestIndex(tabs[..i], p)].1)) &&
                          closestId == tabs[NearestIndex(tabs[..i], p)].0
    {
      var d := Dist2(p, tabs[i].1);
      assert tabs[..i + 1][..i] == tabs[..i];
      if minDist.None? || d < minDist.value {
        minDist := Some(d);
        closestId := tabs[i].0;
      }
      i := i + 1;
    }
    assert tabs[..i] == tabs;
  }

  /** The measured box under `key`, if any. */
  function Lookup(tabs: seq<(string, Rect)>, key: string): (r: Option<Rect>)
    ensures r.Some? ==> (key, r.value) in tabs
    ensures r.None? ==> forall i :: 0 <= i < |tabs| ==> tabs[i].0 != key
  {
    if tabs == [] then None
    else if tabs[0].0 == key then Some(tabs[0].1)
    else Lookup(tabs[1..], key)
  }

  /**
   * The indicator offset for a pointer displacement (dx, dy): only the
   * strip's own axis moves; with the start tab measured, its leading edge
   * is rubber-banded into [0, container extent − tab extent].
   */
  function DragTarget(orientation: Orientation, dx: real, dy: real, start: Option<Rect>,
                      container: Size, pull: real -> real): (r: Point)
    ensures orientation == Horizontal ==> r.y == 0.0
    ensures orientation == Vertical ==> r.x == 0.0
    ensures start.None? ==> r == (if orientation == Horizontal then Point(dx, 0.0) else Point(0.0, dy))
    ensures start.Some? && orientation == Horizontal ==>
      start.value.left + r.x == RubberBand(start.value.left + dx, 0.0, container.width - start.value.width, pull)
    ensures start.Some? && orientation == Vertical ==>
      start.value.top + r.y == RubberBand(start.value.top + dy, 0.0, container.height - start.value.height, pull)
  {
    match start
    case None => if orientation == Horizontal then Point(dx, 0.0) else Point(0.0, dy)
    case Some(s) =>
      if orientation == Vertical then
        Point(0.0, RubberBand(s.top + dy, 0.0, container.height - s.height, pull) - s.top)
      else
        Point(RubberBand(s.left + dx, 0.0, container.width - s.width, pull) - s.left, 0.0)
  }

  /** While the dragged tab stays within the strip the indicator follows the pointer exactly; past an end it stays beyond that end. */
  lemma {:induction false} DragFollowsInside(dx: real, s: Rect, container: Size, pull: real -> real)
    requires PullsOutward(pull)
    ensures var x := DragTarget(Horizontal, dx, 0.0, Some(s), container, pull).x;
      (0.0 <= s.left + dx <= container.width - s.width ==> x == dx) &&
      (s.left + dx < 0.0 ==> s.left + x < 0.0) &&
      (s.left + dx > container.width - s.width && s.left + dx >= 0.0 ==> s.left + x > container.width - s.width)
  {
    RubberBandStaysOutside(s.left + dx, 0.0, container.width - s.width, pull);
  }

  /**
   * The tab strip's drag state. `value` is the selected tab as the parent
   * passes it; `valueChanges` and `snaps` record the `onValueChange` and
   * `onSnap` calls in order.
   */
  class Tabs {
    var value: string
    var rects: seq<(string, Rect)>
    var containerSize: Size
    var isDragging: bool
    var hasMoved: bool
    var dragOffset: Point
    var pointerStart: Point
    var initialDragValue: Option<string>
    var snapCandidate: Option<string>
    var valueChanges: seq<string>
    var snaps: seq<string>
    const orientation: Orientation
    const hasOnSnap: bool
    const pull: real -> real

    constructor (value: string, orientation: Orientation, hasOnSnap: bool, pull: real -> real)
      ensures this.value == value && this.orientation == orientation && this.hasOnSnap == hasOnSnap && this.pull == pull
      ensures rects == [] && !isDragging && !hasMoved && dragOffset == Point(0.0, 0.0)
      ensures initialDragValue.None? && snapCandidate.None? && valueChanges == [] && snaps == []
    {
      this.value := value;
      this.orientation := orientation;
      this.hasOnSnap := hasOnSnap;
      this.pull := pull;
      rects := [];
      containerSize := Size(0.0, 0.0);
      isDragging := false;
      hasMoved := false;
      dragOffset := Point(0.0, 0.0);
      pointerStart := Point(0.0, 0.0);
      initialDragValue := None;
      snapCandidate := None;
      valueChanges := [];
      snaps := [];
    }

    /** The tab the drag started from (`initialDragValue() || props.value`). */
    function StartKey(): string
      reads this
    {
      if initialDragValue.Some? && initialDragValue.value != "" then initialDragValue.value else value
    }

    /**
     * `handlePointerDown`: other buttons than the primary one do nothing;
     * the primary one re-measures the tabs and starts a drag from the
     * current value with no movement and no offset.
     */
    method PointerDown(button: int, client: Point, measured: seq<(string, Rect)>, container: Size)
      modifies this
      ensures button != 0 ==>
        isDragging == old(isDragging) && hasMoved == old(hasMoved) && rects == old(rects) &&
        dragOffset == old(dragOffset) && snapCandidate == old(snapCandidate) &&
        initialDragValue == old(initialDragValue) && pointerStart == old(pointerStart) &&
        containerSize == old(containerSize)
      ensures button == 0 ==>
        isDragging && !hasMoved && rects == measured && containerSize == container &&
        initialDragValue == Some(value) && snapCandidate == Some(value) &&
        pointerStart == client && dragOffset == Point(0.0, 0.0)
      ensures value == old(value) && valueChanges == old(valueChanges) && snaps == old(snaps)
    {
      if button != 0 {
        return;
      }
      rects := measured;
      containerSize := container;
      isDragging := true;
      hasMoved := false;
      initialDragValue := Some(value);
      snapCandidate := Some(value);
      pointerStart := client;
      dragOffset := Point(0.0, 0.0);
    }

    /**
     * `handlePointerMove`: outside a drag nothing happens. Otherwise the
     * press becomes a drag once either displacement exceeds the threshold,
     * the offset follows `DragTarget`, and once it is a drag with a measured
     * start tab the tab nearest to the dragged centre becomes the candidate,
     * `onSnap` firing when the candidate changes.
     */
    method PointerMove(client: Point)
      modifies this
      ensures !old(isDragging) ==>
        isDragging == old(isDragging) && hasMoved == old(hasMoved) && dragOffset == old(dragOffset) &&
        snapCandidate == old(snapCandidate) && snaps == old(snaps)
      ensures var dx, dy := client.x - old(pointerStart).x, client.y - old(pointerStart).y;
        old(isDragging) ==>
          hasMoved == (old(hasMoved) || Abs(dx) > DRAG_THRESHOLD || Abs(dy) > DRAG_THRESHOLD) &&
          dragOffset == DragTarget(orientation, dx, dy, Lookup(rects, old(StartKey())), containerSize, pull)
      ensures var start := Lookup(rects, old(StartKey()));
        old(isDragging) && start.Some? && hasMoved ==>
          var closest := ClosestTab(rects, value,
                                    Point(start.value.centerX + dragOffset.x, start.value.centerY + dragOffset.y));
          snapCandidate == Some(closest) &&
          snaps == old(snaps) + (if old(snapCandidate) != Some(closest) && hasOnSnap then [closest] else [])
      ensures old(isDragging) && (Lookup(rects, old(StartKey())).None? || !hasMoved) ==>
        snapCandidate == old(snapCandidate) && snaps == old(snaps)
      ensures old(hasMoved) ==> hasMoved
      ensures |snaps| > |old(snaps)| ==> hasMoved
      ensures isDragging == old(isDragging) && value == old(value) && rects == old(rects)
      ensures containerSize == old(containerSize) && pointerStart == old(pointerStart)
      ensures initialDragValue == old(initialDragValue) && valueChanges == old(valueChanges)
    {
      if isDragging {
        DragMove(client);
      }
    }

    /** The dragging branch of `handlePointerMove`. */
    method DragMove(client: Point)
      requires isDragging
      modifies this
      ensures var dx, dy := client.x - old(pointerStart).x, client.y - old(pointerStart).y;
        hasMoved == (old(hasMoved) || Abs(dx) > DRAG_THRESHOLD || Abs(dy) > DRAG_THRESHOLD) &&
        dragOffset == DragTarget(orientation, dx, dy, Lookup(rects, old(StartKey())), containerSize, pull)
      ensures var start := Lookup(rects, old(StartKey()));
        start.Some? && hasMoved ==>
          var closest := ClosestTab(rects, value,
                                    Point(start.value.centerX + dragOffset.x, start.value.centerY + dragOffset.y));
          snapCandidate == Some(closest) &&
          snaps == old(snaps) + (if old(snapCandidate) != Some(closest) && hasOnSnap then [closest] else [])
      ensures Lookup(rects, old(StartKey())).None? || !hasMoved ==>
        snapCandidate == old(snapCandidate) && snaps == old(snaps)
      ensures isDragging == old(isDragging) && value == old(value) && rects == old(rects)
      ensures containerSize == old(containerSize) && pointerStart == old(pointerStart)
      ensures initialDragValue == old(initialDragValue) && valueChanges == old(valueChanges)
    {
      var moved := hasMoved || Abs(client.x - pointerStart.x) > DRAG_THRESHOLD || Abs(client.y - pointerStart.y) > DRAG_THRESHOLD;
      var start := Lookup(rects, StartKey());
      var target := DragTarget(orientation, client.x - pointerStart.x, client.y - pointerStart.y,
                               Lookup(rects, StartKey()), containerSize, pull);
      hasMoved := moved;
      dragOffset := target;
      if start.Some? && moved {
        SnapNearest(start.value);
      }
    }

    /** The snapping step of a drag: the tab nearest to the dragged centre of `start` becomes the candidate. */
    method SnapNearest(start: Rect)
      modifies this
      ensures var closest := ClosestTab(rects, value, Point(start.centerX + dragOffset.x, start.centerY + dragOffset.y));
        snapCandidate == Some(closest) &&
        snaps == old(snaps) + (if old(snapCandidate) != Some(closest) && hasOnSnap then [closest] else [])
      ensures isDragging == old(isDragging) && hasMoved == old(hasMoved) && value == old(value) && rects == old(rects)
      ensures containerSize == old(containerSize) && pointerStart == old(pointerStart) && dragOffset == old(dragOffset)
      ensures initialDragValue == old(initialDragValue) && valueChanges == old(valueChanges)
    {
      var closest := FindClosestTab(rects, value, Point(start.centerX + dragOffset.x, start.centerY + dragOffset.y));
      SnapTo(closest);
    }

    /** The candidate becomes `closest`; `onSnap` is called only when that changes it. */
    method SnapTo(closest: string)
      modifies this
      ensures snapCandidate == Some(closest)
      ensures snaps == old(snaps) + (if old(snapCandidate) != Some(closest) && hasOnSnap then [closest] else [])
      ensures isDragging == old(isDragging) && hasMoved == old(hasMoved) && value == old(value) && rects == old(rects)
      ensures containerSize == old(containerSize) && pointerStart == old(pointerStart) && dragOffset == old(dragOffset)
      ensures initialDragValue == old(initialDragValue) && valueChanges == old(valueChanges)
    {
      if snapCandidate != Some(closest) {
        snapCandidate := Some(closest);
        if hasOnSnap {
          snaps := snaps + [closest];
        }
      }
    }

    /**
     * `handlePointerUp`: outside a drag nothing happens. Otherwise the drag
     * ends; a press that never moved commits the tab under the pointer, a
     * drag commits the candidate, each only when it is a non-empty value
     * other than the current one; then the drag state is reset.
     */
    method PointerUp(clickedTab: Option<string>)
      modifies this
      ensures !old(isDragging) ==>
        isDragging == old(isDragging) && hasMoved == old(hasMoved) && dragOffset == old(dragOffset) && snapCandidate == old(snapCandidate) &&
        initialDragValue == old(initialDragValue) && valueChanges == old(valueChanges)
      ensures var chosen := if old(hasMoved) then old(snapCandidate) else clickedTab;
        old(isDragging) ==>
          !isDragging && !hasMoved && dragOffset == Point(0.0, 0.0) &&
          initialDragValue.None? && snapCandidate.None? &&
          valueChanges == old(valueChanges) +
            (if chosen.Some? && chosen.value != "" && chosen.value != value then [chosen.value] else [])
      ensures valueChanges == old(valueChanges) ||
        (|valueChanges| == |old(valueChanges)| + 1 && valueChanges[|valueChanges| - 1] != value)
      ensures value == old(value) && rects == old(rects) && snaps == old(snaps) && pointerStart == old(pointerStart)
      ensures containerSize == old(containerSize)
    {
      if !isDragging {
        return;
      }
      isDragging := false;
      var chosen := if hasMoved then snapCandidate else clickedTab;
      if chosen.Some? && chosen.value != "" && chosen.value != value {
        valueChanges := valueChanges + [chosen.value];
      }
      dragOffset := Point(0.0, 0.0);
      initialDragValue := None;
      snapCandidate := None;
      hasMoved := false;
    }
  }
}
