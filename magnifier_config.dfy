// The magnifier settings panel: which segment the timeline selection
// points at, and the per-field and per-axis edits it writes back.
module MagnifierSegmentConfig {
  import opened Wrappers
  import opened Magnifier
  import opened EditorProject

  /** `segmentIndex`: the first selected index of a magnifier selection, else -1. */
  function SegmentIndex(selection: Option<Selection>): (r: int)
    ensures selection.Some? && selection.value.MagnifierSelection? && selection.value.indices != [] ==>
      r == selection.value.indices[0]
    ensures (selection.None? || selection.value.OtherSelection? || selection.value.indices == []) ==> r == -1
  {
    match selection
    case Some(MagnifierSelection(indices)) => if indices != [] then indices[0] else -1
    case _ => -1
  }

  /** `segment`: the selected segment, when the index is not negative and the track holds it. */
  function SelectedSegment(timeline: Option<Timeline>, selection: Option<Selection>): (r: Option<MagnifierSegment>)
    ensures SegmentIndex(selection) < 0 ==> r.None?
    ensures r.Some? <==>
      (0 <= SegmentIndex(selection) && timeline.Some? && timeline.value.magnifierSegments.Some? &&
       SegmentIndex(selection) < |timeline.value.magnifierSegments.value|)
    ensures r.Some? ==> r.value == timeline.value.magnifierSegments.value[SegmentIndex(selection)]
  {
    var index := SegmentIndex(selection);
    if index < 0 || timeline.None? || timeline.value.magnifierSegments.None? then None
    else
      var segments := timeline.value.magnifierSegments.value;
      if index < |segments| then Some(segments[index]) else None
  }

  /** The fields `updateSegment` is used for, with their new values. */
  datatype FieldEdit =
    | SetShape(shape: Shape)
    | SetZoomAmount(zoomAmount: real)
    | SetGlassStrength(glassStrength: real)
    | SetGlassRadius(glassRadius: real)

  /** The segment with one field replaced. */
  function WithField(s: MagnifierSegment, e: FieldEdit): (r: MagnifierSegment)
    ensures r.start == s.start && r.end == s.end && r.enabled == s.enabled
    ensures r.center == s.center && r.size == s.size
    ensures r.shape == (if e.SetShape? then e.shape else s.shape)
    ensures r.zoomAmount == (if e.SetZoomAmount? then e.zoomAmount else s.zoomAmount)
    ensures r.glassStrength == (if e.SetGlassStrength? then e.glassStrength else s.glassStrength)
    ensures r.glassRadius == (if e.SetGlassRadius? then e.glassRadius else s.glassRadius)
  {
    match e
    case SetShape(v) => s.(shape := v)
    case SetZoomAmount(v) => s.(zoomAmount := v)
    case SetGlassStrength(v) => s.(glassStrength := v)
    case SetGlassRadius(v) => s.(glassRadius := v)
  }

  /** The track with the segment at `index` replaced; the others keep their places. */
  function ReplaceAt(segments: seq<MagnifierSegment>, index: nat, s: MagnifierSegment): (r: seq<MagnifierSegment>)
    requires index < |segments|
    ensures |r| == |segments| && r[index] == s
    ensures forall j :: 0 <= j < |r| && j != index ==> r[j] == segments[j]
  {
    segments[index := s]
  }

  /** The point with one axis replaced and the other kept (`{...center, [axis]: value}`). */
  function WithAxis(p: XY, axis: Axis, v: real): (r: XY)
    ensures axis == X ==> r.x == v && r.y == p.y
    ensures axis == Y ==> r.y == v && r.x == p.x
  {
    match axis
    case X => p.(x := v)
    case Y => p.(y := v)
  }

  /** The same for an object whose axes may be missing: the named axis is set, the other stays as it was, possibly missing. */
  function WithPartialAxis(p: PartialXY, axis: Axis, v: real): (r: PartialXY)
    ensures axis == X ==> r.x == Some(v) && r.y == p.y
    ensures axis == Y ==> r.y == Some(v) && r.x == p.x
  {
    match axis
    case X => p.(x := Some(v))
    case Y => p.(y := Some(v))
  }

  /** Setting an axis twice keeps only the second value; setting the two axes commutes. */
  lemma {:induction false} AxisEditsCompose(p: XY, a: real, b: real)
    ensures WithAxis(WithAxis(p, X, a), X, b) == WithAxis(p, X, b)
    ensures WithAxis(WithAxis(p, X, a), Y, b) == WithAxis(WithAxis(p, Y, b), X, a) == XY(a, b)
  {
  }

  /** Setting both axes of a missing size yields a complete size. */
  lemma {:induction false} SizeFilledByBothAxes(a: real, b: real)
    ensures WithPartialAxis(WithPartialAxis(PartialXY(None, None), X, a), Y, b) == PartialXY(Some(a), Some(b))
  {
  }

  /** The state `updateSegment` and its siblings write: the selected segment replaced by `s`. */
  function WithSegment(timeline: Option<Timeline>, index: nat, s: MagnifierSegment): (r: Option<Timeline>)
    requires timeline.Some? && timeline.value.magnifierSegments.Some?
    requires index < |timeline.value.magnifierSegments.value|
    ensures r.Some? && r.value.magnifierSegments.Some?
  {
    Some(Timeline(Some(ReplaceAt(timeline.value.magnifierSegments.value, index, s))))
  }

  /**
   * `updateSegment`: with a negative index nothing is written; otherwise
   * the store path leads to the selected segment, and when the track does
   * not hold it the store setter throws and nothing changes.
   */
  method UpdateSegment(editor: Editor, e: FieldEdit) returns (thrown: bool)
    modifies editor
    ensures SegmentIndex(old(editor.selection)) < 0 ==> !thrown && editor.timeline == old(editor.timeline)
    ensures SegmentIndex(old(editor.selection)) >= 0 && SelectedSegment(old(editor.timeline), old(editor.selection)).None? ==>
      thrown && editor.timeline == old(editor.timeline)
    ensures var current := SelectedSegment(old(editor.timeline), old(editor.selection));
      current.Some? ==>
        (!thrown && editor.timeline == WithSegment(old(editor.timeline), SegmentIndex(old(editor.selection)), WithField(current.value, e)))
    ensures editor.selection == old(editor.selection) && editor.hoveredTrack == old(editor.hoveredTrack)
    ensures editor.previewTime == old(editor.previewTime)
  {
    var index := SegmentIndex(editor.selection);
    if index >= 0 {
      var current := SelectedSegment(editor.timeline, editor.selection);
      if current.None? {
        return true;
      }
      editor.timeline := WithSegment(editor.timeline, index, WithField(current.value, e));
    }
    return false;
  }

  /** `updateCenter`: only when a segment is selected, its center with one axis replaced. */
  method UpdateCenter(editor: Editor, axis: Axis, v: real)
    modifies editor
    ensures var current := SelectedSegment(old(editor.timeline), old(editor.selection));
      (current.None? ==> editor.timeline == old(editor.timeline)) &&
      (current.Some? ==>
        editor.timeline == WithSegment(old(editor.timeline), SegmentIndex(old(editor.selection)),
                                       current.value.(center := WithAxis(current.value.center, axis, v))))
    ensures editor.selection == old(editor.selection) && editor.hoveredTrack == old(editor.hoveredTrack)
    ensures editor.previewTime == old(editor.previewTime)
  {
    var index := SegmentIndex(editor.selection);
    if index >= 0 {
      var current := SelectedSegment(editor.timeline, editor.selection);
      if current.Some? {
        var s := current.value;
        editor.timeline := WithSegment(editor.timeline, index, s.(center := WithAxis(s.center, axis, v)));
      }
    }
  }

  /** `updateSize`: only when a segment is selected, its (possibly missing) size with one axis set. */
  method UpdateSize(editor: Editor, axis: Axis, v: real)
    modifies editor
    ensures var current := SelectedSegment(old(editor.timeline), old(editor.selection));
      (current.None? ==> editor.timeline == old(editor.timeline)) &&
      (current.Some? ==>
        editor.timeline == WithSegment(old(editor.timeline), SegmentIndex(old(editor.selection)),
                                       current.value.(size := WithPartialAxis(current.value.size, axis, v))))
    ensures editor.selection == old(editor.selection) && editor.hoveredTrack == old(editor.hoveredTrack)
    ensures editor.previewTime == old(editor.previewTime)
  {
    var index := SegmentIndex(editor.selection);
    if index >= 0 {
      var current := SelectedSegment(editor.timeline, editor.selection);
      if current.Some? {
        var s := current.value;
        editor.timeline := WithSegment(editor.timeline, index, s.(size := WithPartialAxis(s.size, axis, v)));
      }
    }
  }

  /** After an edit the panel shows the edited segment: the selection still points at it and it carries the new value. */
  lemma {:induction false} EditIsShown(timeline: Option<Timeline>, selection: Option<Selection>, e: FieldEdit)
    requires SelectedSegment(timeline, selection).Some?
    ensures var index := SegmentIndex(selection);
      var s := WithField(SelectedSegment(timeline, selection).value, e);
      SelectedSegment(WithSegment(timeline, index, s), selection) == Some(s)
  {
  }

  /** An edit leaves every other segment of the track as it was. */
  lemma {:induction false} EditKeepsOtherSegments(timeline: Option<Timeline>, selection: Option<Selection>, e: FieldEdit, j: nat)
    requires SelectedSegment(timeline, selection).Some?
    requires j < |timeline.value.magnifierSegments.value| && j != SegmentIndex(selection)
    ensures var index := SegmentIndex(selection);
      var s := WithField(SelectedSegment(timeline, selection).value, e);
      WithSegment(timeline, index, s).value.magnifierSegments.value[j] == timeline.value.magnifierSegments.value[j]
  {
  }
}
