// The magnifier track of the editor timeline: proposing a new segment under
// the pointer, creating it, and double-clicking a segment.
module MagnifierTrack {
  import opened Wrappers
  import opened Magnifier
  import opened EditorProject

  /** The width, in seconds, of a newly proposed segment. */
  const MIN_NEW_SEGMENT_SECS_WIDTH: real := 1.0

  const MAGNIFIER_TRACK: string := "magnifier"

  /** Whether `t` lies in the segment, both ends included. */
  predicate Covers(s: MagnifierSegment, t: real)
  {
    t >= s.start && t <= s.end
  }

  /** `find`: the index of the first segment covering `t`. */
  function FirstCovering(segments: seq<MagnifierSegment>, t: real): (r: Option<nat>)
    ensures r.Some? ==>
      (r.value < |segments| && Covers(segments[r.value], t) &&
       forall j :: 0 <= j < r.value ==> !Covers(segments[j], t))
    ensures r.None? ==> forall j :: 0 <= j < |segments| ==> !Covers(segments[j], t)
  {
    if segments == [] then None
    else if Covers(segments[0], t) then Some(0)
    else
      match FirstCovering(segments[1..], t)
      case None => None
      case Some(k) => Some(k + 1)
  }

  /** The bounds of a proposed segment. */
  datatype Proposal = Proposal(start: real, end: real)

  function Max(a: real, b: real): real { if a >= b then a else b }

  /**
   * `newSegmentDetails`: a proposal only while the magnifier track is
   * hovered at a preview time that no existing segment covers; it starts
   * half a width before the preview time (not before 0) and is one width
   * long, cut at the end of the recording.
   */
  function NewSegmentDetails(hoveredTrack: Option<string>, previewTime: Option<real>,
                             segments: seq<MagnifierSegment>, totalDuration: real): (r: Option<Proposal>)
    ensures r.Some? <==>
      hoveredTrack == Some(MAGNIFIER_TRACK) && previewTime.Some? &&
      forall j :: 0 <= j < |segments| ==> !Covers(segments[j], previewTime.value)
    ensures r.Some? ==> r.value.start >= 0.0 && r.value.end <= r.value.start + MIN_NEW_SEGMENT_SECS_WIDTH
    ensures r.Some? && r.value.start + MIN_NEW_SEGMENT_SECS_WIDTH <= totalDuration ==>
      r.value.end - r.value.start == MIN_NEW_SEGMENT_SECS_WIDTH
    ensures r.Some? && r.value.start + MIN_NEW_SEGMENT_SECS_WIDTH > totalDuration ==> r.value.end == totalDuration
  {
    if hoveredTrack != Some(MAGNIFIER_TRACK) || previewTime.None? then None
    else
      var t := previewTime.value;
      if FirstCovering(segments, t).Some? then None
      else
        var start := Max(0.0, t - MIN_NEW_SEGMENT_SECS_WIDTH / 2.0);
        var end := start + MIN_NEW_SEGMENT_SECS_WIDTH;
        Some(Proposal(start, if end > totalDuration then totalDuration else end))
  }

  /** For a preview time inside the recording, the proposal lies inside the recording and contains the preview time. */
  lemma {:induction false} ProposalCoversPreviewTime(hoveredTrack: Option<string>, t: real, segments: seq<MagnifierSegment>, totalDuration: real)
    requires 0.0 <= t <= totalDuration
    requires NewSegmentDetails(hoveredTrack, Some(t), segments, totalDuration).Some?
    ensures var p := NewSegmentDetails(hoveredTrack, Some(t), segments, totalDuration).value;
      0.0 <= p.start <= t <= p.end <= totalDuration
  {
  }

  /** The segment a proposal becomes: enabled, a centred circle with the default zoom and glass settings, no size. */
  function NewSegment(p: Proposal): (s: MagnifierSegment)
    ensures s.start == p.start && s.end == p.end && s.enabled && s.shape == Circle
  {
    MagnifierSegment(p.start, p.end, true, XY(0.5, 0.5), PartialXY(None, None), Circle, 2.0, 0.1, 4.0)
  }

  /**
   * What the store setter makes of the magnifier track when the updater is
   * wrapped in `produce`: `produce` ignores its recipe's return value and
   * hands back the state it was given, so the track comes back as it was.
   */
  function ProducedAppend(segments: Option<seq<MagnifierSegment>>, s: MagnifierSegment): (r: Option<seq<MagnifierSegment>>)
  {
    segments
  }

  /** The track the creation is evidently meant to produce: the existing segments (none when absent), then the new one. */
  function Appended(segments: Option<seq<MagnifierSegment>>, s: MagnifierSegment): (r: Option<seq<MagnifierSegment>>)
    ensures r.Some? && |r.value| == |segments.UnwrapOr([])| + 1
    ensures r.value[..|r.value| - 1] == segments.UnwrapOr([]) && r.value[|r.value| - 1] == s
  {
    Some(segments.UnwrapOr([]) + [s])
  }

  /** As written, creating a segment never adds it: the track is the same with or without the new segment. */
  lemma {:induction false} ProducedAppendAddsNothing(segments: seq<MagnifierSegment>, p: Proposal)
    ensures ProducedAppend(Some(segments), NewSegment(p)) == Some(segments)
    ensures ProducedAppend(Some(segments), NewSegment(p)) != Appended(Some(segments), NewSegment(p))
  {
    assert |Appended(Some(segments), NewSegment(p)).value| == |segments| + 1;
  }

  /** The corrected creation keeps every existing segment in place and adds exactly one, the proposed one, at the end. */
  lemma {:induction false} AppendedKeepsExisting(segments: Option<seq<MagnifierSegment>>, p: Proposal)
    ensures var r := Appended(segments, NewSegment(p)).value;
      var before := segments.UnwrapOr([]);
      |r| == |before| + 1 &&
      (forall j :: 0 <= j < |before| ==> r[j] == before[j]) &&
      r[|before|].start == p.start && r[|before|].end == p.end && r[|before|].enabled
  {
    var r := Appended(segments, NewSegment(p)).value;
    var before := segments.UnwrapOr([]);
    assert r == before + [NewSegment(p)];
  }

  /**
   * `handleCreateSegment` as written: without a proposal nothing happens;
   * with one, the store path through an absent timeline throws, and
   * otherwise the `produce`-wrapped updater leaves the track as it was.
   */
  method CreateSegmentAsWritten(editor: Editor) returns (thrown: bool)
    modifies editor
    ensures editor.timeline == old(editor.timeline)
    ensures thrown <==>
      NewSegmentDetails(old(editor.hoveredTrack), old(editor.previewTime), SegmentsOf(old(editor.timeline)), editor.totalDuration).Some? &&
      old(editor.timeline).None?
    ensures editor.hoveredTrack == old(editor.hoveredTrack) && editor.previewTime == old(editor.previewTime)
    ensures editor.selection == old(editor.selection)
  {
    var details := NewSegmentDetails(editor.hoveredTrack, editor.previewTime, SegmentsOf(editor.timeline), editor.totalDuration);
    if details.None? {
      return false;
    }
    if editor.timeline.None? {
      return true;
    }
    var t := editor.timeline.value;
    editor.timeline := Some(t.(magnifierSegments := ProducedAppend(t.magnifierSegments, NewSegment(details.value))));
    return false;
  }

  /**
   * `handleCreateSegment` with the updater applied directly: without a
   * proposal nothing happens; through an absent timeline the store path
   * throws; otherwise the proposed segment is appended to the track.
   */
  method CreateSegment(editor: Editor) returns (thrown: bool)
    modifies editor
    ensures var details := NewSegmentDetails(old(editor.hoveredTrack), old(editor.previewTime),
                                             SegmentsOf(old(editor.timeline)), editor.totalDuration);
      (details.None? ==> !thrown && editor.timeline == old(editor.timeline)) &&
      (details.Some? && old(editor.timeline).None? ==> thrown && editor.timeline == old(editor.timeline)) &&
      (details.Some? && old(editor.timeline).Some? ==>
        (!thrown &&
         editor.timeline == Some(Timeline(Appended(old(editor.timeline).value.magnifierSegments, NewSegment(details.value))))))
    ensures editor.hoveredTrack == old(editor.hoveredTrack) && editor.previewTime == old(editor.previewTime)
    ensures editor.selection == old(editor.selection)
  {
    var details := NewSegmentDetails(editor.hoveredTrack, editor.previewTime, SegmentsOf(editor.timeline), editor.totalDuration);
    if details.None? {
      return false;
    }
    if editor.timeline.None? {
      return true;
    }
    var t := editor.timeline.value;
    editor.timeline := Some(t.(magnifierSegments := Appended(t.magnifierSegments, NewSegment(details.value))));
    return false;
  }

  /** After a successful creation the new segment covers the preview time, so no second proposal is made there. */
  lemma {:induction false} CreatedSegmentBlocksProposal(hoveredTrack: Option<string>, t: real,
                                                        segments: Option<seq<MagnifierSegment>>, totalDuration: real)
    requires 0.0 <= t <= totalDuration
    requires NewSegmentDetails(hoveredTrack, Some(t), segments.UnwrapOr([]), totalDuration).Some?
    ensures var p := NewSegmentDetails(hoveredTrack, Some(t), segments.UnwrapOr([]), totalDuration).value;
      NewSegmentDetails(hoveredTrack, Some(t), Appended(segments, NewSegment(p)).value, totalDuration).None?
  {
    var p := NewSegmentDetails(hoveredTrack, Some(t), segments.UnwrapOr([]), totalDuration).value;
    ProposalCoversPreviewTime(hoveredTrack, t, segments.UnwrapOr([]), totalDuration);
    var r := Appended(segments, NewSegment(p)).value;
    assert Covers(r[|r| - 1], t);
  }

  /** `handleSegmentDoubleClick`: clears the timeline selection and nothing else. */
  method SegmentDoubleClick(editor: Editor, index: nat)
    modifies editor
    ensures editor.selection == None
    ensures editor.timeline == old(editor.timeline)
    ensures editor.hoveredTrack == old(editor.hoveredTrack) && editor.previewTime == old(editor.previewTime)
  {
    editor.selection := None;
  }

  /** `shapeLabel`: the name shown on a segment for its shape. */
  function ShapeLabel(shape: Shape): (name: string)
  {
    match shape
    case Circle => "Circle"
    case Ellipse => "Ellipse"
    case RoundedRectangle => "Rounded Rect"
  }

  /** Different shapes show different names, so the label identifies the shape. */
  lemma {:induction false} ShapeLabelsDistinct(a: Shape, b: Shape)
    ensures ShapeLabel(a) == ShapeLabel(b) <==> a == b
  {
    if a != b {
      assert ShapeLabel(a)[0] != ShapeLabel(b)[0] || |ShapeLabel(a)| != |ShapeLabel(b)|;
    }
  }
}
