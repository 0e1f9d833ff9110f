// The part of the editor's reactive state that the magnifier track and the
// magnifier settings panel read and write: the project's magnifier
// segments, the hovered track, the preview time and the timeline selection.
module EditorProject {
  import opened Wrappers
  import opened Magnifier

  datatype XY = XY(x: real, y: real)

  /** An object whose `x` and `y` may each be missing (a spread of an absent object has neither). */
  datatype PartialXY = PartialXY(x: Option<real>, y: Option<real>)

  datatype Axis = X | Y

  /** A magnifier segment as the editor's project holds it; `size` is optional and absent means neither axis is set. */
  datatype MagnifierSegment = MagnifierSegment(
    start: real, end: real, enabled: bool,
    center: XY, size: PartialXY, shape: Shape,
    zoomAmount: real, glassStrength: real, glassRadius: real)

  /** The project's timeline; only its magnifier track, which may be absent, belongs to this model. */
  datatype Timeline = Timeline(magnifierSegments: Option<seq<MagnifierSegment>>)

  /** The timeline selection: magnifier segments by index, or a selection on another track. */
  datatype Selection = MagnifierSelection(indices: seq<int>) | OtherSelection

  /**
   * The editor context: the project (its optional timeline) and the editor
   * state (hovered track, preview time, selection); `totalDuration` is the
   * recording's length in seconds.
   */
  class Editor {
    var timeline: Option<Timeline>
    var hoveredTrack: Option<string>
    var previewTime: Option<real>
    var selection: Option<Selection>
    const totalDuration: real

    constructor (timeline: Option<Timeline>, hoveredTrack: Option<string>, previewTime: Option<real>,
                 selection: Option<Selection>, totalDuration: real)
      ensures this.timeline == timeline && this.hoveredTrack == hoveredTrack
      ensures this.previewTime == previewTime && this.selection == selection
      ensures this.totalDuration == totalDuration
    {
      this.timeline := timeline;
      this.hoveredTrack := hoveredTrack;
      this.previewTime := previewTime;
      this.selection := selection;
      this.totalDuration := totalDuration;
    }
  }

  /** `timeline?.magnifierSegments ?? []`. */
  function SegmentsOf(timeline: Option<Timeline>): (r: seq<MagnifierSegment>)
    ensures timeline.None? ==> r == []
    ensures timeline.Some? && timeline.value.magnifierSegments.Some? ==> r == timeline.value.magnifierSegments.value
  {
    match timeline
    case None => []
    case Some(t) => t.magnifierSegments.UnwrapOr([])
  }
}
