// The recording options the main window and the floating recording
// controls share: the chosen camera (looked up by device or model id), the
// recording mode, and the capture-target mode whose overlays the buttons
// open and close.
module RecordingOptions {
  import opened Wrappers

  /** A camera as the device list reports it; `modelId` is null or empty when the driver gives none. */
  datatype CameraInfo = CameraInfo(deviceId: string, modelId: Option<string>, displayName: string)

  /** The stored camera choice: by device id or by model id. */
  datatype DeviceOrModelId = DeviceId(device: string) | ModelId(model: string)

  /** Whether `c` is the camera `id` names. */
  predicate Names(id: DeviceOrModelId, c: CameraInfo)
  {
    match id
    case DeviceId(d) => d == c.deviceId
    case ModelId(m) => c.modelId == Some(m)
  }

  /** The position of the first camera the id names, if any. */
  function FirstNamed(cameras: seq<CameraInfo>, id: DeviceOrModelId): (r: Option<nat>)
    ensures r.Some? ==> r.value < |cameras| && Names(id, cameras[r.value])
    ensures r.Some? ==> forall j :: 0 <= j < r.value ==> !Names(id, cameras[j])
    ensures r.None? ==> forall j :: 0 <= j < |cameras| ==> !Names(id, cameras[j])
  {
    if cameras == [] then None
    else if Names(id, cameras[0]) then Some(0)
    else
      match FirstNamed(cameras[1..], id)
      case None => None
      case Some(k) => Some(k + 1)
  }

  /** `findCamera` (`Array.prototype.find`): the first camera the id names, if any. */
  function FindCamera(cameras: seq<CameraInfo>, id: DeviceOrModelId): (r: Option<CameraInfo>)
    ensures r.Some? ==> r.value in cameras && Names(id, r.value)
    ensures r.None? <==> forall j :: 0 <= j < |cameras| ==> !Names(id, cameras[j])
    ensures r.Some? ==> r.value == cameras[FirstNamed(cameras, id).value]
  {
    match FirstNamed(cameras, id)
    case None => None
    case Some(k) => Some(cameras[k])
  }

  /** `options.camera`: nothing without a stored choice, otherwise the camera it names. */
  function SelectedCamera(cameraId: Option<DeviceOrModelId>, cameras: seq<CameraInfo>): (r: Option<CameraInfo>)
    ensures cameraId.None? ==> r.None?
    ensures cameraId.Some? ==> r == FindCamera(cameras, cameraId.value)
  {
    match cameraId
    case None => None
    case Some(id) => FindCamera(cameras, id)
  }

  /** The camera selector's `onChange`: null for no camera, the model id when the camera has a non-empty one, else the device id. */
  function CameraChoice(c: Option<CameraInfo>): (r: Option<DeviceOrModelId>)
    ensures c.None? <==> r.None?
    ensures r.Some? && r.value.ModelId? ==> c.value.modelId == Some(r.value.model) && r.value.model != ""
    ensures r.Some? && r.value.DeviceId? ==>
      r.value.device == c.value.deviceId && (c.value.modelId.None? || c.value.modelId == Some(""))
  {
    match c
    case None => None
    case Some(cam) =>
      if cam.modelId.Some? && cam.modelId.value != "" then Some(ModelId(cam.modelId.value))
      else Some(DeviceId(cam.deviceId))
  }

  /**
   * A camera chosen from the list is found again once its dispatched choice
   * is stored: the choice names it, so the lookup yields a camera carrying
   * the same id.
   */
  lemma {:induction false} ChoiceIsFound(cameras: seq<CameraInfo>, c: CameraInfo)
    requires c in cameras
    ensures var id := CameraChoice(Some(c)).value;
      SelectedCamera(Some(id), cameras).Some? && Names(id, SelectedCamera(Some(id), cameras).value) && Names(id, c)
  {
    var id := CameraChoice(Some(c)).value;
    assert Names(id, c);
    var k :| 0 <= k < |cameras| && cameras[k] == c;
    assert Names(id, cameras[k]);
  }

  /** When device ids are unique, a camera chosen by device id is found again as itself. */
  lemma {:induction false} DeviceChoiceFindsSame(cameras: seq<CameraInfo>, c: CameraInfo)
    requires c in cameras && CameraChoice(Some(c)).value.DeviceId?
    requires forall i, j :: 0 <= i < |cameras| && 0 <= j < |cameras| && cameras[i].deviceId == cameras[j].deviceId ==> i == j
    ensures SelectedCamera(CameraChoice(Some(c)), cameras) == Some(c)
  {
    var id := CameraChoice(Some(c)).value;
    ChoiceIsFound(cameras, c);
    var found := FindCamera(cameras, id).value;
    var i :| 0 <= i < |cameras| && cameras[i] == found;
    var j :| 0 <= j < |cameras| && cameras[j] == c;
    assert cameras[i].deviceId == cameras[j].deviceId;
  }

  datatype RecordingMode = Instant | Studio | Screenshot

  datatype TargetMode = DisplayTarget | WindowTarget | AreaTarget

  /** The overlay command a toggle sends. */
  datatype OverlayCall = OpenOverlays | CloseOverlays

  /** The target mode after pressing the button for `mode`: pressing the active one clears it. */
  function NextTargetMode(current: Option<TargetMode>, mode: TargetMode): (r: Option<TargetMode>)
    ensures current == Some(mode) <==> r.None?
    ensures r.Some? ==> r.value == mode
  {
    if current == Some(mode) then None else Some(mode)
  }

  /** Pressing a button twice restores the state when nothing or that mode was active; from another mode it ends cleared. */
  lemma {:induction false} TogglePairs(current: Option<TargetMode>, mode: TargetMode)
    ensures NextTargetMode(NextTargetMode(current, mode), mode) == (if current == Some(mode) then Some(mode) else None)
    ensures current.None? || current == Some(mode) ==> NextTargetMode(NextTargetMode(current, mode), mode) == current
  {
  }

  /** The shared options store, and the overlay commands sent so far. */
  class Options {
    var mode: RecordingMode
    var targetMode: Option<TargetMode>
    var cameraId: Option<DeviceOrModelId>
    var overlayCalls: seq<OverlayCall>

    constructor (mode: RecordingMode, targetMode: Option<TargetMode>, cameraId: Option<DeviceOrModelId>)
      ensures this.mode == mode && this.targetMode == targetMode && this.cameraId == cameraId
      ensures overlayCalls == []
    {
      this.mode := mode;
      this.targetMode := targetMode;
      this.cameraId := cameraId;
      overlayCalls := [];
    }

    /**
     * `toggleTargetMode`: nothing while recording; otherwise the target mode
     * becomes `NextTargetMode`, and the overlays are opened for a mode or
     * closed when it was cleared.
     */
    method ToggleTargetMode(m: TargetMode, isRecording: bool)
      modifies this
      ensures isRecording ==> targetMode == old(targetMode) && overlayCalls == old(overlayCalls)
      ensures !isRecording ==> targetMode == NextTargetMode(old(targetMode), m)
      ensures !isRecording ==> overlayCalls == old(overlayCalls) + [if targetMode.Some? then OpenOverlays else CloseOverlays]
      ensures mode == old(mode) && cameraId == old(cameraId)
    {
      if isRecording {
        return;
      }
      var next := NextTargetMode(targetMode, m);
      targetMode := next;
      if next.Some? {
        overlayCalls := overlayCalls + [OpenOverlays];
      } else {
        overlayCalls := overlayCalls + [CloseOverlays];
      }
    }

    /** A mode button: the recording mode becomes exactly the button's own, nothing else changes. */
    method SelectMode(m: RecordingMode)
      modifies this
      ensures mode == m
      ensures targetMode == old(targetMode) && cameraId == old(cameraId) && overlayCalls == old(overlayCalls)
    {
      mode := m;
    }
  }
}
