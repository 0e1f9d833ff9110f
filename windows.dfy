// The desktop app's window catalogue: the label codec that names every
// window, the per-window constants (title, dock behaviour, minimum size),
// the placement helpers for a monitor, the corner-based intersection test
// and the editor window-id registry.
module Windows {
  import opened Wrappers
  import opened Text
  import opened Ints

  /** A display identifier; its textual form is its decimal number. */
  type DisplayId = nat

  datatype CapWindowDef =
    | Setup
    | Main
    | Settings
    | Editor(id: u32)
    | RecordingsOverlay
    | WindowCaptureOccluder(screenId: DisplayId)
    | TargetSelectOverlay(displayId: DisplayId)
    | CaptureArea
    | Camera
    | RecordingControls
    | Upgrade
    | ModeSelect
    | Debug
    | ScreenshotEditor(id: u32)

  /** The three ways Rust's integer parser can reject a string for an unsigned type. */
  datatype IntErrorKind = Empty | InvalidDigit | PosOverflow

  datatype LabelError =
    | BadId(kind: IntErrorKind)
    | BadDisplayId
    | UnknownLabel(text: string)

  /** The text `to_string()` gives each error. */
  function ErrorMessage(e: LabelError): string
  {
    match e
    case BadId(Empty) => "cannot parse integer from empty string"
    case BadId(InvalidDigit) => "invalid digit found in string"
    case BadId(PosOverflow) => "number too large to fit in target type"
    case BadDisplayId => "invalid display id"
    case UnknownLabel(s) => "unknown window label: " + s
  }

  /** Rust's unsigned decimal parse without the width check: an optional `+`, then at least one digit. */
  function ParseUnsigned(s: string): (r: Result<nat, IntErrorKind>)
    ensures r.Ok? <==> s != [] && s != "+" && AllDigits(if s[0] == '+' then s[1..] else s)
    ensures r.Ok? && AllDigits(s) ==> r.value == DigitsValue(s)
  {
    if s == [] then Err(Empty)
    else if s == "+" || s == "-" then Err(InvalidDigit)
    else
      var digits := if s[0] == '+' then s[1..] else s;
      if AllDigits(digits) then Ok(DigitsValue(digits)) else Err(InvalidDigit)
  }

  /**
   * `str::parse::<u32>`: an optional `+`, then Rust's checked digit loop.
   * It accepts exactly what `ParseUnsigned` accepts below 2^32; which error
   * a rejected string gets depends on what the loop meets first.
   */
  function ParseU32(s: string): (r: Result<u32, IntErrorKind>)
    ensures r.Ok? <==> ParseUnsigned(s).Ok? && ParseUnsigned(s).value < U32_LIMIT
    ensures r.Ok? ==> r.value as int == ParseUnsigned(s).value
    ensures ParseUnsigned(s).Ok? && ParseUnsigned(s).value >= U32_LIMIT ==> r == Err(PosOverflow)
    ensures r == Err(Empty) <==> s == []
  {
    if s == [] then Err(Empty)
    else if s == "+" || s == "-" then Err(InvalidDigit)
    else
      var digits := if s[0] == '+' then s[1..] else s;
      assert digits[..0] == [];
      match CheckedDigits(digits, 0, 0)
      case Err(k) => Err(k)
      case Ok(n) => Ok(n as u32)
  }

  /**
   * The checked loop of Rust's integer parser for `u32`, from position `i`
   * with `acc` the value of the digits before it. Each character is tested
   * for a digit before the running value is tested for overflow, so the
   * first of a non-digit and a prefix worth 2^32 or more decides the error.
   */
  function CheckedDigits(s: string, i: nat, acc: nat): (r: Result<nat, IntErrorKind>)
    requires i <= |s| && AllDigits(s[..i]) && acc == DigitsValue(s[..i]) && acc < U32_LIMIT
    ensures r.Ok? ==> AllDigits(s) && r.value == DigitsValue(s) && r.value < U32_LIMIT
    ensures AllDigits(s) ==> r == (if DigitsValue(s) < U32_LIMIT then Ok(DigitsValue(s)) else Err(PosOverflow))
    ensures r.Err? ==> r.error != Empty
    decreases |s| - i
  {
    if i == |s| then
      assert s[..i] == s;
      Ok(acc)
    else if !IsDigit(s[i]) then Err(InvalidDigit)
    else
      assert s[..i + 1][..i] == s[..i];
      var next := acc * 10 + DigitValue(s[i]);
      assert AllDigits(s[..i + 1]) && next == DigitsValue(s[..i + 1]);
      if next >= U32_LIMIT then
        (if AllDigits(s) then DigitsValuePrefix(s, i + 1, |s|); assert s[..|s|] == s; Err(PosOverflow) else Err(PosOverflow))
      else CheckedDigits(s, i + 1, next)
  }

  /** A longer run of digits is worth at least as much as its prefix. */
  lemma {:induction false} DigitsValuePrefix(s: string, j: nat, k: nat)
    requires j <= k <= |s| && AllDigits(s[..k])
    ensures AllDigits(s[..j]) && DigitsValue(s[..j]) <= DigitsValue(s[..k])
    decreases k - j
  {
    if j < k {
      DigitsValuePrefix(s, j, k - 1);
      assert s[..k][..k - 1] == s[..k - 1];
    }
  }

  /** Digits already worth 2^32 or more are an overflow, whatever text follows them. */
  lemma {:induction false} OverflowBeforeLaterText(s: string, k: nat)
    requires k <= |s| && AllDigits(s[..k]) && DigitsValue(s[..k]) >= U32_LIMIT
    ensures ParseU32(s) == Err(PosOverflow)
  {
    assert s[..k][0] == s[0];
    assert s[..0] == [];
    CheckedOverflows(s, 0, 0, k);
  }

  lemma {:induction false} CheckedOverflows(s: string, i: nat, acc: nat, k: nat)
    requires i <= k <= |s| && AllDigits(s[..k]) && DigitsValue(s[..k]) >= U32_LIMIT
    requires AllDigits(s[..i]) && acc == DigitsValue(s[..i]) && acc < U32_LIMIT
    ensures CheckedDigits(s, i, acc) == Err(PosOverflow)
    decreases k - i
  {
    if i == k {
      assert false;
    }
    assert s[..k][i] == s[i];
    assert s[..i + 1][..i] == s[..i];
    var next := acc * 10 + DigitValue(s[i]);
    if next < U32_LIMIT {
      DigitsValuePrefixFacts(s, i, k);
      CheckedOverflows(s, i + 1, next, k);
    }
  }

  lemma {:induction false} DigitsValuePrefixFacts(s: string, i: nat, k: nat)
    requires i < k <= |s| && AllDigits(s[..k])
    ensures AllDigits(s[..i + 1]) && DigitsValue(s[..i + 1]) == DigitsValue(s[..i]) * 10 + DigitValue(s[i])
  {
    assert s[..k][i] == s[i];
    assert s[..i + 1][..i] == s[..i];
  }

  /** A non-digit met while the digits before it still fit is an invalid digit, whatever text follows it. */
  lemma {:induction false} InvalidDigitBeforeOverflow(s: string, j: nat)
    requires j < |s| && s[0] != '+' && !IsDigit(s[j])
    requires AllDigits(s[..j]) && DigitsValue(s[..j]) < U32_LIMIT
    ensures ParseU32(s) == Err(InvalidDigit)
  {
    assert s[..0] == [];
    CheckedInvalid(s, 0, 0, j);
  }

  lemma {:induction false} CheckedInvalid(s: string, i: nat, acc: nat, j: nat)
    requires i <= j < |s| && !IsDigit(s[j]) && AllDigits(s[..j]) && DigitsValue(s[..j]) < U32_LIMIT
    requires AllDigits(s[..i]) && acc == DigitsValue(s[..i]) && acc < U32_LIMIT
    ensures CheckedDigits(s, i, acc) == Err(InvalidDigit)
    decreases j - i
  {
    if i < j {
      DigitsValuePrefixFacts(s, i, j);
      DigitsValuePrefix(s, i + 1, j);
      CheckedInvalid(s, i + 1, acc * 10 + DigitValue(s[i]), j);
    }
  }

  /** `str::parse::<DisplayId>`. */
  function ParseDisplayId(s: string): (r: Result<DisplayId, LabelError>)
  {
    match ParseUnsigned(s)
    case Err(_) => Err(BadDisplayId)
    case Ok(n) => Ok(n)
  }

  /** The `Display` form of a window definition: its window label. */
  function Label(d: CapWindowDef): string
  {
    match d
    case Setup => "setup"
    case Main => "main"
    case Settings => "settings"
    case Camera => "camera"
    case WindowCaptureOccluder(id) => "window-capture-occluder-" + Decimal(id)
    case CaptureArea => "capture-area"
    case TargetSelectOverlay(id) => "target-select-overlay-" + Decimal(id)
    case RecordingControls => "in-progress-recording"
    case RecordingsOverlay => "recordings-overlay"
    case Upgrade => "upgrade"
    case ModeSelect => "mode-select"
    case Editor(id) => "editor-" + Decimal(id as nat)
    case Debug => "debug"
    case ScreenshotEditor(id) => "screenshot-editor-" + Decimal(id as nat)
  }

  /** The windows with a fixed label, by that label. */
  function FixedLabel(s: string): (r: Option<CapWindowDef>)
  {
    if s == "setup" then Some(Setup)
    else if s == "main" then Some(Main)
    else if s == "settings" then Some(Settings)
    else if s == "camera" then Some(Camera)
    else if s == "capture-area" then Some(CaptureArea)
    else if s == "in-progress-recording" then Some(RecordingControls)
    else if s == "recordings-overlay" then Some(RecordingsOverlay)
    else if s == "upgrade" then Some(Upgrade)
    else if s == "mode-select" then Some(ModeSelect)
    else if s == "debug" then Some(Debug)
    else None
  }

  /** The four prefixed families in source order; the prefix is removed with a replace-all before the number is parsed. */
  function PrefixedLabel(s: string): (r: Result<CapWindowDef, LabelError>)
    ensures r.Err? && r.error.UnknownLabel? <==> !HasWindowPrefix(s)
    ensures r.Err? && r.error.UnknownLabel? ==> r.error.text == s
    ensures "editor-" <= s && r.Ok? ==> r.value.Editor?
    ensures "window-capture-occluder-" <= s && r.Ok? ==> r.value.WindowCaptureOccluder?
  {
    assert "editor-" <= s ==> s[0] == 'e';
    if "editor-" <= s then
      match ParseU32(RemoveAll(s, "editor-"))
      case Ok(id) => Ok(Editor(id))
      case Err(k) => Err(BadId(k))
    else if "screenshot-editor-" <= s then
      match ParseU32(RemoveAll(s, "screenshot-editor-"))
      case Ok(id) => Ok(ScreenshotEditor(id))
      case Err(k) => Err(BadId(k))
    else if "window-capture-occluder-" <= s then
      match ParseDisplayId(RemoveAll(s, "window-capture-occluder-"))
      case Ok(id) => Ok(WindowCaptureOccluder(id))
      case Err(e) => Err(e)
    else if "target-select-overlay-" <= s then
      match ParseDisplayId(RemoveAll(s, "target-select-overlay-"))
      case Ok(id) => Ok(TargetSelectOverlay(id))
      case Err(e) => Err(e)
    else Err(UnknownLabel(s))
  }

  /** Whether `s` starts with one of the four prefixes that carry a number. */
  predicate HasWindowPrefix(s: string)
  {
    "editor-" <= s || "screenshot-editor-" <= s || "window-capture-occluder-" <= s || "target-select-overlay-" <= s
  }

  /**
   * `FromStr`: the fixed labels first, then the prefixed families. A label is
   * unknown exactly when it is no fixed label and has none of the prefixes,
   * and the error then carries the label itself.
   */
  function FromStr(s: string): (r: Result<CapWindowDef, LabelError>)
    ensures r == Err(UnknownLabel(s)) <==> FixedLabel(s).None? && !HasWindowPrefix(s)
    ensures r.Err? ==> FixedLabel(s).None?
    ensures FixedLabel(s).Some? ==> r.Ok?
  {
    match FixedLabel(s)
    case Some(d) => Ok(d)
    case None => PrefixedLabel(s)
  }

  /** No fixed label starts with 'e', 'w', 't' or "sc", so such a string is parsed as a prefixed one. */
  lemma {:induction false} NotFixed(s: string)
    requires |s| >= 2 && (s[0] == 'e' || s[0] == 'w' || s[0] == 't' || (s[0] == 's' && s[1] == 'c'))
    ensures FixedLabel(s).None? && FromStr(s) == PrefixedLabel(s)
  {
  }

  lemma {:induction false} DecimalParses(n: nat)
    ensures ParseUnsigned(Decimal(n)) == Ok(n)
  {
    DecimalDigits(n);
  }

  /** Removing a prefix from `prefix + Decimal(n)` leaves exactly the number. */
  lemma {:induction false} StripPrefix(prefix: string, n: nat)
    requires prefix != [] && !IsDigit(prefix[0])
    ensures RemoveAll(prefix + Decimal(n), prefix) == Decimal(n)
  {
    var s := prefix + Decimal(n);
    assert prefix <= s;
    assert s[|prefix|..] == Decimal(n);
    DecimalDigits(n);
    assert prefix[0] !in Decimal(n);
    RemoveAllAbsent(Decimal(n), prefix);
  }

  lemma {:induction false} EditorRoundTrip(id: u32)
    ensures FromStr(Label(Editor(id))) == Ok(Editor(id))
  {
    var p := "editor-";
    var s := p + Decimal(id as nat);
    assert Label(Editor(id)) == s;
    assert p <= s && s[0] == p[0] && s[1] == p[1];
    NotFixed(s);
    StripPrefix(p, id as nat);
    DecimalParses(id as nat);
  }

  lemma {:induction false} ScreenshotEditorRoundTrip(id: u32)
    ensures FromStr(Label(ScreenshotEditor(id))) == Ok(ScreenshotEditor(id))
  {
    var p := "screenshot-editor-";
    var s := p + Decimal(id as nat);
    assert Label(ScreenshotEditor(id)) == s;
    assert p <= s && s[0] == p[0] && s[1] == p[1];
    NotFixed(s);
    assert !("editor-" <= s);
    StripPrefix(p, id as nat);
    DecimalParses(id as nat);
  }

  lemma {:induction false} OccluderRoundTrip(id: DisplayId)
    ensures FromStr(Label(WindowCaptureOccluder(id))) == Ok(WindowCaptureOccluder(id))
  {
    var p := "window-capture-occluder-";
    var s := p + Decimal(id);
    assert Label(WindowCaptureOccluder(id)) == s;
    assert p <= s && s[0] == p[0] && s[1] == p[1];
    NotFixed(s);
    assert !("editor-" <= s) && !("screenshot-editor-" <= s);
    StripPrefix(p, id);
    DecimalParses(id);
  }

  lemma {:induction false} TargetSelectRoundTrip(id: DisplayId)
    ensures FromStr(Label(TargetSelectOverlay(id))) == Ok(TargetSelectOverlay(id))
  {
    var p := "target-select-overlay-";
    var s := p + Decimal(id);
    assert Label(TargetSelectOverlay(id)) == s;
    assert p <= s && s[0] == p[0] && s[1] == p[1];
    NotFixed(s);
    assert !("editor-" <= s) && !("screenshot-editor-" <= s) && !("window-capture-occluder-" <= s);
    StripPrefix(p, id);
    DecimalParses(id);
  }

  /** The fixed labels of the first five windows are recognised as theirs. */
  lemma {:induction false} FixedLabelsA(d: CapWindowDef)
    requires d.Setup? || d.Main? || d.Settings? || d.Camera? || d.CaptureArea?
    ensures FixedLabel(Label(d)) == Some(d)
  {
  }

  /** The fixed labels of the recording windows and the upgrade window are recognised as theirs. */
  lemma {:induction false} FixedLabelsB(d: CapWindowDef)
    requires d.RecordingControls? || d.RecordingsOverlay? || d.Upgrade?
    ensures FixedLabel(Label(d)) == Some(d)
  {
  }

  /** The fixed labels of the mode-select and debug windows are recognised as theirs. */
  lemma {:induction false} FixedLabelsC(d: CapWindowDef)
    requires d.ModeSelect? || d.Debug?
    ensures FixedLabel(Label(d)) == Some(d)
  {
  }

  /** Every label parses back to the window definition it names. */
  lemma {:induction false} LabelRoundTrip(d: CapWindowDef)
    ensures FromStr(Label(d)) == Ok(d)
  {
    match d
    case Editor(id) => EditorRoundTrip(id);
    case ScreenshotEditor(id) => ScreenshotEditorRoundTrip(id);
    case WindowCaptureOccluder(id) => OccluderRoundTrip(id);
    case TargetSelectOverlay(id) => TargetSelectRoundTrip(id);
    case Setup => FixedLabelsA(d);
    case Main => FixedLabelsA(d);
    case Settings => FixedLabelsA(d);
    case Camera => FixedLabelsA(d);
    case CaptureArea => FixedLabelsA(d);
    case RecordingControls => FixedLabelsB(d);
    case RecordingsOverlay => FixedLabelsB(d);
    case Upgrade => FixedLabelsB(d);
    case ModeSelect => FixedLabelsC(d);
    case Debug => FixedLabelsC(d);
  }

  /** Labels are distinct: two window definitions with the same label are the same window. */
  lemma {:induction false} LabelInjective(d1: CapWindowDef, d2: CapWindowDef)
    requires Label(d1) == Label(d2)
    ensures d1 == d2
  {
    LabelRoundTrip(d1);
    LabelRoundTrip(d2);
  }

  /** A repeated prefix is removed as a whole: `editor-editor-7` names editor 7. */
  lemma {:induction false} RepeatedPrefixAccepted()
    ensures FromStr("editor-editor-7") == Ok(Editor(7))
  {
    var s := "editor-editor-7";
    assert "editor-" <= s;
    assert s[7..] == "editor-7";
    assert "editor-" <= s[7..];
    assert s[7..][7..] == "7";
    assert RemoveAll("7", "editor-") == "7";
    assert RemoveAll(s, "editor-") == "7";
  }

  /** An editor number beyond `u32` is rejected with the overflow error. */
  lemma {:induction false} EditorIdOverflowRejected(n: nat)
    requires n >= U32_LIMIT
    ensures FromStr("editor-" + Decimal(n)) == Err(BadId(PosOverflow))
    ensures ErrorMessage(FromStr("editor-" + Decimal(n)).error) == "number too large to fit in target type"
  {
    var p := "editor-";
    var s := p + Decimal(n);
    assert p <= s && s[0] == p[0] && s[1] == p[1];
    NotFixed(s);
    StripPrefix(p, n);
    DecimalParses(n);
    assert ParseU32(RemoveAll(s, p)) == Err(PosOverflow);
    assert PrefixedLabel(s) == Err(BadId(PosOverflow));
  }

  /** Ten nines are worth more than any `u32`. */
  lemma {:induction false} TenNines(t: string)
    requires |t| >= 10 && forall i :: 0 <= i < 10 ==> t[i] == '9'
    ensures AllDigits(t[..10]) && DigitsValue(t[..10]) >= U32_LIMIT
  {
    assert t[..1][..0] == [];
    var k, v := 1, 9;
    while k < 10
      invariant 1 <= k <= 10 && AllDigits(t[..k]) && DigitsValue(t[..k]) == v
      invariant v >= 9 && (k >= 2 ==> v >= 99) && (k >= 3 ==> v >= 999) && (k >= 4 ==> v >= 9999)
      invariant (k >= 5 ==> v >= 99999) && (k >= 6 ==> v >= 999999) && (k >= 7 ==> v >= 9999999)
      invariant (k >= 8 ==> v >= 99999999) && (k >= 9 ==> v >= 999999999) && (k >= 10 ==> v >= 9999999999)
    {
      assert t[..k + 1][..k] == t[..k];
      k, v := k + 1, v * 10 + 9;
    }
  }

  /** "editor-" followed by text without an 'e' names the editor whose number that text parses to. */
  lemma {:induction false} EditorLabelParse(u: string)
    requires 'e' !in u
    ensures FromStr("editor-" + u) == match ParseU32(u) case Ok(id) => Ok(Editor(id)) case Err(k) => Err(BadId(k))
  {
    var p := "editor-";
    var s := p + u;
    assert p <= s && s[0] == 'e' && s[1] == 'd' && s[7..] == u;
    RemoveAllAbsent(u, p);
    NotFixed(s);
  }

  /** Text that starts with ten nines overflows, whatever follows. */
  lemma {:induction false} NinesOverflow(t: string)
    requires |t| >= 10 && forall i :: 0 <= i < 10 ==> t[i] == '9'
    ensures ParseU32(t) == Err(PosOverflow)
  {
    TenNines(t);
    OverflowBeforeLaterText(t, 10);
  }

  /** In "editor-99999999999x" the tenth digit already overflows, so the error is the overflow, not the later 'x'. */
  lemma {:induction false} OverflowReportedFirst()
    ensures FromStr("editor-" + "99999999999x") == Err(BadId(PosOverflow))
  {
    var t := "99999999999x";
    assert 'e' !in t;
    EditorLabelParse(t);
    NinesOverflow(t);
  }

  lemma {:induction false} NineThenLetter(u: string)
    requires |u| >= 2 && u[0] == '9' && u[1] == 'x'
    ensures ParseU32(u) == Err(InvalidDigit)
  {
    assert u[..1][..0] == [] && u[..1][0] == '9';
    InvalidDigitBeforeOverflow(u, 1);
  }

  /** In "editor-9x999999999999" the 'x' comes before any overflow, so the error is the invalid digit. */
  lemma {:induction false} InvalidDigitReportedFirst()
    ensures FromStr("editor-" + "9x999999999999") == Err(BadId(InvalidDigit))
  {
    var u := "9x999999999999";
    assert 'e' !in u;
    EditorLabelParse(u);
    NineThenLetter(u);
  }

  /** A prefix with nothing after it is rejected as an empty number. */
  lemma {:induction false} BarePrefixRejected()
    ensures FromStr("editor-") == Err(BadId(Empty))
    ensures FromStr("target-select-overlay-") == Err(BadDisplayId)
  {
    var t := "target-select-overlay-";
    assert "editor-"[7..] == [];
    assert t[22..] == [] && t[0] == 't';
    assert RemoveAll(t, t) == [];
  }

  /** Anything that is neither a fixed label nor prefixed is unknown, and the error quotes it. */
  lemma {:induction false} UnknownLabelRejected(s: string)
    requires |s| > 0 && s[0] !in "smcdiruewt"
    ensures FromStr(s) == Err(UnknownLabel(s))
    ensures ErrorMessage(FromStr(s).error) == "unknown window label: " + s
  {
    assert s[0] != "editor-"[0];
    assert s[0] != "screenshot-editor-"[0];
    assert s[0] != "window-capture-occluder-"[0];
    assert s[0] != "target-select-overlay-"[0];
  }

  /** The recording-controls window keeps its legacy label in both directions. */
  lemma {:induction false} LegacyRecordingLabel()
    ensures Label(RecordingControls) == "in-progress-recording"
    ensures FromStr("in-progress-recording") == Ok(RecordingControls)
  {
  }

  /** The window title. */
  function Title(d: CapWindowDef): (t: string)
    ensures |t| >= 3 && t[..3] == "Cap"
  {
    match d
    case Setup => "Cap Setup"
    case Settings => "Cap Settings"
    case WindowCaptureOccluder(_) => "Cap Window Capture Occluder"
    case CaptureArea => "Cap Capture Area"
    case RecordingControls => "Cap Recording Controls"
    case Editor(_) => "Cap Editor"
    case ScreenshotEditor(_) => "Cap Screenshot Editor"
    case ModeSelect => "Cap Mode Selection"
    case Camera => "Cap Camera"
    case RecordingsOverlay => "Cap Recordings Overlay"
    case TargetSelectOverlay(_) => "Cap Target Select"
    case _ => "Cap"
  }

  /** Only the main window, the upgrade window and the debug window carry the bare title. */
  lemma {:induction false} PlainTitle(d: CapWindowDef)
    ensures Title(d) == "Cap" <==> d.Main? || d.Upgrade? || d.Debug?
  {
  }

  /** Whether showing the window brings the app into the dock. */
  predicate ActivatesDock(d: CapWindowDef)
  {
    d.Setup? || d.Main? || d.Editor? || d.ScreenshotEditor? || d.Settings? || d.Upgrade? || d.ModeSelect?
  }

  /** Every window that activates the dock has a minimum size, and conversely. */
  lemma {:induction false} DockWindowsAreSized(d: CapWindowDef)
    ensures ActivatesDock(d) ==> MinSize(d).Some?
    ensures MinSize(d).Some? ==> ActivatesDock(d) || d.Camera?
  {
  }

  /** The minimum size of the window, where it has one. */
  function MinSize(d: CapWindowDef): (r: Option<(real, real)>)
    ensures r.Some? ==> r.value.0 >= 200.0 && r.value.1 >= 200.0
  {
    match d
    case Setup => Some((600.0, 600.0))
    case Main => Some((330.0, 395.0))
    case Editor(_) => Some((1275.0, 800.0))
    case ScreenshotEditor(_) => Some((800.0, 600.0))
    case Settings => Some((700.0, 540.0))
    case Camera => Some((200.0, 200.0))
    case Upgrade => Some((950.0, 850.0))
    case ModeSelect => Some((580.0, 340.0))
    case _ => None
  }

  /** The six windows without a minimum size are the overlays, the recording controls and the debug window. */
  lemma {:induction false} UnsizedWindows(d: CapWindowDef)
    ensures MinSize(d).None? <==>
      (d.RecordingsOverlay? || d.WindowCaptureOccluder? || d.TargetSelectOverlay? ||
       d.CaptureArea? || d.RecordingControls? || d.Debug?)
  {
  }

  // ---------------------------------------------------------------- placement

  const FALLBACK_WIDTH: real := 1920.0
  const FALLBACK_HEIGHT: real := 1080.0

  /** The logical bounds of a monitor. */
  datatype MonitorInfo = MonitorInfo(x: real, y: real, width: real, height: real)

  /** The monitor used when a display reports no bounds. */
  function Fallback(): (m: MonitorInfo)
    ensures m.x == 0.0 && m.y == 0.0 && m.width == FALLBACK_WIDTH && m.height == FALLBACK_HEIGHT
  {
    MonitorInfo(0.0, 0.0, 1920.0, 1080.0)
  }

  /** The monitor's bounds, or the fallback when the display reports none. */
  function MonitorOf(bounds: Option<MonitorInfo>): MonitorInfo
  {
    bounds.UnwrapOr(Fallback())
  }

  function CenterPosition(m: MonitorInfo, windowWidth: real, windowHeight: real): (real, real)
  {
    (m.x + (m.width - windowWidth) / 2.0, m.y + (m.height - windowHeight) / 2.0)
  }

  function BottomCenterPosition(m: MonitorInfo, windowWidth: real, windowHeight: real, offsetY: real): (real, real)
  {
    (m.x + (m.width - windowWidth) / 2.0, m.y + m.height - windowHeight - offsetY)
  }

  /** A centred window leaves equal margins on both sides of each axis. */
  lemma {:induction false} CenteredMargins(m: MonitorInfo, w: real, h: real)
    ensures var p := CenterPosition(m, w, h);
      p.0 - m.x == (m.x + m.width) - (p.0 + w) &&
      p.1 - m.y == (m.y + m.height) - (p.1 + h)
  {
  }

  /** A bottom-centred window is horizontally centred and ends `offsetY` above the monitor's bottom edge. */
  lemma {:induction false} BottomCenteredMargins(m: MonitorInfo, w: real, h: real, offsetY: real)
    ensures var p := BottomCenterPosition(m, w, h, offsetY);
      p.0 - m.x == (m.x + m.width) - (p.0 + w) &&
      p.1 + h + offsetY == m.y + m.height &&
      p.0 == CenterPosition(m, w, h).0
  {
  }

  predicate ContainsPoint(m: MonitorInfo, px: real, py: real)
  {
    px >= m.x && px < m.x + m.width && py >= m.y && py < m.y + m.height
  }

  /**
   * `from_window`: the first display whose bounds contain the window's
   * top-left corner (the origin when the position is unknown); displays
   * without bounds are skipped; `cursorMonitor` stands for the monitor under
   * the cursor, used when no display matches.
   */
  method FromWindow(windowPos: Option<(real, real)>, displays: seq<Option<MonitorInfo>>, cursorMonitor: MonitorInfo)
    returns (m: MonitorInfo)
    ensures var p := windowPos.UnwrapOr((0.0, 0.0));
      m == FirstContaining(displays, p.0, p.1).UnwrapOr(cursorMonitor)
  {
    var p := windowPos.UnwrapOr((0.0, 0.0));
    var i := 0;
    while i < |displays|
      invariant 0 <= i <= |displays|
      invariant FirstContaining(displays, p.0, p.1) == FirstContaining(displays[i..], p.0, p.1)
    {
      assert displays[i..] == [displays[i]] + displays[i + 1..];
      if displays[i].Some? && ContainsPoint(displays[i].value, p.0, p.1) {
        return displays[i].value;
      }
      i := i + 1;
    }
    return cursorMonitor;
  }

  /** The bounds of the first display containing the point. */
  function FirstContaining(displays: seq<Option<MonitorInfo>>, px: real, py: real): (r: Option<MonitorInfo>)
    ensures r.Some? <==> exists i :: 0 <= i < |displays| && displays[i].Some? && ContainsPoint(displays[i].value, px, py)
    ensures r.Some? ==> ContainsPoint(r.value, px, py) && Some(r.value) in displays
  {
    if displays == [] then None
    else if displays[0].Some? && ContainsPoint(displays[0].value, px, py) then displays[0]
    else
      var rest := FirstContaining(displays[1..], px, py);
      assert forall i :: 1 <= i < |displays| ==> displays[i] == displays[1..][i - 1];
      rest
  }

  // ------------------------------------------------------------- intersection

  /** Integer bounds of a display, in the window's coordinate space. */
  datatype Bounds = Bounds(left: int, top: int, width: int, height: int)

  function Corners(x: int, y: int, w: nat, h: nat): seq<(int, int)>
  {
    [(x, y), (x + w, y), (x, y + h), (x + w, y + h)]
  }

  predicate Inside(b: Bounds, p: (int, int))
  {
    p.0 >= b.left && p.0 < b.left + b.width && p.1 >= b.top && p.1 < b.top + b.height
  }

  /** `Iterator::any` over a list of points. */
  function AnyInside(b: Bounds, ps: seq<(int, int)>): (r: bool)
    ensures r <==> exists i :: 0 <= i < |ps| && Inside(b, ps[i])
  {
    if ps == [] then false
    else if Inside(b, ps[0]) then true
    else
      var rest := AnyInside(b, ps[1..]);
      assert forall i :: 1 <= i < |ps| ==> ps[i] == ps[1..][i - 1];
      rest
  }

  /** `MonitorExt::intersects`: whether any corner of the window lies on the display; no bounds means no. */
  function Intersects(bounds: Option<Bounds>, x: int, y: int, w: nat, h: nat): bool
  {
    match bounds
    case None => false
    case Some(b) => AnyInside(b, Corners(x, y, w, h))
  }

  /** The test holds exactly when one of the four corners is on the display. */
  lemma {:induction false} IntersectsByCorner(b: Bounds, x: int, y: int, w: nat, h: nat)
    ensures Intersects(Some(b), x, y, w, h) <==>
      (Inside(b, (x, y)) || Inside(b, (x + w, y)) || Inside(b, (x, y + h)) || Inside(b, (x + w, y + h)))
  {
    var cs := Corners(x, y, w, h);
    assert cs[0] == (x, y) && cs[1] == (x + w, y) && cs[2] == (x, y + h) && cs[3] == (x + w, y + h);
  }

  /** A window whose top-left corner is on the display intersects it. */
  lemma {:induction false} OriginOnDisplayIntersects(b: Bounds, x: int, y: int, w: nat, h: nat)
    requires Inside(b, (x, y))
    ensures Intersects(Some(b), x, y, w, h)
  {
    IntersectsByCorner(b, x, y, w, h);
  }

  /** A window that encloses the display entirely has no corner on it and does not count as intersecting. */
  lemma {:induction false} EnclosingWindowMissed()
    ensures !Intersects(Some(Bounds(0, 0, 100, 100)), -10, -10, 200, 200)
  {
    IntersectsByCorner(Bounds(0, 0, 100, 100), -10, -10, 200, 200);
  }

  // -------------------------------------------------------- editor window ids

  /** The first id registered for `path`. */
  function Lookup(ids: seq<(string, u32)>, path: string): (r: Option<u32>)
    ensures r.Some? <==> exists i :: 0 <= i < |ids| && ids[i].0 == path
    ensures r.Some? ==> (path, r.value) in ids
  {
    if ids == [] then None
    else if ids[0].0 == path then Some(ids[0].1)
    else
      var rest := Lookup(ids[1..], path);
      assert forall i :: 1 <= i < |ids| ==> ids[i] == ids[1..][i - 1];
      rest
  }

  /**
   * The registry of editor (and screenshot-editor) windows: one id per
   * project path, handed out by an atomic counter that wraps at 2^32.
   */
  class WindowIds {
    var ids: seq<(string, u32)>
    var counter: u32

    constructor ()
      ensures ids == [] && counter == 0
    {
      ids := [];
      counter := 0;
    }

    /** The id of the editor window for `path`, registering the path with the next counter value when it is new. */
    method IdFor(path: string) returns (id: u32)
      modifies this
      ensures old(Lookup(ids, path)).Some? ==>
        id == old(Lookup(ids, path)).value && ids == old(ids) && counter == old(counter)
      ensures old(Lookup(ids, path)).None? ==>
        id == old(counter) && ids == old(ids) + [(path, id)] &&
        counter == ((old(counter) as int + 1) % U32_LIMIT) as u32
      ensures Lookup(ids, path) == Some(id)
      ensures DistinctPaths(old(ids)) ==> DistinctPaths(ids)
    {
      var known := Lookup(ids, path);
      if known.None? {
        id := counter;
        counter := ((counter as int + 1) % U32_LIMIT) as u32;
        ids := ids + [(path, id)];
        LookupAppend(old(ids), path, id);
      } else {
        id := known.value;
      }
    }
  }

  /** No project path is registered twice. */
  predicate DistinctPaths(ids: seq<(string, u32)>)
  {
    forall i, j :: 0 <= i < j < |ids| ==> ids[i].0 != ids[j].0
  }

  /** Registering a new path leaves every other lookup unchanged and makes the new one succeed. */
  lemma {:induction false} LookupAppend(ids: seq<(string, u32)>, path: string, id: u32)
    requires Lookup(ids, path).None?
    ensures Lookup(ids + [(path, id)], path) == Some(id)
    ensures forall q :: q != path ==> Lookup(ids + [(path, id)], q) == Lookup(ids, q)
  {
    if ids != [] {
      assert (ids + [(path, id)])[1..] == ids[1..] + [(path, id)];
      LookupAppend(ids[1..], path, id);
    }
  }
}
