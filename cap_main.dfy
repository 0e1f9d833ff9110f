// The main window's list logic: the signatures that tell whether the
// display and window lists changed, the search filter of the target menus,
// the narrowing of capture targets to displays and windows that still
// exist, the 20-item caps, the upload-progress map, the set of recordings
// being re-uploaded, and the menu and search-box state.
module CapMain {
  import opened Wrappers
  import opened Text

  // ---------------------------------------------------------------------
  // Signatures

  /** A window as the list reports it; numbers appear as they print. */
  datatype WindowItem = WindowItem(id: string, ownerName: string, name: string, x: string, y: string,
                                   width: string, height: string, refreshRate: string)

  datatype DisplayItem = DisplayItem(id: string, name: string, refreshRate: string)

  function WindowFields(w: WindowItem): seq<string>
  {
    [w.id, w.ownerName, w.name, w.x, w.y, w.width, w.height, w.refreshRate]
  }

  function DisplayFields(d: DisplayItem): seq<string>
  {
    [d.id, d.name, d.refreshRate]
  }

  /**
   * Each item's fields joined by ':'. For a clean list every row starts with
   * the item's first field, holds a ':' and no '|', so joining the rows with
   * '|' keeps them apart.
   */
  function Rows<T>(list: seq<T>, fields: T -> seq<string>): (rows: seq<string>)
    ensures |rows| == |list|
    ensures forall i :: 0 <= i < |list| ==> rows[i] == Join(fields(list[i]), ':')
    ensures Clean(list, fields) ==>
      forall i :: 0 <= i < |rows| ==> fields(list[i])[0] <= rows[i] && ':' in rows[i] && '|' !in rows[i]
  {
    var rows := seq(|list|, i requires 0 <= i < |list| => Join(fields(list[i]), ':'));
    assert Clean(list, fields) ==>
      forall i :: 0 <= i < |rows| ==> fields(list[i])[0] <= rows[i] && ':' in rows[i] && '|' !in rows[i] by {
      if Clean(list, fields) {
        forall i | 0 <= i < |rows|
          ensures fields(list[i])[0] <= rows[i] && ':' in rows[i] && '|' !in rows[i]
        {
          JoinStarts(fields(list[i]), ':');
          JoinAvoids(fields(list[i]), ':', '|');
        }
      }
    }
    rows
  }

  /** A list's signature: undefined for an undefined list, else its rows joined by '|'. */
  function Signature<T>(list: Option<seq<T>>, fields: T -> seq<string>): (r: Option<string>)
    ensures r.None? <==> list.None?
    ensures list == Some([]) ==> r == Some("")
  {
    match list
    case None => None
    case Some(l) => Some(Join(Rows(l, fields), '|'))
  }

  function WindowSignature(list: Option<seq<WindowItem>>): (r: Option<string>)
    ensures r.None? <==> list.None?
  {
    Signature(list, WindowFields)
  }

  function DisplaySignature(list: Option<seq<DisplayItem>>): (r: Option<string>)
    ensures r.None? <==> list.None?
  {
    Signature(list, DisplayFields)
  }

  /** Every item has at least two fields and no field holds a separator. */
  predicate Clean<T>(list: seq<T>, fields: T -> seq<string>)
  {
    forall i :: 0 <= i < |list| ==>
      (|fields(list[i])| >= 2 &&
       forall j :: 0 <= j < |fields(list[i])| ==> ':' !in fields(list[i])[j] && '|' !in fields(list[i])[j])
  }

  lemma {:induction false} JoinAvoids(parts: seq<string>, sep: char, c: char)
    requires c != sep
    requires forall j :: 0 <= j < |parts| ==> c !in parts[j]
    ensures c !in Join(parts, sep)
  {
    if |parts| > 1 {
      JoinAvoids(parts[1..], sep, c);
    }
  }

  lemma {:induction false} JoinStarts(parts: seq<string>, sep: char)
    requires |parts| >= 1
    ensures parts[0] <= Join(parts, sep)
    ensures |parts| >= 2 ==> sep in Join(parts, sep)
  {
    if |parts| >= 2 {
      assert Join(parts, sep)[|parts[0]|] == sep;
    }
  }

  /**
   * Equal signatures mean equal lists, as long as no field holds ':' or
   * '|' and distinct items have distinct fields: the signature is a
   * faithful change detector.
   */
  lemma {:induction false} SignatureDetermines<T>(l1: seq<T>, l2: seq<T>, fields: T -> seq<string>)
    requires Clean(l1, fields) && Clean(l2, fields)
    requires forall x, y :: fields(x) == fields(y) ==> x == y
    requires Signature(Some(l1), fields) == Signature(Some(l2), fields)
    ensures l1 == l2
  {
    var r1, r2 := Rows(l1, fields), Rows(l2, fields);
    assert Join(r1, '|') == Join(r2, '|');
    forall i | 0 <= i < |l1|
      ensures '|' !in r1[i] && ':' in r1[i]
    {
      JoinAvoids(fields(l1[i]), ':', '|');
      JoinStarts(fields(l1[i]), ':');
    }
    forall i | 0 <= i < |l2|
      ensures '|' !in r2[i] && ':' in r2[i]
    {
      JoinAvoids(fields(l2[i]), ':', '|');
      JoinStarts(fields(l2[i]), ':');
    }
    if l1 == [] || l2 == [] {
      if l1 != [] {
        JoinStarts(r1, '|');
      } else if l2 != [] {
        JoinStarts(r2, '|');
      }
      return;
    }
    SplitJoin(r1, '|');
    SplitJoin(r2, '|');
    assert r1 == r2;
    forall i | 0 <= i < |l1|
      ensures l1[i] == l2[i]
    {
      SplitJoin(fields(l1[i]), ':');
      SplitJoin(fields(l2[i]), ':');
    }
  }

  /** Window signatures detect every change to a list whose fields hold no separator. */
  lemma {:induction false} WindowSignatureDetermines(l1: seq<WindowItem>, l2: seq<WindowItem>)
    requires Clean(l1, WindowFields) && Clean(l2, WindowFields)
    requires WindowSignature(Some(l1)) == WindowSignature(Some(l2))
    ensures l1 == l2
  {
    forall x, y | WindowFields(x) == WindowFields(y)
      ensures x == y
    {
      assert WindowFields(x)[0] == WindowFields(y)[0] && WindowFields(x)[7] == WindowFields(y)[7];
    }
    SignatureDetermines(l1, l2, WindowFields);
  }

  /** Display signatures detect every change to a list whose fields hold no separator. */
  lemma {:induction false} DisplaySignatureDetermines(l1: seq<DisplayItem>, l2: seq<DisplayItem>)
    requires Clean(l1, DisplayFields) && Clean(l2, DisplayFields)
    requires DisplaySignature(Some(l1)) == DisplaySignature(Some(l2))
    ensures l1 == l2
  {
    forall x, y | DisplayFields(x) == DisplayFields(y)
      ensures x == y
    {
      assert DisplayFields(x)[0] == DisplayFields(y)[0] && DisplayFields(x)[2] == DisplayFields(y)[2];
    }
    SignatureDetermines(l1, l2, DisplayFields);
  }

  // ---------------------------------------------------------------------
  // Search

  /** The order-preserving sub-list of `targets` that `keep` accepts (`Array.prototype.filter`). */
  function Filter<T(!new)>(targets: seq<T>, keep: T -> bool): (r: seq<T>)
    ensures |r| <= |targets|
    ensures forall x :: x in r <==> x in targets && keep(x)
  {
    if targets == [] then []
    else
      var rest := Filter(targets[1..], keep);
      assert targets == [targets[0]] + targets[1..];
      if keep(targets[0]) then [targets[0]] + rest else rest
  }

  /** Filtering a concatenation filters each part in turn: the kept targets stay in their order. */
  lemma {:induction false} FilterAppend<T(!new)>(a: seq<T>, b: seq<T>, keep: T -> bool)
    ensures Filter(a + b, keep) == Filter(a, keep) + Filter(b, keep)
  {
    if a != [] {
      assert (a + b)[0] == a[0] && (a + b)[1..] == a[1..] + b;
      FilterAppend(a[1..], b, keep);
    } else {
      assert a + b == b;
    }
  }

  /** A filter that accepts every target returns them all. */
  lemma {:induction false} FilterKeepsAll<T(!new)>(targets: seq<T>, keep: T -> bool)
    requires forall j :: 0 <= j < |targets| ==> keep(targets[j])
    ensures Filter(targets, keep) == targets
  {
    if targets != [] {
      FilterKeepsAll(targets[1..], keep);
    }
  }

  /** The query as matched: trimmed of JavaScript whitespace and lower-cased; blank exactly when the query is all whitespace. */
  function NormalizedQuery(query: string): (q: string)
    ensures |q| <= |query|
    ensures q == [] <==> forall i :: 0 <= i < |query| ==> IsJsWhitespace(query[i])
    ensures forall i :: 0 <= i < |q| ==> !('A' <= q[i] <= 'Z')
  {
    TrimBlank(query, IsJsWhitespace);
    LowerAscii(Trim(query, IsJsWhitespace))
  }

  /** Trimming leaves nothing exactly when every character is whitespace. */
  lemma {:induction false} TrimBlank(s: string, ws: char -> bool)
    ensures Trim(s, ws) == [] <==> forall i :: 0 <= i < |s| ==> ws(s[i])
  {
    TrimStartBlank(s, ws);
    var r := TrimStart(s, ws);
    if r != [] {
      TrimEndKeepsFirst(r, ws);
    }
  }

  lemma {:induction false} TrimStartBlank(s: string, ws: char -> bool)
    ensures TrimStart(s, ws) == [] <==> forall i :: 0 <= i < |s| ==> ws(s[i])
  {
    if s != [] && ws(s[0]) {
      TrimStartBlank(s[1..], ws);
      assert forall i :: 1 <= i < |s| ==> s[i] == s[1..][i - 1];
    }
  }

  lemma {:induction false} TrimEndKeepsFirst(s: string, ws: char -> bool)
    requires s != [] && !ws(s[0])
    ensures TrimEnd(s, ws) != []
  {
    if ws(s[|s| - 1]) {
      TrimEndKeepsFirst(s[..|s| - 1], ws);
    }
  }

  /** `matchesQuery`: a non-empty value whose lower-cased form contains the query. */
  predicate MatchesQuery(value: string, query: string)
  {
    value != "" && Contains(LowerAscii(value), query)
  }

  /** Whether any of the searched fields matches. */
  predicate AnyMatches(values: seq<string>, query: string)
  {
    exists j :: 0 <= j < |values| && MatchesQuery(values[j], query)
  }

  /**
   * A target menu's filter: the targets (none when not loaded) unchanged
   * for a blank query, else those one of whose fields matches.
   */
  function Search<T(!new)>(targets: Option<seq<T>>, query: string, fields: T -> seq<string>): (r: seq<T>)
    ensures NormalizedQuery(query) == "" ==> r == targets.UnwrapOr([])
    ensures NormalizedQuery(query) != "" ==>
      forall x :: x in r <==> x in targets.UnwrapOr([]) && AnyMatches(fields(x), NormalizedQuery(query))
  {
    var q := NormalizedQuery(query);
    var ts := targets.UnwrapOr([]);
    if q == "" then ts else Filter(ts, t => AnyMatches(fields(t), q))
  }

  datatype DisplayTarget = DisplayTarget(id: string, name: string)

  datatype WindowTarget = WindowTarget(id: string, ownerName: string, name: string)

  /** A recording or screenshot with the path it is stored under. */
  datatype Capture = Capture(path: string, prettyName: string)

  /** Displays are searched by name and id. */
  function DisplaySearchFields(d: DisplayTarget): seq<string> { [d.name, d.id] }

  /** Windows are searched by name, owner and id. */
  function WindowSearchFields(w: WindowTarget): seq<string> { [w.name, w.ownerName, w.id] }

  /** Recordings and screenshots are searched by their pretty name. */
  function CaptureSearchFields(c: Capture): seq<string> { [c.prettyName] }

  /** `filteredDisplayTargets`: for a non-blank query, the displays whose name or id matches it. */
  function FilteredDisplays(targets: Option<seq<DisplayTarget>>, query: string): (r: seq<DisplayTarget>)
    ensures NormalizedQuery(query) == "" ==> r == targets.UnwrapOr([])
    ensures forall d :: d in r <==>
      (d in targets.UnwrapOr([]) &&
       (NormalizedQuery(query) == "" || MatchesQuery(d.name, NormalizedQuery(query)) || MatchesQuery(d.id, NormalizedQuery(query))))
  {
    var q := NormalizedQuery(query);
    assert forall d: DisplayTarget :: MatchesQuery(d.name, q) ==> MatchesQuery(DisplaySearchFields(d)[0], q);
    assert forall d: DisplayTarget :: MatchesQuery(d.id, q) ==> MatchesQuery(DisplaySearchFields(d)[1], q);
    Search(targets, query, DisplaySearchFields)
  }

  /** `filteredWindowTargets`: for a non-blank query, the windows whose name, owner name or id matches it. */
  function FilteredWindows(targets: Option<seq<WindowTarget>>, query: string): (r: seq<WindowTarget>)
    ensures NormalizedQuery(query) == "" ==> r == targets.UnwrapOr([])
    ensures forall w :: w in r <==>
      (w in targets.UnwrapOr([]) &&
       (NormalizedQuery(query) == "" || MatchesQuery(w.name, NormalizedQuery(query)) ||
        MatchesQuery(w.ownerName, NormalizedQuery(query)) || MatchesQuery(w.id, NormalizedQuery(query))))
  {
    var q := NormalizedQuery(query);
    assert forall w: WindowTarget :: MatchesQuery(w.name, q) ==> MatchesQuery(WindowSearchFields(w)[0], q);
    assert forall w: WindowTarget :: MatchesQuery(w.ownerName, q) ==> MatchesQuery(WindowSearchFields(w)[1], q);
    assert forall w: WindowTarget :: MatchesQuery(w.id, q) ==> MatchesQuery(WindowSearchFields(w)[2], q);
    Search(targets, query, WindowSearchFields)
  }

  /** `filteredRecordingTargets` and `filteredScreenshotTargets`: for a non-blank query, the captures whose pretty name matches it. */
  function FilteredCaptures(targets: Option<seq<Capture>>, query: string): (r: seq<Capture>)
    ensures NormalizedQuery(query) == "" ==> r == targets.UnwrapOr([])
    ensures forall c :: c in r <==>
      (c in targets.UnwrapOr([]) && (NormalizedQuery(query) == "" || MatchesQuery(c.prettyName, NormalizedQuery(query))))
  {
    var q := NormalizedQuery(query);
    assert forall c: Capture :: MatchesQuery(c.prettyName, q) ==> MatchesQuery(CaptureSearchFields(c)[0], q);
    Search(targets, query, CaptureSearchFields)
  }

  /** A window is found by a query inside its owner's name, whatever the case of the owner's name. */
  lemma {:induction false} WindowFoundByOwner(targets: seq<WindowTarget>, query: string, w: WindowTarget)
    requires w in targets
    requires NormalizedQuery(query) != "" && w.ownerName != ""
    requires Contains(LowerAscii(w.ownerName), NormalizedQuery(query))
    ensures w in FilteredWindows(Some(targets), query)
  {
    assert MatchesQuery(WindowSearchFields(w)[1], NormalizedQuery(query));
  }

  /** Searching keeps the order of the targets and never adds one. */
  lemma {:induction false} SearchKeepsOrder<T(!new)>(a: seq<T>, b: seq<T>, query: string, fields: T -> seq<string>)
    ensures Search(Some(a + b), query, fields) == Search(Some(a), query, fields) + Search(Some(b), query, fields)
  {
    var q := NormalizedQuery(query);
    if q != "" {
      FilterAppend(a, b, t => AnyMatches(fields(t), q));
    }
  }

  // ---------------------------------------------------------------------
  // Narrowing and caps

  /**
   * The targets a menu offers: undefined until the query succeeded, all of
   * them when the list of existing ids is not loaded, else those whose id
   * is still among the existing ones.
   */
  function Narrowed<T(!new)>(hasData: bool, targets: Option<seq<T>>, existing: Option<set<string>>, id: T -> string): (r: Option<seq<T>>)
    ensures !hasData ==> r.None?
    ensures hasData && existing.None? ==> r == targets
    ensures hasData && existing.Some? ==> (r.Some? <==> targets.Some?)
    ensures hasData && existing.Some? && r.Some? ==>
      forall x :: x in r.value <==> x in targets.value && id(x) in existing.value
  {
    if !hasData then None
    else if existing.None? then targets
    else
      match targets
      case None => None
      case Some(ts) => Some(Filter(ts, t => id(t) in existing.value))
  }

  /**
   * The ids of a loaded list of screens or windows: the definition of
   * `new Set(list.map(x => x.id))`, kept as a function so that the narrowing
   * below can speak of membership.
   */
  function ExistingIds(list: Option<seq<string>>): (r: Option<set<string>>)
    ensures r.None? <==> list.None?
    ensures r.Some? ==> forall x :: x in r.value <==> x in list.value
  {
    match list
    case None => None
    case Some(l) => Some(set x | x in l)
  }

  /** `displayTargetsData`: the display targets, narrowed to the screens that still exist once those are loaded. */
  function NarrowedDisplays(hasData: bool, targets: Option<seq<DisplayTarget>>, screens: Option<seq<string>>): (r: Option<seq<DisplayTarget>>)
    ensures !hasData ==> r.None?
    ensures hasData && screens.None? ==> r == targets
    ensures hasData && screens.Some? ==> (r.Some? <==> targets.Some?)
    ensures hasData && screens.Some? && r.Some? ==> forall d :: d in r.value <==> d in targets.value && d.id in screens.value
  {
    Narrowed(hasData, targets, ExistingIds(screens), (d: DisplayTarget) => d.id)
  }

  /** `windowTargetsData`: the window targets, narrowed to the windows that are still open once those are loaded. */
  function NarrowedWindows(hasData: bool, targets: Option<seq<WindowTarget>>, windows: Option<seq<string>>): (r: Option<seq<WindowTarget>>)
    ensures !hasData ==> r.None?
    ensures hasData && windows.None? ==> r == targets
    ensures hasData && windows.Some? ==> (r.Some? <==> targets.Some?)
    ensures hasData && windows.Some? && r.Some? ==> forall w :: w in r.value <==> w in targets.value && w.id in windows.value
  {
    Narrowed(hasData, targets, ExistingIds(windows), (w: WindowTarget) => w.id)
  }

  /** A window offered in the menu is a loaded target whose id is among the open windows (when those are loaded). */
  lemma {:induction false} OfferedWindowsExist(targets: seq<WindowTarget>, windows: seq<string>, w: WindowTarget)
    requires NarrowedWindows(true, Some(targets), Some(windows)).Some?
    requires w in NarrowedWindows(true, Some(targets), Some(windows)).value
    ensures w in targets && w.id in windows
  {
  }

  /** How many recordings and screenshots the menus show. */
  const SHOWN := 20

  /** The first `SHOWN` items of a loaded list, or none. */
  function Shown<T>(data: Option<seq<T>>): (r: seq<T>)
    ensures data.None? ==> r == []
    ensures data.Some? ==> |r| == (if |data.value| < SHOWN then |data.value| else SHOWN) && r <= data.value
  {
    match data
    case None => []
    case Some(d) => if |d| < SHOWN then d else d[..SHOWN]
  }

  /** The recordings shown: the first 20 (path, metadata) pairs, each with its path attached. */
  function ShownRecordings(data: Option<seq<(string, string)>>): (r: seq<Capture>)
    ensures data.None? ==> r == []
    ensures data.Some? ==>
      |r| == (if |data.value| < SHOWN then |data.value| else SHOWN) &&
      forall i :: 0 <= i < |r| ==> r[i] == Capture(data.value[i].0, data.value[i].1)
  {
    var d := Shown(data);
    seq(|d|, i requires 0 <= i < |d| => Capture(d[i].0, d[i].1))
  }

  // ---------------------------------------------------------------------
  // Upload progress and re-uploads

  /** The percentage shown for `uploaded` of `total` bytes: 0 when the total is not positive. */
  function Percent(uploaded: nat, total: nat): (p: real)
    ensures total == 0 ==> p == 0.0
    ensures uploaded <= total ==> 0.0 <= p <= 100.0
    ensures uploaded < total ==> p < 100.0
  {
    if total > 0 then
      FractionBounds(uploaded as real, total as real);
      (uploaded as real / total as real) * 100.0
    else 0.0
  }

  /** A part over a positive whole is a fraction between 0 and 1, below 1 when the part is smaller. */
  lemma {:induction false} FractionBounds(part: real, whole: real)
    requires 0.0 <= part && whole > 0.0
    ensures 0.0 <= part / whole
    ensures part <= whole ==> part / whole <= 1.0
    ensures part < whole ==> part / whole < 1.0
  {
    assert part / whole * whole == part;
  }

  /** The progress of each uploading video, by video id. */
  class UploadProgress {
    var progress: map<string, real>

    constructor ()
      ensures progress == map[]
    {
      progress := map[];
    }

    /** An upload-progress event: a finished upload drops its entry, any other sets it to the percentage. */
    method OnProgress(videoId: string, uploaded: nat, total: nat)
      modifies this
      ensures uploaded == total ==> progress == old(progress) - {videoId}
      ensures uploaded != total ==> progress == old(progress)[videoId := Percent(uploaded, total)]
    {
      if uploaded == total {
        progress := progress - {videoId};
      } else {
        progress := progress[videoId := Percent(uploaded, total)];
      }
    }
  }

  /** Progress entries of uploads reporting no more than their total stay within 0..100, and below 100. */
  lemma {:induction false} ProgressInRange(progress: map<string, real>, videoId: string, uploaded: nat, total: nat)
    requires forall v :: v in progress ==> 0.0 <= progress[v] < 100.0
    requires uploaded <= total
    ensures var next := if uploaded == total then progress - {videoId} else progress[videoId := Percent(uploaded, total)];
      forall v :: v in next ==> 0.0 <= next[v] < 100.0
  {
  }

  /** The recordings being re-uploaded, and how often the recordings list was refetched. */
  class Reuploads {
    var paths: set<string>
    var refetches: nat

    constructor ()
      ensures paths == {} && refetches == 0
    {
      paths := {};
      refetches := 0;
    }

    /** `handleReupload` starting: the path is marked as re-uploading. */
    method Begin(path: string)
      modifies this
      ensures paths == old(paths) + {path} && refetches == old(refetches)
    {
      paths := paths + {path};
    }

    /** `handleReupload`'s `finally`, whether the upload succeeded or not: the mark is removed and the list refetched. */
    method End(path: string)
      modifies this
      ensures paths == old(paths) - {path} && refetches == old(refetches) + 1
    {
      paths := paths - {path};
      refetches := refetches + 1;
    }
  }

  // ---------------------------------------------------------------------
  // Menu and search box

  datatype Page = Home | DisplayMenu | WindowMenu | RecordingMenu | ScreenshotMenu

  /** The search box after Escape: a non-empty query is cleared first, an empty one collapses the box. */
  function AfterEscape(query: string, expanded: bool): (r: (string, bool))
    ensures r.0 == ""
    ensures query != "" ==> r.1 == expanded
    ensures query == "" ==> !r.1
  {
    if query != "" then ("", expanded) else ("", false)
  }

  /** Two presses of Escape always leave the box empty and collapsed. */
  lemma {:induction false} TwoEscapesClose(query: string, expanded: bool)
    ensures var once := AfterEscape(query, expanded); AfterEscape(once.0, once.1) == ("", false)
  {
  }

  class MainWindow {
    var page: Page
    var searchQuery: string
    var searchExpanded: bool

    constructor ()
      ensures page == Home && searchQuery == "" && !searchExpanded
    {
      page := Home;
      searchQuery := "";
      searchExpanded := false;
    }

    /** `openMenu`: nothing while recording; otherwise the menu page opens with an empty, collapsed search. */
    method OpenMenu(menu: Page, isRecording: bool)
      requires menu != Home
      modifies this
      ensures isRecording ==> page == old(page) && searchQuery == old(searchQuery) && searchExpanded == old(searchExpanded)
      ensures !isRecording ==> page == menu && searchQuery == "" && !searchExpanded
    {
      if isRecording {
        return;
      }
      page := menu;
      searchQuery := "";
      searchExpanded := false;
    }

    /** `handleSearchKeyDown`: Escape acts as `AfterEscape` and its default is prevented; other keys change nothing. */
    method SearchKeyDown(key: string) returns (preventDefault: bool)
      modifies this
      ensures preventDefault <==> key == "Escape"
      ensures key == "Escape" ==> (searchQuery, searchExpanded) == AfterEscape(old(searchQuery), old(searchExpanded))
      ensures key != "Escape" ==> searchQuery == old(searchQuery) && searchExpanded == old(searchExpanded)
      ensures page == old(page)
    {
      preventDefault := false;
      if key == "Escape" {
        preventDefault := true;
        if searchQuery != "" {
          searchQuery := "";
        } else {
          searchExpanded := false;
        }
      }
    }
  }
}
