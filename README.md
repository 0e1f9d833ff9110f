# Cap: a verified model of the desktop app's core logic

Cap is a screen recorder. It has a Tauri desktop app (Rust back end, SolidJS
front end), a rendering crate, a migration crate and a web app. Most of the
code is UI, platform calls and I/O. This project models the parts that hold
statable logic and proves properties of them in Dafny:

- **Crop and selection geometry.** `CropperTool` models the cropper's box:
  move, resize about a fractional origin, scale, constrain to the canvas,
  constrain to a ratio, and the mouse state machine that hit-tests handles,
  resizes edges (20-unit minimum) and drags the body. `AreaSelection` models
  the capture-area selection rectangle: a position and size, eight resize
  directions, a 10-pixel minimum, clamped to the window. `Handles` is the
  shared eight-handle table. `CssBox`, `AreaOccluder` and `Occluder` are the
  dimming bands around a region, which tile their container.
- **Windows.** `Windows` models the window-label codec (`CapWindowDef`
  parse and print), the `title` and `min_size` tables, the centring
  arithmetic, the corner-containment test, and the editor-window id table.
- **Files and migrations.** `UniqueFilename` is `ensure_unique_filename`'s
  probe loop. `ProjectMigration` is the UUID file-name check of RFC 4122
  section 3 and the project-rename decision logic. `Migrator` is the
  migration runner: filter, stable sort, run in order, stop at the first
  error. `StoreMigration` is the read, transform and write of a JSON store
  file. `AppStore` and `SchemaMigrations` are the plugin store and the
  desktop app's schema-version machine.
- **Rendering and transcription.** `Magnifier` models the hex colour
  parser, the shape codes and the magnifier layer's per-frame `prepare`.
  `WebVtt` models the caption file built from recognised words, and the
  timestamps. `Transcription` models the transcription route's status
  transitions, including what each failing database or storage call leaves
  behind.
- **Editor and UI state.** `MagnifierTrack` and `MagnifierSegmentConfig`
  model the editor's magnifier-segment proposal, creation and editing over
  `EditorProject`'s shared state. `SolariumTabs` is the tab strip's drag
  state machine. `Popover` is the open and closed logic of the Solarium
  popovers, with the reactive `open` prop of SolariumPopover.tsx. `RecordingOptions` and `CapMain` model the camera lookup, the
  target-mode toggle, the list signatures, the search filter, the target
  narrowing and caps, the upload progress and the search box.

`Wrappers`, `Text` and `Ints` hold the shared pieces: `Option` and `Result`,
the string helpers, and 32-bit integers.

Files that work by updating state in place are modelled as classes whose
methods state the whole new state. Pure code is modelled as functions.
Each function or method is paired with lemmas that relate it to the
property the code promises. Lengths and coordinates are exact reals.

## Model

| member | source | states |
|---|---|---|
| AppStore.AsU64 | apps/desktop/src-tauri/src/migrations/mod.rs:21-24 | `as_u64` yields a value exactly for integers in [0, 2^64), and then that integer |
| AppStore.PluginStore.Get | apps/desktop/src-tauri/src/migrations/mod.rs:16-19 | a store read finds a value exactly when the key is present, and returns the stored value |
| AppStore.PluginStore.Set | apps/desktop/src-tauri/src/migrations/mod.rs:32 | `set` overwrites the one key in memory and nothing else |
| AppStore.PluginStore.Save | apps/desktop/src-tauri/src/migrations/mod.rs:33 | a successful save makes the persisted content equal the in-memory content; a failed save reports its error and leaves the disk as it was |
| Ints.TruncateToU32 | apps/desktop/src-tauri/src/migrations/mod.rs:23 | `v as u32` keeps the value modulo 2^32, and keeps it unchanged below 2^32 |
| SchemaMigrations.VersionDefaultsToZero | apps/desktop/src-tauri/src/migrations/mod.rs:14-25 | a store that cannot be opened, a missing key, or a value that is not a non-negative integer all read as version 0 |
| SchemaMigrations.VersionReadBack | apps/desktop/src-tauri/src/migrations/mod.rs:14-34 | a version written by `set_schema_version` is read back unchanged by `get_schema_version` |
| SchemaMigrations.OversizedVersionWraps | apps/desktop/src-tauri/src/migrations/mod.rs:23 | a stored 2^32 reads as 0 and 2^32+1 as 1: the `as u32` cast wraps |
| SchemaMigrations.RunMigrations | apps/desktop/src-tauri/src/migrations/mod.rs:42-56 | at or above version 1 nothing runs or changes; below it the v1 migration runs, a failure returns its error with the store untouched, and only success records and saves version 1 |
| SchemaMigrations.SetSchemaVersion | apps/desktop/src-tauri/src/migrations/mod.rs:27-34 | an unopenable store gives "Store not found" and changes nothing; otherwise the key holds the version, which reads back, and the save outcome decides what is persisted |
| SchemaMigrations.RunIsEmptyRunner | apps/desktop/src-tauri/src/migrations/mod.rs:36-39 | `run` answers Ok(0) for every starting version, exactly as the migration runner does with no migrations registered |
| SchemaMigrations.GetSchemaVersion | apps/desktop/src-tauri/src/migrations/mod.rs:14-25 | `get_schema_version` on the store; `VersionDefaultsToZero`, `VersionReadBack` and `OversizedVersionWraps` state it |
| StoreMigration.KeysDistinct | crates/migrator/src/store_migration.rs:17-27 | different stores have different keys |
| StoreMigration.ReadOrEmpty | crates/migrator/src/store_migration.rs:36-39 | a missing or unreadable file reads as "{}", an existing one as its content |
| StoreMigration.EditErrorsPropagate | crates/migrator/src/store_migration.rs:41-42 | a parse error, or else a transform error, is the edit's result |
| StoreMigration.JsonEditAt | crates/migrator/src/store_migration.rs:31-56 | any error before the write leaves files and directories unchanged and returns that error; otherwise the parent directory is created and the file holds the transformed, printed text, or the write error is reported with the files unchanged |
| StoreMigration.InsertX | crates/migrator/src/store_migration.rs:110-114 | the test's transform always succeeds with an object whose "x" is 1 |
| StoreMigration.EditCreatesMissingFile | crates/migrator/src/store_migration.rs:105-121 | editing a file that does not exist produces text that parses back to an object holding exactly "x": 1 |
| StoreMigration.CurrentValue | crates/migrator/src/store_migration.rs:84-85 | an absent key hands Null to the transform |
| StoreMigration.EditStore | crates/migrator/src/store_migration.rs:75-97 | an unopenable store or failing transform returns its error and changes nothing; otherwise only the store's key is set to the transformed value and the save outcome decides the result and what is persisted |
| StoreMigration.Key | crates/migrator/src/store_migration.rs:17-27 | each store's key; `KeysDistinct` states that no two stores share one |
| UniqueFilename.LastDot | crates/utils/src/lib.rs:55-61 | the index found holds a '.' with no '.' after it; no index means the name has no '.' |
| UniqueFilename.SplitNameShape | crates/utils/src/lib.rs:55-65 | stem and extension concatenate back to the name, and an extension is one '.'-suffix after a non-empty stem |
| UniqueFilename.NumberedInjective | crates/utils/src/lib.rs:70-74 | different counters give different candidate names |
| UniqueFilename.FirstFree | crates/utils/src/lib.rs:67-96 | the counter found is the smallest free one from the starting counter up to 1000; none means all are taken |
| UniqueFilename.EnsureUniqueFilename | crates/utils/src/lib.rs:44-97 | the probe loop returns exactly the name `UniqueName` specifies for the directory's entries |
| UniqueFilename.FreeNameKept | crates/utils/src/lib.rs:48-53 | a base name not in the directory is returned unchanged |
| UniqueFilename.ResultIsFree | crates/utils/src/lib.rs:50-86 | a successful result never names an existing entry |
| UniqueFilename.SmallestFreeCounter | crates/utils/src/lib.rs:67-86 | a taken name becomes "stem (n).ext" for the smallest free n in 1..1000 |
| UniqueFilename.FailsOnlyWhenAllTaken | crates/utils/src/lib.rs:88-95 | the call fails if and only if the base name and all 1000 numbered candidates are taken |
| UniqueFilename.ExampleWithExtension | crates/utils/src/lib.rs:55-74 | "My Recording.cap" becomes "My Recording (1).cap" when only the original is taken |
| UniqueFilename.UniqueName | crates/utils/src/lib.rs:44-97 | what `ensure_unique_filename` returns for the directory's entries; `FreeNameKept`, `SmallestFreeCounter`, `ResultIsFree` and `FailsOnlyWhenAllTaken` state it |
| Migrator.Insert | crates/migrator/src/migrator.rs:25 | one insertion step of the stable sort adds exactly the inserted migration |
| Migrator.SortByVersion | crates/migrator/src/migrator.rs:25 | the sort is a permutation of the registered migrations |
| Migrator.InsertSorted | crates/migrator/src/migrator.rs:25 | inserting into a version-sorted list keeps it sorted |
| Migrator.OfVersionInsert | crates/migrator/src/migrator.rs:25 | insertion puts the migration at the end of its own version's run and leaves other runs alone |
| Migrator.SortSorted | crates/migrator/src/migrator.rs:25 | the sorted list is in ascending version order |
| Migrator.SortKeepsVersionRun | crates/migrator/src/migrator.rs:25 | for each version, the sorted list keeps the registration order of that version's migrations |
| Migrator.SortIsStable | crates/migrator/src/migrator.rs:24-25 | `sort_by_key` orders by version, is a permutation, and is stable |
| Migrator.AboveMembers | crates/migrator/src/migrator.rs:27 | the filter keeps exactly the migrations newer than `from_schema` |
| Migrator.FirstFailure | crates/migrator/src/migrator.rs:27-31 | every migration before the index succeeds and the one at it fails |
| Migrator.AboveSorted | crates/migrator/src/migrator.rs:25-27 | filtering a sorted list keeps it sorted |
| Migrator.Run | crates/migrator/src/migrator.rs:23-33 | the loop returns the outcome of running the pending migrations in order, and runs exactly the prefix up to the first failure |
| Migrator.StopAt | crates/migrator/src/migrator.rs:27-29 | the first failing pending migration's error is the result, and nothing after it runs |
| Migrator.ExecutedAreNewerAndOrdered | crates/migrator/src/migrator.rs:24-31 | every migration that runs is newer than `from_schema`, and they run in ascending version order |
| Migrator.ExecutedIsPrefix | crates/migrator/src/migrator.rs:27-31 | the migrations that run are a prefix of the pending ones |
| Migrator.SuccessCountsAll | crates/migrator/src/migrator.rs:26-32 | on success the count equals the number of pending migrations, and all of them ran |
| Migrator.FailureStopsAtFirstError | crates/migrator/src/migrator.rs:29 | on failure every earlier migration succeeded, the last one run reported the error, and no later one ran |
| Migrator.NothingPending | crates/migrator/src/migrator.rs:26-32 | with nothing newer than `from_schema` the result is Ok(0) |
| Migrator.Pending | crates/migrator/src/migrator.rs:24-27 | the registered migrations newer than the stored schema, stably sorted; `ExecutedAreNewerAndOrdered` states it |
| Migrator.Outcome | crates/migrator/src/migrator.rs:27-32 | the count when every pending migration succeeds, else the first error; `SuccessCountsAll` and `FailureStopsAtFirstError` state it |
| ProjectMigration.UuidCheckMatchesLayout | crates/migrator/src/migrations/m_v1.rs:232-251 | the split-and-count check accepts a name if and only if it is 36 characters with dashes exactly at 8, 13, 18 and 23 and hex digits elsewhere, followed by ".cap" |
| ProjectMigration.GlueIsJoin | crates/migrator/src/migrations/m_v1.rs:237-238 | joining five groups with '-' is the dashed UUID text |
| ProjectMigration.LayoutGroups | crates/migrator/src/migrations/m_v1.rs:237-250 | a name with the positional layout splits into five dash-free groups of 8-4-4-4-12 hex digits |
| ProjectMigration.GroupsLayout | crates/migrator/src/migrations/m_v1.rs:237-250 | five dash-free groups of 8-4-4-4-12, glued with dashes and all hex or dash, give the positional layout |
| ProjectMigration.UuidNamesEndInCap | crates/migrator/src/migrations/m_v1.rs:233-235 | an accepted name is 40 characters long and ends in ".cap" |
| ProjectMigration.TargetName | crates/migrator/src/migrations/m_v1.rs:204-208 | the new directory name always ends in ".cap" |
| ProjectMigration.NonUuidUnchanged | crates/migrator/src/migrations/m_v1.rs:180-183 | a directory whose name is not UUID-shaped keeps its path |
| ProjectMigration.MissingNameHandling | crates/migrator/src/migrations/m_v1.rs:171-173 | a path without a UTF-8 file name is left alone by the sync entry point and refused by the async one (lines 258-261) |
| ProjectMigration.InvalidNameRefused | crates/migrator/src/migrations/m_v1.rs:195-197 | a sanitised name that is blank or exactly "-" fails with the "Sanitized filename is invalid" error |
| ProjectMigration.AllWhitespaceTrimsEmpty | crates/migrator/src/migrations/m_v1.rs:195 | a name made only of whitespace trims to the empty string |
| ProjectMigration.RenameTargetIsFree | crates/migrator/src/migrations/m_v1.rs:219-229 | a successful rename targets the name `ensure_unique_filename` picks for the ".cap" name, which is not already in the parent directory |
| ProjectMigration.SuffixHandling | crates/migrator/src/migrations/m_v1.rs:204-208 | for a name already ending in ".cap", the sync entry point keeps it and the async one appends ".cap" again (line 281) |
| ProjectMigration.ExampleUuidName | crates/migrator/src/migrations/m_v1.rs:155 | the documented example directory name is recognised as UUID-named |
| ProjectMigration.IsProjectFilenameUuid | crates/migrator/src/migrations/m_v1.rs:232-251 | `is_project_filename_uuid` check by check; `UuidCheckMatchesLayout` states which names it accepts |
| ProjectMigration.Migrate | crates/migrator/src/migrations/m_v1.rs:167-230 | the rename decision of both entry points; `MissingNameHandling`, `NonUuidUnchanged`, `InvalidNameRefused` and `RenameTargetIsFree` state it |
| Text.HexValue | crates/rendering/src/layers/magnifier.rs:289-291 | a hex digit of either case has a value below 16 |
| Text.HexDigit | crates/rendering/src/layers/magnifier.rs:289-291 | the digit printed for a value below 16 is a hex digit that reads back as that value |
| Text.DigitChar | apps/desktop/src-tauri/src/windows.rs:210 | the digit printed for a value below 10 reads back as that value |
| Text.DecimalDigits | apps/desktop/src-tauri/src/windows.rs:199-212 | a number's decimal text is non-empty, all digits, reads back as the number and has no leading zero |
| Text.ZeroPadShape | apps/web/app/api/video/transcribe/route.ts:251-253 | `padStart` with '0' keeps the digits' value and reaches the requested width when the number fits |
| Text.RemoveAll | apps/desktop/src-tauri/src/windows.rs:165 | `replace(pattern, "")` never lengthens the string |
| Text.RemoveAllAbsent | apps/desktop/src-tauri/src/windows.rs:165 | a string in which the pattern's first character never appears is unchanged by the replace |
| Text.IndexOf | crates/migrator/src/migrations/m_v1.rs:238 | the index found holds the first occurrence of the character |
| Text.Split | crates/migrator/src/migrations/m_v1.rs:238 | `split('-')` gives at least one piece, and no piece contains the separator |
| Text.JoinSplit | crates/migrator/src/migrations/m_v1.rs:238 | joining the pieces of a split with the separator gives back the string |
| Text.SplitJoin | crates/migrator/src/migrations/m_v1.rs:238 | splitting separator-free pieces joined by the separator gives back the pieces |
| Text.FirstSeparator | crates/migrator/src/migrations/m_v1.rs:238 | the first occurrence of a character is at k when it is at k and not before |
| Text.TrimStart | crates/migrator/src/migrations/m_v1.rs:195 | trimming the start leaves a suffix of the string that is empty or starts with a non-blank |
| Text.TrimEnd | crates/migrator/src/migrations/m_v1.rs:195 | trimming the end leaves a prefix of the string that is empty or ends with a non-blank |
| Text.Trim | crates/migrator/src/migrations/m_v1.rs:195 | a trimmed string is empty or neither starts nor ends with whitespace |
| Text.LowerAscii | apps/desktop/src/routes/solarium/cap-main.tsx:175-241 | lower-casing keeps the length and maps each character on its own |
| Windows.ParseUnsigned | apps/desktop/src-tauri/src/windows.rs:177-178 | the display-id parse, read as an unsigned decimal parse without a width: it accepts exactly an optional '+' followed by at least one digit, and a string of digits reads as its decimal value |
| Windows.NotFixed | apps/desktop/src-tauri/src/windows.rs:151-187 | a string starting with 'e', 'w', 't' or "sc" matches no fixed label and is parsed by the prefix arms |
| Windows.DecimalParses | apps/desktop/src-tauri/src/windows.rs:166 | the decimal text of a number parses back to that number |
| Windows.StripPrefix | apps/desktop/src-tauri/src/windows.rs:165 | removing the prefix from "prefix + digits" leaves exactly the digits |
| Windows.EditorRoundTrip | apps/desktop/src-tauri/src/windows.rs:163-168 | "editor-{id}" parses back to the same editor (printed at line 210) |
| Windows.ScreenshotEditorRoundTrip | apps/desktop/src-tauri/src/windows.rs:169-174 | "screenshot-editor-{id}" parses back to the same screenshot editor (printed at line 212) |
| Windows.OccluderRoundTrip | apps/desktop/src-tauri/src/windows.rs:175-180 | "window-capture-occluder-{id}" parses back to the same occluder (printed at lines 199-201) |
| Windows.TargetSelectRoundTrip | apps/desktop/src-tauri/src/windows.rs:181-186 | "target-select-overlay-{id}" parses back to the same overlay (printed at lines 203-205) |
| Windows.FixedLabelsA | apps/desktop/src-tauri/src/windows.rs:152-156 | the labels of setup, main, settings, camera and capture-area are recognised as theirs |
| Windows.FixedLabelsB | apps/desktop/src-tauri/src/windows.rs:158-160 | the labels of the recording controls, recordings overlay and upgrade windows are recognised as theirs |
| Windows.FixedLabelsC | apps/desktop/src-tauri/src/windows.rs:161-162 | the labels of mode-select and debug are recognised as theirs |
| Windows.LabelRoundTrip | apps/desktop/src-tauri/src/windows.rs:147-215 | every one of the 14 window definitions parses back from its printed label |
| Windows.LabelInjective | apps/desktop/src-tauri/src/windows.rs:192-215 | two window definitions with the same label are the same |
| Windows.RepeatedPrefixAccepted | apps/desktop/src-tauri/src/windows.rs:163-168 | "editor-editor-7" names editor 7, because the replace removes every occurrence of the prefix |
| Windows.EditorIdOverflowRejected | apps/desktop/src-tauri/src/windows.rs:163-168 | an editor number of 2^32 or more is rejected with the overflow error and its message |
| Windows.BarePrefixRejected | apps/desktop/src-tauri/src/windows.rs:163-186 | a prefix with no number after it is rejected |
| Windows.UnknownLabelRejected | apps/desktop/src-tauri/src/windows.rs:187 | a label that matches no fixed name and no prefix fails with "unknown window label: " and the label |
| Windows.LegacyRecordingLabel | apps/desktop/src-tauri/src/windows.rs:158 | "in-progress-recording" parses to the recording controls, which print back as that label (line 206) |
| Windows.Title | apps/desktop/src-tauri/src/windows.rs:222-237 | every title starts with "Cap" |
| Windows.PlainTitle | apps/desktop/src-tauri/src/windows.rs:222-237 | the title is exactly "Cap" if and only if the window is main, upgrade or debug |
| Windows.DockWindowsAreSized | apps/desktop/src-tauri/src/windows.rs:239-250 | every window that activates the dock has a minimum size (lines 308-320), and only the camera has one without activating it |
| Windows.MinSize | apps/desktop/src-tauri/src/windows.rs:308-320 | every minimum size is at least 200 by 200 |
| Windows.UnsizedWindows | apps/desktop/src-tauri/src/windows.rs:308-320 | there is no minimum size if and only if the window is one of the recordings overlay, occluder, target-select overlay, capture area, recording controls and debug |
| Windows.Fallback | apps/desktop/src-tauri/src/windows.rs:61-66 | a display without bounds stands for a 1920 by 1080 monitor at the origin |
| Windows.CenteredMargins | apps/desktop/src-tauri/src/windows.rs:76-80 | a centred window has equal left and right margins and equal top and bottom margins |
| Windows.BottomCenteredMargins | apps/desktop/src-tauri/src/windows.rs:82-91 | a bottom-centred window is centred horizontally and its bottom edge is `offset_y` above the monitor's bottom |
| Windows.FromWindow | apps/desktop/src-tauri/src/windows.rs:93-125 | the loop returns the first display containing the window's top-left corner (the origin when unknown), else the monitor under the cursor |
| Windows.FirstContaining | apps/desktop/src-tauri/src/windows.rs:100-122 | a display is found if and only if one contains the point, and the one found contains it |
| Windows.AnyInside | apps/desktop/src-tauri/src/windows.rs:1494-1496 | `any` holds if and only if some point lies in the display's half-open bounds |
| Windows.IntersectsByCorner | apps/desktop/src-tauri/src/windows.rs:1468-1497 | `intersects` holds if and only if one of the window's four corners lies in the display's half-open bounds |
| Windows.OriginOnDisplayIntersects | apps/desktop/src-tauri/src/windows.rs:1486-1496 | a window whose top-left corner is on the display intersects it |
| Windows.EnclosingWindowMissed | apps/desktop/src-tauri/src/windows.rs:1486-1496 | a window enclosing the whole display has no corner on it and does not intersect it |
| Windows.Lookup | apps/desktop/src-tauri/src/windows.rs:365-372 | a path is found if and only if it is registered, and the id found is registered with it |
| Windows.WindowIds.IdFor | apps/desktop/src-tauri/src/windows.rs:361-374 | a registered path gets its id back with nothing changed; a new path gets the counter value, is appended once, and the counter advances by one modulo 2^32; paths stay distinct |
| Windows.LookupAppend | apps/desktop/src-tauri/src/windows.rs:365-370 | registering a new path makes its lookup succeed and leaves every other lookup unchanged |
| Windows.ParseU32 | apps/desktop/src-tauri/src/windows.rs:166 | `parse::<u32>`: "" is the only input that fails as empty; the parse succeeds exactly for an optional '+' and digits worth less than 2^32, with that value; digits worth 2^32 or more fail with the overflow error |
| Windows.CheckedDigits | apps/desktop/src-tauri/src/windows.rs:166 | the digit loop of `parse::<u32>` from the left: a success means every character is a digit and the value is below 2^32; on an all-digit string it gives the value or the overflow error |
| Windows.OverflowBeforeLaterText | apps/desktop/src-tauri/src/windows.rs:166 | once the digits read so far are worth 2^32 or more, the parse fails with the overflow error whatever text follows |
| Windows.InvalidDigitBeforeOverflow | apps/desktop/src-tauri/src/windows.rs:166 | a non-digit met while the digits before it still fit fails with the invalid-digit error whatever text follows |
| Windows.EditorLabelParse | apps/desktop/src-tauri/src/windows.rs:163-168 | "editor-" followed by text without an 'e' names the editor its number parses to, or fails with that parse's error |
| Windows.OverflowReportedFirst | apps/desktop/src-tauri/src/windows.rs:163-168 | "editor-99999999999x" is rejected with the overflow error, because the tenth digit overflows before the 'x' is read |
| Windows.InvalidDigitReportedFirst | apps/desktop/src-tauri/src/windows.rs:163-168 | "editor-9x999999999999" is rejected with the invalid-digit error, because the 'x' is read before any overflow |
| Windows.PrefixedLabel | apps/desktop/src-tauri/src/windows.rs:163-187 | the error is an unknown label exactly when none of the four prefixes starts the text, and then it carries the text; an "editor-" text parses only to an editor and a "window-capture-occluder-" text only to an occluder |
| Windows.FromStr | apps/desktop/src-tauri/src/windows.rs:150-189 | a label is unknown exactly when it is no fixed label and has none of the four prefixes; a fixed label always parses; a failure is never a fixed label |
| Windows.Label | apps/desktop/src-tauri/src/windows.rs:192-215 | the `Display` text of each window definition; `LabelRoundTrip` and `LabelInjective` state that it parses back to the same definition and that no two definitions share one |
| Windows.MonitorOf | apps/desktop/src-tauri/src/windows.rs:50-66 | a display's logical bounds, or the fallback monitor when it reports none; `Fallback` states the fallback |
| Windows.CenterPosition | apps/desktop/src-tauri/src/windows.rs:76-80 | the centred position; `CenteredMargins` states the equal margins |
| Windows.BottomCenterPosition | apps/desktop/src-tauri/src/windows.rs:82-91 | the bottom-centred position; `BottomCenteredMargins` states where it sits |
| Windows.Intersects | apps/desktop/src-tauri/src/windows.rs:1468-1522 | `intersects` on integer bounds, false for a display without bounds; `IntersectsByCorner` states the corner test |
| Magnifier.ShapeCodesDistinct | crates/rendering/src/layers/magnifier.rs:275-281 | the three shapes map to three different shader codes |
| Magnifier.HexPair | crates/rendering/src/layers/magnifier.rs:289-291 | `u8::from_str_radix(pair, 16)` accepts a pair exactly when it is two hex digits or '+' and one hex digit |
| Magnifier.ParseDigits | crates/rendering/src/layers/magnifier.rs:285-298 | only six or eight digits can parse, and six digits give full alpha |
| Magnifier.ParseHexColor | crates/rendering/src/layers/magnifier.rs:283-299 | a colour is returned only when six or eight characters remain after the leading '#'s, with full alpha for six |
| Magnifier.HexByte | crates/rendering/src/layers/magnifier.rs:289-291 | a byte prints as two hex digits whose base-16 value is the byte |
| Magnifier.HexPairByte | crates/rendering/src/layers/magnifier.rs:289-291 | a printed byte reads back as that byte |
| Magnifier.HexRoundTrip | crates/rendering/src/layers/magnifier.rs:283-299 | "#rrggbbaa" printed from a colour parses back to that colour |
| Magnifier.SixDigitsOpaque | crates/rendering/src/layers/magnifier.rs:292-296 | "#rrggbb" parses to the colour with alpha 255 |
| Magnifier.HexRejections | crates/rendering/src/layers/magnifier.rs:285-291 | a three-digit colour and a non-hex pair are rejected |
| Magnifier.LeadingHashesIgnored | crates/rendering/src/layers/magnifier.rs:284 | any number of leading '#' is stripped: "##" + h reads as h does |
| Magnifier.HashedDigits | crates/rendering/src/layers/magnifier.rs:284 | dropping the '#' of "#" + digits leaves the digits |
| Magnifier.ActiveSegments | crates/rendering/src/layers/magnifier.rs:52-55 | exactly the enabled segments with start <= time <= end are kept |
| Magnifier.ActiveUniformsOfActiveSegments | crates/rendering/src/layers/magnifier.rs:52-81 | the active list has one uniform per active segment, in timeline order, each computed from its segment |
| Magnifier.MagnifierLayer.Prepare | crates/rendering/src/layers/magnifier.rs:42-91 | the active list is rebuilt from the timeline's segments; the buffer is written, and the cache updated, only when the first active uniform differs from the cached one |
| Magnifier.NoTimelineNoMagnifier | crates/rendering/src/layers/magnifier.rs:45-50 | without a timeline no magnifier is active |
| EditorProject.SegmentsOf | apps/desktop/src/routes/editor/Timeline/MagnifierTrack.tsx:54 | an absent timeline or track gives no segments, a present track gives its segments |
| MagnifierTrack.FirstCovering | apps/desktop/src/routes/editor/Timeline/MagnifierTrack.tsx:57-59 | `find` returns the first segment whose closed interval holds the time, and none when no segment does |
| MagnifierTrack.NewSegmentDetails | apps/desktop/src/routes/editor/Timeline/MagnifierTrack.tsx:46-71 | a proposal exists if and only if the magnifier track is hovered at a preview time no segment covers; it starts half a second before, not below 0, and is one second long, cut at the recording's end |
| MagnifierTrack.ProposalCoversPreviewTime | apps/desktop/src/routes/editor/Timeline/MagnifierTrack.tsx:63-70 | for a preview time inside the recording the proposal lies inside the recording and contains the preview time |
| MagnifierTrack.NewSegment | apps/desktop/src/routes/editor/Timeline/MagnifierTrack.tsx:79-89 | the new segment has the proposal's bounds and is an enabled circle |
| MagnifierTrack.Appended | apps/desktop/src/routes/editor/Timeline/MagnifierTrack.tsx:94 | the corrected update keeps the existing segments (none when absent) and adds the new one last |
| MagnifierTrack.ProducedAppendAddsNothing | apps/desktop/src/routes/editor/Timeline/MagnifierTrack.tsx:91-95 | as written, the `produce`-wrapped update leaves the track unchanged, which differs from the intended append |
| MagnifierTrack.AppendedKeepsExisting | apps/desktop/src/routes/editor/Timeline/MagnifierTrack.tsx:94 | the corrected append keeps every existing segment in place and adds exactly the proposed one at the end |
| MagnifierTrack.CreateSegmentAsWritten | apps/desktop/src/routes/editor/Timeline/MagnifierTrack.tsx:73-96 | as written, creation never changes the timeline, and the store path throws exactly when there is a proposal but no timeline |
| MagnifierTrack.CreateSegment | apps/desktop/src/routes/editor/Timeline/MagnifierTrack.tsx:73-96 | without a proposal nothing changes; with a proposal but no timeline the store throws; otherwise the proposed segment is appended; the editor state is untouched |
| MagnifierTrack.CreatedSegmentBlocksProposal | apps/desktop/src/routes/editor/Timeline/MagnifierTrack.tsx:57-61 | after a creation the new segment covers the preview time, so no second segment is proposed there |
| MagnifierTrack.SegmentDoubleClick | apps/desktop/src/routes/editor/Timeline/MagnifierTrack.tsx:98-103 | a double click clears the selection and changes nothing else |
| MagnifierTrack.ShapeLabelsDistinct | apps/desktop/src/routes/editor/Timeline/MagnifierTrack.tsx:105-116 | different shapes show different labels |
| MagnifierTrack.ShapeLabel | apps/desktop/src/routes/editor/Timeline/MagnifierTrack.tsx:105-116 | the label shown for each shape; `ShapeLabelsDistinct` states that they differ |
| MagnifierTrack.ProducedAppend | apps/desktop/src/routes/editor/Timeline/MagnifierTrack.tsx:91-95 | the track as the `produce`-wrapped update leaves it; `ProducedAppendAddsNothing` states that nothing is added |
| MagnifierSegmentConfig.SegmentIndex | apps/desktop/src/routes/editor/MagnifierSegmentConfig.tsx:14-20 | a magnifier selection gives its first index; no selection, another track's selection or an empty one gives -1 |
| MagnifierSegmentConfig.SelectedSegment | apps/desktop/src/routes/editor/MagnifierSegmentConfig.tsx:22-26 | a segment is found if and only if the index is not negative and the track holds it, and it is the segment at that index |
| MagnifierSegmentConfig.WithField | apps/desktop/src/routes/editor/MagnifierSegmentConfig.tsx:28-33 | the edited field takes the new value and every other field keeps its value |
| MagnifierSegmentConfig.ReplaceAt | apps/desktop/src/routes/editor/MagnifierSegmentConfig.tsx:31 | the store write replaces the segment at the index and keeps all others in place |
| MagnifierSegmentConfig.WithAxis | apps/desktop/src/routes/editor/MagnifierSegmentConfig.tsx:40-43 | the spread sets the named axis of the centre and keeps the other |
| MagnifierSegmentConfig.WithPartialAxis | apps/desktop/src/routes/editor/MagnifierSegmentConfig.tsx:53-56 | the spread sets the named axis of the size and keeps the other, possibly missing |
| MagnifierSegmentConfig.AxisEditsCompose | apps/desktop/src/routes/editor/MagnifierSegmentConfig.tsx:35-46 | setting one axis twice keeps the second value, and edits to the two axes commute |
| MagnifierSegmentConfig.SizeFilledByBothAxes | apps/desktop/src/routes/editor/MagnifierSegmentConfig.tsx:48-59 | setting both axes of a missing size gives a complete size |
| MagnifierSegmentConfig.WithSegment | apps/desktop/src/routes/editor/MagnifierSegmentConfig.tsx:31 | writing a segment keeps a timeline with a track |
| MagnifierSegmentConfig.UpdateSegment | apps/desktop/src/routes/editor/MagnifierSegmentConfig.tsx:28-33 | with a negative index nothing is written; when the track lacks the index the store throws and nothing changes; otherwise only the selected segment's field changes |
| MagnifierSegmentConfig.UpdateCenter | apps/desktop/src/routes/editor/MagnifierSegmentConfig.tsx:35-46 | only with a selected segment, its centre gets one axis replaced; nothing else changes |
| MagnifierSegmentConfig.UpdateSize | apps/desktop/src/routes/editor/MagnifierSegmentConfig.tsx:48-59 | only with a selected segment, its size gets one axis set; nothing else changes |
| MagnifierSegmentConfig.EditIsShown | apps/desktop/src/routes/editor/MagnifierSegmentConfig.tsx:22-33 | after an edit the selection still points at the edited segment, which shows the new value |
| MagnifierSegmentConfig.EditKeepsOtherSegments | apps/desktop/src/routes/editor/MagnifierSegmentConfig.tsx:28-33 | an edit leaves every other segment unchanged |
| WebVtt.DecimalShort | apps/web/app/api/video/transcribe/route.ts:251-254 | clock fields below 10, 100 and 1000 print in at most one, two and three digits |
| WebVtt.ClockOf | apps/web/app/api/video/transcribe/route.ts:250-254 | the UTC clock fields are in range and add up to the time of day in milliseconds |
| WebVtt.Stamp | apps/web/app/api/video/transcribe/route.ts:256 | a timestamp is 12 characters long |
| WebVtt.FormatTimestamp | apps/web/app/api/video/transcribe/route.ts:249-257 | every timestamp is 12 characters long |
| WebVtt.PaddedField | apps/web/app/api/video/transcribe/route.ts:251-254 | a zero-padded field that fits its width holds exactly that many digits, worth the field's value |
| WebVtt.StampFieldsRead | apps/web/app/api/video/transcribe/route.ts:249-257 | the separators sit at positions 2, 5 and 8 and each field reads back as its value |
| WebVtt.StampRoundTrip | apps/web/app/api/video/transcribe/route.ts:249-257 | a printed clock reading parses back to its total in milliseconds |
| WebVtt.TimestampRoundTrip | apps/web/app/api/video/transcribe/route.ts:249-257 | a timestamp parses back to the time of day it was made from |
| WebVtt.DayWraps | apps/web/app/api/video/transcribe/route.ts:250-251 | times a whole day apart print the same, because only UTC clock fields are printed |
| WebVtt.Texts | apps/web/app/api/video/transcribe/route.ts:224 | the group holds each word's text, in order |
| WebVtt.FirstClose | apps/web/app/api/video/transcribe/route.ts:227-232 | the word found is one after which the cue closes |
| WebVtt.FirstCloseIsFirst | apps/web/app/api/video/transcribe/route.ts:222-243 | no word before the first closing point closes the cue |
| WebVtt.CueWithinEight | apps/web/app/api/video/transcribe/route.ts:231 | a cue closes within eight words when it closes at all |
| WebVtt.CueSizes | apps/web/app/api/video/transcribe/route.ts:222-243 | every cue holds one to eight words, and the first starts when the utterance's first word does |
| WebVtt.ReadsOn | apps/web/app/api/video/transcribe/route.ts:224-239 | one group's words followed by the words read after it are the words read from the group's start |
| WebVtt.CuesKeepWordOrder | apps/web/app/api/video/transcribe/route.ts:216-244 | the cues' words, in order, are the utterance's words as far as the last closing point |
| WebVtt.UnclosedTailDropped | apps/web/app/api/video/transcribe/route.ts:222-243 | an utterance ending in '?' with no pause gets no cue at all: its words are dropped |
| WebVtt.FlushedCuesUnfold | apps/web/app/api/video/transcribe/route.ts:233-241 | with the flush, a closing point makes the words up to it the first cue |
| WebVtt.FlushedCuesKeepAllWords | apps/web/app/api/video/transcribe/route.ts:216-244 | with the flush, every word of the utterance is captioned, in order |
| WebVtt.FlushedLast | apps/web/app/api/video/transcribe/route.ts:222-243 | with the flush and no closing point, the single cue holds all the words |
| WebVtt.FlushedHead | apps/web/app/api/video/transcribe/route.ts:222-243 | a first cue followed by all later words holds all the words |
| WebVtt.FlushedLastSize | apps/web/app/api/video/transcribe/route.ts:231 | with no closing point at most eight words remain, so the flushed cue fits |
| WebVtt.FlushedCueSizes | apps/web/app/api/video/transcribe/route.ts:222-243 | with the flush, every cue still holds one to eight words |
| WebVtt.FlushCaptionsTail | apps/web/app/api/video/transcribe/route.ts:222-243 | with the flush the utterance ending in '?' is captioned as one cue |
| WebVtt.RenderNext | apps/web/app/api/video/transcribe/route.ts:236-237 | writing one more cue adds its block, numbered after the others |
| WebVtt.RenderCuesAppend | apps/web/app/api/video/transcribe/route.ts:214-237 | caption numbers run on from one utterance to the next |
| WebVtt.RenderCuesFront | apps/web/app/api/video/transcribe/route.ts:236-237 | the first block carries the starting number and the rest follow from the next |
| WebVtt.WebVttFile | apps/web/app/api/video/transcribe/route.ts:212-247 | the file starts with the "WEBVTT" header, and there is no file exactly when an utterance has no words |
| WebVtt.FormatToWebVtt | apps/web/app/api/video/transcribe/route.ts:212-247 | the nested loops build exactly the specified caption file, failing exactly on an utterance without words |
| WebVtt.UtteranceCues | apps/web/app/api/video/transcribe/route.ts:217-243 | the inner loop produces exactly the specified cues of the utterance |
| WebVtt.WriteCues | apps/web/app/api/video/transcribe/route.ts:233-237 | the writes are the numbered blocks of the cues, and the number advances by the number of cues |
| WebVtt.AppendBlock | apps/web/app/api/video/transcribe/route.ts:236 | appending a block extends the rendering by one cue |
| WebVtt.SkipWord | apps/web/app/api/video/transcribe/route.ts:227-232 | a word the cue does not close after leaves the first closing point unchanged |
| WebVtt.CloseStep | apps/web/app/api/video/transcribe/route.ts:233-241 | closing the group at the first closing point yields its cue, then the cues of the rest |
| WebVtt.NoCloseLeft | apps/web/app/api/video/transcribe/route.ts:222-243 | with no closing point left, the remaining words make no cue |
| WebVtt.CuesFrom | apps/web/app/api/video/transcribe/route.ts:216-244 | the cues of one utterance as written; `CueSizes`, `CuesKeepWordOrder` and `UnclosedTailDropped` state them |
| WebVtt.FlushedCues | apps/web/app/api/video/transcribe/route.ts:222-243 | the cues with the remaining words flushed into a last cue; `FlushedCuesKeepAllWords` and `FlushedCueSizes` state them |
| WebVtt.ParseTimestamp | apps/web/app/api/video/transcribe/route.ts:249-257 | reads a timestamp's fields back as milliseconds, the inverse `TimestampRoundTrip` uses |
| Transcription.Refusal | apps/web/app/api/video/transcribe/route.ts:34-97 | a request goes ahead if and only if the configuration is complete, both ids are given, the video exists and is neither complete nor in progress; each failing guard gives its own answer, in source order |
| Transcription.Captions | apps/web/app/api/video/transcribe/route.ts:109-180 | there are captions if and only if storage, merge, recognition and upload all succeed and no utterance is empty; they are the WebVTT file and are not empty |
| Transcription.Transcribe | apps/web/app/api/video/transcribe/route.ts:259-279 | the transcript is the caption file when recognition succeeds, and "" otherwise |
| Transcription.Backend.SetStatus | apps/web/app/api/video/transcribe/route.ts:99-102 | the update sets the status of an existing video only, and logs the write |
| Transcription.Early | apps/web/app/api/video/transcribe/route.ts:34-97 | a request goes ahead exactly when the lookup succeeds and nothing refuses it; a failed lookup throws once the configuration and ids are present; every other early answer is the refusal |
| Transcription.Backend.Get | apps/web/app/api/video/transcribe/route.ts:28-210 | a request answered early changes nothing; otherwise the reply, the status, the stored captions and the status writes are those a run with these service outcomes produces |
| Transcription.Backend.Proceed | apps/web/app/api/video/transcribe/route.ts:99-209 | after the guards: PROCESSING when that update succeeds; then COMPLETE with the captions stored under the video's key, or ERROR when a step inside the `try` fails and the ERROR update succeeds, or still PROCESSING after a throw outside it |
| Transcription.CaptionsAreTranscript | apps/web/app/api/video/transcribe/route.ts:166-179 | the uploaded captions are the transcript, and there are none exactly when it is empty or the upload fails |
| Transcription.Settled | apps/web/app/api/video/transcribe/route.ts:99-200 | no status is written exactly when the PROCESSING update fails; COMPLETE exactly when the captions are stored and that update succeeds; PROCESSING is left behind exactly when the bucket set-up or the ERROR update fails; with those calls succeeding the video never stays PROCESSING |
| Transcription.Outcome | apps/web/app/api/video/transcribe/route.ts:99-209 | the reply matches the status left behind: UPLOADED exactly when COMPLETE, the failure answer exactly when ERROR, a throw otherwise |
| Transcription.After | apps/web/app/api/video/transcribe/route.ts:99-200 | only the requested video's status changes, to the status the run leaves behind |
| Transcription.RepeatAfterSettled | apps/web/app/api/video/transcribe/route.ts:87-97 | after a success, or a throw that left PROCESSING, a repeat is refused as already done; after a clean failure, or when no status was written, it goes ahead again |
| Transcription.StuckStaysProcessing | apps/web/app/api/video/transcribe/route.ts:87-107 | when the bucket set-up throws after PROCESSING was written, the request throws and every later request is refused as already in progress |
| Transcription.RunningIsExclusive | apps/web/app/api/video/transcribe/route.ts:87-102 | while a request runs, every other request for the video is refused |
| CropperTool.MoveKeepsSize | apps/desktop/src/components/CropperTool.tsx:48-59 | `move` makes each given coordinate the left (top) edge and keeps that axis's extent; a null axis is untouched; width and height never change |
| CropperTool.ResizeKeepsOrigin | apps/desktop/src/components/CropperTool.tsx:60-67 | `resize` gives the box the requested extents and the point at the fractional origin stays where it was |
| CropperTool.ScaleKeepsOrigin | apps/desktop/src/components/CropperTool.tsx:104-108 | `scale` multiplies both extents by the factor about a fixed origin point |
| CropperTool.MaxExtent | apps/desktop/src/components/CropperTool.tsx:74-93 | the room is the distance to the left (top) edge for origin 1, to the right (bottom) edge for origin 0, twice the nearer one for origin 0.5, and 0 for any other origin |
| CropperTool.RatioConstrainedShape | apps/desktop/src/components/CropperTool.tsx:109-121 | with grow 'height' the width is kept and height = width / ratio; with 'width' the height is kept and width = height * ratio; the origin point does not move |
| CropperTool.ShrinkAboutCentre | apps/desktop/src/components/CropperTool.tsx:104-108 | scaling about the centre by a factor in [0, 1] keeps the box ordered and centred and does not enlarge it |
| CropperTool.ShrinkWidthTo | apps/desktop/src/components/CropperTool.tsx:95-98 | scaling down to a smaller width reaches that width without enlarging the height or moving the centre |
| CropperTool.ShrinkHeightTo | apps/desktop/src/components/CropperTool.tsx:99-102 | scaling down to a smaller height reaches that height without enlarging the width or moving the centre |
| CropperTool.InsideByCentre | apps/desktop/src/components/CropperTool.tsx:74-93 | an ordered box lies on the canvas if and only if each extent fits the room that origin 0.5 allows |
| CropperTool.BoundaryConstrainedFits | apps/desktop/src/components/CropperTool.tsx:68-103 | constraining about the centre a box whose centre is on the canvas gives an ordered box on the canvas with the same centre and no larger extents, and leaves a box already on the canvas unchanged |
| CropperTool.DragEdgesRespectsMask | apps/desktop/src/components/CropperTool.tsx:327-337 | a handle drag moves only the edges flagged in the mask; a moved edge follows the pointer but stops 20 units short of the opposite edge |
| CropperTool.BodyDragClamps | apps/desktop/src/components/CropperTool.tsx:343-348 | a body drag keeps the size, follows the pointer where there is room, and keeps a box that fits the canvas on it |
| CropperTool.BodyDragKeepsSize | apps/desktop/src/components/CropperTool.tsx:343-350 | a whole drag step of the body, boundary constraint included, only translates a fitting box and keeps it on the canvas |
| CropperTool.HandleDragStaysOnCanvas | apps/desktop/src/components/CropperTool.tsx:326-350 | a handle drag whose dragged centre is on the canvas ends with an ordered box on the canvas, centred where the dragged edges put it |
| CropperTool.FirstHandleAt | apps/desktop/src/components/CropperTool.tsx:261-278 | no handle is found if and only if none is within 16 units on both axes; otherwise the one found is the first hit in table order |
| CropperTool.Box.constructor | apps/desktop/src/components/CropperTool.tsx:36-41 | a new box holds the given corners |
| CropperTool.Box.Move | apps/desktop/src/components/CropperTool.tsx:48-59 | the box becomes the moved box |
| CropperTool.Box.Resize | apps/desktop/src/components/CropperTool.tsx:60-67 | the box takes the signed extents and keeps its origin point |
| CropperTool.Box.ConstrainToBoundary | apps/desktop/src/components/CropperTool.tsx:68-103 | the box becomes the boundary-constrained box: scaled to fit the width, then the height, with limits measured once |
| CropperTool.Box.Scale | apps/desktop/src/components/CropperTool.tsx:104-108 | the box becomes the scaled box |
| CropperTool.Box.ConstrainToRatio | apps/desktop/src/components/CropperTool.tsx:109-121 | the box becomes the ratio-constrained box |
| CropperTool.CanvasSelection.constructor | apps/desktop/src/components/CropperTool.tsx:144-153 | the controller starts with the box (100, 100)-(300, 200), not dragging, no handle and the default cursor |
| CropperTool.CanvasSelection.GetHandleAtPosition | apps/desktop/src/components/CropperTool.tsx:261-278 | the loop returns the first handle, in table order, whose hit square holds the point, and none only when no handle's does |
| CropperTool.CanvasSelection.MouseDown | apps/desktop/src/components/CropperTool.tsx:290-308 | a hit handle wins over the body and starts a handle drag; otherwise a point in the box (edges included) starts a body drag with the move cursor; otherwise nothing changes |
| CropperTool.CanvasSelection.MouseMove | apps/desktop/src/components/CropperTool.tsx:310-369 | while dragging, the box becomes the dragged box and the drag restarts from the pointer; without a drag start nothing changes; otherwise only the hovered handle and cursor are updated |
| CropperTool.CanvasSelection.DragTo | apps/desktop/src/components/CropperTool.tsx:319-352 | the box follows the pointer from the last drag position and the drag start moves to the pointer |
| CropperTool.CanvasSelection.DraggedBox | apps/desktop/src/components/CropperTool.tsx:322-350 | the working box ends as the dragged box: handle edges or clamped move, then the boundary constraint |
| CropperTool.CanvasSelection.DragHandleEdges | apps/desktop/src/components/CropperTool.tsx:326-342 | the flagged edges follow the pointer up to the 20-unit gap, then a set ratio is restored about the centre, growing width for vertical handles and height otherwise |
| CropperTool.CanvasSelection.MouseUp | apps/desktop/src/components/CropperTool.tsx:371-376 | mouse-up clears dragging, the drag start and the active handle and resets the cursor; the box stays |
| CropperTool.Moved | apps/desktop/src/components/CropperTool.tsx:48-59 | the box after `move`; `MoveKeepsSize` states it |
| CropperTool.Resized | apps/desktop/src/components/CropperTool.tsx:60-67 | the box after `resize`; `ResizeKeepsOrigin` states it |
| CropperTool.Scaled | apps/desktop/src/components/CropperTool.tsx:104-108 | the box after `scale`; `ScaleKeepsOrigin` states it |
| CropperTool.BoundaryConstrained | apps/desktop/src/components/CropperTool.tsx:68-103 | the box after `constrainToBoundary`; `BoundaryConstrainedFits` states it |
| CropperTool.RatioConstrained | apps/desktop/src/components/CropperTool.tsx:109-121 | the box after `constrainToRatio`; `RatioConstrainedShape` states it |
| CropperTool.DragEdges | apps/desktop/src/components/CropperTool.tsx:327-337 | the box a handle drag produces; `DragEdgesRespectsMask` and `HandleDragStaysOnCanvas` state it |
| CropperTool.BodyDragged | apps/desktop/src/components/CropperTool.tsx:343-348 | the box a body drag produces; `BodyDragClamps` and `BodyDragKeepsSize` state it |
| Handles.HandleTable | apps/desktop/src/components/Cropper.tsx:22-31 | there are exactly 8 handles, one per direction; each mask flags exactly the edges its direction names; each anchor is 0, 0.5 or 1 by its letters; no handle moves two opposite edges |
| Handles.HandlesIndexed | apps/desktop/src/components/Cropper.tsx:22-31 | the table has 8 handles with distinct directions, each at its direction's index |
| Handles.HandlesMatchDirections | apps/desktop/src/components/CropperTool.tsx:18-27 | every handle's mask and position agree with its compass letters, so corner handles set two flags and edge handles one |
| CssBox.ResolveAll | apps/desktop/src/components/AreaOccluder.tsx:13-50 | each overlay style resolves to its own rectangle, in order |
| CssBox.CoverCountFive | apps/desktop/src/components/AreaOccluder.tsx:11-52 | the number of the area and four bands covering a point is the sum over the five |
| AreaOccluder.OverlaysTileContainer | apps/desktop/src/components/AreaOccluder.tsx:13-50 | for an area inside the container, every point of the container is covered by exactly one of the area and the top, left, right and bottom bands: the bands dim everything else, nothing twice |
| AreaOccluder.Overlays | apps/desktop/src/components/AreaOccluder.tsx:13-50 | the four band styles around the area; `OverlaysTileContainer` states that they tile the container with the area |
| Occluder.SameBandsAsAreaOccluder | apps/desktop/src/components/Occluder.tsx:7-35 | the viewport-anchored bands resolve to the same rectangles as AreaOccluder's bands for a container the size of the viewport, so they tile it too |
| Occluder.Overlays | apps/desktop/src/components/Occluder.tsx:7-35 | the four viewport-anchored band styles; `SameBandsAsAreaOccluder` states that they are AreaOccluder's bands |
| AreaSelection.Clamp | apps/desktop/src/routes/capture-area-selection/selection.tsx:8 | the result lies in `[lo, hi]` when that range is non-empty, equals the value when it already lies there, and is `lo` when `hi < lo` |
| AreaSelection.ResizeMovesNamedEdges | apps/desktop/src/routes/capture-area-selection/selection.tsx:38-50 | a west resize keeps the right edge and a north resize the bottom edge; without west or north the left or top edge stays; an extent no named letter touches is unchanged |
| AreaSelection.DirectionLetters | apps/desktop/src/routes/capture-area-selection/selection.tsx:6 | no direction names both east and west, or both north and south, so at most one horizontal and one vertical edge moves |
| AreaSelection.DragStaysInWindow | apps/desktop/src/routes/capture-area-selection/selection.tsx:27-31 | a drag keeps a selection that lies in the window inside the window, with its size unchanged |
| AreaSelection.ResizeStaysInWindow | apps/desktop/src/routes/capture-area-selection/selection.tsx:32-53 | a resize in any of the eight directions keeps a selection that lies in the window inside it and at least 10 pixels on a side |
| AreaSelection.Selection.constructor | apps/desktop/src/routes/capture-area-selection/selection.tsx:11-21 | the selection starts a quarter of the window in from the top left, half the window on each side, with no gesture in progress; it lies in any window at least 20 pixels on a side |
| AreaSelection.Selection.BodyMouseDown | apps/desktop/src/routes/capture-area-selection/selection.tsx:86-88 | a mouse-down whose target is the selection itself starts a drag; one on a child leaves the state as it was |
| AreaSelection.Selection.HandleMouseDown | apps/desktop/src/routes/capture-area-selection/selection.tsx:97-101 | a handle's mouse-down starts a resize in that handle's direction and leaves the rectangle and the drag flag unchanged |
| AreaSelection.Selection.MouseMove | apps/desktop/src/routes/capture-area-selection/selection.tsx:26-55 | a drag moves the rectangle as the drag rule says; otherwise a resize with a direction resizes it; otherwise nothing moves; the gesture flags are kept and a selection in the window stays in it |
| AreaSelection.Selection.ResizeBy | apps/desktop/src/routes/capture-area-selection/selection.tsx:33-53 | the resize branch, reading the position once before the edges move, yields exactly the edge-by-edge resized frame (east, south, west, north) |
| AreaSelection.Selection.MouseUp | apps/desktop/src/routes/capture-area-selection/selection.tsx:58-62 | mouse-up ends any drag or resize and clears the direction, leaving the rectangle where it is |
| AreaSelection.DraggedFrame | apps/desktop/src/routes/capture-area-selection/selection.tsx:27-31 | the frame after a body drag; `DragStaysInWindow` states it |
| AreaSelection.ResizedFrame | apps/desktop/src/routes/capture-area-selection/selection.tsx:38-50 | the frame after a resize; `ResizeMovesNamedEdges` and `ResizeStaysInWindow` state it |
| Popover.PopoverLogic.constructor | apps/desktop/src/routes/solarium/components/SolariumPopover2.tsx:38-42 | the internal open state starts at `defaultOpen`, or closed when it is undefined, and nothing has been notified |
| Popover.PopoverLogic.IsOpen | apps/desktop/src/routes/solarium/components/SolariumPopover2.tsx:44 | a defined `open` prop decides; otherwise the internal state does |
| Popover.PopoverLogic.SetOpenProp | apps/desktop/src/routes/solarium/components/SolariumPopover.tsx:42 | a new `open` prop from the parent replaces the old one and leaves the internal state and the notifications alone |
| Popover.PopoverLogic.Open | apps/desktop/src/routes/solarium/components/SolariumPopover2.tsx:46-51 | an uncontrolled popover becomes open; a controlled one keeps its state; the parent's callback, when given, is told `true` |
| Popover.PopoverLogic.Close | apps/desktop/src/routes/solarium/components/SolariumPopover2.tsx:53-58 | an uncontrolled popover becomes closed; a controlled one keeps its state; the parent's callback, when given, is told `false` |
| Popover.PopoverLogic.RequestOpenChange | apps/desktop/src/routes/solarium/components/SolariumPopover.tsx:127-133 | the wrapper forwards a request to open or close: an uncontrolled popover ends in the requested state and the parent is told the requested value |
| Popover.PopoverLogic.KeyDown | apps/desktop/src/routes/solarium/components/SolariumPopover2.tsx:155-166 | Escape while open closes the popover and tells the parent `false`; any other key, or any key while closed, changes nothing |
| Popover.UseContext | apps/desktop/src/routes/solarium/components/SolariumPopover.tsx:107-114 | a part renders exactly when it is inside its provider; outside, it fails with that part's own error message (wrapper, trigger and content) |
| RecordingOptions.FirstNamed | apps/desktop/src/routes/solarium/cap-main.tsx:87-94 | the position found holds a camera the id names and no earlier camera matches; no position means no camera matches |
| RecordingOptions.FindCamera | apps/desktop/src/routes/solarium/cap-main.tsx:87-94 | the camera found is in the list, is named by the id (device id or model id) and is the first such; nothing is found exactly when no camera matches |
| RecordingOptions.SelectedCamera | apps/desktop/src/routes/solarium/cap-main.tsx:680-683 | no stored choice gives no camera; a stored choice gives the camera the lookup finds |
| RecordingOptions.CameraChoice | apps/desktop/src/routes/solarium/cap-main.tsx:1260-1265 | no camera dispatches null; a camera with a non-empty model id dispatches that model id, otherwise its device id |
| RecordingOptions.ChoiceIsFound | apps/desktop/src/routes/solarium/recording-controls.tsx:202-212 | a camera picked from the list is found again once its choice is stored: the lookup succeeds, and the camera found and the one picked are both named by the choice |
| RecordingOptions.DeviceChoiceFindsSame | apps/desktop/src/routes/solarium/recording-controls.tsx:231-235 | when device ids are distinct, a camera stored by its device id is found again as exactly itself |
| RecordingOptions.NextTargetMode | apps/desktop/src/routes/solarium/recording-controls.tsx:144-147 | pressing the active mode's button clears the target mode; pressing another sets it to that mode |
| RecordingOptions.TogglePairs | apps/desktop/src/routes/solarium/cap-main.tsx:710-716 | pressing the same button twice restores the target mode when it was unset or that mode, and leaves it unset when it was another mode |
| RecordingOptions.Options.constructor | apps/desktop/src/routes/solarium/cap-main.tsx:563-564 | the options hold the given mode, target mode and camera choice, with no overlay command sent |
| RecordingOptions.Options.ToggleTargetMode | apps/desktop/src/routes/solarium/cap-main.tsx:710-716 | while recording nothing changes; otherwise the target mode toggles and one command goes out: open overlays when a mode is now set, close them when cleared |
| RecordingOptions.Options.SelectMode | apps/desktop/src/routes/solarium/recording-controls.tsx:109 | a mode button sets the recording mode to its own and nothing else |
| SolariumTabs.RubberBand | apps/desktop/src/routes/solarium/SolariumTabs.tsx:120-134 | a position inside the range is returned unchanged |
| SolariumTabs.RubberBandStaysOutside | apps/desktop/src/routes/solarium/SolariumTabs.tsx:120-134 | the banded position lies in the range exactly when the raw one does; below the range it stays below, above it stays above |
| SolariumTabs.Dist2 | apps/desktop/src/routes/solarium/SolariumTabs.tsx:142 | the squared distance to a tab's centre is never negative |
| SolariumTabs.NearestIndex | apps/desktop/src/routes/solarium/SolariumTabs.tsx:140-147 | the index chosen is a tab no other tab is nearer than, and every earlier tab is strictly farther: ties go to the first |
| SolariumTabs.ClosestTab | apps/desktop/src/routes/solarium/SolariumTabs.tsx:136-149 | with no measured tab the current value is kept; otherwise the key of the first nearest tab |
| SolariumTabs.FindClosestTab | apps/desktop/src/routes/solarium/SolariumTabs.tsx:136-149 | the loop keeping the best distance so far (starting from infinity and the current value) returns the first nearest tab's key, or the current value with no tabs |
| SolariumTabs.Lookup | apps/desktop/src/routes/solarium/SolariumTabs.tsx:190 | a box found is stored under that key; none is found only when no tab has the key |
| SolariumTabs.DragTarget | apps/desktop/src/routes/solarium/SolariumTabs.tsx:183-205 | only the strip's own axis moves; without a measured start tab the offset is the raw displacement; with one, the tab's leading edge is rubber-banded into the range from 0 to the container extent minus the tab extent |
| SolariumTabs.DragFollowsInside | apps/desktop/src/routes/solarium/SolariumTabs.tsx:189-202 | while the dragged tab stays within the strip the indicator moves exactly with the pointer; dragged past either end it stays beyond that end |
| SolariumTabs.Tabs.constructor | apps/desktop/src/routes/solarium/SolariumTabs.tsx:36-51 | the strip starts with no measured tabs, no drag, no movement, a zero offset, no start value or candidate, and no callbacks made |
| SolariumTabs.Tabs.PointerDown | apps/desktop/src/routes/solarium/SolariumTabs.tsx:153-170 | a non-primary button changes nothing; the primary one re-measures, starts a drag from the current value as start value and candidate, with no movement, zero offset and the pointer's start recorded |
| SolariumTabs.Tabs.PointerMove | apps/desktop/src/routes/solarium/SolariumTabs.tsx:172-219 | outside a drag nothing changes; during one the press turns into a drag once either displacement exceeds 5, the offset is the drag target, and once moved with a measured start tab the nearest tab becomes the candidate, `onSnap` firing only when it changes; a drag never turns back into a click |
| SolariumTabs.Tabs.DragMove | apps/desktop/src/routes/solarium/SolariumTabs.tsx:175-218 | the dragging branch: movement flag, offset, candidate and snap notifications as for the pointer move during a drag |
| SolariumTabs.Tabs.SnapNearest | apps/desktop/src/routes/solarium/SolariumTabs.tsx:208-218 | the tab nearest the projected centre of the start tab becomes the candidate, with `onSnap` when it changes; nothing else moves |
| SolariumTabs.Tabs.SnapTo | apps/desktop/src/routes/solarium/SolariumTabs.tsx:214-217 | the candidate becomes the given tab, and `onSnap` (when given) is called exactly when that changes the candidate |
| SolariumTabs.Tabs.PointerUp | apps/desktop/src/routes/solarium/SolariumTabs.tsx:221-252 | outside a drag nothing changes; otherwise the drag ends and resets, and the clicked tab (for a press) or the candidate (for a drag) is committed when it is a non-empty value other than the current one; at most one change is reported and never the current value |
| CapMain.Rows | apps/desktop/src/routes/solarium/cap-main.tsx:106-119 | one row per item, in order, each the item's fields joined by ':'; for a clean list each row starts with its first field, holds a ':' and no '|' |
| CapMain.Signature | apps/desktop/src/routes/solarium/cap-main.tsx:101-133 | an undefined list has no signature and a defined one always has one; the empty list's signature is the empty string |
| CapMain.WindowSignature | apps/desktop/src/routes/solarium/cap-main.tsx:101-121 | a window list has a signature exactly when it is defined |
| CapMain.DisplaySignature | apps/desktop/src/routes/solarium/cap-main.tsx:125-133 | a display list has a signature exactly when it is defined |
| CapMain.JoinAvoids | apps/desktop/src/routes/solarium/cap-main.tsx:118-120 | joining parts that lack a character with a different separator yields a string that lacks it too |
| CapMain.JoinStarts | apps/desktop/src/routes/solarium/cap-main.tsx:118 | a join starts with its first part and contains the separator once there are two parts |
| CapMain.SignatureDetermines | apps/desktop/src/routes/solarium/cap-main.tsx:101-133 | when no field holds ':' or '\|', every item has at least two fields and items are determined by their fields, equal signatures mean equal lists |
| CapMain.WindowSignatureDetermines | apps/desktop/src/routes/solarium/cap-main.tsx:624-630 | two separator-free window lists with the same signature are the same list, so the thumbnail refresh skipped on an equal signature misses no change |
| CapMain.DisplaySignatureDetermines | apps/desktop/src/routes/solarium/cap-main.tsx:633-639 | two separator-free display lists with the same signature are the same list |
| CapMain.Filter | apps/desktop/src/routes/solarium/cap-main.tsx:196-198 | the result is no longer than the input and holds exactly the targets the predicate keeps |
| CapMain.FilterAppend | apps/desktop/src/routes/solarium/cap-main.tsx:196-198 | filtering a concatenation is the concatenation of the filtered parts, so the kept targets stay in order |
| CapMain.FilterKeepsAll | apps/desktop/src/routes/solarium/cap-main.tsx:196-198 | a filter that accepts every target returns the list unchanged |
| CapMain.NormalizedQuery | apps/desktop/src/routes/solarium/cap-main.tsx:175-176 | the query is no longer than typed, holds no upper-case ASCII letter, and is blank exactly when the typed query is all whitespace |
| CapMain.TrimBlank | apps/desktop/src/routes/solarium/cap-main.tsx:175 | trimming leaves nothing exactly when every character is whitespace |
| CapMain.TrimStartBlank | apps/desktop/src/routes/solarium/cap-main.tsx:175 | trimming the start leaves nothing exactly when every character is whitespace |
| CapMain.TrimEndKeepsFirst | apps/desktop/src/routes/solarium/cap-main.tsx:175 | trimming the end of a string that starts with a non-space leaves something |
| CapMain.Search | apps/desktop/src/routes/solarium/cap-main.tsx:186-241 | a blank query returns the targets (none when not loaded); otherwise exactly the targets one of whose searched fields is non-empty and contains the query, lower-cased |
| CapMain.WindowFoundByOwner | apps/desktop/src/routes/solarium/cap-main.tsx:202-217 | a window whose owner name, lower-cased, contains the query is offered by the window menu's search |
| CapMain.SearchKeepsOrder | apps/desktop/src/routes/solarium/cap-main.tsx:186-241 | searching a concatenation is the concatenation of the searches: the order is kept and nothing is added |
| CapMain.Narrowed | apps/desktop/src/routes/solarium/cap-main.tsx:465-483 | undefined until the target query succeeded; all targets when the existing ids are not loaded; otherwise exactly the targets whose id still exists |
| CapMain.ExistingIds | apps/desktop/src/routes/solarium/cap-main.tsx:459-476 | no set for an unloaded list; otherwise exactly the ids in the list |
| CapMain.OfferedWindowsExist | apps/desktop/src/routes/solarium/cap-main.tsx:472-483 | every window the menu offers is a loaded target whose id is among the open windows |
| CapMain.Shown | apps/desktop/src/routes/solarium/cap-main.tsx:493-497 | nothing for an unloaded list; otherwise the first 20 items, or all when there are fewer |
| CapMain.ShownRecordings | apps/desktop/src/routes/solarium/cap-main.tsx:485-491 | the first 20 recordings, each carrying its own path and metadata, or nothing when not loaded |
| CapMain.Percent | apps/desktop/src/routes/solarium/cap-main.tsx:408-409 | 0 for a zero total; between 0 and 100 when no more than the total is uploaded; below 100 while unfinished |
| CapMain.FractionBounds | apps/desktop/src/routes/solarium/cap-main.tsx:409 | a non-negative part of a positive whole is a fraction in [0, 1], below 1 when smaller |
| CapMain.UploadProgress.constructor | apps/desktop/src/routes/solarium/cap-main.tsx:393-395 | no upload has progress at first |
| CapMain.UploadProgress.OnProgress | apps/desktop/src/routes/solarium/cap-main.tsx:400-412 | a finished upload's entry is removed; any other event sets that video's entry to its percentage; other entries stay |
| CapMain.ProgressInRange | apps/desktop/src/routes/solarium/cap-main.tsx:400-412 | progress events that never exceed their total keep every entry within 0 (inclusive) and 100 (exclusive) |
| CapMain.Reuploads.constructor | apps/desktop/src/routes/solarium/cap-main.tsx:396-398 | no recording is being re-uploaded at first |
| CapMain.Reuploads.Begin | apps/desktop/src/routes/solarium/cap-main.tsx:416-417 | starting a re-upload adds its path to the set |
| CapMain.Reuploads.End | apps/desktop/src/routes/solarium/cap-main.tsx:425-432 | whether the upload succeeded or failed, its path leaves the set and the recordings list is refetched once |
| CapMain.AfterEscape | apps/desktop/src/routes/solarium/cap-main.tsx:768-778 | Escape always leaves the query empty; a non-empty query is cleared with the box kept as it was, an empty one collapses the box |
| CapMain.TwoEscapesClose | apps/desktop/src/routes/solarium/cap-main.tsx:768-778 | two presses of Escape always leave the search box empty and collapsed |
| CapMain.MainWindow.constructor | apps/desktop/src/routes/solarium/cap-main.tsx:355-357 | the window starts on the home page with an empty, collapsed search |
| CapMain.MainWindow.OpenMenu | apps/desktop/src/routes/solarium/cap-main.tsx:718-725 | while recording nothing changes; otherwise the menu page opens with the search cleared and collapsed |
| CapMain.MainWindow.SearchKeyDown | apps/desktop/src/routes/solarium/cap-main.tsx:768-778 | the default is prevented exactly for Escape, which acts as the escape rule; other keys change nothing; the page stays |
| CapMain.FilteredDisplays | apps/desktop/src/routes/solarium/cap-main.tsx:186-199 | a blank query offers every loaded display; otherwise exactly the displays whose name or id matches |
| CapMain.FilteredWindows | apps/desktop/src/routes/solarium/cap-main.tsx:201-217 | a blank query offers every loaded window; otherwise exactly the windows whose name, owner name or id matches |
| CapMain.FilteredCaptures | apps/desktop/src/routes/solarium/cap-main.tsx:219-241 | a blank query offers every loaded capture; otherwise exactly the captures whose pretty name matches |
| CapMain.NarrowedDisplays | apps/desktop/src/routes/solarium/cap-main.tsx:465-470 | undefined until the target query succeeded; all targets while the screens are not loaded; then exactly the targets whose id is a current screen |
| CapMain.NarrowedWindows | apps/desktop/src/routes/solarium/cap-main.tsx:478-483 | undefined until the target query succeeded; all targets while the windows are not loaded; then exactly the targets whose id is an open window |
| Windows.WindowIds.constructor | apps/desktop/src-tauri/src/windows.rs:1541-1545 | the default id table is empty and its counter starts at 0 |
| Magnifier.MagnifierLayer.constructor | crates/rendering/src/layers/magnifier.rs:16-39 | a new layer has no active magnifiers, no cached uniforms and no buffer writes yet |
| Magnifier.ShapeCode | crates/rendering/src/layers/magnifier.rs:275-281 | the shader's shape code; `ShapeCodesDistinct` states that the three differ |
| Magnifier.BorderColor | crates/rendering/src/layers/magnifier.rs:65 | the parsed border colour, white when ASCII text does not parse; `ParseHexColor` states the parse |

## Left out

- Window creation and the platform calls in `apps/desktop/src-tauri/src/windows.rs` (builders, Tauri and NSWindow calls, monitor queries, theme, content protection, prewarming) are foreign and I/O code; only the pure helpers and the id table are modelled.
- `DisplayId`'s parsing and printing are not part of this model; a display id is modelled as a decimal `nat`.
- Windows.IntersectsByCorner: the model adds the window's width and height to its position in unbounded integers. The source converts them with `size.width as i32` and `size.height as i32`, which wrap for extents of 2^31 or more. Its corner sums and `left + width` can overflow `i32`, which panics in a debug build and wraps in a release build. On macOS, `(bounds * scale) as i32` also truncates the scaled bounds toward zero, saturating at the `i32` limits. The model describes the source only while every extent is below 2^31 and every sum stays inside `i32`.
- Windows.Intersects: the display's bounds are taken as already converted integers; the platform calls that read them, and the truncating and wrapping conversions above, are not modelled.
- Windows.WindowIds.IdFor: models the id table under its lock as one sequential step; the concurrent `Mutex` and `AtomicU32` are not modelled.
- The magnifier's GPU side (pipeline, bind groups, `render`) is wgpu code and is left out.
- Magnifier.ParseHexColor: channels are modelled as bytes, without the division by 255 into `f32`; input is restricted to ASCII, because byte slicing on other text can panic.
- Magnifier.BorderColor: gives white for every non-ASCII text; the source panics at magnifier.rs:289-293 when a slice bound (2, 4 or 6 bytes) falls inside a multi-byte character ("aé345"), and gives white otherwise ("éé1234"); the panic is not modelled.
- Popover.PopoverLogic.SetOpenProp: models the reactive `open` prop of SolariumPopover.tsx; SolariumPopover2.tsx:84-88 passes `open` in a plain object literal, so that popover reads the prop once when it is created and later changes are not seen.
- `migrate` in `crates/migrator/src/migrations/m_v1.rs` is left out: it enumerates a directory and renames concurrently (`buffer_unordered`).
- ProjectMigration.RenameTargetIsFree: `sanitize_filename` and the rename itself are foreign; they are parameters of the model.
- UniqueFilename.EnsureUniqueFilename: whether a file exists is modelled as membership in a set of names, and the base name is a single path component.
- SchemaMigrations.OversizedVersionWraps: a stored schema version read with `as u32` is truncated modulo 2^32; this is modelled as written.
- Transcription.Backend.Get: the database, storage (S3), audio-merge and Deepgram calls are not modelled as services; each call's success or failure is a field of `Services`, a failure outside the `try` becomes `Thrown`, and a database update that fails is taken to change nothing. The playlist route is left out.
- WebVtt.FormatToWebVtt: word times are whole milliseconds rather than floating-point seconds, so the 0.5-second pause test compares integers.
- Floating-point physics and animation (`elastic-slider.tsx`, `elastic.tsx`, `usePhysics.tsx`, the popover animations, `ScrollView.tsx`, `ProgressiveMask.tsx`) are left out. The model's lengths are exact reals, not floats.
- SolariumTabs.RubberBand: the logarithmic damping `10 * ln(d + 1)` is a parameter `pull`; only its bound behaviour is proved, for any pull that is positive on positive distances.
- SolariumTabs.NearestIndex: tabs are compared by squared distance, which orders them as the Euclidean distance does without a square root.
- SolariumTabs.Tabs.PointerDown: measuring the tabs reads the DOM; the measured boxes and container size are parameters.
- The cropper's FPS counter and canvas drawing are left out.
- CropperTool.Box.ConstrainToBoundary: a zero width (or height) exceeds its limit only when that limit is negative; the source then divides the negative limit by zero, so the factor is -Infinity, `scale` makes the new width NaN (0 × -Infinity) and the new height infinite or NaN, and `resize` turns every coordinate of the box into a non-finite value; the model has no non-finite reals and leaves the whole box unchanged at that step (`FitWidth`, `FitHeight`).
- `apps/desktop/src/routes/solarium/components/SolariumTabs.tsx` delegates dragging to a motion library and re-reads the DOM layout; its nearest-tab rule is the one `SolariumTabs` models.
- `transparent-panel.tsx` (module state driven by IPC events and DOM hit-testing), `capture-area.tsx` (its cropper component is not part of this model), the thin wrapper routes and the pure UI and styling files are left out.
- `platform/mod.rs` and `platform/macos/mod.rs` are haptics and NSWindow calls; `layers/mod.rs` only re-exports.
- CapMain.NormalizedQuery: lower-casing and the whitespace set follow ASCII and JavaScript's `trim`; non-ASCII case folding is not modelled.
- CapMain.Signature: numbers appear as the strings they print as; number-to-string conversion is not modelled.
- The search result highlighting, the union-variant guard of the target menus, and the concurrency of several re-uploads at once are left out.
- Popover.UseContext: the context value's identity and the popover's unique id are not modelled, only whether a provider is present.

## Findings

| source | as written | input that shows it | evidently intended | confidence | as-written member | corrected member |
|---|---|---|---|---|---|---|
| apps/desktop/src/routes/editor/Timeline/MagnifierTrack.tsx:91-95 | the store update is wrapped in `produce`, whose recipe returns the new array instead of mutating the draft, so the returned array is discarded and the segment list is left as it was | any proposal while a timeline is loaded: the magnifier segments before and after creation are the same | the proposed segment is appended after the existing ones | not executed (depends on the store library ignoring a recipe's return value) | MagnifierTrack.ProducedAppendAddsNothing, MagnifierTrack.CreateSegmentAsWritten | MagnifierTrack.AppendedKeepsExisting, MagnifierTrack.CreateSegment |
| apps/web/app/api/video/transcribe/route.ts:222-243 | there is no flush after the word loop, so words after an utterance's last closing point never reach a cue | the utterance "Is" (0-200 ms) "it?" (300-500 ms): no word ends in ',' or '.', the pause is 100 ms and there are 2 words, so the file holds no cue for either word | the remaining words become a last cue, so every word is captioned in order and cues still hold one to eight words | not executed | WebVtt.UnclosedTailDropped | WebVtt.FlushCaptionsTail, WebVtt.FlushedCuesKeepAllWords, WebVtt.FlushedCueSizes |

The editor model uses the corrected `MagnifierTrack.CreateSegment`. The
caption file (`WebVtt.FormatToWebVtt`) and the transcription route built on it
keep the cues as written, so that the route's stored captions are the ones
the code produces. The corrected cues (`WebVtt.FlushedCues`) carry the proved
properties that every word is captioned and no cue holds more than eight words.
