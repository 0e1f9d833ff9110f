// The version-1 project migration: recognising a project directory still
// named after its UUID ("xxxxxxxx-xxxx-xxxx-xxxx-xxxxxxxxxxxx.cap") and
// deciding the pretty name it is renamed to.
module ProjectMigration {
  import opened Wrappers
  import opened Text
  import UniqueFilename

  /** `is_project_filename_uuid`, check by check: 40 characters, ".cap" suffix, five '-'-separated groups of 8-4-4-4-12, hex digits and dashes only. */
  predicate IsProjectFilenameUuid(name: string)
  {
    if |name| != 40 || !EndsWith(name, ".cap") then false
    else
      var uuid := name[..36];
      var groups := Split(uuid, '-');
      |groups| == 5 &&
      |groups[0]| == 8 && |groups[1]| == 4 && |groups[2]| == 4 && |groups[3]| == 4 && |groups[4]| == 12 &&
      forall i :: 0 <= i < 36 ==> IsHexDigit(uuid[i]) || uuid[i] == '-'
  }

  /** The dash positions of the textual UUID layout in section 3 of RFC 4122. */
  predicate IsDashPosition(i: int)
  {
    i == 8 || i == 13 || i == 18 || i == 23
  }

  /** The layout stated position by position: dashes exactly at 8, 13, 18 and 23, hex digits elsewhere, then ".cap". */
  predicate UuidLayout(name: string)
  {
    |name| == 40 && name[36..] == ".cap" &&
    forall i :: 0 <= i < 36 ==> (if IsDashPosition(i) then name[i] == '-' else IsHexDigit(name[i]))
  }

  /** The five groups glued back with dashes. */
  function Glue(g: seq<string>): string
    requires |g| == 5
  {
    g[0] + "-" + (g[1] + "-" + (g[2] + "-" + (g[3] + "-" + g[4])))
  }

  lemma {:induction false} GlueIsJoin(g: seq<string>)
    requires |g| == 5
    ensures Join(g, '-') == Glue(g)
  {
    var t := g[1..][1..][1..];
    assert t == [g[3], g[4]] && t[1..] == [g[4]];
    assert Join(t, '-') == g[3] + "-" + g[4];
    assert Join(g[1..][1..], '-') == g[2] + "-" + g[3] + "-" + g[4];
    assert Join(g[1..], '-') == g[1] + "-" + g[2] + "-" + g[3] + "-" + g[4];
  }

  /** The groups of a UUID-shaped prefix, cut at the dash positions. */
  function Groups(u: string): seq<string>
    requires |u| == 36
  {
    [u[..8], u[9..13], u[14..18], u[19..23], u[24..]]
  }

  lemma {:induction false} LayoutGroups(name: string)
    requires UuidLayout(name)
    ensures var u := name[..36];
      Glue(Groups(u)) == u &&
      forall k :: 0 <= k < 5 ==> '-' !in Groups(u)[k]
  {
    var u := name[..36];
    var g := Groups(u);
    assert Glue(g) == u;
    forall k | 0 <= k < 5
      ensures '-' !in g[k]
    {
      var off := [0, 9, 14, 19, 24][k];
      forall j | 0 <= j < |g[k]|
        ensures g[k][j] != '-'
      {
        assert g[k][j] == u[off + j];
        assert !IsDashPosition(off + j);
        assert IsHexDigit(name[off + j]);
      }
    }
  }

  lemma {:induction false} GroupsLayout(name: string, g: seq<string>)
    requires |name| == 40 && name[36..] == ".cap" && |g| == 5
    requires |g[0]| == 8 && |g[1]| == 4 && |g[2]| == 4 && |g[3]| == 4 && |g[4]| == 12
    requires forall k :: 0 <= k < 5 ==> '-' !in g[k]
    requires Glue(g) == name[..36]
    requires forall i :: 0 <= i < 36 ==> IsHexDigit(name[i]) || name[i] == '-'
    ensures UuidLayout(name)
  {
    var u := name[..36];
    forall i | 0 <= i < 36
      ensures if IsDashPosition(i) then name[i] == '-' else IsHexDigit(name[i])
    {
      assert name[i] == u[i];
      if !IsDashPosition(i) {
        var k := if i < 8 then 0 else if i < 13 then 1 else if i < 18 then 2 else if i < 23 then 3 else 4;
        var off := [0, 9, 14, 19, 24][k];
        assert u[i] == g[k][i - off];
        assert u[i] != '-';
      }
    }
  }

  /** The source's split-and-count check accepts exactly the names with the positional UUID layout. */
  lemma {:induction false} UuidCheckMatchesLayout(name: string)
    ensures IsProjectFilenameUuid(name) <==> UuidLayout(name)
  {
    if |name| == 40 && EndsWith(name, ".cap") {
      assert name[36..] == ".cap";
      var u := name[..36];
      if UuidLayout(name) {
        LayoutGroups(name);
        GlueIsJoin(Groups(u));
        SplitJoin(Groups(u), '-');
        assert Split(u, '-') == Groups(u);
        forall i | 0 <= i < 36
          ensures IsHexDigit(u[i]) || u[i] == '-'
        {
          assert u[i] == name[i];
        }
      }
      if IsProjectFilenameUuid(name) {
        var g := Split(u, '-');
        JoinSplit(u, '-');
        GlueIsJoin(g);
        forall i | 0 <= i < 36
          ensures IsHexDigit(name[i]) || name[i] == '-'
        {
          assert name[i] == u[i];
        }
        GroupsLayout(name, g);
      }
    } else if |name| == 40 {
      assert name[36..] != ".cap";
    }
  }

  /** Only 40-character names ending in ".cap" can be UUID-named projects. */
  lemma {:induction false} UuidNamesEndInCap(name: string)
    requires IsProjectFilenameUuid(name)
    ensures |name| == 40 && EndsWith(name, ".cap")
  {
  }

  // --------------------------------------------------------------- rename

  /** What the migration does to a project directory. */
  datatype Outcome = Unchanged | RenamedTo(name: string)

  /** The two entry points differ in how they finish the name and word their errors. */
  datatype Variant = Sync | Async

  /** A sanitised name that is blank after trimming, or exactly "-", is refused. */
  predicate InvalidSanitized(sanitized: string)
  {
    Trim(sanitized, IsRustWhitespace) == [] || sanitized == "-"
  }

  /** The directory name the project should get: the sync entry point adds ".cap" only when missing, the async one always. */
  function TargetName(v: Variant, sanitized: string): (r: string)
    ensures EndsWith(r, ".cap")
  {
    if v == Sync && EndsWith(sanitized, ".cap") then sanitized else sanitized + ".cap"
  }

  /**
   * `migrate_project_filename_if_needed` and its async twin, as a decision:
   * `fileName` is the directory's final component when it is valid UTF-8,
   * `sanitized` the result of the (foreign) sanitiser on the pretty name,
   * `existing` the parent directory's entries and `renameError` the error
   * the (foreign) rename reports, if any.
   */
  function Migrate(v: Variant, fileName: Option<string>, sanitized: string,
                   existing: set<string>, renameError: Option<string>): Result<Outcome, string>
  {
    match fileName
    case None => if v == Sync then Ok(Unchanged) else Err("Invalid project path")
    case Some(name) =>
      if !IsProjectFilenameUuid(name) then Ok(Unchanged)
      else if InvalidSanitized(sanitized) then Err("Sanitized filename is invalid: '" + sanitized + "'")
      else
        match UniqueFilename.UniqueName(TargetName(v, sanitized), existing)
        case Err(e) => Err(if v == Sync then e else "Failed to ensure unique filename: " + e)
        case Ok(unique) =>
          match renameError
          case Some(e) => Err("Failed to rename project directory: " + e)
          case None => Ok(RenamedTo(unique))
  }

  /** A directory whose name is not UUID-shaped is left where it is. */
  lemma {:induction false} NonUuidUnchanged(v: Variant, name: string, sanitized: string, existing: set<string>, renameError: Option<string>)
    requires !IsProjectFilenameUuid(name)
    ensures Migrate(v, Some(name), sanitized, existing, renameError) == Ok(Unchanged)
  {
  }

  /** A name without a usable file name is left alone by the sync entry point and refused by the async one. */
  lemma {:induction false} MissingNameHandling(sanitized: string, existing: set<string>, renameError: Option<string>)
    ensures Migrate(Sync, None, sanitized, existing, renameError) == Ok(Unchanged)
    ensures Migrate(Async, None, sanitized, existing, renameError).Err?
  {
  }

  /** A blank or "-" sanitised name fails the migration of a UUID-named project. */
  lemma {:induction false} InvalidNameRefused(v: Variant, name: string, sanitized: string, existing: set<string>, renameError: Option<string>)
    requires IsProjectFilenameUuid(name)
    requires sanitized == "-" || forall i :: 0 <= i < |sanitized| ==> IsRustWhitespace(sanitized[i])
    ensures Migrate(v, Some(name), sanitized, existing, renameError) == Err("Sanitized filename is invalid: '" + sanitized + "'")
  {
    if sanitized != "-" {
      AllWhitespaceTrimsEmpty(sanitized);
    }
  }

  lemma {:induction false} AllWhitespaceTrimsEmpty(s: string)
    requires forall i :: 0 <= i < |s| ==> IsRustWhitespace(s[i])
    ensures Trim(s, IsRustWhitespace) == []
  {
  }

  /** A successful rename always targets a free ".cap" name whose stem comes from the sanitised name. */
  lemma {:induction false} RenameTargetIsFree(v: Variant, name: string, sanitized: string, existing: set<string>)
    requires Migrate(v, Some(name), sanitized, existing, None).Ok?
    requires Migrate(v, Some(name), sanitized, existing, None).value.RenamedTo?
    ensures var target := Migrate(v, Some(name), sanitized, existing, None).value.name;
      target !in existing &&
      UniqueFilename.UniqueName(TargetName(v, sanitized), existing) == Ok(target)
  {
    UniqueFilename.ResultIsFree(TargetName(v, sanitized), existing);
  }

  /** The sync entry point never doubles the suffix; the async one does for a name already ending in ".cap". */
  lemma {:induction false} SuffixHandling(sanitized: string)
    requires EndsWith(sanitized, ".cap")
    ensures TargetName(Sync, sanitized) == sanitized
    ensures TargetName(Async, sanitized) == sanitized + ".cap"
  {
  }

  /** An example of the layout: the documented UUID-shaped directory name is recognised. */
  lemma {:induction false} ExampleUuidName()
    ensures IsProjectFilenameUuid("a1b2c3d4-e5f6-7890-abcd-ef1234567890.cap")
  {
    var name := "a1b2c3d4-e5f6-7890-abcd-ef1234567890.cap";
    assert UuidLayout(name) by {
      assert name[36..] == ".cap";
      forall i | 0 <= i < 36
        ensures if IsDashPosition(i) then name[i] == '-' else IsHexDigit(name[i])
      {
      }
    }
    UuidCheckMatchesLayout(name);
  }
}
