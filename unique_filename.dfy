// Picking a file name that does not collide with what a directory already
// holds: the name itself when free, otherwise "stem (n).ext" for the
// smallest free n up to 1000.
module UniqueFilename {
  import opened Wrappers
  import opened Text

  const MAX_ATTEMPTS: nat := 1000
  const TOO_MANY_CONFLICTS: string := "Too many filename conflicts, unable to create unique filename"

  /** A single path component: no separator, and not the empty name (which would denote the directory itself). */
  predicate IsFileName(name: string)
  {
    name != [] && '/' !in name
  }

  /** Index of the last '.' in `s`, if any. */
  function LastDot(s: string): (r: Option<nat>)
    ensures r.Some? ==> r.value < |s| && s[r.value] == '.' && '.' !in s[r.value + 1..]
    ensures r.None? ==> '.' !in s
  {
    if s == [] then None
    else if s[|s| - 1] == '.' then Some(|s| - 1)
    else
      var r := LastDot(s[..|s| - 1]);
      assert s == s[..|s| - 1] + [s[|s| - 1]];
      if r.Some? then
        assert s[r.value + 1..] == s[..|s| - 1][r.value + 1..] + [s[|s| - 1]];
        r
      else r
  }

  /**
   * Rust `Path::file_stem` and `Path::extension` of a file name, with the
   * extension given a leading '.': a name with no dot, a name whose only
   * dot is its first character, and ".." have no extension; otherwise the
   * extension is what follows the last dot.
   */
  function SplitName(name: string): (string, string)
  {
    if name == ".." then (name, "")
    else match LastDot(name)
      case None => (name, "")
      case Some(i) => if i == 0 then (name, "") else (name[..i], "." + name[i + 1..])
  }

  /** The stem and extension put back together give the name; an extension is a single dot-suffix after a non-empty stem. */
  lemma {:induction false} SplitNameShape(name: string)
    ensures var (stem, ext) := SplitName(name);
      stem + ext == name &&
      (ext == [] || (|ext| >= 1 && ext[0] == '.' && '.' !in ext[1..] && stem != []))
  {
    var (stem, ext) := SplitName(name);
    if ext != [] {
      var i := LastDot(name).value;
      assert name == name[..i] + [name[i]] + name[i + 1..];
    }
  }

  /** "stem (n).ext" — the extension part is empty when the name has none. */
  function Numbered(stem: string, ext: string, n: nat): string
  {
    stem + " (" + Decimal(n) + ")" + ext
  }

  /** Different counters give different candidate names. */
  lemma {:induction false} NumberedInjective(stem: string, ext: string, m: nat, n: nat)
    requires m != n
    ensures Numbered(stem, ext, m) != Numbered(stem, ext, n)
  {
    DecimalDigits(m);
    DecimalDigits(n);
    var dm, dn := Decimal(m), Decimal(n);
    var a, b := Numbered(stem, ext, m), Numbered(stem, ext, n);
    var k := |stem| + 2;
    assert a == stem + " (" + dm + ")" + ext;
    assert b == stem + " (" + dn + ")" + ext;
    if |dm| == |dn| {
      assert dm != dn;
      var j :| 0 <= j < |dm| && dm[j] != dn[j];
      assert a[k + j] == dm[j] && b[k + j] == dn[j];
    } else if |dm| < |dn| {
      assert a[k + |dm|] == ')' && b[k + |dm|] == dn[|dm|];
      assert IsDigit(dn[|dm|]);
    } else {
      assert b[k + |dn|] == ')' && a[k + |dn|] == dm[|dn|];
      assert IsDigit(dm[|dn|]);
    }
  }

  /** The smallest counter from `n` up to 1000 whose candidate is free. */
  function FirstFree(stem: string, ext: string, existing: set<string>, n: nat): (r: Option<nat>)
    requires 1 <= n <= MAX_ATTEMPTS
    ensures r.Some? ==>
      n <= r.value <= MAX_ATTEMPTS && Numbered(stem, ext, r.value) !in existing &&
      forall k :: n <= k < r.value ==> Numbered(stem, ext, k) in existing
    ensures r.None? ==> forall k :: n <= k <= MAX_ATTEMPTS ==> Numbered(stem, ext, k) in existing
    decreases MAX_ATTEMPTS - n
  {
    if Numbered(stem, ext, n) !in existing then Some(n)
    else if n == MAX_ATTEMPTS then None
    else FirstFree(stem, ext, existing, n + 1)
  }

  /** What `ensure_unique_filename` returns, as a function of the directory's current entries. */
  function UniqueName(base: string, existing: set<string>): Result<string, string>
  {
    if base !in existing then Ok(base)
    else
      var (stem, ext) := SplitName(base);
      match FirstFree(stem, ext, existing, 1)
      case Some(n) => Ok(Numbered(stem, ext, n))
      case None => Err(TOO_MANY_CONFLICTS)
  }

  /**
   * `ensure_unique_filename`: probes the base name, then "stem (1).ext",
   * "stem (2).ext", ... against the directory's entries `existing`, giving
   * up after the 1000th candidate.
   */
  method EnsureUniqueFilename(base: string, existing: set<string>) returns (r: Result<string, string>)
    requires IsFileName(base)
    ensures r == UniqueName(base, existing)
  {
    if base !in existing {
      return Ok(base);
    }
    var (stem, ext) := SplitName(base);
    var counter := 1;
    while true
      invariant 1 <= counter <= MAX_ATTEMPTS
      invariant FirstFree(stem, ext, existing, counter) == FirstFree(stem, ext, existing, 1)
      decreases MAX_ATTEMPTS - counter
    {
      var candidate := Numbered(stem, ext, counter);
      if candidate !in existing {
        return Ok(candidate);
      }
      counter := counter + 1;
      if counter > MAX_ATTEMPTS {
        return Err(TOO_MANY_CONFLICTS);
      }
    }
  }

  /** A free base name is kept as it is. */
  lemma {:induction false} FreeNameKept(base: string, existing: set<string>)
    requires base !in existing
    ensures UniqueName(base, existing) == Ok(base)
  {
  }

  /** A name that is handed back is never one the directory already holds. */
  lemma {:induction false} ResultIsFree(base: string, existing: set<string>)
    requires UniqueName(base, existing).Ok?
    ensures UniqueName(base, existing).value !in existing
  {
  }

  /** A taken name becomes "stem (n).ext" for the smallest free n, all smaller candidates being taken. */
  lemma {:induction false} SmallestFreeCounter(base: string, existing: set<string>)
    requires base in existing && UniqueName(base, existing).Ok?
    ensures var (stem, ext) := SplitName(base);
      exists n :: 1 <= n <= MAX_ATTEMPTS &&
        UniqueName(base, existing).value == Numbered(stem, ext, n) &&
        forall k :: 1 <= k < n ==> Numbered(stem, ext, k) in existing
  {
    var (stem, ext) := SplitName(base);
    var n := FirstFree(stem, ext, existing, 1).value;
    assert UniqueName(base, existing).value == Numbered(stem, ext, n);
  }

  /** The call fails exactly when the base name and all 1000 numbered candidates are taken. */
  lemma {:induction false} FailsOnlyWhenAllTaken(base: string, existing: set<string>)
    ensures var (stem, ext) := SplitName(base);
      UniqueName(base, existing).Err? <==>
        (base in existing && forall k :: 1 <= k <= MAX_ATTEMPTS ==> Numbered(stem, ext, k) in existing)
  {
  }

  /** "My Recording.cap" becomes "My Recording (1).cap" when only the original is taken. */
  lemma {:induction false} ExampleWithExtension()
    ensures UniqueName("My Recording.cap", {"My Recording.cap"}) == Ok("My Recording (1).cap")
  {
    var name := "My Recording.cap";
    assert LastDot(name) == Some(12) by {
      var s13, s14, s15 := "My Recording.", "My Recording.c", "My Recording.ca";
      assert LastDot(s13) == Some(12);
      assert s14[..13] == s13;
      assert LastDot(s14) == Some(12);
      assert s15[..14] == s14;
      assert LastDot(s15) == Some(12);
      assert name[..15] == s15;
    }
    assert name != ".." && name[..12] == "My Recording" && name[13..] == "cap";
    var parts := SplitName(name);
    assert parts.0 == name[..12];
    assert parts.1 == "." + name[13..];
    assert "." + "cap" == ".cap";
    assert parts == ("My Recording", ".cap");
    assert Numbered("My Recording", ".cap", 1) == "My Recording (1).cap";
    assert Decimal(1) == "1";
  }
}
