// The migration runner: every registered migration newer than the stored
// schema runs once, in ascending version order (registration order among
// equal versions), and the first failure stops the run.
module Migrator {
  import opened Wrappers
  import opened Ints

  /**
   * A registered migration. Its effect on the application is foreign;
   * `outcome` is what running it reports.
   */
  datatype Migration = Migration(name: string, version: u32, outcome: Result<(), string>)

  // ------------------------------------------------------------ stable sort

  predicate SortedByVersion(s: seq<Migration>)
  {
    forall i, j :: 0 <= i < j < |s| ==> s[i].version <= s[j].version
  }

  /** The migrations of one version, in their order in `s`. */
  function OfVersion(s: seq<Migration>, v: u32): seq<Migration>
  {
    if s == [] then []
    else (if s[0].version == v then [s[0]] else []) + OfVersion(s[1..], v)
  }

  /** Inserts `m` after every element whose version is not larger. */
  function Insert(m: Migration, s: seq<Migration>): (r: seq<Migration>)
    ensures multiset(r) == multiset(s) + multiset{m}
    ensures |r| == |s| + 1
  {
    if s == [] then [m]
    else if m.version < s[0].version then [m] + s
    else
      var r := [s[0]] + Insert(m, s[1..]);
      assert s == [s[0]] + s[1..];
      r
  }

  /** `Vec::sort_by_key(|m| m.version)`: a stable sort, built by inserting the elements in order. */
  function SortByVersion(s: seq<Migration>): (r: seq<Migration>)
    ensures multiset(r) == multiset(s)
    ensures |r| == |s|
  {
    if s == [] then []
    else
      var r := Insert(s[|s| - 1], SortByVersion(s[..|s| - 1]));
      assert s == s[..|s| - 1] + [s[|s| - 1]];
      r
  }

  lemma {:induction false} InsertSorted(m: Migration, s: seq<Migration>)
    requires SortedByVersion(s)
    ensures SortedByVersion(Insert(m, s))
  {
    if s != [] && m.version >= s[0].version {
      InsertSorted(m, s[1..]);
      var r := Insert(m, s);
      var t := Insert(m, s[1..]);
      assert r == [s[0]] + t;
      forall k | 0 <= k < |t|
        ensures s[0].version <= t[k].version
      {
        assert t[k] in multiset(t);
        assert t[k] in multiset(s[1..]) + multiset{m};
        if t[k] != m {
          assert t[k] in s[1..];
        }
      }
    }
  }

  lemma {:induction false} OfVersionAppend(a: seq<Migration>, b: seq<Migration>, v: u32)
    ensures OfVersion(a + b, v) == OfVersion(a, v) + OfVersion(b, v)
  {
    if a != [] {
      assert (a + b)[1..] == a[1..] + b;
      OfVersionAppend(a[1..], b, v);
    } else {
      assert a + b == b;
    }
  }

  /** Inserting into a sorted list adds `m` at the end of its own version's run and leaves the other versions' runs alone. */
  lemma {:induction false} OfVersionInsert(m: Migration, s: seq<Migration>, v: u32)
    requires SortedByVersion(s)
    ensures OfVersion(Insert(m, s), v) == OfVersion(s, v) + (if m.version == v then [m] else [])
  {
    if s == [] {
      assert Insert(m, s) == [m];
      OfVersionSingle(m, v);
    } else if m.version < s[0].version {
      InsertFrontRun(m, s, v);
    } else {
      var t := Insert(m, s[1..]);
      assert Insert(m, s) == [s[0]] + t;
      OfVersionInsert(m, s[1..], v);
      var h := if s[0].version == v then [s[0]] else [];
      var x := if m.version == v then [m] else [];
      OfVersionCons(s[0], t, v);
      AppendAssociates(h, OfVersion(s[1..], v), x);
    }
  }

  lemma {:induction false} OfVersionCons(x: Migration, t: seq<Migration>, v: u32)
    ensures OfVersion([x] + t, v) == (if x.version == v then [x] else []) + OfVersion(t, v)
  {
    assert ([x] + t)[0] == x && ([x] + t)[1..] == t;
  }

  lemma {:induction false} LastSplit(s: seq<Migration>)
    requires s != []
    ensures s == s[..|s| - 1] + [s[|s| - 1]]
  {
  }

  lemma {:induction false} AppendAssociates(a: seq<Migration>, b: seq<Migration>, c: seq<Migration>)
    ensures a + (b + c) == (a + b) + c
  {
  }

  lemma {:induction false} OfVersionSingle(m: Migration, v: u32)
    ensures OfVersion([m], v) == if m.version == v then [m] else []
  {
    assert [m][1..] == [];
  }

  /** Inserting below the head of a sorted list puts `m` first, ahead of every run it does not belong to. */
  lemma {:induction false} InsertFrontRun(m: Migration, s: seq<Migration>, v: u32)
    requires SortedByVersion(s) && s != [] && m.version < s[0].version
    ensures OfVersion(Insert(m, s), v) == OfVersion(s, v) + (if m.version == v then [m] else [])
  {
    assert Insert(m, s) == [m] + s;
    OfVersionAppend([m], s, v);
    OfVersionSingle(m, v);
    if m.version == v {
      NoneAbove(s, v);
    }
  }

  /** In a sorted list whose head is above `v`, no element has version `v`. */
  lemma {:induction false} NoneAbove(s: seq<Migration>, v: u32)
    requires SortedByVersion(s) && s != [] && v < s[0].version
    ensures OfVersion(s, v) == []
  {
    if |s| > 1 {
      NoneAbove(s[1..], v);
    }
  }

  lemma {:induction false} SortSorted(s: seq<Migration>)
    ensures SortedByVersion(SortByVersion(s))
  {
    if s != [] {
      SortSorted(s[..|s| - 1]);
      InsertSorted(s[|s| - 1], SortByVersion(s[..|s| - 1]));
    }
  }

  lemma {:induction false} SortKeepsVersionRun(s: seq<Migration>, v: u32)
    ensures OfVersion(SortByVersion(s), v) == OfVersion(s, v)
  {
    if s != [] {
      var init, last := s[..|s| - 1], s[|s| - 1];
      var x := if last.version == v then [last] else [];
      OfVersionSingle(last, v);
      SortKeepsVersionRun(init, v);
      SortSorted(init);
      OfVersionInsert(last, SortByVersion(init), v);
      LastSplit(s);
      OfVersionAppend(init, [last], v);
      calc {
        OfVersion(SortByVersion(s), v);
        OfVersion(Insert(last, SortByVersion(init)), v);
        OfVersion(SortByVersion(init), v) + x;
        OfVersion(init, v) + OfVersion([last], v);
        OfVersion(s, v);
      }
    }
  }

  /** The sort orders by version, keeps the same migrations, and keeps each version's registration order. */
  lemma {:induction false} SortIsStable(s: seq<Migration>)
    ensures SortedByVersion(SortByVersion(s))
    ensures multiset(SortByVersion(s)) == multiset(s)
    ensures forall v :: OfVersion(SortByVersion(s), v) == OfVersion(s, v)
  {
    SortSorted(s);
    forall v
      ensures OfVersion(SortByVersion(s), v) == OfVersion(s, v)
    {
      SortKeepsVersionRun(s, v);
    }
  }

  // ----------------------------------------------------------------- run

  /** The migrations newer than `fromSchema`, in their order in `s`. */
  function Above(s: seq<Migration>, fromSchema: u32): seq<Migration>
  {
    if s == [] then []
    else Above(s[..|s| - 1], fromSchema) + (if s[|s| - 1].version > fromSchema then [s[|s| - 1]] else [])
  }

  /** `Above` keeps exactly the members newer than `fromSchema`. */
  lemma {:induction false} AboveMembers(s: seq<Migration>, fromSchema: u32)
    ensures forall m :: m in Above(s, fromSchema) <==> m in s && m.version > fromSchema
  {
    if s != [] {
      AboveMembers(s[..|s| - 1], fromSchema);
      assert s == s[..|s| - 1] + [s[|s| - 1]];
    }
  }

  /** What the runner executes: the registered migrations newer than the stored schema, sorted stably. */
  function Pending(registered: seq<Migration>, fromSchema: u32): seq<Migration>
  {
    Above(SortByVersion(registered), fromSchema)
  }

  /** The index of the first migration that fails, or the length when none does. */
  function FirstFailure(p: seq<Migration>): (i: nat)
    ensures i <= |p|
    ensures forall k :: 0 <= k < i ==> p[k].outcome.Ok?
    ensures i < |p| ==> p[i].outcome.Err?
  {
    if p == [] then 0
    else if p[0].outcome.Err? then 0
    else 1 + FirstFailure(p[1..])
  }

  /** The result of running `p` in order: the count when all succeed, else the first error. */
  function Outcome(p: seq<Migration>): Result<nat, string>
  {
    var i := FirstFailure(p);
    if i == |p| then Ok(|p|) else Err(p[i].outcome.error)
  }

  /** The migrations that actually run: everything up to and including the first failure. */
  function Executed(p: seq<Migration>): seq<Migration>
  {
    var i := FirstFailure(p);
    if i == |p| then p else p[..i + 1]
  }

  lemma {:induction false} FirstFailureSkipsOk(pre: seq<Migration>, q: seq<Migration>)
    requires forall k :: 0 <= k < |pre| ==> pre[k].outcome.Ok?
    ensures FirstFailure(pre + q) == |pre| + FirstFailure(q)
  {
    if pre != [] {
      assert (pre + q)[1..] == pre[1..] + q;
      FirstFailureSkipsOk(pre[1..], q);
    } else {
      assert pre + q == q;
    }
  }

  lemma {:induction false} AboveAppend(a: seq<Migration>, b: seq<Migration>, fromSchema: u32)
    ensures Above(a + b, fromSchema) == Above(a, fromSchema) + Above(b, fromSchema)
    decreases |b|
  {
    if b != [] {
      var b' := b[..|b| - 1];
      assert (a + b)[..|a + b| - 1] == a + b';
      AboveAppend(a, b', fromSchema);
    } else {
      assert a + b == a;
    }
  }

  /**
   * `migrator::run`: sorts the registered migrations, then runs those newer
   * than `fromSchema` one after another, counting them; the first error is
   * returned at once. `executed` lists the migrations that were run.
   */
  method Run(registered: seq<Migration>, fromSchema: u32) returns (r: Result<nat, string>, executed: seq<Migration>)
    ensures r == Outcome(Pending(registered, fromSchema))
    ensures executed == Executed(Pending(registered, fromSchema))
  {
    var migs := SortByVersion(registered);
    var applied := 0;
    executed := [];
    var i := 0;
    while i < |migs|
      invariant 0 <= i <= |migs|
      invariant executed == Above(migs[..i], fromSchema)
      invariant applied == |executed|
      invariant forall k :: 0 <= k < |executed| ==> executed[k].outcome.Ok?
    {
      var m := migs[i];
      assert migs[..i + 1][..i] == migs[..i];
      if m.version > fromSchema {
        if m.outcome.Err? {
          StopAt(migs, i, fromSchema);
          return Err(m.outcome.error), executed + [m];
        }
        executed := executed + [m];
        applied := applied + 1;
      }
      i := i + 1;
    }
    assert migs[..i] == migs;
    return Ok(applied), executed;
  }

  /** The run stops at the first pending migration that fails. */
  lemma {:induction false} StopAt(migs: seq<Migration>, i: nat, fromSchema: u32)
    requires i < |migs| && migs[i].version > fromSchema && migs[i].outcome.Err?
    requires forall k :: 0 <= k < |Above(migs[..i], fromSchema)| ==> Above(migs[..i], fromSchema)[k].outcome.Ok?
    ensures Outcome(Above(migs, fromSchema)) == Err(migs[i].outcome.error)
    ensures Executed(Above(migs, fromSchema)) == Above(migs[..i], fromSchema) + [migs[i]]
  {
    var pre := Above(migs[..i], fromSchema);
    var tail := [migs[i]] + Above(migs[i + 1..], fromSchema);
    var p := Above(migs, fromSchema);
    assert p == pre + tail by {
      assert migs[..i + 1][..i] == migs[..i];
      assert Above(migs[..i + 1], fromSchema) == pre + [migs[i]];
      AboveAppend(migs[..i + 1], migs[i + 1..], fromSchema);
      assert migs[..i + 1] + migs[i + 1..] == migs;
    }
    FirstFailureSkipsOk(pre, tail);
    assert FirstFailure(tail) == 0;
    assert p[|pre|] == migs[i];
    assert p[..|pre| + 1] == pre + [migs[i]];
  }

  /** Every migration that runs is newer than the stored schema, and they run in ascending version order. */
  lemma {:induction false} ExecutedAreNewerAndOrdered(registered: seq<Migration>, fromSchema: u32)
    ensures var e := Executed(Pending(registered, fromSchema));
      (forall k :: 0 <= k < |e| ==> e[k].version > fromSchema) &&
      (forall j, k :: 0 <= j < k < |e| ==> e[j].version <= e[k].version)
  {
    var s := SortByVersion(registered);
    SortIsStable(registered);
    AboveSorted(s, fromSchema);
    AboveMembers(s, fromSchema);
    var p := Pending(registered, fromSchema);
    var e := Executed(p);
    ExecutedIsPrefix(p);
    forall k | 0 <= k < |e|
      ensures e[k].version > fromSchema
    {
      assert p[k] in p;
    }
    forall j, k | 0 <= j < k < |e|
      ensures e[j].version <= e[k].version
    {
      assert e[j] == p[j] && e[k] == p[k];
    }
  }

  /** The executed migrations are a prefix of the pending ones. */
  lemma {:induction false} ExecutedIsPrefix(p: seq<Migration>)
    ensures |Executed(p)| <= |p|
    ensures forall k :: 0 <= k < |Executed(p)| ==> Executed(p)[k] == p[k]
  {
  }

  lemma {:induction false} AboveSorted(s: seq<Migration>, fromSchema: u32)
    requires SortedByVersion(s)
    ensures SortedByVersion(Above(s, fromSchema))
  {
    if s != [] {
      var init := s[..|s| - 1];
      assert SortedByVersion(init);
      AboveSorted(init, fromSchema);
      AboveMembers(init, fromSchema);
      var a := Above(init, fromSchema);
      forall k | 0 <= k < |a|
        ensures a[k].version <= s[|s| - 1].version
      {
        assert a[k] in a;
        var j :| 0 <= j < |init| && init[j] == a[k];
      }
    }
  }

  /** On success the count is the number of pending migrations, and all of them ran. */
  lemma {:induction false} SuccessCountsAll(registered: seq<Migration>, fromSchema: u32)
    requires Outcome(Pending(registered, fromSchema)).Ok?
    ensures Outcome(Pending(registered, fromSchema)).value == |Pending(registered, fromSchema)|
    ensures Executed(Pending(registered, fromSchema)) == Pending(registered, fromSchema)
  {
  }

  /** A failure reports the error of the last migration that ran; every earlier one succeeded and no later one ran. */
  lemma {:induction false} FailureStopsAtFirstError(registered: seq<Migration>, fromSchema: u32)
    requires Outcome(Pending(registered, fromSchema)).Err?
    ensures var p := Pending(registered, fromSchema);
      var e := Executed(p);
      |e| >= 1 && e == p[..|e|] &&
      e[|e| - 1].outcome == Err(Outcome(p).error) &&
      forall k :: 0 <= k < |e| - 1 ==> e[k].outcome.Ok?
  {
  }

  /** With nothing newer than the stored schema, the run does nothing and reports 0. */
  lemma {:induction false} NothingPending(registered: seq<Migration>, fromSchema: u32)
    requires forall m :: m in registered ==> m.version <= fromSchema
    ensures Pending(registered, fromSchema) == []
    ensures Outcome(Pending(registered, fromSchema)) == Ok(0)
  {
    var sorted := SortByVersion(registered);
    forall m | m in sorted
      ensures m.version <= fromSchema
    {
      assert m in multiset(sorted);
    }
    NoneNewer(sorted, fromSchema);
  }

  lemma {:induction false} NoneNewer(s: seq<Migration>, fromSchema: u32)
    requires forall m :: m in s ==> m.version <= fromSchema
    ensures Above(s, fromSchema) == []
  {
    if s != [] {
      assert s[|s| - 1] in s;
      NoneNewer(s[..|s| - 1], fromSchema);
    }
  }
}
