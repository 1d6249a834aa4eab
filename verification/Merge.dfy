/**
 * The three-way merge (apps/server/src/concord/merge.ts, `overlaps` and
 * `merge3`): the operation itself. What it means is in Square.dfy.
 */
module Merge {
  import opened Text
  import opened Diff

  /** A contested base range and what each side put there. */
  datatype MergeConflict = MergeConflict(baseStart: nat, baseEnd: nat, ours: Lines, theirs: Lines)

  datatype MergeResult =
    | Merged(content: string, hunks: nat)
    | Conflicted(conflicts: seq<MergeConflict>)

  function Min(x: nat, y: nat): nat {
    if x <= y then x else y
  }

  function AtLeastOne(x: nat): nat {
    if x >= 1 then x else 1
  }

  /** An insertion occupies the position it lands on. */
  predicate Overlaps(a: Hunk, b: Hunk) {
    a.start < b.start + AtLeastOne(b.deleted) && b.start < a.start + AtLeastOne(a.deleted)
  }

  function ConflictOf(mine: Hunk, yours: Hunk): MergeConflict {
    MergeConflict(
      Min(mine.start, yours.start),
      if mine.End() >= yours.End() then mine.End() else yours.End(),
      mine.inserted,
      yours.inserted)
  }

  function ConflictsOf(mine: Hunk, theirs: seq<Hunk>): seq<MergeConflict> {
    if theirs == [] then []
    else (if Overlaps(mine, theirs[0]) then [ConflictOf(mine, theirs[0])] else []) + ConflictsOf(mine, theirs[1..])
  }

  function Conflicts(ours: seq<Hunk>, theirs: seq<Hunk>): seq<MergeConflict> {
    if ours == [] then [] else ConflictsOf(ours[0], theirs) + Conflicts(ours[1..], theirs)
  }

  /** `Array.prototype.splice`, with its clamping. */
  function Splice(lines: Lines, hunk: Hunk): Lines {
    var start := Min(hunk.start, |lines|);
    var deleted := Min(hunk.deleted, |lines| - start);
    lines[..start] + hunk.inserted + lines[start + deleted..]
  }

  function SpliceAll(lines: Lines, hunks: seq<Hunk>): Lines
    decreases |hunks|
  {
    if hunks == [] then lines else SpliceAll(Splice(lines, hunks[0]), hunks[1..])
  }

  ghost predicate Descending(hunks: seq<Hunk>) {
    forall i, j :: 0 <= i < j < |hunks| ==> hunks[i].start >= hunks[j].start
  }

  function InsertByStart(hunk: Hunk, sorted: seq<Hunk>): seq<Hunk> {
    if sorted == [] || hunk.start >= sorted[0].start then [hunk] + sorted
    else [sorted[0]] + InsertByStart(hunk, sorted[1..])
  }

  /** The library sort by descending start. */
  function SortDescending(hunks: seq<Hunk>): seq<Hunk> {
    if hunks == [] then [] else InsertByStart(hunks[0], SortDescending(hunks[1..]))
  }

  lemma {:induction false} InsertKeepsAll(hunk: Hunk, sorted: seq<Hunk>)
    ensures multiset(InsertByStart(hunk, sorted)) == multiset(sorted) + multiset{hunk}
  {
    if sorted == [] || hunk.start >= sorted[0].start {
    } else {
      InsertKeepsAll(hunk, sorted[1..]);
      assert sorted == [sorted[0]] + sorted[1..];
    }
  }

  lemma {:induction false} InsertKeepsOrder(hunk: Hunk, sorted: seq<Hunk>)
    requires Descending(sorted)
    ensures Descending(InsertByStart(hunk, sorted))
  {
    if sorted == [] || hunk.start >= sorted[0].start {
    } else {
      InsertKeepsOrder(hunk, sorted[1..]);
      InsertKeepsAll(hunk, sorted[1..]);
      var rest := InsertByStart(hunk, sorted[1..]);
      forall j | 0 <= j < |rest| ensures sorted[0].start >= rest[j].start {
        assert rest[j] in multiset(rest);
        assert rest[j] == hunk || rest[j] in sorted[1..];
      }
    }
  }

  /** The sort is a permutation in descending order of start. */
  lemma {:induction false} SortSorts(hunks: seq<Hunk>)
    ensures Descending(SortDescending(hunks))
    ensures multiset(SortDescending(hunks)) == multiset(hunks)
  {
    if hunks != [] {
      SortSorts(hunks[1..]);
      InsertKeepsOrder(hunks[0], SortDescending(hunks[1..]));
      InsertKeepsAll(hunks[0], SortDescending(hunks[1..]));
      assert hunks == [hunks[0]] + hunks[1..];
    }
  }

  function MergeHunks(base: Lines, ours: seq<Hunk>, theirs: seq<Hunk>): Lines {
    SpliceAll(base, SortDescending(ours + theirs))
  }

  /** The path taken when all three texts differ. */
  function MergeChanged(base: string, ours: string, theirs: string): MergeResult {
    var ourHunks := DiffLines(SplitLines(base), SplitLines(ours));
    var theirHunks := DiffLines(SplitLines(base), SplitLines(theirs));
    var conflicts := Conflicts(ourHunks, theirHunks);
    if conflicts != [] then Conflicted(conflicts)
    else Merged(JoinLines(MergeHunks(SplitLines(base), ourHunks, theirHunks)), |ourHunks| + |theirHunks|)
  }

  function Merge3(base: string, ours: string, theirs: string): MergeResult {
    if ours == theirs then Merged(ours, 0)
    else if base == theirs then Merged(ours, 1)
    else if base == ours then Merged(theirs, 1)
    else MergeChanged(base, ours, theirs)
  }

  /** The nested search for overlapping pairs. */
  method FindConflicts(ours: seq<Hunk>, theirs: seq<Hunk>) returns (conflicts: seq<MergeConflict>)
    ensures conflicts == Conflicts(ours, theirs)
  {
    conflicts := [];
    for i := 0 to |ours|
      invariant conflicts + Conflicts(ours[i..], theirs) == Conflicts(ours, theirs)
    {
      var row := FindConflictsOf(ours[i], theirs);
      assert ours[i..][1..] == ours[i + 1..];
      assert conflicts + (row + Conflicts(ours[i + 1..], theirs)) == conflicts + row + Conflicts(ours[i + 1..], theirs);
      conflicts := conflicts + row;
    }
  }

  method FindConflictsOf(mine: Hunk, theirs: seq<Hunk>) returns (conflicts: seq<MergeConflict>)
    ensures conflicts == ConflictsOf(mine, theirs)
  {
    conflicts := [];
    for j := 0 to |theirs|
      invariant conflicts + ConflictsOf(mine, theirs[j..]) == ConflictsOf(mine, theirs)
    {
      assert theirs[j..][1..] == theirs[j + 1..];
      ghost var rest := ConflictsOf(mine, theirs[j + 1..]);
      if Overlaps(mine, theirs[j]) {
        assert conflicts + ([ConflictOf(mine, theirs[j])] + rest) == conflicts + [ConflictOf(mine, theirs[j])] + rest;
        conflicts := conflicts + [ConflictOf(mine, theirs[j])];
      } else {
        assert [] + rest == rest;
      }
    }
  }

  /** The splicing loop, right to left. */
  method SpliceHunks(base: Lines, ours: seq<Hunk>, theirs: seq<Hunk>) returns (merged: Lines)
    ensures merged == MergeHunks(base, ours, theirs)
  {
    var all := SortDescending(ours + theirs);
    merged := base;
    for k := 0 to |all|
      invariant SpliceAll(merged, all[k..]) == SpliceAll(base, all)
    {
      assert all[k..][1..] == all[k + 1..];
      merged := Splice(merged, all[k]);
    }
  }

  method ComputeMerge3(base: string, ours: string, theirs: string) returns (result: MergeResult)
    ensures result == Merge3(base, ours, theirs)
  {
    if ours == theirs { return Merged(ours, 0); }
    var baseLines := SplitLines(base);
    if base == theirs { return Merged(ours, 1); }
    if base == ours { return Merged(theirs, 1); }

    var ourHunks := ComputeDiff(baseLines, SplitLines(ours));
    var theirHunks := ComputeDiff(baseLines, SplitLines(theirs));
    var conflicts := FindConflicts(ourHunks, theirHunks);
    if |conflicts| > 0 { return Conflicted(conflicts); }
    var merged := SpliceHunks(baseLines, ourHunks, theirHunks);
    return Merged(JoinLines(merged), |ourHunks| + |theirHunks|);
  }
}
