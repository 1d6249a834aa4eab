/**
 * "Keep both" (apps/server/src/concord/store.ts, `keepBoth` and `findRun`):
 * the committed text with the losing lines of each contested range put in
 * after the winning ones. No line of either side is dropped or doubled.
 */
module KeepBoth {
  import opened Options
  import opened Text
  import opened Lcs
  import opened Diff
  import opened Merge
  import opened Square
  import opened MergeLaws

  ghost predicate RunAt(haystack: Lines, needle: Lines, index: nat) {
    index + |needle| <= |haystack| && haystack[index..index + |needle|] == needle
  }

  /** First occurrence of `needle` as consecutive lines; an empty needle occurs nowhere. */
  method FindRun(haystack: Lines, needle: Lines) returns (at: Option<nat>)
    ensures at == FirstRun(haystack, needle, 0)
  {
    if |needle| == 0 { return None; }
    var index := 0;
    while index + |needle| <= |haystack|
      invariant index <= |haystack| + 1
      invariant FirstRun(haystack, needle, index) == FirstRun(haystack, needle, 0)
      decreases |haystack| + 1 - index
    {
      if haystack[index..index + |needle|] == needle { return Some(index); }
      index := index + 1;
    }
    return None;
  }

  function FirstRun(haystack: Lines, needle: Lines, from: nat): Option<nat>
    decreases |haystack| + 1 - from
  {
    if needle == [] || from + |needle| > |haystack| then None
    else if haystack[from..from + |needle|] == needle then Some(from)
    else FirstRun(haystack, needle, from + 1)
  }

  lemma {:induction false} FirstRunIs(haystack: Lines, needle: Lines, from: nat)
    requires needle != []
    ensures match FirstRun(haystack, needle, from)
            case Some(at) => from <= at && RunAt(haystack, needle, at) && forall i :: from <= i < at ==> !RunAt(haystack, needle, i)
            case None => forall i :: from <= i ==> !RunAt(haystack, needle, i)
    decreases |haystack| + 1 - from
  {
    if from + |needle| <= |haystack| && haystack[from..from + |needle|] != needle {
      FirstRunIs(haystack, needle, from + 1);
    }
  }

  /** Where the losing lines of a range go: after the winning run, or at the end if it has moved. */
  function Anchor(lines: Lines, range: MergeConflict): (anchor: nat)
    ensures anchor <= |lines|
  {
    match FirstRun(lines, range.theirs, 0)
    case Some(at) => FirstRunIs(lines, range.theirs, 0); at + |range.theirs|
    case None => |lines|
  }

  function At(additions: map<nat, Lines>, index: nat): Lines {
    if index in additions then additions[index] else []
  }

  function Place(lines: Lines, additions: map<nat, Lines>, range: MergeConflict): map<nat, Lines> {
    var anchor := Anchor(lines, range);
    additions[anchor := At(additions, anchor) + range.ours]
  }

  function PlaceAll(lines: Lines, additions: map<nat, Lines>, ranges: seq<MergeConflict>): map<nat, Lines>
    decreases |ranges|
  {
    if ranges == [] then additions else PlaceAll(lines, Place(lines, additions, ranges[0]), ranges[1..])
  }

  /** The output from line `index` on. */
  function Weave(lines: Lines, additions: map<nat, Lines>, index: nat): Lines
    requires index <= |lines|
    decreases |lines| - index
  {
    At(additions, index) + (if index < |lines| then [lines[index]] + Weave(lines, additions, index + 1) else [])
  }

  function KeepBothLines(lines: Lines, ranges: seq<MergeConflict>): Lines {
    Weave(lines, PlaceAll(lines, map[], ranges), 0)
  }

  method ComputeKeepBoth(theirs: string, ranges: seq<MergeConflict>) returns (text: string)
    ensures text == JoinLines(KeepBothLines(SplitLines(theirs), ranges))
  {
    var lines := SplitLines(theirs);
    var additions: map<nat, Lines> := map[];
    assert ranges[0..] == ranges;
    for k := 0 to |ranges|
      invariant PlaceAll(lines, additions, ranges[k..]) == PlaceAll(lines, map[], ranges)
    {
      assert ranges[k..][1..] == ranges[k + 1..];
      var range := ranges[k];
      var at := FindRun(lines, range.theirs);
      var anchor := if at.None? then |lines| else at.value + |range.theirs|;
      additions := additions[anchor := At(additions, anchor) + range.ours];
    }
    var out := WeaveLines(lines, additions);
    text := JoinLines(out);
  }

  /** What the output loop still has to push from `index` on; nothing past the last anchor. */
  function Rest(lines: Lines, additions: map<nat, Lines>, index: nat): Lines {
    if index <= |lines| then Weave(lines, additions, index) else []
  }

  lemma {:induction false} RestStep(out: Lines, lines: Lines, additions: map<nat, Lines>, index: nat)
    requires index <= |lines|
    ensures out + Rest(lines, additions, index) ==
            out + At(additions, index) + (if index < |lines| then [lines[index]] else []) + Rest(lines, additions, index + 1)
  {
  }

  /** The output loop: the additions of each anchor, then the committed line there. */
  method WeaveLines(lines: Lines, additions: map<nat, Lines>) returns (out: Lines)
    ensures out == Weave(lines, additions, 0)
  {
    out := [];
    var index := 0;
    while index <= |lines|
      invariant index <= |lines| + 1
      invariant out + Rest(lines, additions, index) == Weave(lines, additions, 0)
    {
      RestStep(out, lines, additions, index);
      var here := if index < |lines| then [lines[index]] else [];
      out := out + At(additions, index) + here;
      index := index + 1;
    }
  }

  // ------------------------------------------------------------ conservation

  /** Every contested range's losing lines, one range after the other. */
  function AllOurs(ranges: seq<MergeConflict>): Lines {
    if ranges == [] then [] else ranges[0].ours + AllOurs(ranges[1..])
  }

  /** The added lines at anchors `index..n`. */
  ghost function Added(additions: map<nat, Lines>, index: nat, n: nat): multiset<Line>
    decreases n + 1 - index
  {
    if index > n then multiset{} else multiset(At(additions, index)) + Added(additions, index + 1, n)
  }

  lemma {:induction false} AddedSame(a: map<nat, Lines>, b: map<nat, Lines>, index: nat, n: nat)
    requires forall k :: index <= k <= n ==> At(a, k) == At(b, k)
    ensures Added(a, index, n) == Added(b, index, n)
    decreases n + 1 - index
  {
    if index <= n {
      AddedSame(a, b, index + 1, n);
    }
  }

  lemma {:induction false} AddedAt(additions: map<nat, Lines>, anchor: nat, more: Lines, index: nat, n: nat)
    requires index <= anchor <= n
    ensures Added(additions[anchor := At(additions, anchor) + more], index, n) == Added(additions, index, n) + multiset(more)
    decreases n - index
  {
    var additions' := additions[anchor := At(additions, anchor) + more];
    if index == anchor {
      AddedSame(additions', additions, index + 1, n);
      assert At(additions', index) == At(additions, index) + more;
    } else {
      AddedAt(additions, anchor, more, index + 1, n);
      assert At(additions', index) == At(additions, index);
    }
  }

  lemma {:induction false} PlaceAllAdds(lines: Lines, additions: map<nat, Lines>, ranges: seq<MergeConflict>)
    ensures Added(PlaceAll(lines, additions, ranges), 0, |lines|) == Added(additions, 0, |lines|) + multiset(AllOurs(ranges))
    decreases |ranges|
  {
    if ranges != [] {
      AddedAt(additions, Anchor(lines, ranges[0]), ranges[0].ours, 0, |lines|);
      PlaceAllAdds(lines, Place(lines, additions, ranges[0]), ranges[1..]);
    }
  }

  /** The output from line `index` on, taken apart. */
  lemma {:induction false} WeaveStep(lines: Lines, additions: map<nat, Lines>, index: nat)
    requires index < |lines|
    ensures Weave(lines, additions, index) == At(additions, index) + ([lines[index]] + Weave(lines, additions, index + 1))
    ensures lines[index..] == [lines[index]] + lines[index + 1..]
  {
  }

  lemma {:induction false} CountStep(here: Lines, line: Line, rest: Lines, after: Lines, added: multiset<Line>)
    requires multiset(rest) == multiset(after) + added
    ensures multiset(here + ([line] + rest)) == multiset([line] + after) + (multiset(here) + added)
  {
    assert multiset([line] + rest) == multiset{line} + multiset(rest);
    assert multiset([line] + after) == multiset{line} + multiset(after);
  }

  lemma {:induction false} WeaveConserves(lines: Lines, additions: map<nat, Lines>, index: nat)
    requires index <= |lines|
    ensures multiset(Weave(lines, additions, index)) == multiset(lines[index..]) + Added(additions, index, |lines|)
    decreases |lines| - index
  {
    if index < |lines| {
      WeaveStep(lines, additions, index);
      WeaveConserves(lines, additions, index + 1);
      CountStep(At(additions, index), lines[index], Weave(lines, additions, index + 1), lines[index + 1..],
                Added(additions, index + 1, |lines|));
    } else {
      assert Weave(lines, additions, index) == At(additions, index) && lines[index..] == [];
      assert Added(additions, index + 1, |lines|) == multiset{};
    }
  }

  lemma {:induction false} WeaveKeepsOrder(lines: Lines, additions: map<nat, Lines>, index: nat)
    requires index <= |lines|
    ensures Subsequence(lines[index..], Weave(lines, additions, index))
    decreases |lines| - index
  {
    if index < |lines| {
      WeaveKeepsOrder(lines, additions, index + 1);
      WeaveStep(lines, additions, index);
      var rest := Weave(lines, additions, index + 1);
      SubsequencePrepend([lines[index]], lines[index + 1..], rest);
      SubsequenceSkip(At(additions, index), lines[index..], [lines[index]] + rest);
    }
  }

  lemma {:induction false} NothingAdded(index: nat, n: nat)
    ensures Added(map[], index, n) == multiset{}
    decreases n + 1 - index
  {
    if index <= n {
      NothingAdded(index + 1, n);
    }
  }

  /**
   * Keep-both conserves lines: the committed text survives in order, and the
   * lines are exactly the committed ones and every range's losing ones.
   */
  lemma {:induction false} KeepBothConserves(lines: Lines, ranges: seq<MergeConflict>)
    ensures Subsequence(lines, KeepBothLines(lines, ranges))
    ensures multiset(KeepBothLines(lines, ranges)) == multiset(lines) + multiset(AllOurs(ranges))
  {
    WeaveConserves(lines, PlaceAll(lines, map[], ranges), 0);
    WeaveKeepsOrder(lines, PlaceAll(lines, map[], ranges), 0);
    PlaceAllAdds(lines, map[], ranges);
    NothingAdded(0, |lines|);
    assert lines[0..] == lines;
  }

  // ------------------------------------------------------- runs stay together

  lemma {:induction false} PlacedStays(lines: Lines, additions: map<nat, Lines>, ranges: seq<MergeConflict>, anchor: nat, i: nat, run: Lines)
    requires RunAt(At(additions, anchor), run, i)
    ensures RunAt(At(PlaceAll(lines, additions, ranges), anchor), run, i)
    decreases |ranges|
  {
    if ranges != [] {
      PlacedStays(lines, Place(lines, additions, ranges[0]), ranges[1..], anchor, i, run);
    }
  }

  lemma {:induction false} PlacedIs(lines: Lines, additions: map<nat, Lines>, ranges: seq<MergeConflict>, k: nat) returns (i: nat)
    requires k < |ranges|
    ensures RunAt(At(PlaceAll(lines, additions, ranges), Anchor(lines, ranges[k])), ranges[k].ours, i)
    decreases |ranges|
  {
    var placed := Place(lines, additions, ranges[0]);
    if k == 0 {
      var anchor := Anchor(lines, ranges[0]);
      i := |At(additions, anchor)|;
      PlacedStays(lines, placed, ranges[1..], anchor, i, ranges[0].ours);
    } else {
      i := PlacedIs(lines, placed, ranges[1..], k - 1);
    }
  }

  /** The run stands in the text, with `front` in order before it and `back` in order behind it. */
  ghost predicate Stands(text: Lines, run: Lines, at: nat, front: Lines, back: Lines) {
    RunAt(text, run, at) && Subsequence(front, text[..at]) && Subsequence(back, text[at + |run|..])
  }

  lemma {:induction false} StandsFirst(here: Lines, rest: Lines, run: Lines, at: nat, back: Lines)
    requires RunAt(here, run, at) && Subsequence(back, rest)
    ensures Stands(here + rest, run, at, [], back)
  {
    var all := here + rest;
    assert all[at..at + |run|] == here[at..at + |run|];
    assert all[at + |run|..] == here[at + |run|..] + rest;
    SubsequenceSkip(here[at + |run|..], back, rest);
  }

  lemma {:induction false} StandsBehind(here: Lines, line: Line, rest: Lines, run: Lines, at: nat, front: Lines, back: Lines)
    requires Stands(rest, run, at, front, back)
    ensures Stands(here + ([line] + rest), run, |here| + 1 + at, [line] + front, back)
  {
    var all, at' := here + ([line] + rest), |here| + 1 + at;
    assert all[at'..at' + |run|] == rest[at..at + |run|];
    assert all[..at'] == here + ([line] + rest[..at]);
    assert all[at' + |run|..] == rest[at + |run|..];
    SubsequencePrepend([line], front, rest[..at]);
    SubsequenceSkip(here, [line] + front, [line] + rest[..at]);
  }

  lemma {:induction false} WeaveFirst(lines: Lines, additions: map<nat, Lines>, index: nat, i: nat, run: Lines)
    requires index <= |lines| && RunAt(At(additions, index), run, i)
    ensures Stands(Weave(lines, additions, index), run, i, [], lines[index..])
  {
    if index < |lines| {
      var rest := Weave(lines, additions, index + 1);
      WeaveStep(lines, additions, index);
      WeaveKeepsOrder(lines, additions, index + 1);
      SubsequencePrepend([lines[index]], lines[index + 1..], rest);
      StandsFirst(At(additions, index), [lines[index]] + rest, run, i, lines[index..]);
    } else {
      assert lines[index..] == [];
      StandsFirst(At(additions, index), [], run, i, []);
      assert Weave(lines, additions, index) == At(additions, index) + [];
    }
  }

  lemma {:induction false} WeaveHolds(lines: Lines, additions: map<nat, Lines>, index: nat, anchor: nat, i: nat, run: Lines) returns (at: nat)
    requires index <= anchor <= |lines| && RunAt(At(additions, anchor), run, i)
    ensures Stands(Weave(lines, additions, index), run, at, lines[index..anchor], lines[anchor..])
    decreases |lines| - index
  {
    if index == anchor {
      at := i;
      WeaveFirst(lines, additions, index, i, run);
      assert lines[index..anchor] == [];
    } else {
      var at' := WeaveHolds(lines, additions, index + 1, anchor, i, run);
      at := |At(additions, index)| + 1 + at';
      WeaveStep(lines, additions, index);
      StandsBehind(At(additions, index), lines[index], Weave(lines, additions, index + 1), run, at',
                   lines[index + 1..anchor], lines[anchor..]);
      assert lines[index..anchor] == [lines[index]] + lines[index + 1..anchor];
    }
  }

  /**
   * Each range's losing lines stand together in the result, right after the
   * winning run: the committed lines up to the anchor stand in order before
   * them, and those from the anchor on in order behind them.
   */
  lemma {:induction false} LosingRunIsKept(lines: Lines, ranges: seq<MergeConflict>, k: nat) returns (at: nat)
    requires k < |ranges|
    ensures RunAt(KeepBothLines(lines, ranges), ranges[k].ours, at)
    ensures Subsequence(lines[..Anchor(lines, ranges[k])], KeepBothLines(lines, ranges)[..at])
    ensures Subsequence(lines[Anchor(lines, ranges[k])..], KeepBothLines(lines, ranges)[at + |ranges[k].ours|..])
  {
    var i := PlacedIs(lines, map[], ranges, k);
    at := WeaveHolds(lines, PlaceAll(lines, map[], ranges), 0, Anchor(lines, ranges[k]), i, ranges[k].ours);
    assert lines[0..Anchor(lines, ranges[k])] == lines[..Anchor(lines, ranges[k])];
  }

  // ------------------------------------------- where the winning run stands

  /** The anchor is right behind the first place the winning run stands at. */
  lemma {:induction false} AnchorIsBehind(lines: Lines, range: MergeConflict, at: nat)
    requires range.theirs != [] && RunAt(lines, range.theirs, at) && forall i :: 0 <= i < at ==> !RunAt(lines, range.theirs, i)
    ensures Anchor(lines, range) == at + |range.theirs|
  {
    FirstRunIs(lines, range.theirs, 0);
  }

  /** If there is no winning run, or it is nowhere any more, the anchor is the end. */
  lemma {:induction false} AnchorIsEnd(lines: Lines, range: MergeConflict)
    requires range.theirs == [] || forall i :: 0 <= i ==> !RunAt(lines, range.theirs, i)
    ensures Anchor(lines, range) == |lines|
  {
    if range.theirs != [] {
      FirstRunIs(lines, range.theirs, 0);
    }
  }

  /**
   * Where the winning run first stands, the losing lines follow it: the lines up
   * to its end stand in order before them, the others in order behind.
   */
  lemma {:induction false} LosingFollowsWinning(lines: Lines, ranges: seq<MergeConflict>, k: nat, p: nat) returns (at: nat)
    requires k < |ranges| && ranges[k].theirs != [] && RunAt(lines, ranges[k].theirs, p)
    requires forall i :: 0 <= i < p ==> !RunAt(lines, ranges[k].theirs, i)
    ensures var end := p + |ranges[k].theirs|;
            Stands(KeepBothLines(lines, ranges), ranges[k].ours, at, lines[..end], lines[end..])
  {
    AnchorIsBehind(lines, ranges[k], p);
    at := LosingRunIsKept(lines, ranges, k);
  }

  /** Otherwise the losing lines come after everything committed. */
  lemma {:induction false} LosingComesLast(lines: Lines, ranges: seq<MergeConflict>, k: nat) returns (at: nat)
    requires k < |ranges|
    requires ranges[k].theirs == [] || forall i :: 0 <= i ==> !RunAt(lines, ranges[k].theirs, i)
    ensures Stands(KeepBothLines(lines, ranges), ranges[k].ours, at, lines, [])
  {
    AnchorIsEnd(lines, ranges[k]);
    at := LosingRunIsKept(lines, ranges, k);
    assert lines[..|lines|] == lines && lines[|lines|..] == [];
  }

  // --------------------------------------- the ranges a merge reports stand in its texts

  lemma {:induction false} InsertedStands(base: Lines, hunks: seq<Hunk>, pos: nat, k: nat) returns (at: nat)
    requires Ordered(hunks, pos, |base|) && k < |hunks|
    ensures RunAt(ApplyFrom(base, hunks, pos), hunks[k].inserted, at)
  {
    var front, rest := base[pos..hunks[0].start], ApplyFrom(base, hunks[1..], hunks[0].End());
    var all := ApplyFrom(base, hunks, pos);
    if k == 0 {
      at := |front|;
      assert all[at..at + |hunks[0].inserted|] == hunks[0].inserted;
    } else {
      var at' := InsertedStands(base, hunks[1..], hunks[0].End(), k - 1);
      var head := front + hunks[0].inserted;
      at := |head| + at';
      assert all[at..at + |hunks[k].inserted|] == rest[at'..at' + |hunks[k].inserted|];
    }
  }

  lemma {:induction false} EditStands(base: string, text: string, k: nat) returns (at: nat)
    requires k < |Edits(base, text)|
    ensures RunAt(SplitLines(text), Edits(base, text)[k].inserted, at)
  {
    EditsAreCorrect(base, text);
    at := InsertedStands(SplitLines(base), Edits(base, text), 0, k);
  }

  /** Each side's lines of a reported range stand together in that side's text; so the winning run is found. */
  lemma {:induction false} RangesStand(base: string, ours: string, theirs: string, c: MergeConflict) returns (inOurs: nat, inTheirs: nat)
    requires Merge3(base, ours, theirs).Conflicted? && c in Merge3(base, ours, theirs).conflicts
    ensures RunAt(SplitLines(ours), c.ours, inOurs) && RunAt(SplitLines(theirs), c.theirs, inTheirs)
    ensures c.theirs != [] ==> FirstRun(SplitLines(theirs), c.theirs, 0).Some?
  {
    var mine, yours := Edits(base, ours), Edits(base, theirs);
    ConflictsAre(mine, yours, c);
    var i, j :| 0 <= i < |mine| && 0 <= j < |yours| && Overlaps(mine[i], yours[j]) && Reports(c, mine[i], yours[j]);
    inOurs := EditStands(base, ours, i);
    inTheirs := EditStands(base, theirs, j);
    if c.theirs != [] {
      FirstRunIs(SplitLines(theirs), c.theirs, 0);
    }
  }
}
