/**
 * What the three-way merge means: the right-to-left splice of both hunk lists
 * is a commuting square. Our hunks moved over their text, and their hunks
 * moved over our text, both arrive at the merged lines.
 */
module Square {
  import opened Text
  import opened Diff
  import opened Merge

  ghost predicate Disjoint(ours: seq<Hunk>, theirs: seq<Hunk>) {
    forall i, j :: 0 <= i < |ours| && 0 <= j < |theirs| ==> !Overlaps(ours[i], theirs[j])
  }

  // ------------------------------------------------- the reported conflicts

  /** Two hunks overlap if some base position lies in both, where an insertion occupies the one it lands on. */
  lemma {:induction false} OverlapsIs(a: Hunk, b: Hunk)
    ensures Overlaps(a, b) <==> exists p: nat :: Occupies(a, p) && Occupies(b, p)
  {
    if Overlaps(a, b) {
      assert Occupies(a, if a.start >= b.start then a.start else b.start);
    }
  }

  predicate Occupies(h: Hunk, p: nat) {
    h.start <= p && (p < h.End() || p == h.start)
  }

  /** The range spans both hunks and holds each side's lines. */
  ghost predicate Reports(c: MergeConflict, mine: Hunk, yours: Hunk) {
    c.ours == mine.inserted && c.theirs == yours.inserted &&
    c.baseStart <= mine.start && c.baseStart <= yours.start && (c.baseStart == mine.start || c.baseStart == yours.start) &&
    c.baseEnd >= mine.End() && c.baseEnd >= yours.End() && (c.baseEnd == mine.End() || c.baseEnd == yours.End())
  }

  lemma {:induction false} ConflictsOfAre(mine: Hunk, theirs: seq<Hunk>, c: MergeConflict)
    ensures c in ConflictsOf(mine, theirs) <==>
            exists j :: 0 <= j < |theirs| && Overlaps(mine, theirs[j]) && Reports(c, mine, theirs[j])
  {
    if theirs != [] {
      ConflictsOfAre(mine, theirs[1..], c);
      assert Reports(c, mine, theirs[0]) <==> c == ConflictOf(mine, theirs[0]);
      assert forall j :: 0 <= j < |theirs[1..]| ==> theirs[1..][j] == theirs[j + 1];
      if j :| 0 <= j < |theirs| && Overlaps(mine, theirs[j]) && Reports(c, mine, theirs[j]) {
        if j > 0 {
          assert theirs[1..][j - 1] == theirs[j];
        }
      }
    }
  }

  /** Exactly the overlapping pairs are reported, each with the base range they span and both sides' lines. */
  lemma {:induction false} ConflictsAre(ours: seq<Hunk>, theirs: seq<Hunk>, c: MergeConflict)
    ensures c in Conflicts(ours, theirs) <==>
            exists i, j :: 0 <= i < |ours| && 0 <= j < |theirs| && Overlaps(ours[i], theirs[j]) && Reports(c, ours[i], theirs[j])
  {
    if ours != [] {
      ConflictsOfAre(ours[0], theirs, c);
      ConflictsAre(ours[1..], theirs, c);
      assert forall i :: 0 <= i < |ours[1..]| ==> ours[1..][i] == ours[i + 1];
      if i, j :| 0 <= i < |ours| && 0 <= j < |theirs| && Overlaps(ours[i], theirs[j]) && Reports(c, ours[i], theirs[j]) {
        if i > 0 {
          assert ours[1..][i - 1] == ours[i];
        }
      }
    }
  }

  lemma {:induction false} NoConflictIsDisjoint(ours: seq<Hunk>, theirs: seq<Hunk>)
    ensures Conflicts(ours, theirs) == [] <==> Disjoint(ours, theirs)
  {
    if Conflicts(ours, theirs) == [] {
      forall i, j | 0 <= i < |ours| && 0 <= j < |theirs| ensures !Overlaps(ours[i], theirs[j]) {
        if Overlaps(ours[i], theirs[j]) {
          ConflictsAre(ours, theirs, ConflictOf(ours[i], theirs[j]));
          assert Reports(ConflictOf(ours[i], theirs[j]), ours[i], theirs[j]);
        }
      }
    } else {
      ConflictsAre(ours, theirs, Conflicts(ours, theirs)[0]);
    }
  }

  function Mirror(c: MergeConflict): MergeConflict {
    c.(ours := c.theirs, theirs := c.ours)
  }

  lemma {:induction false} MirrorIsReported(ours: seq<Hunk>, theirs: seq<Hunk>, c: MergeConflict)
    requires c in Conflicts(ours, theirs)
    ensures Mirror(c) in Conflicts(theirs, ours)
  {
    ConflictsAre(ours, theirs, c);
    var i, j :| 0 <= i < |ours| && 0 <= j < |theirs| && Overlaps(ours[i], theirs[j]) && Reports(c, ours[i], theirs[j]);
    assert Overlaps(theirs[j], ours[i]) && Reports(Mirror(c), theirs[j], ours[i]);
    ConflictsAre(theirs, ours, Mirror(c));
  }

  /** Swapping the sides swaps the two halves of every reported conflict. */
  lemma {:induction false} ConflictsMirror(ours: seq<Hunk>, theirs: seq<Hunk>, c: MergeConflict)
    ensures c in Conflicts(ours, theirs) <==> Mirror(c) in Conflicts(theirs, ours)
  {
    assert Mirror(Mirror(c)) == c;
    if c in Conflicts(ours, theirs) {
      MirrorIsReported(ours, theirs, c);
    }
    if Mirror(c) in Conflicts(theirs, ours) {
      MirrorIsReported(theirs, ours, Mirror(c));
    }
  }

  // --------------------------------------------------- interleaving in order

  /** Both lists as one, by ascending start. */
  function Interleave(ours: seq<Hunk>, theirs: seq<Hunk>): seq<Hunk>
    decreases |ours| + |theirs|
  {
    if ours == [] then theirs
    else if theirs == [] then ours
    else if ours[0].start < theirs[0].start then [ours[0]] + Interleave(ours[1..], theirs)
    else [theirs[0]] + Interleave(ours, theirs[1..])
  }

  lemma {:induction false} DisjointTails(ours: seq<Hunk>, theirs: seq<Hunk>)
    requires Disjoint(ours, theirs)
    ensures ours != [] ==> Disjoint(ours[1..], theirs)
    ensures theirs != [] ==> Disjoint(ours, theirs[1..])
    ensures ours != [] && theirs != [] ==>
              (ours[0].End() <= theirs[0].start && ours[0].start < theirs[0].start) ||
              (theirs[0].End() <= ours[0].start && theirs[0].start < ours[0].start)
  {
    if ours != [] && theirs != [] {
      assert !Overlaps(ours[0], theirs[0]);
    }
  }

  lemma {:induction false} OrderedFrom(hunks: seq<Hunk>, pos: nat, from: nat, n: nat)
    requires Ordered(hunks, pos, n) && from <= n
    requires hunks != [] ==> from <= hunks[0].start
    ensures Ordered(hunks, from, n)
  {
  }

  lemma {:induction false} OrderedBounds(hunks: seq<Hunk>, pos: nat, n: nat)
    requires Ordered(hunks, pos, n)
    ensures pos <= n
  {
    if hunks != [] {
      OrderedBounds(hunks[1..], hunks[0].End(), n);
    }
  }

  lemma {:induction false} InterleaveIsOrdered(ours: seq<Hunk>, theirs: seq<Hunk>, pos: nat, n: nat)
    requires Ordered(ours, pos, n) && Ordered(theirs, pos, n) && Disjoint(ours, theirs)
    ensures Ordered(Interleave(ours, theirs), pos, n)
    decreases |ours| + |theirs|
  {
    if ours != [] && theirs != [] {
      DisjointTails(ours, theirs);
      var all := Interleave(ours, theirs);
      if ours[0].start < theirs[0].start {
        OrderedFrom(theirs, pos, ours[0].End(), n);
        InterleaveIsOrdered(ours[1..], theirs, ours[0].End(), n);
        assert all[1..] == Interleave(ours[1..], theirs);
      } else {
        OrderedFrom(ours, pos, theirs[0].End(), n);
        InterleaveIsOrdered(ours, theirs[1..], theirs[0].End(), n);
        assert all[1..] == Interleave(ours, theirs[1..]);
      }
    }
  }

  ghost predicate Ascending(hunks: seq<Hunk>) {
    forall i, j :: 0 <= i < j < |hunks| ==> hunks[i].start < hunks[j].start
  }

  lemma {:induction false} InterleaveKeepsAll(ours: seq<Hunk>, theirs: seq<Hunk>)
    ensures multiset(Interleave(ours, theirs)) == multiset(ours) + multiset(theirs)
    decreases |ours| + |theirs|
  {
    if ours != [] && theirs != [] {
      assert ours == [ours[0]] + ours[1..] && theirs == [theirs[0]] + theirs[1..];
      if ours[0].start < theirs[0].start {
        InterleaveKeepsAll(ours[1..], theirs);
      } else {
        InterleaveKeepsAll(ours, theirs[1..]);
      }
    }
  }

  lemma {:induction false} InAll(h: Hunk, ours: seq<Hunk>, theirs: seq<Hunk>)
    ensures h in Interleave(ours, theirs) <==> h in ours || h in theirs
  {
    InterleaveKeepsAll(ours, theirs);
    assert h in multiset(Interleave(ours, theirs)) <==> h in multiset(ours) || h in multiset(theirs);
  }

  lemma {:induction false} InterleaveAscends(ours: seq<Hunk>, theirs: seq<Hunk>)
    requires Ascending(ours) && Ascending(theirs) && Disjoint(ours, theirs)
    ensures Ascending(Interleave(ours, theirs))
    decreases |ours| + |theirs|
  {
    if ours != [] && theirs != [] {
      DisjointTails(ours, theirs);
      var head, rest :=
        if ours[0].start < theirs[0].start then ours[0] else theirs[0],
        if ours[0].start < theirs[0].start then Interleave(ours[1..], theirs) else Interleave(ours, theirs[1..]);
      if ours[0].start < theirs[0].start {
        InterleaveAscends(ours[1..], theirs);
      } else {
        InterleaveAscends(ours, theirs[1..]);
      }
      forall j | 0 <= j < |rest| ensures head.start < rest[j].start {
        assert rest[j] in rest;
        if ours[0].start < theirs[0].start {
          InAll(rest[j], ours[1..], theirs);
        } else {
          InAll(rest[j], ours, theirs[1..]);
        }
      }
    }
  }

  lemma {:induction false} SeparatedAscends(hunks: seq<Hunk>, n: nat)
    requires Separated(hunks, 0, n)
    ensures Ascending(hunks)
  {
    forall i, j | 0 <= i < j < |hunks| ensures hunks[i].start < hunks[j].start {
      SeparatedAt(hunks, 0, n, i, j);
    }
  }

  function Reverse(hunks: seq<Hunk>): seq<Hunk>
    decreases |hunks|
  {
    if hunks == [] then [] else [hunks[|hunks| - 1]] + Reverse(hunks[..|hunks| - 1])
  }

  lemma {:induction false} SameRest(h: Hunk, xs: seq<Hunk>, ys: seq<Hunk>, all: multiset<Hunk>)
    requires multiset([h] + xs) == all && multiset(ys + [h]) == all
    ensures multiset(xs) == multiset(ys)
  {
    assert multiset(xs) == all - multiset{h} && multiset(ys) == all - multiset{h};
  }

  lemma {:induction false} SortHead(descending: seq<Hunk>, ascending: seq<Hunk>)
    requires Descending(descending) && Ascending(ascending) && ascending != []
    requires multiset(descending) == multiset(ascending)
    ensures descending != [] && descending[0] == ascending[|ascending| - 1]
  {
    var k := |ascending| - 1;
    var last := ascending[k];
    assert last in multiset(descending);
    var j :| 0 <= j < |descending| && descending[j] == last;
    assert descending[0] in multiset(ascending);
    var i :| 0 <= i < |ascending| && ascending[i] == descending[0];
    assert i == k;
  }

  lemma {:induction false} SortRest(descending: seq<Hunk>, ascending: seq<Hunk>)
    requires descending != [] && ascending != [] && descending[0] == ascending[|ascending| - 1]
    requires multiset(descending) == multiset(ascending)
    ensures multiset(descending[1..]) == multiset(ascending[..|ascending| - 1])
  {
    var last := descending[0];
    assert [last] + descending[1..] == descending;
    assert ascending[..|ascending| - 1] + [last] == ascending;
    SameRest(last, descending[1..], ascending[..|ascending| - 1], multiset(ascending));
  }

  /** With distinct starts there is only one way to sort. */
  lemma {:induction false} SortIsUnique(descending: seq<Hunk>, ascending: seq<Hunk>)
    requires Descending(descending) && Ascending(ascending)
    requires multiset(descending) == multiset(ascending)
    ensures descending == Reverse(ascending)
    decreases |ascending|
  {
    if ascending == [] {
      assert |multiset(descending)| == |descending|;
    } else {
      SortHead(descending, ascending);
      SortRest(descending, ascending);
      SortIsUnique(descending[1..], ascending[..|ascending| - 1]);
      assert descending == [descending[0]] + descending[1..];
    }
  }

  // -------------------------------------------------------- the splice loop

  /** Hunks confined to the front of `base` act on the front alone. */
  lemma {:induction false} ApplyConcat(base: Lines, front: seq<Hunk>, back: seq<Hunk>, pos: nat, mid: nat)
    requires mid <= |base| && Ordered(front, pos, mid) && Ordered(back, mid, |base|)
    ensures Ordered(front + back, pos, |base|)
    ensures ApplyFrom(base, front + back, pos) == ApplyFrom(base[..mid], front, pos) + ApplyFrom(base, back, mid)
  {
    if front == [] {
      assert front + back == back;
      ApplySplit(base, back, pos, mid);
      assert base[..mid][pos..] == base[pos..mid];
    } else {
      OrderedBounds(front[1..], front[0].End(), mid);
      ApplyConcat(base, front[1..], back, front[0].End(), mid);
      ApplyConcatStep(base, front[0], front[1..], back, pos, mid);
      assert front == [front[0]] + front[1..];
    }
  }

  lemma {:induction false} ApplyConcatStep(base: Lines, h: Hunk, front: seq<Hunk>, back: seq<Hunk>, pos: nat, mid: nat)
    requires pos <= h.start && h.End() <= mid <= |base| && Ordered(front, h.End(), mid) && Ordered(front + back, h.End(), |base|)
    requires Ordered(back, mid, |base|)
    requires ApplyFrom(base, front + back, h.End()) == ApplyFrom(base[..mid], front, h.End()) + ApplyFrom(base, back, mid)
    ensures Ordered([h] + front + back, pos, |base|) && Ordered([h] + front, pos, mid)
    ensures ApplyFrom(base, [h] + front + back, pos) == ApplyFrom(base[..mid], [h] + front, pos) + ApplyFrom(base, back, mid)
  {
    var head := base[pos..h.start] + h.inserted;
    assert [h] + front + back == [h] + (front + back);
    ApplyCons(base, h, front + back, pos);
    ApplyCons(base[..mid], h, front, pos);
    assert base[..mid][pos..h.start] == base[pos..h.start];
    Regroup(head, ApplyFrom(base[..mid], front, h.End()), ApplyFrom(base, back, mid));
  }

  lemma {:induction false} OrderedInit(hunks: seq<Hunk>, pos: nat, n: nat)
    requires Ordered(hunks, pos, n) && hunks != []
    ensures var k := |hunks| - 1;
            hunks[k].End() <= n && Ordered(hunks[..k], pos, hunks[k].start)
  {
    var k := |hunks| - 1;
    if k > 0 {
      OrderedInit(hunks[1..], hunks[0].End(), n);
      assert hunks[..k][1..] == hunks[1..][..k - 1];
      OrderedBounds(hunks[1..][..k - 1], hunks[0].End(), hunks[k].start);
    }
  }

  /** Splicing from the right applies every hunk at its base position. */
  lemma {:induction false} SpliceIsApply(base: Lines, hunks: seq<Hunk>, suffix: Lines)
    requires Ordered(hunks, 0, |base|)
    ensures SpliceAll(base + suffix, Reverse(hunks)) == Apply(base, hunks) + suffix
    decreases |hunks|
  {
    if hunks == [] {
      assert base[0..] == base;
    } else {
      var k := |hunks| - 1;
      OrderedInit(hunks, 0, |base|);
      assert hunks == hunks[..k] + [hunks[k]];
      var tail := hunks[k].inserted + base[hunks[k].End()..];
      SpliceIsApply(base[..hunks[k].start], hunks[..k], tail + suffix);
      SpliceStep(base, hunks[..k], hunks[k], suffix);
    }
  }

  lemma {:induction false} SpliceStep(base: Lines, init: seq<Hunk>, h: Hunk, suffix: Lines)
    requires h.End() <= |base| && Ordered(init, 0, h.start)
    requires var tail := h.inserted + base[h.End()..];
             SpliceAll(base[..h.start] + (tail + suffix), Reverse(init)) == Apply(base[..h.start], init) + (tail + suffix)
    ensures Ordered(init + [h], 0, |base|)
    ensures SpliceAll(base + suffix, Reverse(init + [h])) == Apply(base, init + [h]) + suffix
  {
    var tail := h.inserted + base[h.End()..];
    ApplyLast(base, init, h);
    ReverseLast(init, h);
    SpliceLast(base, h, suffix);
    assert Apply(base[..h.start], init) + (tail + suffix) == Apply(base, init + [h]) + suffix;
    assert SpliceAll(base + suffix, Reverse(init + [h])) == SpliceAll(Splice(base + suffix, h), Reverse(init));
  }

  lemma {:induction false} ReverseLast(init: seq<Hunk>, h: Hunk)
    ensures Reverse(init + [h]) == [h] + Reverse(init)
    ensures Reverse(init + [h])[0] == h && Reverse(init + [h])[1..] == Reverse(init)
  {
    assert (init + [h])[..|init|] == init;
  }

  lemma {:induction false} SpliceLast(base: Lines, h: Hunk, suffix: Lines)
    requires h.End() <= |base|
    ensures Splice(base + suffix, h) == base[..h.start] + (h.inserted + base[h.End()..] + suffix)
  {
    assert (base + suffix)[..h.start] == base[..h.start];
    assert (base + suffix)[h.End()..] == base[h.End()..] + suffix;
  }

  lemma {:induction false} ApplyLast(base: Lines, init: seq<Hunk>, h: Hunk)
    requires h.End() <= |base| && Ordered(init, 0, h.start)
    ensures Ordered(init + [h], 0, |base|)
    ensures Apply(base, init + [h]) == Apply(base[..h.start], init) + (h.inserted + base[h.End()..])
  {
    assert [h][1..] == [];
    ApplyConcat(base, init, [h], 0, h.start);
    assert ApplyFrom(base, [h], h.start) == base[h.start..h.start] + h.inserted + base[h.End()..];
  }

  /** The merged lines are both hunk lists applied to the base in one pass. */
  lemma {:induction false} MergeIsApply(base: Lines, ours: seq<Hunk>, theirs: seq<Hunk>)
    requires Separated(ours, 0, |base|) && Separated(theirs, 0, |base|) && Disjoint(ours, theirs)
    ensures Ordered(Interleave(ours, theirs), 0, |base|)
    ensures MergeHunks(base, ours, theirs) == Apply(base, Interleave(ours, theirs))
  {
    SeparatedIsOrdered(ours, 0, |base|);
    SeparatedIsOrdered(theirs, 0, |base|);
    InterleaveIsOrdered(ours, theirs, 0, |base|);
    SeparatedAscends(ours, |base|);
    SeparatedAscends(theirs, |base|);
    InterleaveAscends(ours, theirs);
    SortSorts(ours + theirs);
    InterleaveKeepsAll(ours, theirs);
    SortIsUnique(SortDescending(ours + theirs), Interleave(ours, theirs));
    SpliceIsApply(base, Interleave(ours, theirs), []);
    assert base + [] == base;
  }

  // ------------------------------------------------------------- the square

  /**
   * `ours` restated against the text that `theirs` makes of the base: base
   * position `pos` has become position `to` of that text.
   */
  function Shift(ours: seq<Hunk>, theirs: seq<Hunk>, pos: nat, to: nat): seq<Hunk>
    decreases |ours| + |theirs|
  {
    if ours == [] then []
    else if theirs != [] && pos <= theirs[0].start < ours[0].start then
      Shift(ours, theirs[1..], theirs[0].End(), to + (theirs[0].start - pos) + |theirs[0].inserted|)
    else if pos <= ours[0].start then
      [ours[0].(start := to + (ours[0].start - pos))] + Shift(ours[1..], theirs, ours[0].End(), to + (ours[0].End() - pos))
    else []
  }

  /** Net growth that the hunks starting before `at` cause. */
  function Growth(hunks: seq<Hunk>, at: nat): int {
    if hunks == [] then 0
    else (if hunks[0].start < at then |hunks[0].inserted| - hunks[0].deleted else 0) + Growth(hunks[1..], at)
  }

  /** `Rebased(ours, theirs)`: our hunks as edits of their text. */
  function Rebased(ours: seq<Hunk>, theirs: seq<Hunk>): seq<Hunk> {
    Shift(ours, theirs, 0, 0)
  }

  lemma {:induction false} NoGrowthBefore(hunks: seq<Hunk>, pos: nat, n: nat, at: nat)
    requires Ordered(hunks, pos, n) && at <= pos
    ensures Growth(hunks, at) == 0
  {
    if hunks != [] {
      NoGrowthBefore(hunks[1..], hunks[0].End(), n, at);
    }
  }

  lemma {:induction false} OrderedFloor(hunks: seq<Hunk>, pos: nat, n: nat, k: nat)
    requires Ordered(hunks, pos, n) && k < |hunks|
    ensures pos <= hunks[k].start
  {
    if k > 0 {
      OrderedFloor(hunks[1..], hunks[0].End(), n, k - 1);
    }
  }

  lemma {:induction false} ShiftMovesFrom(ours: seq<Hunk>, theirs: seq<Hunk>, pos: nat, to: nat, n: nat, k: nat)
    requires Ordered(ours, pos, n) && Ordered(theirs, pos, n) && Disjoint(ours, theirs)
    requires k < |ours|
    ensures |Shift(ours, theirs, pos, to)| == |ours|
    ensures Shift(ours, theirs, pos, to)[k].start == ours[k].start + (to - pos) + Growth(theirs, ours[k].start)
    ensures Shift(ours, theirs, pos, to)[k].deleted == ours[k].deleted
    ensures Shift(ours, theirs, pos, to)[k].inserted == ours[k].inserted
    decreases |ours| + |theirs|
  {
    DisjointTails(ours, theirs);
    if theirs != [] && theirs[0].start < ours[0].start {
      OrderedFrom(ours, pos, theirs[0].End(), n);
      OrderedFloor(ours, theirs[0].End(), n, k);
      ShiftMovesFrom(ours, theirs[1..], theirs[0].End(), to + (theirs[0].start - pos) + |theirs[0].inserted|, n, k);
    } else {
      OrderedFrom(theirs, pos, ours[0].End(), n);
      NoGrowthBefore(theirs, ours[0].End(), n, ours[0].start);
      if k > 0 {
        ShiftMovesFrom(ours[1..], theirs, ours[0].End(), to + (ours[0].End() - pos), n, k - 1);
      } else if |ours| > 1 {
        ShiftMovesFrom(ours[1..], theirs, ours[0].End(), to + (ours[0].End() - pos), n, 0);
      }
    }
  }

  /** Rebasing moves each hunk by the growth of their hunks before it, and changes nothing else. */
  lemma {:induction false} RebaseMoves(ours: seq<Hunk>, theirs: seq<Hunk>, n: nat, k: nat)
    requires Ordered(ours, 0, n) && Ordered(theirs, 0, n) && Disjoint(ours, theirs) && k < |ours|
    ensures |Rebased(ours, theirs)| == |ours|
    ensures Rebased(ours, theirs)[k].start == ours[k].start + Growth(theirs, ours[k].start)
    ensures Rebased(ours, theirs)[k].deleted == ours[k].deleted
    ensures Rebased(ours, theirs)[k].inserted == ours[k].inserted
  {
    ShiftMovesFrom(ours, theirs, 0, 0, n, k);
  }

  lemma {:induction false} RebaseKeepsCounts(ours: seq<Hunk>, theirs: seq<Hunk>, pos: nat, to: nat, n: nat)
    requires Ordered(ours, pos, n) && Ordered(theirs, pos, n) && Disjoint(ours, theirs)
    ensures Inserted(Shift(ours, theirs, pos, to)) == Inserted(ours)
    ensures Deleted(Shift(ours, theirs, pos, to)) == Deleted(ours)
    decreases |ours| + |theirs|
  {
    DisjointTails(ours, theirs);
    if ours == [] {
    } else if theirs != [] && theirs[0].start < ours[0].start {
      OrderedFrom(ours, pos, theirs[0].End(), n);
      RebaseKeepsCounts(ours, theirs[1..], theirs[0].End(), to + (theirs[0].start - pos) + |theirs[0].inserted|, n);
    } else {
      OrderedFrom(theirs, pos, ours[0].End(), n);
      RebaseKeepsCounts(ours[1..], theirs, ours[0].End(), to + (ours[0].End() - pos), n);
      var moved := ours[0].(start := to + (ours[0].start - pos));
      var rest := Shift(ours[1..], theirs, ours[0].End(), to + (ours[0].End() - pos));
      assert ([moved] + rest)[1..] == rest;
    }
  }

  /** Hunks `xs` on `base` from `pos` and `ys` on `text` from `to` give the same lines. */
  ghost predicate Agree(base: Lines, xs: seq<Hunk>, pos: nat, text: Lines, ys: seq<Hunk>, to: nat) {
    Ordered(xs, pos, |base|) && Ordered(ys, to, |text|) && ApplyFrom(base, xs, pos) == ApplyFrom(text, ys, to)
  }

  /**
   * One side of the square, from base position `pos` on: `text[to..]` is what
   * `theirs` makes of `base[pos..]`.
   */
  lemma {:induction false} ShiftCommutes(base: Lines, text: Lines, ours: seq<Hunk>, theirs: seq<Hunk>, pos: nat, to: nat)
    requires Ordered(ours, pos, |base|) && Ordered(theirs, pos, |base|) && Disjoint(ours, theirs)
    requires to <= |text| && text[to..] == ApplyFrom(base, theirs, pos)
    ensures Agree(base, Interleave(ours, theirs), pos, text, Shift(ours, theirs, pos, to), to)
    decreases |ours| + |theirs|
  {
    DisjointTails(ours, theirs);
    if ours == [] {
    } else if theirs != [] && theirs[0].start < ours[0].start {
      InterleaveIsOrdered(ours, theirs, pos, |base|);
      ShiftCommutesTheirs(base, text, ours, theirs, pos, to);
    } else {
      BehindOurs(base, text, ours, theirs, pos, to);
      OursFirst(ours, theirs, pos, to);
      var o := ours[0];
      SameHunk(base, text, o, Interleave(ours[1..], theirs), Shift(ours[1..], theirs, o.End(), to + (o.End() - pos)), pos, to,
               Interleave(ours, theirs), Shift(ours, theirs, pos, to));
    }
  }

  lemma {:induction false} ShiftCommutesTheirs(base: Lines, text: Lines, ours: seq<Hunk>, theirs: seq<Hunk>, pos: nat, to: nat)
    requires Ordered(ours, pos, |base|) && Ordered(theirs, pos, |base|) && Disjoint(ours, theirs)
    requires to <= |text| && text[to..] == ApplyFrom(base, theirs, pos)
    requires ours != [] && theirs != [] && theirs[0].start < ours[0].start
    requires Ordered(Interleave(ours, theirs), pos, |base|)
    ensures Agree(base, Interleave(ours, theirs), pos, text, Shift(ours, theirs, pos, to), to)
    decreases |ours| + |theirs|, 0
  {
    DisjointTails(ours, theirs);
    var t := theirs[0];
    var front := base[pos..t.start] + t.inserted;
    var to' := to + |front|;
    var rest := ApplyFrom(base, theirs[1..], t.End());
    assert text[to..] == front + rest;
    assert text[to'..] == text[to..][|front|..] == rest;
    assert text[to..to'] == text[to..][..|front|] == front;
    OrderedFrom(ours, pos, t.End(), |base|);
    ShiftCommutes(base, text, ours, theirs[1..], t.End(), to');
    var shifted := Shift(ours, theirs[1..], t.End(), to');
    assert Shift(ours, theirs, pos, to) == shifted;
    ApplySplit(text, shifted, to, to');
    assert Interleave(ours, theirs)[1..] == Interleave(ours, theirs[1..]);
  }

  /** Up to the end of our first hunk the base stands unchanged in the text, and behind it the two sides agree. */
  lemma {:induction false} BehindOurs(base: Lines, text: Lines, ours: seq<Hunk>, theirs: seq<Hunk>, pos: nat, to: nat)
    requires Ordered(ours, pos, |base|) && Ordered(theirs, pos, |base|) && Disjoint(ours, theirs)
    requires to <= |text| && text[to..] == ApplyFrom(base, theirs, pos)
    requires ours != [] && (theirs != [] ==> ours[0].start < theirs[0].start)
    ensures var o := ours[0];
            var to' := to + (o.End() - pos);
            pos <= o.start && o.End() <= |base| && to' <= |text| && text[to..to + (o.start - pos)] == base[pos..o.start] &&
            Agree(base, Interleave(ours[1..], theirs), o.End(), text, Shift(ours[1..], theirs, o.End(), to'), to')
    decreases |ours| + |theirs|, 0
  {
    DisjointTails(ours, theirs);
    var o := ours[0];
    assert Ordered(ours[1..], o.End(), |base|) && pos <= o.start && o.End() <= |base|;
    OrderedBounds(ours[1..], o.End(), |base|);
    OrderedFrom(theirs, pos, o.End(), |base|);
    KeptThrough(base, text, theirs, pos, to, o.start, o.End());
    ShiftCommutes(base, text, ours[1..], theirs, o.End(), to + (o.End() - pos));
  }

  /** The same hunk in front of two equal continuations. */
  lemma {:induction false} SameHunk(base: Lines, text: Lines, o: Hunk, all: seq<Hunk>, shifted: seq<Hunk>, pos: nat, to: nat,
                                    xs: seq<Hunk>, ys: seq<Hunk>)
    requires pos <= o.start && o.End() <= |base| && to + (o.End() - pos) <= |text|
    requires xs == [o] + all && ys == [o.(start := to + (o.start - pos))] + shifted
    requires text[to..to + (o.start - pos)] == base[pos..o.start]
    requires Agree(base, all, o.End(), text, shifted, to + (o.End() - pos))
    ensures Agree(base, xs, pos, text, ys, to)
  {
    var moved := o.(start := to + (o.start - pos));
    var rest := ApplyFrom(base, all, o.End());
    assert moved.End() == to + (o.End() - pos);
    assert ApplyFrom(text, shifted, moved.End()) == rest;
    HunkInFront(base, o, all, pos, rest);
    HunkInFront(text, moved, shifted, to, rest);
  }

  lemma {:induction false} HunkInFront(base: Lines, hunk: Hunk, rest: seq<Hunk>, pos: nat, after: Lines)
    requires pos <= hunk.start && hunk.End() <= |base| && Ordered(rest, hunk.End(), |base|)
    requires ApplyFrom(base, rest, hunk.End()) == after
    ensures Ordered([hunk] + rest, pos, |base|)
    ensures ApplyFrom(base, [hunk] + rest, pos) == base[pos..hunk.start] + hunk.inserted + after
  {
    ApplyCons(base, hunk, rest, pos);
  }

  lemma {:induction false} OursFirst(ours: seq<Hunk>, theirs: seq<Hunk>, pos: nat, to: nat)
    requires ours != [] && pos <= ours[0].start && (theirs != [] ==> ours[0].start < theirs[0].start)
    ensures var o := ours[0];
            Shift(ours, theirs, pos, to) ==
            [o.(start := to + (o.start - pos))] + Shift(ours[1..], theirs, o.End(), to + (o.End() - pos))
    ensures Interleave(ours, theirs) == [ours[0]] + Interleave(ours[1..], theirs)
  {
  }

  /** Base lines before their first remaining hunk stand unchanged in their text. */
  lemma {:induction false} KeptThrough(base: Lines, text: Lines, theirs: seq<Hunk>, pos: nat, to: nat, mid: nat, end: nat)
    requires pos <= mid <= end <= |base| && Ordered(theirs, pos, |base|) && Ordered(theirs, end, |base|)
    requires to <= |text| && text[to..] == ApplyFrom(base, theirs, pos)
    ensures to + (end - pos) <= |text|
    ensures text[to..to + (mid - pos)] == base[pos..mid]
    ensures text[to + (end - pos)..] == ApplyFrom(base, theirs, end)
  {
    ApplySplit(base, theirs, pos, end);
    var front, rest := base[pos..end], ApplyFrom(base, theirs, end);
    assert text[to..] == front + rest;
    assert text[to + |front|..] == text[to..][|front|..] == rest;
    assert text[to..to + (mid - pos)] == text[to..][..mid - pos] == front[..mid - pos] == base[pos..mid];
  }

  lemma {:induction false} InterleaveSymmetric(ours: seq<Hunk>, theirs: seq<Hunk>)
    requires Disjoint(ours, theirs)
    ensures Interleave(ours, theirs) == Interleave(theirs, ours)
    decreases |ours| + |theirs|
  {
    DisjointTails(ours, theirs);
    if ours != [] && theirs != [] {
      if ours[0].start < theirs[0].start {
        InterleaveSymmetric(ours[1..], theirs);
      } else {
        InterleaveSymmetric(ours, theirs[1..]);
      }
    }
  }

  lemma {:induction false} DisjointSymmetric(ours: seq<Hunk>, theirs: seq<Hunk>)
    ensures Disjoint(ours, theirs) <==> Disjoint(theirs, ours)
  {
    assert forall a: Hunk, b: Hunk :: Overlaps(a, b) <==> Overlaps(b, a);
  }

  /** The commuting square, for any two separated hunk lists that do not overlap. */
  lemma {:induction false} CommutingSquare(base: Lines, ours: seq<Hunk>, theirs: seq<Hunk>)
    requires Separated(ours, 0, |base|) && Separated(theirs, 0, |base|) && Disjoint(ours, theirs)
    ensures Ordered(ours, 0, |base|) && Ordered(theirs, 0, |base|)
    ensures Ordered(Rebased(ours, theirs), 0, |Apply(base, theirs)|)
    ensures Ordered(Rebased(theirs, ours), 0, |Apply(base, ours)|)
    ensures MergeHunks(base, ours, theirs) == Apply(Apply(base, theirs), Rebased(ours, theirs))
    ensures MergeHunks(base, ours, theirs) == Apply(Apply(base, ours), Rebased(theirs, ours))
    ensures MergeHunks(base, ours, theirs) == MergeHunks(base, theirs, ours)
  {
    SeparatedIsOrdered(ours, 0, |base|);
    SeparatedIsOrdered(theirs, 0, |base|);
    DisjointSymmetric(ours, theirs);
    MergeIsApply(base, ours, theirs);
    MergeIsApply(base, theirs, ours);
    InterleaveSymmetric(ours, theirs);
    var mine, yours := Apply(base, ours), Apply(base, theirs);
    assert mine[0..] == mine && yours[0..] == yours;
    ShiftCommutes(base, yours, ours, theirs, 0, 0);
    ShiftCommutes(base, mine, theirs, ours, 0, 0);
  }
}
