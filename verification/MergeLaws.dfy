/**
 * Laws of `merge3` on whole texts: when it succeeds, what it commits, and
 * where the early returns and the final join depart from the hunk calculus.
 */
module MergeLaws {
  import opened Text
  import opened Lcs
  import opened Diff
  import opened Merge
  import opened Square

  function Edits(from: string, to: string): seq<Hunk> {
    DiffLines(SplitLines(from), SplitLines(to))
  }

  lemma {:induction false} EditsAreCorrect(from: string, to: string)
    ensures var hunks, lines := Edits(from, to), SplitLines(from);
            Separated(hunks, 0, |lines|) && Ordered(hunks, 0, |lines|) && Apply(lines, hunks) == SplitLines(to)
    ensures Edits(from, to) == [] <==> from == to
  {
    DiffIsCorrect(SplitLines(from), SplitLines(to));
    DiffIsEmpty(SplitLines(from), SplitLines(to));
    if Edits(from, to) == [] {
      SplitInjective(from, to);
    }
  }

  /** Our hunks restated as edits of the text `theirs`. */
  function RebasedEdits(base: string, ours: string, theirs: string): seq<Hunk> {
    Rebased(Edits(base, ours), Edits(base, theirs))
  }

  /** The two sides touch no common place. */
  ghost predicate Independent(base: string, ours: string, theirs: string) {
    Disjoint(Edits(base, ours), Edits(base, theirs))
  }

  /** The lines the merge arrives at, before they are joined into one text. */
  function MergedLines(base: string, ours: string, theirs: string): Lines {
    MergeHunks(SplitLines(base), Edits(base, ours), Edits(base, theirs))
  }

  /** The square for two edits of one text. */
  lemma {:induction false} MergedLinesSquare(base: string, ours: string, theirs: string)
    requires Independent(base, ours, theirs)
    ensures var mine, yours := RebasedEdits(base, ours, theirs), RebasedEdits(base, theirs, ours);
            Ordered(mine, 0, |SplitLines(theirs)|) && Ordered(yours, 0, |SplitLines(ours)|) &&
            MergedLines(base, ours, theirs) == Apply(SplitLines(theirs), mine) == Apply(SplitLines(ours), yours)
    ensures MergedLines(base, ours, theirs) == MergedLines(base, theirs, ours)
  {
    EditsAreCorrect(base, ours);
    EditsAreCorrect(base, theirs);
    CommutingSquare(SplitLines(base), Edits(base, ours), Edits(base, theirs));
  }

  /** An untouched side leaves the other side's text. */
  lemma {:induction false} MergeWithUnchanged(base: string, changed: string)
    ensures Independent(base, changed, base) && Independent(base, base, changed)
    ensures MergedLines(base, changed, base) == SplitLines(changed)
    ensures MergedLines(base, base, changed) == SplitLines(changed)
  {
    EditsAreCorrect(base, base);
    EditsAreCorrect(base, changed);
    MergedLinesSquare(base, changed, base);
    assert Rebased([], Edits(base, changed)) == [];
    assert SplitLines(changed)[0..] == SplitLines(changed);
  }

  /** Two identical edits overlap in every hunk. */
  lemma {:induction false} SameEditOverlaps(base: string, both: string)
    ensures Independent(base, both, both) <==> base == both
  {
    EditsAreCorrect(base, both);
    var hunks := Edits(base, both);
    if hunks != [] {
      assert Overlaps(hunks[0], hunks[0]);
    }
  }

  /**
   * The early returns agree with the general path on every input except two
   * identical edits: there the general path reports a conflict and the early
   * return accepts.
   */
  lemma {:induction false} ShortcutsAgree(base: string, ours: string, theirs: string)
    ensures (Merge3(base, ours, theirs).Merged? && MergeChanged(base, ours, theirs).Merged? &&
             Merge3(base, ours, theirs).content == MergeChanged(base, ours, theirs).content) ||
            (Merge3(base, ours, theirs).Conflicted? && Merge3(base, ours, theirs) == MergeChanged(base, ours, theirs))
            <==> ours != theirs || ours == base
  {
    NoConflictIsDisjoint(Edits(base, ours), Edits(base, theirs));
    if ours == theirs {
      SameEditOverlaps(base, ours);
    }
    if base == theirs {
      MergeWithUnchanged(base, ours);
      JoinSplit(ours);
    } else if base == ours {
      MergeWithUnchanged(base, theirs);
      JoinSplit(theirs);
    }
  }

  /** `merge3` accepts exactly identical texts and edits that touch no common place. */
  lemma {:induction false} MergeAcceptsIff(base: string, ours: string, theirs: string)
    ensures Merge3(base, ours, theirs).Merged? <==> ours == theirs || Independent(base, ours, theirs)
  {
    NoConflictIsDisjoint(Edits(base, ours), Edits(base, theirs));
    ShortcutsAgree(base, ours, theirs);
  }

  /** What is committed: their text with exactly our hunks moved over it. */
  lemma {:induction false} MergeMeaning(base: string, ours: string, theirs: string)
    requires ours != theirs && Merge3(base, ours, theirs).Merged?
    ensures Independent(base, ours, theirs)
    ensures var mine := RebasedEdits(base, ours, theirs);
            Ordered(mine, 0, |SplitLines(theirs)|) &&
            Merge3(base, ours, theirs).content == JoinLines(Apply(SplitLines(theirs), mine))
    ensures var yours := RebasedEdits(base, theirs, ours);
            Ordered(yours, 0, |SplitLines(ours)|) &&
            Merge3(base, ours, theirs).content == JoinLines(Apply(SplitLines(ours), yours))
  {
    MergeAcceptsIff(base, ours, theirs);
    ShortcutsAgree(base, ours, theirs);
    MergedLinesSquare(base, ours, theirs);
    NoConflictIsDisjoint(Edits(base, ours), Edits(base, theirs));
  }

  /** Swapping the sides changes neither acceptance nor the committed text. */
  lemma {:induction false} MergeIsSymmetric(base: string, ours: string, theirs: string)
    ensures Merge3(base, ours, theirs).Merged? <==> Merge3(base, theirs, ours).Merged?
    ensures Merge3(base, ours, theirs).Merged? ==>
              Merge3(base, ours, theirs).content == Merge3(base, theirs, ours).content
  {
    MergeAcceptsIff(base, ours, theirs);
    MergeAcceptsIff(base, theirs, ours);
    DisjointSymmetric(Edits(base, ours), Edits(base, theirs));
    if ours != theirs && Merge3(base, ours, theirs).Merged? {
      MergeMeaning(base, ours, theirs);
      MergeMeaning(base, theirs, ours);
    }
  }

  // ------------------------------------------------------- how many lines there are

  lemma {:induction false} ApplyCounts(base: Lines, hunks: seq<Hunk>)
    requires Ordered(hunks, 0, |base|)
    ensures |Apply(base, hunks)| + Deleted(hunks) == |base| + Inserted(hunks)
  {
    KeptIsCommon(base, hunks, 0);
  }

  /** The merged text grows over theirs by as many lines as ours grew over the base. */
  lemma {:induction false} MergeCountsLines(base: string, ours: string, theirs: string)
    requires Independent(base, ours, theirs)
    ensures |MergedLines(base, ours, theirs)| + |SplitLines(base)| == |SplitLines(ours)| + |SplitLines(theirs)|
  {
    EditsAreCorrect(base, ours);
    EditsAreCorrect(base, theirs);
    MergedLinesSquare(base, ours, theirs);
    ApplyCounts(SplitLines(base), Edits(base, ours));
    ApplyCounts(SplitLines(theirs), RebasedEdits(base, ours, theirs));
    RebaseKeepsCounts(Edits(base, ours), Edits(base, theirs), 0, 0, |SplitLines(base)|);
  }

  // ------------------------------------------------ where the lines come from

  lemma {:induction false} ApplyContains(base: Lines, hunks: seq<Hunk>, pos: nat, k: nat, line: Line)
    requires Ordered(hunks, pos, |base|) && k < |hunks| && line in hunks[k].inserted
    ensures line in ApplyFrom(base, hunks, pos)
  {
    if k > 0 {
      ApplyContains(base, hunks[1..], hunks[0].End(), k - 1, line);
    }
  }

  lemma {:induction false} ApplyComesFrom(base: Lines, hunks: seq<Hunk>, pos: nat, line: Line)
    requires Ordered(hunks, pos, |base|) && line in ApplyFrom(base, hunks, pos)
    ensures line in base || exists k :: 0 <= k < |hunks| && line in hunks[k].inserted
  {
    if hunks != [] {
      var rest := ApplyFrom(base, hunks[1..], hunks[0].End());
      if line in rest {
        ApplyComesFrom(base, hunks[1..], hunks[0].End(), line);
        if line !in base {
          var k :| 0 <= k < |hunks[1..]| && line in hunks[1..][k].inserted;
          assert hunks[k + 1] == hunks[1..][k];
        }
      } else if line !in base {
        assert line in hunks[0].inserted;
      }
    }
  }

  /** A merge of two different changes reports the hunks of both; one with a side unchanged reports one, of equal sides none. */
  lemma MergeCountsHunks(base: string, ours: string, theirs: string)
    requires Merge3(base, ours, theirs).Merged?
    ensures ours == theirs ==> Merge3(base, ours, theirs).hunks == 0
    ensures ours != theirs && (base == ours || base == theirs) ==> Merge3(base, ours, theirs).hunks == 1
    ensures ours != theirs && base != ours && base != theirs ==>
              Merge3(base, ours, theirs).hunks == |Edits(base, ours)| + |Edits(base, theirs)|
  {
  }

  /** The merge invents nothing: every merged line stands in one of the two sides. */
  lemma {:induction false} MergeInventsNothing(base: string, ours: string, theirs: string, line: Line)
    requires Independent(base, ours, theirs) && line in MergedLines(base, ours, theirs)
    ensures line in SplitLines(ours) || line in SplitLines(theirs)
  {
    EditsAreCorrect(base, ours);
    EditsAreCorrect(base, theirs);
    MergedLinesSquare(base, ours, theirs);
    var oh, th := Edits(base, ours), Edits(base, theirs);
    var mine := Rebased(oh, th);
    ApplyComesFrom(SplitLines(theirs), mine, 0, line);
    if line !in SplitLines(theirs) {
      var k :| 0 <= k < |mine| && line in mine[k].inserted;
      if oh != [] {
        RebaseMoves(oh, th, |SplitLines(base)|, 0);
        RebaseMoves(oh, th, |SplitLines(base)|, k);
        ApplyContains(SplitLines(base), oh, 0, k, line);
      }
    }
  }

  /** The committed text holds the merged lines, unless they are one blank line. */
  lemma {:induction false} MergedTextHoldsLines(base: string, ours: string, theirs: string)
    requires Independent(base, ours, theirs)
    ensures SplitLines(JoinLines(MergedLines(base, ours, theirs))) == MergedLines(base, ours, theirs)
            <==> MergedLines(base, ours, theirs) != [""]
  {
    var merged := MergedLines(base, ours, theirs);
    forall k | 0 <= k < |merged| ensures '\n' !in merged[k] {
      MergeInventsNothing(base, ours, theirs, merged[k]);
      JoinSplit(ours);
      JoinSplit(theirs);
    }
    SplitJoin(merged);
  }

  /** The exception is reachable: disjoint edits that leave one blank line lose it. */
  lemma {:induction false} BlankLineLostInMerge()
    ensures Independent("a\nb", "b", "a\n")
    ensures MergedLines("a\nb", "b", "a\n") == [""]
    ensures Merge3("a\nb", "b", "a\n") == Merged("", 2)
  {
    SplitSmall();
    SmallEdits();
    var oh, th := [Hunk(0, 1, [])], [Hunk(1, 1, [""])];
    assert Disjoint(oh, th);
    NoConflictIsDisjoint(oh, th);
    SmallMerge(oh, th);
  }

  lemma {:induction false} SmallEdits()
    ensures DiffLines(["a", "b"], ["b"]) == [Hunk(0, 1, [])]
    ensures DiffLines(["a", "b"], ["a", ""]) == [Hunk(1, 1, [""])]
  {
    var base, ours, theirs, none: Lines := ["a", "b"], ["b"], ["a", ""], [];
    assert base[1..] == ["b"] && ours[1..] == none && theirs[1..] == [""] && ["b"][1..] == none && [""][1..] == none;
    assert DiffLines(base, ours) == [Hunk(0, 1, [])] by {
      assert LcsLength(["b"], ["b"]) == 1 && LcsLength(base, none) == 0;
      assert Walk(["b"], ["b"], 1, Pending(Hunk(0, 1, none))) == [Hunk(0, 1, none)] + Walk(none, none, 2, Nothing);
    }
    assert DiffLines(base, theirs) == [Hunk(1, 1, [""])] by {
      assert |"b"| != |""|;
      assert none + [""] == [""];
      assert LcsLength(none, [""]) == 0 && LcsLength(["b"], none) == 0;
      assert Walk(none, [""], 2, Pending(Hunk(1, 1, none))) == [Hunk(1, 1, [""])];
      assert Walk(["b"], [""], 1, Nothing) == Walk(none, [""], 2, Pending(Hunk(1, 1, none)));
    }
  }

  lemma {:induction false} SmallMerge(oh: seq<Hunk>, th: seq<Hunk>)
    requires oh == [Hunk(0, 1, [])] && th == [Hunk(1, 1, [""])]
    ensures MergeHunks(["a", "b"], oh, th) == [""]
  {
    var all := [th[0], oh[0]];
    assert oh + th == [oh[0], th[0]];
    assert (oh + th)[1..] == th && th[1..] == [];
    assert SortDescending(th) == th;
    assert SortDescending(oh + th) == InsertByStart(oh[0], th);
    assert InsertByStart(oh[0], []) == [oh[0]];
    assert SortDescending(oh + th) == all;
    var first := Splice(["a", "b"], th[0]);
    assert first == ["a", ""];
    assert Splice(first, oh[0]) == [""];
    assert all[1..] == [oh[0]] && [oh[0]][1..] == [];
    assert SpliceAll([""], []) == [""];
    assert SpliceAll(first, [oh[0]]) == SpliceAll([""], []);
  }

  lemma {:induction false} SplitSmall()
    ensures SplitLines("a\nb") == ["a", "b"]
    ensures SplitLines("b") == ["b"]
    ensures SplitLines("a\n") == ["a", ""]
  {
    FieldsOfOne("b", '\n');
    FieldsOfOne("", '\n');
    FieldsOfMore("a", "b", '\n');
    FieldsOfMore("a", "", '\n');
    assert "a" + "\n" + "b" == "a\nb" && "a" + "\n" + "" == "a\n";
  }
}
