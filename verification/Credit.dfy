/**
 * Credit for a merged commit: attribution diffs the committed text against the
 * merged one again, so its count is bounded only by minimality of the diff.
 */
module Credit {
  import opened Text
  import opened Diff
  import opened Merge
  import opened Square
  import opened MergeLaws
  import opened Provenance

  /** Re-diffing a merge inserts no more lines than the writer's own edit did. */
  lemma MergeCreditBound(base: string, ours: string, theirs: string)
    requires Merge3(base, ours, theirs).Merged?
    ensures Inserted(Edits(theirs, Merge3(base, ours, theirs).content)) <= Inserted(Edits(base, ours))
  {
    var content := Merge3(base, ours, theirs).content;
    if ours == theirs {
      EditsAreCorrect(theirs, theirs);
    } else {
      MergeMeaning(base, ours, theirs);
      EditsAreCorrect(base, ours);
      EditsAreCorrect(base, theirs);
      MergedLinesSquare(base, ours, theirs);
      MergedTextHoldsLines(base, ours, theirs);
      var mine := RebasedEdits(base, ours, theirs);
      RebaseKeepsCounts(Edits(base, ours), Edits(base, theirs), 0, 0, |SplitLines(base)|);
      if MergedLines(base, ours, theirs) == [""] {
        assert SplitLines(content) == [];
        DiffCounts(SplitLines(theirs), []);
      } else {
        DiffIsMinimal(SplitLines(theirs), SplitLines(content), mine);
      }
    }
  }

  /** A merged commit credits its writer with at most the lines its own edit inserted. */
  lemma MergedCommitCredit(previous: seq<LineProvenance>, base: string, ours: string, theirs: string,
                           writer: Writer, supply: nat)
    requires Merge3(base, ours, theirs).Merged?
    ensures var content := Merge3(base, ours, theirs).content;
            |ReconcileProvenance(previous, theirs, content, writer, supply).changed| <= Inserted(Edits(base, ours))
  {
    MergeCreditBound(base, ours, theirs);
    EntriesMatchLines(previous, theirs, Merge3(base, ours, theirs).content, writer, supply);
  }
}
