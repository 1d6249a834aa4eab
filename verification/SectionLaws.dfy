/**
 * What the section check buys: an accepted write leaves everything outside the
 * section in place, and edits of disjoint sections merge section by section.
 */
module SectionLaws {
  import opened Options
  import opened Text
  import opened Diff
  import opened Merge
  import opened Square
  import opened MergeLaws
  import opened Sections

  /** A range of lines that exist. */
  predicate Within(range: Range, lines: Lines) {
    1 <= range.startLine <= range.endLine <= |lines|
  }

  /** `next` is `previous` with nothing changed but the lines of `range`. */
  ghost predicate Framed(previous: Lines, next: Lines, range: Range)
    requires Within(range, previous)
  {
    exists inner: Lines {:trigger |inner|} ::
      next == previous[..range.startLine - 1] + inner + previous[range.endLine..]
  }

  lemma {:induction false} OrderedUpTo(hunks: seq<Hunk>, pos: nat, n: nat, hi: nat)
    requires Ordered(hunks, pos, n) && pos <= hi
    requires forall k :: 0 <= k < |hunks| ==> hunks[k].End() <= hi
    ensures Ordered(hunks, pos, hi)
  {
    if hunks != [] {
      assert forall k :: 0 <= k < |hunks[1..]| ==> hunks[1..][k] == hunks[k + 1];
      OrderedUpTo(hunks[1..], hunks[0].End(), n, hi);
    }
  }

  lemma {:induction false} OrderedInside(hunks: seq<Hunk>, n: nat, range: Range)
    requires Ordered(hunks, 0, n) && 1 <= range.startLine <= range.endLine
    requires forall k :: 0 <= k < |hunks| ==> Inside(hunks[k], range)
    ensures Ordered(hunks, range.startLine - 1, range.endLine)
  {
    if hunks != [] {
      assert forall k :: 0 <= k < |hunks[1..]| ==> hunks[1..][k] == hunks[k + 1];
      OrderedUpTo(hunks[1..], hunks[0].End(), n, range.endLine);
    }
  }

  /** What hunks inside `range` make of it. */
  function SectionText(base: Lines, hunks: seq<Hunk>, range: Range): Lines
    requires Within(range, base) && Ordered(hunks, range.startLine - 1, range.endLine)
  {
    ApplyFrom(base[..range.endLine], hunks, range.startLine - 1)
  }

  lemma {:induction false} ApplyInside(base: Lines, hunks: seq<Hunk>, range: Range)
    requires Within(range, base) && Ordered(hunks, range.startLine - 1, range.endLine)
    ensures Ordered(hunks, 0, |base|)
    ensures Apply(base, hunks) == base[..range.startLine - 1] + SectionText(base, hunks, range) + base[range.endLine..]
  {
    var s, e := range.startLine - 1, range.endLine;
    ApplySplit(base[..e], hunks, 0, s);
    ApplyConcat(base, hunks, [], 0, e);
    assert hunks + [] == hunks;
    assert base[..e][0..s] == base[..s];
  }

  /** An accepted write changes nothing outside the section. */
  lemma {:induction false} AcceptedIsFramed(previous: string, next: string, range: Range)
    requires Within(range, SplitLines(previous)) && FindOutOfBounds(previous, next, range) == None
    ensures Framed(SplitLines(previous), SplitLines(next), range)
  {
    var base, hunks := SplitLines(previous), Edits(previous, next);
    AcceptedIff(previous, next, range);
    EditsAreCorrect(previous, next);
    OrderedInside(hunks, |base|, range);
    ApplyInside(base, hunks, range);
    assert |SectionText(base, hunks, range)| >= 0;
  }

  /**
   * Not conversely: with a repeated line the diff may place a deletion that
   * stays inside the section past its end, and the write is refused.
   */
  lemma {:induction false} FramedMayBeRefused()
    ensures LocateSection("# a\n# a", "# a") == Some(Range(1, 1))
    ensures Framed(SplitLines("# a\n# a"), SplitLines("# a"), Range(1, 1))
    ensures FindOutOfBounds("# a\n# a", "# a", Range(1, 1)) == Some(2)
  {
    FieldsOfOne("# a", '\n');
    FieldsOfMore("# a", "# a", '\n');
    assert "# a" + "\n" + "# a" == "# a\n# a";
    var base, next := ["# a", "# a"], ["# a"];
    assert SplitLines("# a\n# a") == base && SplitLines("# a") == next;
    RepeatedSection(base);
    var none: Lines := [];
    assert |none| == 0 && next == base[..0] + none + base[1..];
    assert base[1..] == ["# a"] && next[1..] == [];
    assert Walk(["# a"], [], 1, Nothing) == [Hunk(1, 1, [])] by {
      assert none + none == none;
    }
    assert DiffLines(base, next) == [Hunk(1, 1, [])];
  }

  /** The first of two equal headings is a section of one line. */
  lemma {:induction false} RepeatedSection(lines: Lines)
    requires lines == ["# a", "# a"]
    ensures LocateLines(lines, "# a") == Some(Range(1, 1))
  {
    var heading := "# a";
    assert TrimStart(heading) == heading && TrimEnd(heading) == heading;
    assert heading[1..][0] == ' ';
    assert Hashes(heading[1..]) == 0 && HeadingLevel(heading) == 1;
  }

  // ------------------------------------------------------- two sections at once

  /** Two in-bounds edits of one text, in sections one after the other. */
  ghost predicate InSections(base: Lines, a: seq<Hunk>, ra: Range, b: seq<Hunk>, rb: Range) {
    Within(ra, base) && Within(rb, base) && ra.endLine < rb.startLine &&
    Ordered(a, ra.startLine - 1, ra.endLine) && Ordered(b, rb.startLine - 1, rb.endLine)
  }

  /** The first edit appends to its section and the second starts at the heading that follows. */
  ghost predicate MeetAtHeading(a: seq<Hunk>, ra: Range, b: seq<Hunk>, rb: Range) {
    ra.endLine + 1 == rb.startLine &&
    (exists i :: 0 <= i < |a| && a[i].deleted == 0 && a[i].start == ra.endLine) &&
    (exists j :: 0 <= j < |b| && b[j].start == ra.endLine)
  }

  lemma {:induction false} OrderedHolds(hunks: seq<Hunk>, pos: nat, n: nat, k: nat)
    requires Ordered(hunks, pos, n) && k < |hunks|
    ensures pos <= hunks[k].start && hunks[k].End() <= n
  {
    if k > 0 {
      OrderedHolds(hunks[1..], hunks[0].End(), n, k - 1);
    }
  }

  /** Edits of two disjoint sections collide in exactly one way. */
  lemma {:induction false} SectionsCollideIff(base: Lines, a: seq<Hunk>, ra: Range, b: seq<Hunk>, rb: Range)
    requires InSections(base, a, ra, b, rb)
    ensures !Disjoint(a, b) <==> MeetAtHeading(a, ra, b, rb)
  {
    if !Disjoint(a, b) {
      var i, j :| 0 <= i < |a| && 0 <= j < |b| && Overlaps(a[i], b[j]);
      OrderedHolds(a, ra.startLine - 1, ra.endLine, i);
      OrderedHolds(b, rb.startLine - 1, rb.endLine, j);
    }
    if MeetAtHeading(a, ra, b, rb) {
      var i :| 0 <= i < |a| && a[i].deleted == 0 && a[i].start == ra.endLine;
      var j :| 0 <= j < |b| && b[j].start == ra.endLine;
      assert Overlaps(a[i], b[j]);
    }
  }

  lemma {:induction false} InterleaveInSections(a: seq<Hunk>, b: seq<Hunk>, mid: nat, pos: nat, n: nat)
    requires Ordered(a, pos, mid) && Ordered(b, mid, n) && Disjoint(a, b)
    ensures Interleave(a, b) == a + b
  {
    DisjointTails(a, b);
    if a == [] {
      assert a + b == b;
    } else if b == [] {
      assert a + b == a;
    } else {
      OrderedHolds(a, pos, mid, 0);
      OrderedHolds(b, mid, n, 0);
      InterleaveInSections(a[1..], b, mid, a[0].End(), n);
      assert a + b == [a[0]] + (a[1..] + b);
    }
  }

  /** The base with both sections replaced, each by its own edits. */
  ghost function BothSections(base: Lines, a: seq<Hunk>, ra: Range, b: seq<Hunk>, rb: Range): Lines
    requires InSections(base, a, ra, b, rb)
  {
    base[..ra.startLine - 1] + SectionText(base, a, ra) + base[ra.endLine..rb.startLine - 1]
    + SectionText(base, b, rb) + base[rb.endLine..]
  }

  /** Edits of two sections, one list after the other. */
  lemma {:induction false} SectionsConcat(base: Lines, a: seq<Hunk>, ra: Range, b: seq<Hunk>, rb: Range)
    requires InSections(base, a, ra, b, rb)
    ensures Ordered(a + b, 0, |base|)
    ensures Apply(base, a + b) == BothSections(base, a, ra, b, rb)
  {
    var mid := rb.startLine - 1;
    FirstSection(base, a, ra, mid);
    SecondSection(base, b, rb);
    ApplyConcat(base, a, b, 0, mid);
    var front, back := ApplyFrom(base[..mid], a, 0), ApplyFrom(base, b, mid);
    assert Apply(base, a + b) == front + back;
    SumOfSections(base, a, ra, b, rb, front, back);
  }

  lemma {:induction false} SumOfSections(base: Lines, a: seq<Hunk>, ra: Range, b: seq<Hunk>, rb: Range, front: Lines, back: Lines)
    requires InSections(base, a, ra, b, rb)
    requires front == base[..ra.startLine - 1] + SectionText(base, a, ra) + base[ra.endLine..rb.startLine - 1]
    requires back == SectionText(base, b, rb) + base[rb.endLine..]
    ensures front + back == BothSections(base, a, ra, b, rb)
  {
    Regroup(front, SectionText(base, b, rb), base[rb.endLine..]);
  }

  /** Interleaved by start, edits of an earlier section come before those of a later one. */
  lemma {:induction false} SectionsInterleave(base: Lines, a: seq<Hunk>, ra: Range, b: seq<Hunk>, rb: Range)
    requires InSections(base, a, ra, b, rb) && Disjoint(a, b)
    ensures Interleave(a, b) == a + b
  {
    FirstSection(base, a, ra, rb.startLine - 1);
    SecondSection(base, b, rb);
    InterleaveInSections(a, b, rb.startLine - 1, 0, |base|);
  }

  lemma {:induction false} FirstSection(base: Lines, a: seq<Hunk>, ra: Range, mid: nat)
    requires Within(ra, base) && ra.endLine <= mid <= |base| && Ordered(a, ra.startLine - 1, ra.endLine)
    ensures Ordered(a, 0, mid)
    ensures ApplyFrom(base[..mid], a, 0) == base[..ra.startLine - 1] + SectionText(base, a, ra) + base[ra.endLine..mid]
  {
    var front := base[..mid];
    ApplyInside(front, a, ra);
    assert front[..ra.endLine] == base[..ra.endLine];
    assert front[..ra.startLine - 1] == base[..ra.startLine - 1];
    assert front[ra.endLine..] == base[ra.endLine..mid];
  }

  lemma {:induction false} SecondSection(base: Lines, b: seq<Hunk>, rb: Range)
    requires Within(rb, base) && Ordered(b, rb.startLine - 1, rb.endLine)
    ensures Ordered(b, rb.startLine - 1, |base|)
    ensures ApplyFrom(base, b, rb.startLine - 1) == SectionText(base, b, rb) + base[rb.endLine..]
  {
    ApplyConcat(base, b, [], rb.startLine - 1, rb.endLine);
    assert b + [] == b;
  }

  lemma {:induction false} EditsInSections(base: string, ours: string, ra: Range, theirs: string, rb: Range)
    requires Within(ra, SplitLines(base)) && Within(rb, SplitLines(base)) && ra.endLine < rb.startLine
    requires FindOutOfBounds(base, ours, ra) == None && FindOutOfBounds(base, theirs, rb) == None
    ensures InSections(SplitLines(base), Edits(base, ours), ra, Edits(base, theirs), rb)
  {
    AcceptedIff(base, ours, ra);
    AcceptedIff(base, theirs, rb);
    EditsAreCorrect(base, ours);
    EditsAreCorrect(base, theirs);
    OrderedInside(Edits(base, ours), |SplitLines(base)|, ra);
    OrderedInside(Edits(base, theirs), |SplitLines(base)|, rb);
  }

  /**
   * Two Agents each inside their own section: the merge succeeds unless the
   * first appends right where the second changes its heading, and then it is
   * the base with both sections replaced, each by its owner's version.
   */
  lemma {:induction false} DisjointSectionsMerge(base: string, ours: string, ra: Range, theirs: string, rb: Range)
    requires Within(ra, SplitLines(base)) && Within(rb, SplitLines(base)) && ra.endLine < rb.startLine
    requires FindOutOfBounds(base, ours, ra) == None && FindOutOfBounds(base, theirs, rb) == None
    ensures Merge3(base, ours, theirs).Merged? <==>
              ours == theirs || !MeetAtHeading(Edits(base, ours), ra, Edits(base, theirs), rb)
    ensures InSections(SplitLines(base), Edits(base, ours), ra, Edits(base, theirs), rb)
    ensures Merge3(base, ours, theirs).Merged? && ours != theirs ==>
              var lines, a, b := SplitLines(base), Edits(base, ours), Edits(base, theirs);
              Merge3(base, ours, theirs).content == JoinLines(BothSections(lines, a, ra, b, rb))
    ensures var lines, a, b := SplitLines(base), Edits(base, ours), Edits(base, theirs);
            SplitLines(ours) == lines[..ra.startLine - 1] + SectionText(lines, a, ra) + lines[ra.endLine..] &&
            SplitLines(theirs) == lines[..rb.startLine - 1] + SectionText(lines, b, rb) + lines[rb.endLine..]
  {
    var lines, a, b := SplitLines(base), Edits(base, ours), Edits(base, theirs);
    EditsInSections(base, ours, ra, theirs, rb);
    SectionsCollideIff(lines, a, ra, b, rb);
    MergeAcceptsIff(base, ours, theirs);
    EditsAreCorrect(base, ours);
    EditsAreCorrect(base, theirs);
    ApplyInside(lines, a, ra);
    ApplyInside(lines, b, rb);
    if Merge3(base, ours, theirs).Merged? && ours != theirs {
      MergeMeaning(base, ours, theirs);
      MergedLinesSquare(base, ours, theirs);
      MergeIsApply(lines, a, b);
      SectionsInterleave(lines, a, ra, b, rb);
      SectionsConcat(lines, a, ra, b, rb);
    }
  }
}
