/**
 * Two Agents, each allocated a section of one document, writing from the same
 * version: what the store answers the second
 * (apps/server/src/concord/store.ts, `write`).
 */
module SectionRace {
  import opened Options
  import opened Text
  import opened Lcs
  import opened Diff
  import opened Merge
  import opened MergeLaws
  import opened Sections
  import opened SectionLaws
  import opened StoreState
  import opened Blame
  import opened NoLostUpdate
  import opened HumanEdits

  /** The text without the white space around it. */
  ghost predicate IsTrimmed(text: string, whole: string) {
    (exists from, to :: 0 <= from <= to <= |whole| && text == whole[from..to] && AllSpace(whole[..from]) && AllSpace(whole[to..])) &&
    (text != "" ==> !IsSpace(text[0]) && !IsSpace(text[|text| - 1]))
  }

  /** An Agent is allocated its heading, trimmed; nobody else's allocation changes, here or elsewhere. */
  lemma AllocationIs(s: Store, op: Op, d: DocId, agent: AgentId)
    requires op.Allocate?
    ensures var s' := Step(s, op).0;
            s'.docs == s.docs && s'.bases == s.bases &&
            if d == op.doc && agent == op.agent
            then d in s'.sections && agent in s'.sections[d] && IsTrimmed(s'.sections[d][agent], op.heading)
            else (IsAllocatedTo(s', d, agent) <==> IsAllocatedTo(s, d, agent)) &&
                 (IsAllocatedTo(s, d, agent) ==> s'.sections[d][agent] == s.sections[d][agent])
  {
    var from, to := TrimIs(op.heading);
    assert Trim(op.heading) == op.heading[from..to];
  }

  ghost predicate IsAllocatedTo(s: Store, d: DocId, agent: AgentId) {
    d in s.sections && agent in s.sections[d]
  }

  /** Releasing a document's sections takes all its allocations, and none of another document. */
  lemma ReleaseIs(s: Store, op: Op, d: DocId, agent: AgentId)
    requires op.ReleaseSections?
    ensures var s' := Step(s, op).0;
            s'.docs == s.docs && s'.bases == s.bases &&
            (IsAllocatedTo(s', d, agent) <==> d != op.doc && IsAllocatedTo(s, d, agent)) &&
            (IsAllocatedTo(s', d, agent) ==> s'.sections[d][agent] == s.sections[d][agent])
  {
  }

  /**
   * Why the section rule refuses: the document is allocated and this Agent is
   * not; or its heading reads like no line; or some change leaves its section.
   */
  lemma BreachIs(s: Store, d: DocId, agent: AgentId, content: string, next: string)
    ensures var breach := SectionBreach(s.sections, d, agent, content, next);
            (breach == Some(NotAllocated) <==> IsAllocated(s, d) && !IsAllocatedTo(s, d, agent)) &&
            (breach == Some(SectionMissing) <==>
               IsAllocatedTo(s, d, agent) && forall line :: line in SplitLines(content) ==> Trim(line) != Trim(s.sections[d][agent])) &&
            (breach == Some(SectionOutside) <==>
               IsAllocatedTo(s, d, agent) && var range := LocateSection(content, s.sections[d][agent]);
               range.Some? && FindOutOfBounds(content, next, range.value).Some?) &&
            (breach.Some? ==> breach.value in {NotAllocated, SectionMissing, SectionOutside})
  {
    if IsAllocatedTo(s, d, agent) {
      assert agent in s.sections[d].Keys;
      SectionIs(content, s.sections[d][agent]);
    }
  }

  predicate Apart(ra: Range, rb: Range) {
    ra.endLine < rb.startLine || rb.endLine < ra.startLine
  }

  /** The one way two such edits collide, whichever section comes first. */
  ghost predicate Meet(base: string, a: string, ra: Range, b: string, rb: Range) {
    if ra.endLine < rb.startLine then MeetAtHeading(Edits(base, a), ra, Edits(base, b), rb)
    else MeetAtHeading(Edits(base, b), rb, Edits(base, a), ra)
  }

  /** The base with each section as its owner left it. */
  ghost predicate TakesBoth(base: string, a: string, ra: Range, b: string, rb: Range, lines: Lines) {
    if ra.endLine < rb.startLine
    then InSections(SplitLines(base), Edits(base, a), ra, Edits(base, b), rb) &&
         lines == BothSections(SplitLines(base), Edits(base, a), ra, Edits(base, b), rb)
    else InSections(SplitLines(base), Edits(base, b), rb, Edits(base, a), ra) &&
         lines == BothSections(SplitLines(base), Edits(base, b), rb, Edits(base, a), ra)
  }

  /** Two edits of one text, each inside its own section. */
  ghost predicate EachInside(base: string, a: string, ra: Range, b: string, rb: Range) {
    Within(ra, SplitLines(base)) && Within(rb, SplitLines(base)) && Apart(ra, rb) &&
    FindOutOfBounds(base, a, ra) == None && FindOutOfBounds(base, b, rb) == None
  }

  /** The merge of the two: it fails only where they meet, and else takes both sections. */
  lemma SectionsMergeIff(base: string, a: string, ra: Range, b: string, rb: Range) returns (lines: Lines)
    requires EachInside(base, a, ra, b, rb)
    ensures Merge3(base, b, a).Merged? <==> a == b || !Meet(base, a, ra, b, rb)
    ensures Merge3(base, b, a).Merged? && a != b ==>
              TakesBoth(base, a, ra, b, rb, lines) && Merge3(base, b, a).content == JoinLines(lines)
  {
    var base_ := SplitLines(base);
    MergeIsSymmetric(base, a, b);
    if ra.endLine < rb.startLine {
      DisjointSectionsMerge(base, a, ra, b, rb);
      lines := BothSections(base_, Edits(base, a), ra, Edits(base, b), rb);
    } else {
      DisjointSectionsMerge(base, b, rb, a, ra);
      lines := BothSections(base_, Edits(base, b), rb, Edits(base, a), ra);
    }
  }

  /**
   * A stale write that is in bounds on its base, over a text whose other edit
   * was in bounds of another section. It conflicts exactly where the two edits
   * meet. Otherwise it commits exactly if the merged text passes the section
   * rule on the current text, and then takes each section from its owner.
   */
  lemma SecondWriteIs(s: Store, op: Op, ra: Range, rb: Range)
    requires op.Write? && op.verdict.allowed && !LeasedToAnother(Entered(s, op.doc, op.now), op.agent)
    requires op.expected != DocAt(s, op.doc).version
    requires EachInside(BaseOf(s, op.agent, op.doc), DocAt(s, op.doc).content, ra, op.content, rb)
    ensures var base, current, outcome := BaseOf(s, op.agent, op.doc), DocAt(s, op.doc).content, Step(s, op).1;
            var merged := Merge3(base, op.content, current);
            (outcome.ConflictAt? <==> op.content != current && Meet(base, current, ra, op.content, rb)) &&
            (!outcome.ConflictAt? ==>
               merged.Merged? &&
               (outcome.MergedInto? <==> SectionBreach(s.sections, op.doc, op.agent, current, merged.content).None?) &&
               (outcome.MergedInto? || outcome.Denied?)) &&
            (outcome.MergedInto? && op.content != current ==>
               exists lines: Lines {:trigger JoinLines(lines)} ::
                 TakesBoth(base, current, ra, op.content, rb, lines) && DocAt(Step(s, op).0, op.doc).content == JoinLines(lines))
  {
    var base, current := BaseOf(s, op.agent, op.doc), DocAt(s, op.doc).content;
    var lines := SectionsMergeIff(base, current, ra, op.content, rb);
    EnteredIsQuiet(s, op.doc, op.now);
    StaleSubmission(s, op.doc, Entered(s, op.doc, op.now), op.agent, op.expected, op.content, op.verdict.human, op.now);
    if Step(s, op).1.MergedInto? {
      MergedContent(s, op);
      AcceptedPassesSection(s, op);
    }
  }

  /** What a stale write past authority and lease is answered. */
  lemma StaleSubmission(s: Store, d: DocId, doc: Doc, agent: AgentId, expected: int, content: string, human: Option<HumanId>, now: int)
    requires expected != doc.version
    ensures var outcome := Submit(s, d, doc, agent, expected, content, human, now).1;
            var merged := Merge3(BaseOf(s, agent, d), content, doc.content);
            (outcome.ConflictAt? <==> merged.Conflicted?) &&
            (merged.Merged? ==>
               (outcome.MergedInto? <==> SectionBreach(s.sections, d, agent, doc.content, merged.content).None?) &&
               (outcome.MergedInto? || outcome.Denied?))
  {
  }

  /** The section the store finds for an Agent in the document's text. */
  function SectionOf(s: Store, agent: AgentId, d: DocId): Option<Range> {
    if d in s.sections && agent in s.sections[d] then LocateSection(DocAt(s, d).content, s.sections[d][agent]) else None
  }

  /**
   * From one version, end to end: the first Agent's write commits, the second
   * had the same text as base and stayed inside its own section of it.
   */
  lemma RaceOfTwo(s: Store, first: Op, second: Op)
    requires first.Write? && second.Write? && first.doc == second.doc && first.agent != second.agent
    requires SectionOf(s, first.agent, first.doc).Some? && SectionOf(s, second.agent, first.doc).Some?
    requires Apart(SectionOf(s, first.agent, first.doc).value, SectionOf(s, second.agent, first.doc).value)
    requires BaseOf(s, second.agent, first.doc) == DocAt(s, first.doc).content
    requires first.expected == second.expected == DocAt(s, first.doc).version && Accepted(Step(s, first).1)
    requires FindOutOfBounds(DocAt(s, first.doc).content, second.content, SectionOf(s, second.agent, first.doc).value) == None
    requires second.verdict.allowed && !LeasedToAnother(Entered(Step(s, first).0, second.doc, second.now), second.agent)
    ensures var s', d, base := Step(s, first).0, first.doc, DocAt(s, first.doc).content;
            var ra, rb, outcome := SectionOf(s, first.agent, d).value, SectionOf(s, second.agent, d).value, Step(s', second).1;
            (outcome.ConflictAt? <==> second.content != first.content && Meet(base, first.content, ra, second.content, rb)) &&
            (!outcome.ConflictAt? ==>
               Merge3(base, second.content, first.content).Merged? &&
               (outcome.MergedInto? <==>
                  SectionBreach(s'.sections, d, second.agent, first.content, Merge3(base, second.content, first.content).content).None?))
  {
    var s' := Step(s, first).0;
    var ra, rb := SectionOf(s, first.agent, first.doc).value, SectionOf(s, second.agent, first.doc).value;
    AcceptedWrite(s, first);
    AcceptedPassesSection(s, first);
    BaseStep(s, first, second.agent, first.doc);
    StepVersion(s, first, first.doc);
    assert FindOutOfBounds(DocAt(s, first.doc).content, first.content, ra) == None;
    SecondWriteIs(s', second, ra, rb);
  }

  // ---------------------------------------------------- in bounds, and yet refused

  const TEXT := JoinLines(["# a", "# b", "x"])
  const FIRST := JoinLines(["# a", "# b ", "# b", "x"])
  const SECOND := JoinLines(["# a", "# b", "y"])

  /** The lines of the merge. */
  const BOTH := ["# a", "# b ", "# b", "y"]

  const YES := Verdict(true, Some("human"))

  /** "first" owns "# a" and puts a line into it that reads like the heading "second" owns. */
  function RaceOps(): seq<Op> {
    [WriteAsHuman("doc", "human", 0, TEXT, 0), Allocate("doc", "first", "# a"), Allocate("doc", "second", "# b"),
     Read("doc", "second", YES, 0), Write("doc", "first", 1, FIRST, YES, 0)]
  }

  lemma TextLines()
    ensures SplitLines(TEXT) == ["# a", "# b", "x"]
  {
    SplitJoin(["# a", "# b", "x"]);
  }

  lemma SecondLines()
    ensures SplitLines(SECOND) == ["# a", "# b", "y"]
  {
    SplitJoin(["# a", "# b", "y"]);
  }

  lemma FirstLines()
    ensures SplitLines(FIRST) == ["# a", "# b ", "# b", "x"]
  {
    SplitJoin(["# a", "# b ", "# b", "x"]);
  }

  lemma BothLines()
    ensures SplitLines(JoinLines(BOTH)) == BOTH
  {
    SplitJoin(BOTH);
  }

  lemma FirstEdit()
    ensures Edits(TEXT, FIRST) == [Hunk(1, 0, ["# b "])]
  {
    TextLines();
    FirstLines();
    var front, rest := ["# a"], ["# b", "x"];
    assert front + rest == ["# a", "# b", "x"] && front + (["# b "] + rest) == ["# a", "# b ", "# b", "x"];
    WalkSkips(front, rest, ["# b "] + rest, 0);
    InsertedLine("# b ", rest, 1);
  }

  lemma InsertedLine(line: Line, rest: Lines, at: nat)
    requires rest == ["# b", "x"] && line == "# b "
    ensures Walk(rest, [line] + rest, at, Nothing) == [Hunk(at, 0, [line])]
  {
    var more := [line] + rest;
    assert more[1..] == rest && rest[1..] == ["x"] && ["x"][1..] == [];
    assert |line| != |rest[0]|;
    LcsOfSame(rest);
    LcsAtMost(rest[1..], more);
    DiffOfSame(rest[1..], at + 1);
    var pending := Pending(Hunk(at, 0, [line]));
    assert [] + [line] == [line];
    assert Walk(rest, rest, at, pending) == Flush(pending) + Walk(rest[1..], rest[1..], at + 1, Nothing);
  }

  lemma {:induction false} LcsOfSame(a: Lines)
    ensures LcsLength(a, a) == |a|
  {
    if a != [] {
      LcsOfSame(a[1..]);
    }
  }

  lemma LcsAtMost(a: Lines, b: Lines)
    ensures LcsLength(a, b) <= |a|
  {
    DiffCounts(a, b);
  }

  lemma SecondEdit()
    ensures Edits(TEXT, SECOND) == [Hunk(2, 1, ["y"])]
  {
    TextLines();
    SecondLines();
    var front := ["# a", "# b"];
    assert front + ["x"] == ["# a", "# b", "x"] && front + ["y"] == ["# a", "# b", "y"];
    WalkSkips(front, ["x"], ["y"], 0);
    WalkOfOne("x", "y", 2);
  }

  lemma LateEdit()
    ensures Edits(FIRST, JoinLines(BOTH)) == [Hunk(3, 1, ["y"])]
  {
    FirstLines();
    BothLines();
    var front := ["# a", "# b ", "# b"];
    assert front + ["x"] == ["# a", "# b ", "# b", "x"] && front + ["y"] == BOTH;
    WalkSkips(front, ["x"], ["y"], 0);
    WalkOfOne("x", "y", 3);
  }

  lemma Headings()
    ensures Trim("# a") == "# a" && Trim("# b") == "# b" && Trim("# b ") == "# b" && Trim("x") == "x"
    ensures HeadingLevel("# a") == 1 && HeadingLevel("# b") == 1 && HeadingLevel("# b ") == 1 && HeadingLevel("x") == 0
  {
    assert TrimEnd("# b ") == TrimEnd("# b ") && "# b "[..3] == "# b";
    assert Hashes("# a"[1..]) == 0 && Hashes("# b"[1..]) == 0 && Hashes("# b "[1..]) == 0;
  }

  lemma RaceSections(text: Lines, first: Lines)
    requires text == ["# a", "# b", "x"] && first == ["# a", "# b ", "# b", "x"]
    ensures LocateLines(text, "# a") == Some(Range(1, 1)) && LocateLines(text, "# b") == Some(Range(2, 3))
    ensures LocateLines(first, "# b") == Some(Range(2, 2))
  {
    Headings();
    assert FirstHeading(text, "# a", 0) == 0 && SectionEnd(text, 1, 1) == 1;
    assert FirstHeading(text, "# b", 0) == 1 && SectionEnd(text, 1, 3) == 3 && SectionEnd(text, 1, 2) == 3;
    assert FirstHeading(first, "# b", 1) == 1 && FirstHeading(first, "# b", 0) == 1 && SectionEnd(first, 1, 2) == 2;
  }
  /** Both edits are in bounds on the text they start from, and merge without a conflict. */
  lemma RaceMerges()
    ensures EachInside(TEXT, FIRST, Range(1, 1), SECOND, Range(2, 3))
    ensures Merge3(TEXT, SECOND, FIRST).Merged? && Merge3(TEXT, SECOND, FIRST).content == JoinLines(BOTH)
  {
    TextLines();
    FirstEdit();
    SecondEdit();
    AcceptedIff(TEXT, FIRST, Range(1, 1));
    AcceptedIff(TEXT, SECOND, Range(2, 3));
    var lines := SectionsMergeIff(TEXT, FIRST, Range(1, 1), SECOND, Range(2, 3));
    assert SECOND != FIRST by {
      FirstLines();
      SecondLines();
    }
    RaceTakesBoth(["# a", "# b", "x"], lines);
  }

  lemma RaceTakesBoth(text: Lines, lines: Lines)
    requires text == ["# a", "# b", "x"]
    requires InSections(text, [Hunk(1, 0, ["# b "])], Range(1, 1), [Hunk(2, 1, ["y"])], Range(2, 3))
    requires lines == BothSections(text, [Hunk(1, 0, ["# b "])], Range(1, 1), [Hunk(2, 1, ["y"])], Range(2, 3))
    ensures lines == BOTH
  {
    var a, b := Hunk(1, 0, ["# b "]), Hunk(2, 1, ["y"]);
    assert [a][1..] == [] && [b][1..] == [];
    assert text[..1][0..1] == ["# a"] && text[..1][1..] == [];
    assert ApplyFrom(text[..1], [], 1) == [];
    assert ["# a"] + ["# b "] + [] == ["# a", "# b "];
    assert SectionText(text, [a], Range(1, 1)) == ["# a", "# b "];
    assert text[..3] == text && text[1..2] == ["# b"] && text[3..] == [];
    assert ApplyFrom(text, [], 3) == [];
    assert ["# b"] + ["y"] + [] == ["# b", "y"];
    assert SectionText(text, [b], Range(2, 3)) == ["# b", "y"];
  }

  /** The second Agent's section is now found in the line the first put in, and the edit lies behind it. */
  lemma RaceIsRefused()
    ensures LocateSection(TEXT, "# a") == Some(Range(1, 1)) && LocateSection(TEXT, "# b") == Some(Range(2, 3))
    ensures LocateSection(FIRST, "# b") == Some(Range(2, 2))
    ensures FindOutOfBounds(FIRST, JoinLines(BOTH), Range(2, 2)) == Some(4)
  {
    TextLines();
    FirstLines();
    RaceSections(SplitLines(TEXT), SplitLines(FIRST));
    LateEdit();
    RefusedAtFirst(FIRST, JoinLines(BOTH), Range(2, 2), 4);
    assert !Inside(Edits(FIRST, JoinLines(BOTH))[0], Range(2, 2));
  }

  ghost predicate RaceState(s: Store, text: string, version: nat) {
    "doc" in s.docs && s.docs["doc"].content == text && s.docs["doc"].version == version && s.docs["doc"].lease == None &&
    s.sections == map["doc" := map["first" := "# a", "second" := "# b"]] && BaseOf(s, "second", "doc") == TEXT
  }

  lemma TextIsWritten()
    ensures var s := Step(EMPTY, RaceOps()[0]).0;
            "doc" in s.docs && s.docs["doc"].content == TEXT && s.docs["doc"].version == 1 && s.docs["doc"].lease == None &&
            s.sections == map[]
  {
  }

  lemma SectionsAreAllocated(s: Store)
    requires s.sections == map[]
    ensures var s' := Step(Step(s, RaceOps()[1]).0, RaceOps()[2]).0;
            s'.docs == s.docs && s'.sections == map["doc" := map["first" := "# a", "second" := "# b"]]
  {
    Headings();
  }

  lemma TextIsRead(s: Store)
    requires "doc" in s.docs && s.docs["doc"].content == TEXT && s.docs["doc"].version == 1 && s.docs["doc"].lease == None
    requires s.sections == map["doc" := map["first" := "# a", "second" := "# b"]]
    ensures RaceState(Step(s, RaceOps()[3]).0, TEXT, 1)
  {
  }

  lemma RaceStarts()
    ensures var ops := RaceOps();
            RaceState(Step(Step(Step(Step(EMPTY, ops[0]).0, ops[1]).0, ops[2]).0, ops[3]).0, TEXT, 1)
  {
    var s := Step(EMPTY, RaceOps()[0]).0;
    TextIsWritten();
    SectionsAreAllocated(s);
    TextIsRead(Step(Step(s, RaceOps()[1]).0, RaceOps()[2]).0);
  }

  lemma FirstCommits(s: Store)
    requires RaceState(s, TEXT, 1)
    ensures Step(s, RaceOps()[4]).1.Written? && RaceState(Step(s, RaceOps()[4]).0, FIRST, 2)
  {
    RaceMerges();
    RaceIsRefused();
    assert SectionBreach(s.sections, "doc", "first", TEXT, FIRST).None?;
    BaseStep(s, RaceOps()[4], "second", "doc");
  }

  lemma SecondIsRefused(s: Store)
    requires RaceState(s, FIRST, 2)
    ensures Step(s, Write("doc", "second", 1, SECOND, YES, 0)).1 == Denied(SectionOutside)
  {
    RaceMerges();
    RaceIsRefused();
    assert SectionBreach(s.sections, "doc", "second", FIRST, JoinLines(BOTH)) == Some(SectionOutside);
  }

  lemma RunOfFive(s: Store, ops: seq<Op>)
    requires |ops| == 5
    ensures Run(s, ops) == Step(Step(Step(Step(Step(s, ops[0]).0, ops[1]).0, ops[2]).0, ops[3]).0, ops[4]).0
  {
    var s1 := Step(s, ops[0]).0;
    var s2 := Step(s1, ops[1]).0;
    var s3 := Step(s2, ops[2]).0;
    var s4 := Step(s3, ops[3]).0;
    var s5 := Step(s4, ops[4]).0;
    assert ops[1..][1..] == ops[2..] && ops[2..][1..] == ops[3..] && ops[3..][1..] == ops[4..] && ops[4..][1..] == [];
    assert Run(s5, []) == s5 && Run(s4, ops[4..]) == s5 && Run(s3, ops[3..]) == s5 && Run(s2, ops[2..]) == s5;
  }

  /**
   * The merge is clean and carries only the second Agent's own edit, which was
   * inside its section of the text it was handed; it is refused all the same.
   */
  lemma InBoundsEditIsRefused()
    ensures var s := Run(EMPTY, RaceOps());
            BaseOf(s, "second", "doc") == TEXT && DocAt(s, "doc").content == FIRST &&
            LocateSection(TEXT, "# b") == Some(Range(2, 3)) && FindOutOfBounds(TEXT, SECOND, Range(2, 3)) == None &&
            Merge3(TEXT, SECOND, FIRST).Merged? &&
            Step(s, Write("doc", "second", 1, SECOND, YES, 0)).1 == Denied(SectionOutside)
  {
    RaceStarts();
    var ops := RaceOps();
    FirstCommits(Step(Step(Step(Step(EMPTY, ops[0]).0, ops[1]).0, ops[2]).0, ops[3]).0);
    RunOfFive(EMPTY, ops);
    SecondIsRefused(Run(EMPTY, ops));
    RaceMerges();
    RaceIsRefused();
  }
}
