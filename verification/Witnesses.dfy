/**
 * Concrete runs from the empty store in which a natural expectation fails. The
 * laws that say exactly when it holds are in the modules imported here.
 */
module Witnesses {
  import opened Options
  import opened Text
  import opened Diff
  import opened Merge
  import opened MergeLaws
  import opened Provenance
  import opened StoreState
  import opened Blame
  import opened NoLostUpdate
  import opened OpenConflicts
  import opened HumanEdits
  import opened Turns
  import Review
  import Sections

  const YES := Verdict(true, Some("human"))

  /** One Agent writes, another conflicts with it at the version both started from, and a human decides. */
  function DisputeOps(): seq<Op> {
    [Write("doc", "first", 0, "x", YES, 0), Write("doc", "second", 0, "y", YES, 0), Resolve("doc", 1, "human", true, "z", 0)]
  }

  /** After the dispute the document holds the decision, and so does the losing Agent's base. */
  lemma DisputeIsSettled()
    ensures var s := Run(EMPTY, DisputeOps());
            DocAt(s, "doc").content == "z" && DocAt(s, "doc").version == 2 && DocAt(s, "doc").lease == None &&
            BaseOf(s, "second", "doc") == "z" && s.sections == map[]
  {
    var ops := DisputeOps();
    var s1 := Step(EMPTY, ops[0]).0;
    FirstWrite();
    SecondWrite(s1);
    var s2 := Step(s1, ops[1]).0;
    var s3 := Step(s2, ops[2]).0;
    assert Merge3("x", "z", "x") == Merged("z", 1);
    assert ops[1..] == [ops[1], ops[2]] && ops[1..][1..] == [ops[2]] && [ops[2]][1..] == [];
    assert Run(s3, []) == s3;
    assert Run(s2, [ops[2]]) == s3;
    assert Run(s1, ops[1..]) == s3;
  }

  lemma FirstWrite()
    ensures var s := Step(EMPTY, DisputeOps()[0]).0;
            "doc" in s.docs && s.docs["doc"].content == "x" && s.docs["doc"].version == 1 && s.docs["doc"].lease == None &&
            s.docs["doc"].conflicts == [] && s.sections == map[] && s.conflictSeq == 0 && s.bases == map[BaseKey("first", "doc") := "x"]
  {
  }

  lemma SecondWrite(s: Store)
    requires "doc" in s.docs && s.docs["doc"].content == "x" && s.docs["doc"].version == 1 && s.docs["doc"].lease == None
    requires s.docs["doc"].conflicts == [] && s.sections == map[] && s.conflictSeq == 0 && s.bases == map[BaseKey("first", "doc") := "x"]
    ensures var s' := Step(s, DisputeOps()[1]).0;
            "doc" in s'.docs && s'.docs["doc"].content == "x" && s'.docs["doc"].version == 1 && s'.docs["doc"].lease == None &&
            s'.sections == map[] && FindConflict(s'.docs["doc"].conflicts, 1).Some? &&
            FindConflict(s'.docs["doc"].conflicts, 1).value.agent == "second" && FindConflict(s'.docs["doc"].conflicts, 1).value.theirs == "x"
  {
    MergeFromNothing("y", "x");
    var op := DisputeOps()[1];
    WriteConflicts(s, op);
    RefusedIsQuiet(s, op);
  }

  /** The exception is reachable: the losing Agent sends its old text again, and the decision is gone. */
  lemma DecisionIsOverwritten()
    ensures var s := Run(EMPTY, DisputeOps());
            var late := Write("doc", "second", 0, "y", YES, 0);
            DocAt(s, "doc").content == "z" && Accepted(Step(s, late).1) && DocAt(Step(s, late).0, "doc").content == "y"
  {
    DisputeIsSettled();
    var s := Run(EMPTY, DisputeOps());
    var late := Write("doc", "second", 0, "y", YES, 0);
    assert Merge3("z", "y", "z") == Merged("y", 1);
    MovedBaseOverwrites(s, late);
  }

  // --------------------------------------------------- what a turn does not carry

  /** An Agent is handed "x" at version 1; then a human puts `text` in its place. */
  function OvertakenOps(text: string): seq<Op> {
    [Write("doc", "first", 0, "x", YES, 0), Read("doc", "second", YES, 0), WriteAsHuman("doc", "human", 1, text, 0)]
  }

  lemma OvertakenTurn(text: string)
    ensures var s := Run(EMPTY, OvertakenOps(text));
            "doc" in s.docs && s.docs["doc"].content == text && s.docs["doc"].version == 2 && s.docs["doc"].lease == None &&
            BaseOf(s, "second", "doc") == "" && s.sections == map[]
    ensures Step(Run(EMPTY, OvertakenOps(text)[..1]), OvertakenOps(text)[1]).1 == ReadOk(1, "x")
  {
    var ops := OvertakenOps(text);
    FirstWrite();
    var s1 := Step(EMPTY, ops[0]).0;
    var s2 := Step(s1, ops[1]).0;
    var s3 := Step(s2, ops[2]).0;
    HumanWriteClearsBases(s2, ops[2], "second");
    assert ops[..1] == [ops[0]] && [ops[0]][1..] == [] && Run(s1, []) == s1 && Run(EMPTY, [ops[0]]) == s1;
    assert ops[1..] == [ops[1], ops[2]] && ops[1..][1..] == [ops[2]] && [ops[2]][1..] == [];
    assert Run(s3, []) == s3 && Run(s2, [ops[2]]) == s3 && Run(s1, ops[1..]) == s3;
  }

  /** An acknowledged deletion is dropped: the human's "y" stays, and the Agent is told it was merged. */
  lemma DeletionIsDropped()
    ensures var s := Run(EMPTY, OvertakenOps("y"));
            var late := Write("doc", "second", 1, "", YES, 0);
            Step(s, late).1.MergedInto? && DocAt(Step(s, late).0, "doc").content == "y" && !CarriesEdit("x", "", "y", "y")
  {
    OvertakenTurn("y");
    assert Merge3("", "", "y") == Merged("y", 1);
    NotCarried("x", "", "y", "y");
  }

  /** A human's emptying is undone: the Agent's whole payload is back. */
  lemma EmptyingIsUndone()
    ensures var s := Run(EMPTY, OvertakenOps(""));
            var late := Write("doc", "second", 1, "x\nz", YES, 0);
            Step(s, late).1.MergedInto? && DocAt(Step(s, late).0, "doc").content == "x\nz" && !CarriesEdit("x", "x\nz", "", "x\nz")
  {
    OvertakenTurn("");
    var s := Run(EMPTY, OvertakenOps(""));
    StaleWriteReplaces(s, Write("doc", "second", 1, "x\nz", YES, 0));
    NotCarried("x", "x\nz", "", "x\nz");
  }

  // ---------------------------------------------------- an Agent that is read again

  /** "second" is handed "x" at version 1; another Agent commits; then "second" is read again, as a browser does. */
  function RereadOps(): seq<Op> {
    [Write("doc", "first", 0, "x", YES, 0), Read("doc", "second", YES, 0),
     Write("doc", "first", 1, "x\ny", YES, 0), Read("doc", "second", YES, 0)]
  }

  lemma RereadTurn()
    ensures var s := Run(EMPTY, RereadOps());
            "doc" in s.docs && s.docs["doc"].content == "x\ny" && s.docs["doc"].version == 2 && s.docs["doc"].lease == None &&
            BaseOf(s, "second", "doc") == "x\ny" && s.sections == map[]
    ensures Step(Run(EMPTY, RereadOps()[..1]), RereadOps()[1]).1 == ReadOk(1, "x")
  {
    var ops := RereadOps();
    FirstWrite();
    var s1 := Step(EMPTY, ops[0]).0;
    var s2 := Step(s1, ops[1]).0;
    var s3 := Step(s2, ops[2]).0;
    var s4 := Step(s3, ops[3]).0;
    assert ops[..1] == [ops[0]] && [ops[0]][1..] == [] && Run(s1, []) == s1 && Run(EMPTY, [ops[0]]) == s1;
    assert ops[1..][1..] == ops[2..] && ops[2..][1..] == ops[3..] && ops[3..][1..] == [];
    assert Run(s4, []) == s4 && Run(s3, ops[3..]) == s4 && Run(s2, ops[2..]) == s4 && Run(s1, ops[1..]) == s4;
  }

  /** The submission at the version handed out is answered as merged, and the other Agent's commit is gone. */
  lemma RereadLosesUpdate()
    ensures var s := Run(EMPTY, RereadOps());
            var late := Write("doc", "second", 1, "z", YES, 0);
            Step(s, late).1.MergedInto? && DocAt(s, "doc").content == "x\ny" && DocAt(Step(s, late).0, "doc").content == "z" &&
            !CarriesEdit("x", "z", "x\ny", "z")
  {
    RereadTurn();
    StaleWriteReplaces(Run(EMPTY, RereadOps()), Write("doc", "second", 1, "z", YES, 0));
    LineIsLost();
  }

  /** Replacing "x" by "z" over "x" and "y" has to leave two lines. */
  lemma LineIsLost()
    ensures !CarriesEdit("x", "z", "x\ny", "z")
  {
    FieldsOfOne("x", '\n');
    FieldsOfOne("y", '\n');
    FieldsOfOne("z", '\n');
    FieldsOfMore("x", "y", '\n');
    assert "x" + "\n" + "y" == "x\ny";
    if CarriesEdit("x", "z", "x\ny", "z") {
      CarriedLines("x", "z", "x\ny", "z");
    }
  }

  /** A human's edit goes the same way, once the Agent has been read again behind it. */
  lemma RereadReplacesHumanEdit()
    ensures var s := Step(Run(EMPTY, OvertakenOps("w")), Read("doc", "second", YES, 0)).0;
            var late := Write("doc", "second", 1, "z", YES, 0);
            DocAt(s, "doc").content == "w" && Step(s, late).1.MergedInto? && DocAt(Step(s, late).0, "doc").content == "z" &&
            !CarriesEdit("x", "z", "w", "z")
  {
    OvertakenTurn("w");
    var s := Step(Run(EMPTY, OvertakenOps("w")), Read("doc", "second", YES, 0)).0;
    StaleWriteReplaces(s, Write("doc", "second", 1, "z", YES, 0));
    OneLineEdit("x", "z");
    OneLineEdit("x", "w");
    assert Overlaps(Edits("x", "z")[0], Edits("x", "w")[0]);
  }

  // ------------------------------------------------------- a decision that fails

  /** Two Agents conflict, a human edits the document, and a decision on the conflict conflicts with that edit. */
  function FailedDecisionOps(): seq<Op> {
    [Write("doc", "first", 0, "x", YES, 0), Write("doc", "second", 0, "y", YES, 0),
     WriteAsHuman("doc", "human", 1, "w", 0), Resolve("doc", 1, "human", true, "z", 0)]
  }

  /** The losing Agent's "y" was on record, and is on record no more, though nothing was settled. */
  lemma LosingTextIsReplaced()
    ensures var before, after := Run(EMPTY, FailedDecisionOps()[..2]), Run(EMPTY, FailedDecisionOps());
            FindConflict(DocAt(before, "doc").conflicts, 1).Some? && FindConflict(DocAt(before, "doc").conflicts, 1).value.ours == "y" &&
            |DocAt(after, "doc").conflicts| == 1 && DocAt(after, "doc").conflicts[0].ours == "z" && DocAt(after, "doc").content == "w"
  {
    var ops := FailedDecisionOps();
    var s1 := Step(EMPTY, ops[0]).0;
    var s2 := Step(s1, ops[1]).0;
    FirstWrite();
    SecondWrite(s1);
    SecondRecord(s1);
    var s3 := Step(s2, ops[2]).0;
    HumanReplaces(s2);
    DecisionFails(s3);
    RunTwice(EMPTY, ops[..2]);
    RunTwice(s2, ops[2..]);
    assert ops == ops[..2] + ops[2..];
    RunConcat(EMPTY, ops[..2], ops[2..]);
  }

  lemma RunTwice(s: Store, ops: seq<Op>)
    requires |ops| == 2
    ensures Run(s, ops) == Step(Step(s, ops[0]).0, ops[1]).0
  {
    var s1 := Step(s, ops[0]).0;
    assert ops[1..][1..] == [] && Run(Step(s1, ops[1]).0, []) == Step(s1, ops[1]).0;
    assert Run(s1, ops[1..]) == Step(s1, ops[1]).0;
  }

  lemma HumanReplaces(s: Store)
    requires "doc" in s.docs && s.docs["doc"].version == 1 && s.docs["doc"].lease == None
    ensures var s' := Step(s, FailedDecisionOps()[2]).0;
            "doc" in s'.docs && s'.docs["doc"].content == "w" && s'.docs["doc"].conflicts == s.docs["doc"].conflicts
  {
  }

  lemma DecisionFails(s: Store)
    requires "doc" in s.docs && s.docs["doc"].content == "w" && |s.docs["doc"].conflicts| == 1
    requires s.docs["doc"].conflicts[0].id == 1 && s.docs["doc"].conflicts[0].theirs == "x"
    ensures var after := DocAt(Step(s, FailedDecisionOps()[3]).0, "doc");
            |after.conflicts| == 1 && after.conflicts[0].ours == "z" && after.content == "w"
  {
    DecisionConflicts();
    ResolveConflicts(s, FailedDecisionOps()[3]);
    RefusedIsQuiet(s, FailedDecisionOps()[3]);
  }

  lemma SecondRecord(s: Store)
    requires "doc" in s.docs && s.docs["doc"].content == "x" && s.docs["doc"].version == 1 && s.docs["doc"].lease == None
    requires s.docs["doc"].conflicts == [] && s.sections == map[] && s.conflictSeq == 0 && s.bases == map[BaseKey("first", "doc") := "x"]
    ensures var after := DocAt(Step(s, DisputeOps()[1]).0, "doc").conflicts;
            |after| == 1 && after[0].id == 1 && after[0].ours == "y" && after[0].theirs == "x"
  {
    MergeFromNothing("y", "x");
    WriteConflicts(s, DisputeOps()[1]);
  }

  lemma OneLineEdit(a: string, b: string)
    requires a != b && a != "" && b != "" && '\n' !in a && '\n' !in b
    ensures DiffLines(SplitLines(a), SplitLines(b)) == [Hunk(0, 1, [b])]
  {
    FieldsOfOne(a, '\n');
    FieldsOfOne(b, '\n');
    WalkOfOne(a, b, 0);
  }

  lemma DecisionConflicts()
    ensures Merge3("x", "z", "w").Conflicted?
  {
    OneLineEdit("x", "z");
    OneLineEdit("x", "w");
    assert Overlaps(Edits("x", "z")[0], Edits("x", "w")[0]);
    MergeAcceptsIff("x", "z", "w");
  }

  // -------------------------------------------------- a comment on a decided line

  /** The line a decision settles names the human who decided as its Agent. */
  lemma DecidedLineNamesHuman()
    ensures var doc := DocAt(Run(EMPTY, DisputeOps()), "doc");
            |doc.provenance| == 1 && doc.provenance[0].agent == Some("human") && doc.content == "z"
  {
    var ops := DisputeOps();
    var s1 := Step(EMPTY, ops[0]).0;
    FirstWrite();
    SecondWrite(s1);
    DecisionNamesHuman(Step(s1, ops[1]).0);
    RunTwice(EMPTY, ops[..2]);
    assert ops == ops[..2] + [ops[2]];
    RunConcat(EMPTY, ops[..2], [ops[2]]);
    RunOnce(Step(s1, ops[1]).0, ops[2]);
  }

  lemma RunOnce(s: Store, op: Op)
    ensures Run(s, [op]) == Step(s, op).0
  {
    assert [op][1..] == [] && Run(Step(s, op).0, []) == Step(s, op).0;
  }

  lemma DecisionNamesHuman(s: Store)
    requires "doc" in s.docs && s.docs["doc"].content == "x" && FindConflict(s.docs["doc"].conflicts, 1).Some?
    requires FindConflict(s.docs["doc"].conflicts, 1).value.theirs == "x"
    ensures var doc := DocAt(Step(s, DisputeOps()[2]).0, "doc");
            |doc.provenance| == 1 && doc.provenance[0].agent == Some("human") && doc.content == "z"
  {
    assert Merge3("x", "z", "x") == Merged("z", 1);
    OneLineKept(s.docs["doc"], "z", s.supply);
  }

  lemma OneLineKept(before: Doc, next: string, supply: nat)
    requires before.content == "x" && next == "z"
    ensures var lines := Attribution(before, next, Some("human"), None, 0, supply).lines;
            |lines| == 1 && lines[0].agent == Some("human")
  {
    FieldsOfOne("x", '\n');
    FieldsOfOne("z", '\n');
    var writer := Writer(Some("human"), None, supply, before.version + 1, 0);
    var previous := PreviousEntries(before, 0, supply + 1);
    AttributionIsExact(previous, "x", "z", writer, SupplyAfterSeed(before, supply + 1), 0);
    OriginsAreAlignment(SplitLines("x"), SplitLines("z"));
  }

  /** A comment on it is sent to that human, as if it were an Agent. */
  lemma CommentGoesToDecider(routing: ResponsibleAgents, b: Review.Board)
    requires Routes(DocAt(Run(EMPTY, DisputeOps()), "doc").provenance, 1, 1, routing)
    ensures var draft := Review.Draft("doc", "human", None, None, "why?", 1, 1, 0);
            var b' := Review.CreateComment(b, draft, Some(DocAt(Run(EMPTY, DisputeOps()), "doc").content), routing);
            routing.recommended == Some("human") && b.supply in b'.comments && b'.comments[b.supply].responsible == "human"
  {
    DecidedLineNamesHuman();
    SoleCandidate(DocAt(Run(EMPTY, DisputeOps()), "doc").provenance, routing);
    DeciderIsAsked(routing, b);
  }

  lemma SoleCandidate(lines: seq<LineProvenance>, routing: ResponsibleAgents)
    requires |lines| == 1 && lines[0].agent == Some("human") && Routes(lines, 1, 1, routing)
    ensures routing.candidates == ["human"] && routing.recommended == Some("human")
  {
    assert NamedIn(lines, 1, 1, "human");
    forall a | a in routing.candidates ensures a == "human" {
      assert NamedIn(lines, 1, 1, a);
    }
    OnlyOne(routing.candidates, "human");
  }

  lemma DeciderIsAsked(routing: ResponsibleAgents, b: Review.Board)
    requires routing.candidates == ["human"] && routing.recommended == Some("human")
    ensures var b' := Review.CreateComment(b, Review.Draft("doc", "human", None, None, "why?", 1, 1, 0), Some("z"), routing);
            b.supply in b'.comments && b'.comments[b.supply].responsible == "human"
  {
    FieldsOfOne("z", '\n');
    assert Sections.TrimStart("why?") == "why?" && Sections.TrimEnd("why?") == "why?";
  }

  lemma OnlyOne(names: seq<string>, name: string)
    requires name in names && (forall a :: a in names ==> a == name)
    requires forall i, j :: 0 <= i < j < |names| ==> names[i] != names[j]
    ensures names == [name]
  {
    var k := |names| - 1;
    assert names[0] in names && names[k] in names;
    assert k == 0;
  }
}
