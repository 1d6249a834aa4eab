/**
 * Everything a document keeps on record about its versions
 * (apps/server/src/concord/store.ts, `commit`, `writeAsHuman` and
 * `resolveConflict`): who made each, for which human and when, as the history,
 * the contribution log, the line entries and the document's own stamp say it.
 */
module CommitRecords {
  import opened Options
  import opened Text
  import opened Diff
  import opened Provenance
  import opened StoreState
  import opened Blame
  import opened Routing

  /** Whose name an operation commits under. */
  function ActorName(op: Op): string {
    match op
    case Write(_, agent, _, _, _, _) => agent
    case WriteAsHuman(_, humanId, _, _, _) => humanId
    case Resolve(_, _, humanId, _, _, _) => humanId
    case _ => ""
  }

  /** The human answerable for it: the one the Agent acts for, or the one who acts. */
  function ActorHuman(op: Op): Option<HumanId> {
    match op
    case Write(_, _, _, _, verdict, _) => verdict.human
    case WriteAsHuman(_, humanId, _, _, _) => Some(humanId)
    case Resolve(_, _, humanId, _, _, _) => Some(humanId)
    case _ => None
  }

  predicate IsCommit(op: Op) {
    op.Write? || op.WriteAsHuman? || op.Resolve?
  }

  ghost predicate HistoryIs(entry: HistoryEntry, op: Op, version: nat) {
    IsCommit(op) && entry.version == version && entry.actor == ActorName(op) && entry.human == ActorHuman(op) && entry.at == op.now
  }

  /** An Agent's contribution names it and its human; a human's names no Agent, and has no caret. */
  ghost predicate ContributionIs(c: Contribution, op: Op) {
    (op.Write? || op.WriteAsHuman?) && c.human == ActorHuman(op) && c.at == op.now &&
    (op.Write? ==> c.agent == Some(op.agent)) && (op.WriteAsHuman? ==> c.agent.None? && !c.merged && c.caret.None?)
  }

  /** A line names the Agent that wrote it or, of a human's edit, the human; of a decision it has the human as its Agent. */
  ghost predicate LineIs(entry: LineProvenance, op: Op) {
    IsCommit(op) && entry.at == op.now &&
    (op.Write? ==> entry.agent == Some(op.agent) && entry.human.None?) &&
    (op.WriteAsHuman? ==> entry.agent.None? && (op.humanId != "" ==> entry.human == Some(op.humanId))) &&
    (op.Resolve? ==> entry.agent == Some(op.humanId) && entry.human.None?)
  }

  ghost predicate StampIs(doc: Doc, op: Op) {
    IsCommit(op) && doc.updatedBy == Some(ActorName(op)) && doc.updatedAt == op.now
  }

  /** `commits[k]` made version k + 1 of the document, and everything on record says so. */
  ghost predicate RecordsAre(doc: Doc, commits: seq<Op>) {
    |commits| == doc.version == |doc.history| && |doc.provenance| == |SplitLines(doc.content)| &&
    (forall k :: 0 <= k < |commits| ==> HistoryIs(doc.history[k], commits[k], k + 1)) &&
    (forall k :: 0 <= k < |doc.contributions| ==> LoggedFor(doc.contributions[k], commits)) &&
    (forall j :: 0 <= j < |doc.provenance| ==> WrittenFor(doc.provenance[j], commits)) &&
    (commits != [] ==> StampIs(doc, commits[|commits| - 1]))
  }

  ghost predicate LoggedFor(c: Contribution, commits: seq<Op>) {
    1 <= c.resultingVersion <= |commits| && ContributionIs(c, commits[c.resultingVersion - 1])
  }

  ghost predicate WrittenFor(entry: LineProvenance, commits: seq<Op>) {
    1 <= entry.version <= |commits| && LineIs(entry, commits[entry.version - 1])
  }

  // ------------------------------------------------------------------- one step

  /** What an accepted step adds, besides text and lines. */
  ghost predicate Adds(before: Doc, after: Doc, op: Op) {
    StampIs(after, op) &&
    if op.Resolve? then after.contributions == before.contributions
    else
      exists c :: after.contributions == before.contributions + [c] && c.resultingVersion == before.version + 1 && ContributionIs(c, op)
  }

  lemma WriteAdds(s: Store, op: Op)
    requires op.Write? && Accepted(Step(s, op).1)
    ensures Adds(DocAt(s, op.doc), DocAt(Step(s, op).0, op.doc), op)
  {
    EnteredIsQuiet(s, op.doc, op.now);
    WriteCommits(s, op);
    CommitAddsOne(s, op, Step(s, op).1.content, Step(s, op).1.MergedInto?);
  }

  lemma CommitAddsOne(s: Store, op: Op, next: string, merged: bool)
    requires op.Write?
    ensures Adds(DocAt(s, op.doc), DocAt(CommitWrite(s, op.doc, Entered(s, op.doc, op.now), op.agent, op.verdict.human, next, merged, op.now), op.doc), op)
  {
    EnteredIsQuiet(s, op.doc, op.now);
    var before := DocAt(s, op.doc);
    var after := DocAt(CommitWrite(s, op.doc, Entered(s, op.doc, op.now), op.agent, op.verdict.human, next, merged, op.now), op.doc);
    var c := after.contributions[|before.contributions|];
    assert after.contributions == before.contributions + [c];
  }

  lemma HumanWriteAddsOne(s: Store, op: Op)
    requires op.WriteAsHuman? && Accepted(Step(s, op).1)
    ensures Adds(DocAt(s, op.doc), DocAt(Step(s, op).0, op.doc), op)
  {
    EnteredIsQuiet(s, op.doc, op.now);
    var before, after := DocAt(s, op.doc), DocAt(Step(s, op).0, op.doc);
    var c := after.contributions[|before.contributions|];
    assert after.contributions == before.contributions + [c];
  }

  lemma DecisionAddsNone(s: Store, op: Op)
    requires op.Resolve? && Accepted(Step(s, op).1)
    ensures Adds(DocAt(s, op.doc), DocAt(Step(s, op).0, op.doc), op)
  {
  }

  /** A step that commits nothing leaves the stamp of a document that has one. */
  ghost predicate KeepsStamp(before: Doc, after: Doc) {
    before.version > 0 ==> after.updatedBy == before.updatedBy && after.updatedAt == before.updatedAt
  }

  lemma RefusedKeepsStamp(s: Store, op: Op)
    requires !Accepted(Step(s, op).1)
    ensures KeepsStamp(DocAt(s, op.doc), DocAt(Step(s, op).0, op.doc))
  {
    if op.Write? {
      SubmitRefuses(s, op.doc, Entered(s, op.doc, op.now), op.agent, op.expected, op.content, op.verdict.human, op.now);
    }
  }

  /** The lines of a commit: kept ones keep their entries, the others say what the operation says. */
  lemma CommitWrites(before: Doc, after: Doc, c: Commit, supply: nat, supply': nat, commits: seq<Op>, op: Op)
    requires RecordsAre(before, commits) && Commits(before, after, c, supply, supply') && IsCommit(op) && c == CommitFor(op, c.next)
    ensures |after.provenance| == |SplitLines(after.content)|
    ensures forall j :: 0 <= j < |after.provenance| ==> WrittenFor(after.provenance[j], commits + [op])
  {
    forall j | 0 <= j < |SplitLines(c.next)|
      ensures |after.provenance| == |SplitLines(c.next)| && WrittenFor(after.provenance[j], commits + [op])
    {
      var origin := CommittedLine(before, c, supply, j);
      if origin.Some? {
        assert WrittenFor(before.provenance[origin.value], commits);
      }
    }
    PreviousAreOwn(before, c.now, supply + 1);
    EntriesMatchLines(before.provenance, before.content, c.next,
                      Writer(c.agent, c.human, supply, before.version + 1, c.now), supply + 1);
  }

  lemma AcceptedAdds(s: Store, op: Op)
    requires Accepted(Step(s, op).1)
    ensures IsCommit(op) && Adds(DocAt(s, op.doc), DocAt(Step(s, op).0, op.doc), op)
  {
    if op.Write? {
      WriteAdds(s, op);
    } else if op.WriteAsHuman? {
      HumanWriteAddsOne(s, op);
    } else {
      DecisionAddsNone(s, op);
    }
  }

  lemma CommitIsOnRecord(before: Doc, after: Doc, c: Commit, supply: nat, supply': nat, commits: seq<Op>, op: Op)
    requires RecordsAre(before, commits) && Commits(before, after, c, supply, supply') && IsCommit(op) && c == CommitFor(op, c.next)
    requires Adds(before, after, op)
    ensures RecordsAre(after, commits + [op])
  {
    CommitWrites(before, after, c, supply, supply', commits, op);
    assert HistoryIs(after.history[|commits|], op, |commits| + 1);
    forall k | 0 <= k < |after.contributions| ensures LoggedFor(after.contributions[k], commits + [op]) {
      if k < |before.contributions| {
        assert after.contributions[k] == before.contributions[k] && LoggedFor(before.contributions[k], commits);
      }
    }
  }

  lemma StepRecords(s: Store, op: Op, d: DocId, commits: seq<Op>)
    requires RecordsAre(DocAt(s, d), commits)
    ensures RecordsAre(DocAt(Step(s, op).0, d), commits + CommitOf(s, op, d))
  {
    assert commits + [] == commits;
    if op.doc != d {
      StepElsewhere(s, op, d);
    } else {
      var commit := StepOnDoc(s, op);
      if commit.Some? {
        AcceptedAdds(s, op);
        CommitIsOnRecord(DocAt(s, d), DocAt(Step(s, op).0, d), commit.value, s.supply, Step(s, op).0.supply, commits, op);
      } else {
        RefusedKeepsStamp(s, op);
      }
    }
  }

  lemma {:induction false} RunRecords(s: Store, ops: seq<Op>, d: DocId, commits: seq<Op>)
    requires RecordsAre(DocAt(s, d), commits)
    ensures RecordsAre(DocAt(Run(s, ops), d), commits + Committed(s, ops, d))
    decreases |ops|
  {
    if ops == [] {
      assert commits + [] == commits;
    } else {
      var here, s' := CommitOf(s, ops[0], d), Step(s, ops[0]).0;
      StepRecords(s, ops[0], d, commits);
      RunRecords(s', ops[1..], d, commits + here);
      Reassociate(commits, here, Committed(s', ops[1..], d));
    }
  }

  /** After any run from the empty store, everything on record about a document is what its operations were. */
  lemma RecordsNameOperations(ops: seq<Op>, d: DocId)
    ensures RecordsAre(DocAt(Run(EMPTY, ops), d), Committed(EMPTY, ops, d))
  {
    RunRecords(EMPTY, ops, d, []);
    assert [] + Committed(EMPTY, ops, d) == Committed(EMPTY, ops, d);
  }

  // --------------------------------------------------------- what a contribution says

  /** Some line of the document carries the id. */
  ghost predicate HasId(doc: Doc, id: nat) {
    exists j :: 0 <= j < |doc.provenance| && doc.provenance[j].lineId == id
  }

  /** The caret of a change from one text to another: none if the lines are the same, else at its last hunk. */
  ghost predicate CaretOf(caret: Option<Caret>, old_: Lines, new_: Lines) {
    var hunks := DiffLines(old_, new_);
    if old_ == new_ then caret.None?
    else
      hunks != [] &&
      var last := hunks[|hunks| - 1];
      last.End() <= |old_| && |old_| - last.End() <= |new_| && caret.Some? &&
      CaretStands(caret.value, old_, last, |new_| - (|old_| - last.End()))
  }

  lemma AttributionCaret(previous: seq<LineProvenance>, previousContent: string, nextContent: string, writer: Writer, supply: nat)
    ensures CaretOf(ReconcileProvenance(previous, previousContent, nextContent, writer, supply).caret,
                    SplitLines(previousContent), SplitLines(nextContent))
  {
    CaretIsInside(previous, previousContent, nextContent, writer, supply);
    if SplitLines(previousContent) != SplitLines(nextContent) {
      CaretIsLastChange(previous, previousContent, nextContent, writer, supply);
    }
  }

  /** The ids reported as changed are those that are new in the document. */
  lemma AttributionChanged(before: Doc, c: Commit, supply: nat, id: nat)
    requires |before.provenance| == |SplitLines(before.content)| && IdsBelow(before.provenance, supply)
    ensures var update := Attribution(before, c.next, c.agent, c.human, c.now, supply);
            id in update.changed <==>
              (exists j :: 0 <= j < |update.lines| && update.lines[j].lineId == id) && !HasId(before, id)
  {
    PreviousAreOwn(before, c.now, supply + 1);
    var writer := Writer(c.agent, c.human, supply, before.version + 1, c.now);
    var origins := Origins(SplitLines(before.content), SplitLines(c.next));
    ChangedAreInserted(before.provenance, before.content, c.next, writer, supply + 1, id);
    var update := Attribution(before, c.next, c.agent, c.human, c.now, supply);
    EntriesMatchLines(before.provenance, before.content, c.next, writer, supply + 1);
    forall j | 0 <= j < |update.lines| && update.lines[j].lineId == id ensures origins[j].None? <==> !HasId(before, id) {
      AttributionIsExact(before.provenance, before.content, c.next, writer, supply + 1, j);
      EntriesMatchLines(before.provenance, before.content, c.next, writer, supply + 1);
      OriginsAreAlignment(SplitLines(before.content), SplitLines(c.next));
      if origins[j].Some? {
        assert before.provenance[origins[j].value].lineId == id;
      }
    }
  }

  /**
   * The contribution an accepted write leaves last in the log: whether it was
   * merged, which line ids are new with it, and, of an Agent's, where the caret
   * stood when it was done.
   */
  ghost predicate SaysWhatChanged(before: Doc, after: Doc, merged: bool, caret: bool) {
    after.contributions != [] &&
    var c := after.contributions[|after.contributions| - 1];
    c.merged == merged && (forall id :: id in c.changed <==> HasId(after, id) && !HasId(before, id)) &&
    (caret ==> CaretOf(c.caret, SplitLines(before.content), SplitLines(after.content)))
  }

  lemma WriteIsLogged(w: World, op: Op)
    requires AllTruthful(w) && (op.Write? || op.WriteAsHuman?) && Accepted(Step(w.store, op).1)
    ensures SaysWhatChanged(DocAt(w.store, op.doc), DocAt(Step(w.store, op).0, op.doc), Step(w.store, op).1.MergedInto?, op.Write?)
  {
    var before := DocAt(w.store, op.doc);
    assert Truthful(before, Versions(w.archive, op.doc), w.store.supply);
    assert Recorded(Versions(w.archive, op.doc)[before.version], w.store.supply);
    if op.Write? {
      WriteCommits(w.store, op);
      CommitSays(w.store, op, Step(w.store, op).1.content, Step(w.store, op).1.MergedInto?);
    } else {
      HumanEditCommits(w.store, op);
      HumanEditSays(w.store, op);
    }
  }

  lemma CommitSays(s: Store, op: Op, next: string, merged: bool)
    requires op.Write? && |DocAt(s, op.doc).provenance| == |SplitLines(DocAt(s, op.doc).content)|
    requires IdsBelow(DocAt(s, op.doc).provenance, s.supply)
    ensures SaysWhatChanged(DocAt(s, op.doc),
                            DocAt(CommitWrite(s, op.doc, Entered(s, op.doc, op.now), op.agent, op.verdict.human, next, merged, op.now), op.doc),
                            merged, true)
  {
    var before, entered := DocAt(s, op.doc), Entered(s, op.doc, op.now);
    EnteredIsQuiet(s, op.doc, op.now);
    AttributionOfQuiet(before, entered, next, Some(op.agent), None, op.now, s.supply);
    var after := DocAt(CommitWrite(s, op.doc, entered, op.agent, op.verdict.human, next, merged, op.now), op.doc);
    var update := Attribution(before, next, Some(op.agent), None, op.now, s.supply);
    AttributionCaret(PreviousEntries(before, op.now, s.supply + 1), before.content, next,
                     Writer(Some(op.agent), None, s.supply, before.version + 1, op.now), SupplyAfterSeed(before, s.supply + 1));
    forall id ensures id in update.changed <==> HasId(after, id) && !HasId(before, id) {
      AttributionChanged(before, CommitFor(op, next), s.supply, id);
    }
  }

  lemma HumanEditCommits(s: Store, op: Op)
    requires op.WriteAsHuman? && Accepted(Step(s, op).1)
    ensures Step(s, op).0 == CommitHumanEdit(s, op.doc, Entered(s, op.doc, op.now), op.humanId, op.content, op.now) && !Step(s, op).1.MergedInto?
  {
  }

  lemma HumanEditSays(s: Store, op: Op)
    requires op.WriteAsHuman? && |DocAt(s, op.doc).provenance| == |SplitLines(DocAt(s, op.doc).content)|
    requires IdsBelow(DocAt(s, op.doc).provenance, s.supply)
    ensures SaysWhatChanged(DocAt(s, op.doc),
                            DocAt(CommitHumanEdit(s, op.doc, Entered(s, op.doc, op.now), op.humanId, op.content, op.now), op.doc), false, false)
  {
    var before, entered := DocAt(s, op.doc), Entered(s, op.doc, op.now);
    EnteredIsQuiet(s, op.doc, op.now);
    AttributionOfQuiet(before, entered, op.content, None, Some(op.humanId), op.now, s.supply);
    var after := DocAt(CommitHumanEdit(s, op.doc, entered, op.humanId, op.content, op.now), op.doc);
    var update := Attribution(before, op.content, None, Some(op.humanId), op.now, s.supply);
    forall id ensures id in update.changed <==> HasId(after, id) && !HasId(before, id) {
      AttributionChanged(before, CommitFor(op, op.content), s.supply, id);
    }
  }
}
