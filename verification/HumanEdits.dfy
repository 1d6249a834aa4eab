/**
 * A human edit survives stale Agents: it clears every recorded base of its
 * document, and without a base a stale write cannot change a text that is not empty.
 */
module HumanEdits {
  import opened Options
  import opened Text
  import opened Diff
  import opened Merge
  import opened MergeLaws
  import opened StoreState
  import opened Blame
  import opened NoLostUpdate
  import opened OpenConflicts

  /** Against an empty base every two different non-empty texts conflict. */
  lemma MergeFromNothing(ours: string, theirs: string)
    ensures ours != theirs && ours != "" && theirs != "" ==> Merge3("", ours, theirs).Conflicted?
  {
    if ours != theirs && ours != "" && theirs != "" {
      TwoInsertionsOverlap(ours, theirs);
      MergeAcceptsIff("", ours, theirs);
    }
  }

  lemma TwoInsertionsOverlap(ours: string, theirs: string)
    requires ours != "" && theirs != ""
    ensures !Independent("", ours, theirs)
  {
    DiffFromNothing(SplitLines(ours));
    DiffFromNothing(SplitLines(theirs));
    assert Overlaps(Edits("", ours)[0], Edits("", theirs)[0]);
  }

  predicate HasBase(s: Store, agent: AgentId, d: DocId) {
    BaseKey(agent, d) in s.bases
  }

  /** A write that gets past authority, lease and section. */
  ghost predicate Admitted(s: Store, op: Op)
    requires op.Write?
  {
    !Step(s, op).1.Denied? && !Step(s, op).1.Leased?
  }

  /**
   * Without a base, an admitted stale write changes the text exactly when the
   * document is empty and the payload is not.
   */
  lemma StaleWriteWithoutBase(s: Store, op: Op)
    requires op.Write? && !HasBase(s, op.agent, op.doc) && op.expected != DocAt(s, op.doc).version && Admitted(s, op)
    ensures DocAt(Step(s, op).0, op.doc).content != DocAt(s, op.doc).content <==>
            DocAt(s, op.doc).content == "" && op.content != ""
  {
    var doc := DocAt(s, op.doc);
    MergeFromNothing(op.content, doc.content);
    EnteredIsQuiet(s, op.doc, op.now);
    if Accepted(Step(s, op).1) {
      CommitWriteShape(s, op.doc, op.agent, op.verdict.human, Step(s, op).1.content, Step(s, op).1.MergedInto?, op.now);
    } else {
      RefusedIsQuiet(s, op);
    }
  }

  /** An accepted human edit leaves no Agent a base on that document. */
  lemma HumanWriteClearsBases(s: Store, op: Op, agent: AgentId)
    requires op.WriteAsHuman? && Accepted(Step(s, op).1)
    ensures !HasBase(Step(s, op).0, agent, op.doc)
    ensures DocAt(Step(s, op).0, op.doc).content == op.content
  {
  }

  /**
   * The step gives the Agent a base on the document: a read that is permitted,
   * a write of its own that commits, or a decision on its own conflict record.
   */
  ghost predicate GivesBase(s: Store, op: Op, agent: AgentId, d: DocId) {
    op.doc == d &&
    ((op.Read? && op.agent == agent && Step(s, op).1.ReadOk?) ||
     (op.Write? && op.agent == agent && Accepted(Step(s, op).1)) ||
     (op.Resolve? && Step(s, op).1.Resolved? && SettlesFor(s, op, agent)))
  }

  predicate SettlesFor(s: Store, op: Op, agent: AgentId)
    requires op.Resolve?
  {
    var pending := FindConflict(DocAt(s, op.doc).conflicts, op.conflict);
    pending.Some? && pending.value.agent == agent
  }

  /** The step is a human edit of the document that commits. */
  predicate TakesBase(s: Store, op: Op, d: DocId) {
    op.doc == d && op.WriteAsHuman? && Accepted(Step(s, op).1)
  }

  /** What a step does to one Agent's base on one document. */
  ghost predicate BaseAfter(s: Store, op: Op, agent: AgentId, d: DocId) {
    var s' := Step(s, op).0;
    if GivesBase(s, op, agent, d) then HasBase(s', agent, d) && BaseOf(s', agent, d) == DocAt(s', d).content
    else if TakesBase(s, op, d) then !HasBase(s', agent, d)
    else SameBase(s, s', agent, d)
  }

  ghost predicate SameBase(s: Store, s': Store, agent: AgentId, d: DocId) {
    (HasBase(s', agent, d) <==> HasBase(s, agent, d)) && BaseOf(s', agent, d) == BaseOf(s, agent, d)
  }

  lemma SubmitBase(s: Store, d: DocId, agent: AgentId, expected: int, content: string, human: Option<HumanId>, now: int,
                   reader: AgentId, x: DocId)
    ensures var (s', outcome) := Submit(s, d, Entered(s, d, now), agent, expected, content, human, now);
            if Accepted(outcome) && reader == agent && x == d
            then HasBase(s', reader, x) && BaseOf(s', reader, x) == outcome.content == DocAt(s', x).content
            else SameBase(s, s', reader, x)
  {
    SubmitCommits(s, d, Entered(s, d, now), agent, expected, content, human, now);
    SubmitRefuses(s, d, Entered(s, d, now), agent, expected, content, human, now);
  }

  lemma HumanWriteBase(s: Store, op: Op, agent: AgentId, d: DocId)
    requires op.WriteAsHuman?
    ensures BaseAfter(s, op, agent, d)
  {
  }

  lemma ResolveBase(s: Store, op: Op, agent: AgentId, d: DocId)
    requires op.Resolve?
    ensures BaseAfter(s, op, agent, d)
  {
    FindConflictIs(DocAt(s, op.doc).conflicts, op.conflict);
  }

  /**
   * A base is given exactly by such a step, and is then the document's text; it
   * is taken exactly by a human edit; every other step leaves it as it was.
   */
  lemma BaseStep(s: Store, op: Op, agent: AgentId, d: DocId)
    ensures BaseAfter(s, op, agent, d)
  {
    match op
    case Read(x, reader, verdict, now) => EnteredIsQuiet(s, x, now);
    case Write(x, writer, expected, content, verdict, now) =>
      SubmitBase(s, x, writer, expected, content, verdict.human, now, agent, d);
    case WriteAsHuman(_, _, _, _, _) => HumanWriteBase(s, op, agent, d);
    case Resolve(_, _, _, _, _, _) => ResolveBase(s, op, agent, d);
    case AcquireLease(_, _, _, _, _) =>
    case ReleaseLease(_, _, _, _) =>
    case Allocate(_, _, _) =>
    case ReleaseSections(_) =>
  }

  /** No step of the run gives the Agent a base on the document. */
  ghost predicate NeverGiven(s: Store, ops: seq<Op>, agent: AgentId, d: DocId)
    decreases |ops|
  {
    ops == [] || (!GivesBase(s, ops[0], agent, d) && NeverGiven(Step(s, ops[0]).0, ops[1..], agent, d))
  }

  /** Some step of the run is a committed human edit of the document. */
  ghost predicate HumanWrote(s: Store, ops: seq<Op>, d: DocId)
    decreases |ops|
  {
    ops != [] && (TakesBase(s, ops[0], d) || HumanWrote(Step(s, ops[0]).0, ops[1..], d))
  }

  /** Over a run that gives none, a base is there at the end exactly if it was at first and no human wrote. */
  lemma {:induction false} BaseOverRun(s: Store, ops: seq<Op>, agent: AgentId, d: DocId)
    requires NeverGiven(s, ops, agent, d)
    ensures HasBase(Run(s, ops), agent, d) <==> HasBase(s, agent, d) && !HumanWrote(s, ops, d)
    ensures HasBase(Run(s, ops), agent, d) ==> BaseOf(Run(s, ops), agent, d) == BaseOf(s, agent, d)
    decreases |ops|
  {
    if ops != [] {
      BaseStep(s, ops[0], agent, d);
      BaseOverRun(Step(s, ops[0]).0, ops[1..], agent, d);
    }
  }

  /**
   * After an accepted human edit, as long as the Agent is given no new base, no
   * stale write of its changes the text: not the first try, nor any retry after
   * a conflict, whatever the others do in between.
   */
  lemma HumanEditSurvives(s: Store, human: Op, between: seq<Op>, late: Op)
    requires human.WriteAsHuman? && Accepted(Step(s, human).1)
    requires late.Write? && late.doc == human.doc
    requires NeverGiven(Step(s, human).0, between, late.agent, late.doc)
    requires var now := Run(Step(s, human).0, between);
             DocAt(now, late.doc).content != "" && late.expected != DocAt(now, late.doc).version
    ensures var now := Run(Step(s, human).0, between);
            DocAt(Step(now, late).0, late.doc).content == DocAt(now, late.doc).content
  {
    HumanWriteClearsBases(s, human, late.agent);
    BaseOverRun(Step(s, human).0, between, late.agent, late.doc);
    var now := Run(Step(s, human).0, between);
    if Admitted(now, late) {
      StaleWriteWithoutBase(now, late);
    } else {
      RefusedIsQuiet(now, late);
    }
  }
}
