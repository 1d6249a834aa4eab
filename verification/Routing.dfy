/**
 * Who review comments go to, end to end: from the operations on a document over
 * its line provenance (apps/server/src/concord/provenance.ts,
 * `responsibleAgents`) to the comment (apps/server/src/review/service.ts,
 * `createComment`).
 */
module Routing {
  import opened Options
  import opened Text
  import opened Provenance
  import opened StoreState
  import opened Blame
  import Review

  /** The operation, if it commits on `d`. */
  function CommitOf(s: Store, op: Op, d: DocId): seq<Op> {
    if op.doc == d && Accepted(Step(s, op).1) then [op] else []
  }

  /** The operations that committed on `d`, in order: one for each version. */
  function Committed(s: Store, ops: seq<Op>, d: DocId): seq<Op>
    decreases |ops|
  {
    if ops == [] then []
    else CommitOf(s, ops[0], d) + Committed(Step(s, ops[0]).0, ops[1..], d)
  }

  /** Each line names what the operation that committed its version names. */
  ghost predicate NamesCommitters(doc: Doc, commits: seq<Op>) {
    |commits| == doc.version && |doc.provenance| == |SplitLines(doc.content)| &&
    forall j :: 0 <= j < |doc.provenance| ==> NamesCommitter(doc.provenance[j], commits)
  }

  predicate NamesCommitter(entry: LineProvenance, commits: seq<Op>) {
    1 <= entry.version <= |commits| && entry.agent == NamedAgent(commits[entry.version - 1])
  }

  lemma CommitNames(before: Doc, after: Doc, c: Commit, supply: nat, supply': nat, commits: seq<Op>, op: Op)
    requires NamesCommitters(before, commits) && Commits(before, after, c, supply, supply') && c.agent == NamedAgent(op)
    ensures NamesCommitters(after, commits + [op])
  {
    forall j | 0 <= j < |SplitLines(c.next)|
      ensures |after.provenance| == |SplitLines(c.next)| && NamesCommitter(after.provenance[j], commits + [op])
    {
      var origin := CommittedLine(before, c, supply, j);
      if origin.Some? {
        assert NamesCommitter(before.provenance[origin.value], commits);
      }
    }
    PreviousAreOwn(before, c.now, supply + 1);
    EntriesMatchLines(before.provenance, before.content, c.next,
                      Writer(c.agent, c.human, supply, before.version + 1, c.now), supply + 1);
  }

  lemma StepNames(s: Store, op: Op, d: DocId, commits: seq<Op>)
    requires NamesCommitters(DocAt(s, d), commits)
    ensures NamesCommitters(DocAt(Step(s, op).0, d), commits + CommitOf(s, op, d))
  {
    assert commits + [] == commits;
    if op.doc != d {
      StepElsewhere(s, op, d);
    } else {
      var commit := StepOnDoc(s, op);
      if commit.Some? {
        CommitNames(DocAt(s, d), DocAt(Step(s, op).0, d), commit.value, s.supply, Step(s, op).0.supply, commits, op);
      }
    }
  }

  lemma {:induction false} RunNames(s: Store, ops: seq<Op>, d: DocId, commits: seq<Op>)
    requires NamesCommitters(DocAt(s, d), commits)
    ensures NamesCommitters(DocAt(Run(s, ops), d), commits + Committed(s, ops, d))
    decreases |ops|
  {
    if ops == [] {
      assert commits + [] == commits;
    } else {
      var here, s' := CommitOf(s, ops[0], d), Step(s, ops[0]).0;
      StepNames(s, ops[0], d, commits);
      RunNames(s', ops[1..], d, commits + here);
      Reassociate(commits, here, Committed(s', ops[1..], d));
    }
  }

  /** After any run from the empty store every line names its committer, and every version has one. */
  lemma LinesNameCommitters(ops: seq<Op>, d: DocId)
    ensures NamesCommitters(DocAt(Run(EMPTY, ops), d), Committed(EMPTY, ops, d))
  {
    RunNames(EMPTY, ops, d, []);
    assert [] + Committed(EMPTY, ops, d) == Committed(EMPTY, ops, d);
  }

  /** Agent `a` committed by a write. */
  predicate WroteAs(op: Op, a: string) {
    op.Write? && op.agent == a
  }

  /** Human `a` committed by a conflict decision. */
  predicate DecidedAs(op: Op, a: string) {
    op.Resolve? && op.humanId == a
  }

  /** One of the lines `start..end` was committed by a write of Agent `a`, or by a decision of human `a`. */
  ghost predicate CommittedIn(doc: Doc, commits: seq<Op>, start: int, end: int, a: string, decided: bool)
    requires NamesCommitters(doc, commits)
  {
    exists j :: 0 <= j < |doc.provenance| && start <= j + 1 <= end &&
                NamesCommitter(doc.provenance[j], commits) &&
                var op := commits[doc.provenance[j].version - 1];
                if decided then DecidedAs(op, a) else WroteAs(op, a)
  }

  /** Who a line names is who committed it. */
  lemma NamedIsCommitter(doc: Doc, commits: seq<Op>, start: int, end: int, a: string)
    requires NamesCommitters(doc, commits) && NamedIn(doc.provenance, start, end, a)
    ensures CommittedIn(doc, commits, start, end, a, false) || CommittedIn(doc, commits, start, end, a, true)
  {
    var j :| 0 <= j < |doc.provenance| && start <= j + 1 <= end && doc.provenance[j].agent == Some(a);
    assert NamesCommitter(doc.provenance[j], commits);
    var op := commits[doc.provenance[j].version - 1];
    assert WroteAs(op, a) || DecidedAs(op, a);
  }

  lemma CommitterIsNamed(doc: Doc, commits: seq<Op>, start: int, end: int, a: string, decided: bool)
    requires NamesCommitters(doc, commits) && a != "" && CommittedIn(doc, commits, start, end, a, decided)
    ensures NamedIn(doc.provenance, start, end, a)
  {
    var j :| 0 <= j < |doc.provenance| && start <= j + 1 <= end && NamesCommitter(doc.provenance[j], commits) &&
             var op := commits[doc.provenance[j].version - 1];
             if decided then DecidedAs(op, a) else WroteAs(op, a);
  }

  /**
   * A comment's candidates are exactly those who committed one of its lines: an
   * Agent by a write, or a human by a conflict decision. So a candidate is no
   * Agent that wrote there exactly if all its lines come from decisions.
   */
  lemma CandidatesAre(ops: seq<Op>, d: DocId, start: int, end: int, routing: ResponsibleAgents, a: string)
    requires Routes(DocAt(Run(EMPTY, ops), d).provenance, start, end, routing)
    ensures var doc, commits := DocAt(Run(EMPTY, ops), d), Committed(EMPTY, ops, d);
            NamesCommitters(doc, commits) &&
            (a in routing.candidates <==>
               a != "" && (CommittedIn(doc, commits, start, end, a, false) || CommittedIn(doc, commits, start, end, a, true)))
  {
    LinesNameCommitters(ops, d);
    CandidatesOf(DocAt(Run(EMPTY, ops), d), Committed(EMPTY, ops, d), start, end, routing, a);
  }

  lemma CandidatesOf(doc: Doc, commits: seq<Op>, start: int, end: int, routing: ResponsibleAgents, a: string)
    requires NamesCommitters(doc, commits) && Routes(doc.provenance, start, end, routing)
    ensures a in routing.candidates <==>
              a != "" && (CommittedIn(doc, commits, start, end, a, false) || CommittedIn(doc, commits, start, end, a, true))
  {
    if a in routing.candidates {
      NamedIsCommitter(doc, commits, start, end, a);
    } else if a != "" && CommittedIn(doc, commits, start, end, a, false) {
      CommitterIsNamed(doc, commits, start, end, a, false);
    } else if a != "" && CommittedIn(doc, commits, start, end, a, true) {
      CommitterIsNamed(doc, commits, start, end, a, true);
    }
  }

  /**
   * A comment on a document goes to one who committed one of the selected lines,
   * if any line names anyone: an Agent that wrote it, or the human who decided
   * it. Where not exactly one is named it goes only to one named explicitly, and
   * never to the Agent that raised it.
   */
  lemma CommentGoesToItsLines(ops: seq<Op>, b: Review.Board, draft: Review.Draft, routing: ResponsibleAgents)
    requires var doc := DocAt(Run(EMPTY, ops), draft.doc);
             Routes(doc.provenance, draft.startLine, draft.endLine, routing) &&
             Review.MayCreate(draft, Some(doc.content), routing)
    ensures var doc, commits := DocAt(Run(EMPTY, ops), draft.doc), Committed(EMPTY, ops, draft.doc);
            var b' := Review.CreateComment(b, draft, Some(doc.content), routing);
            b.supply in b'.comments && NamesCommitters(doc, commits) &&
            var c := b'.comments[b.supply];
            var from, to := draft.startLine, draft.endLine;
            ((exists a :: NamedIn(doc.provenance, from, to, a)) ==>
               CommittedIn(doc, commits, from, to, c.responsible, false) || CommittedIn(doc, commits, from, to, c.responsible, true)) &&
            (|routing.candidates| != 1 ==> draft.target == Some(c.responsible)) &&
            (Review.ByAgent(c) ==> c.author != Some(c.responsible))
  {
    var doc := DocAt(Run(EMPTY, ops), draft.doc);
    Review.CreatedComment(b, draft, Some(doc.content), routing);
    var c := Review.CreateComment(b, draft, Some(doc.content), routing).comments[b.supply];
    CandidatesAre(ops, draft.doc, draft.startLine, draft.endLine, routing, c.responsible);
    if a :| NamedIn(doc.provenance, draft.startLine, draft.endLine, a) {
      assert a in routing.candidates;
    }
  }
}
