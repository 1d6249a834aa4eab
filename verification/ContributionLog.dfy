/**
 * The contribution log of a document against its history
 * (apps/server/src/concord/store.ts): writes log a contribution, conflict
 * decisions do not.
 */
module ContributionLog {
  import opened Options
  import opened StoreState
  import opened Blame

  /** Each contribution is one step of the history, under the same id, and later ones are later steps. */
  ghost predicate Matches(contributions: seq<Contribution>, history: seq<HistoryEntry>) {
    (forall k :: 0 <= k < |contributions| ==>
       1 <= contributions[k].resultingVersion <= |history| &&
       contributions[k].baseVersion == contributions[k].resultingVersion - 1 &&
       contributions[k].id == history[contributions[k].resultingVersion - 1].contribution) &&
    (forall j, k :: 0 <= j < k < |contributions| ==> contributions[j].resultingVersion < contributions[k].resultingVersion)
  }

  ghost predicate LogMatches(doc: Doc) {
    |doc.history| == doc.version && Matches(doc.contributions, doc.history)
  }

  /** The step wrote: it is neither refused nor a conflict decision. */
  predicate Logs(outcome: Outcome) {
    outcome.Written? || outcome.MergedInto?
  }

  /** What a step adds to the log and to the history. */
  ghost predicate Added(before: Doc, after: Doc, outcome: Outcome) {
    if !Accepted(outcome) then Quiet(before, after)
    else
      after.version == before.version + 1 && |after.history| == |before.history| + 1 && before.history <= after.history &&
      if !Logs(outcome) then after.contributions == before.contributions
      else
        |after.contributions| == |before.contributions| + 1 && before.contributions <= after.contributions &&
        var c := after.contributions[|before.contributions|];
        c.id == after.history[|before.history|].contribution && c.baseVersion == before.version &&
        c.resultingVersion == before.version + 1
  }

  lemma CommitAdds(s: Store, d: DocId, agent: AgentId, human: Option<HumanId>, next: string, merged: bool, now: int, outcome: Outcome)
    requires Logs(outcome)
    ensures Added(DocAt(s, d), DocAt(CommitWrite(s, d, Entered(s, d, now), agent, human, next, merged, now), d), outcome)
  {
    EnteredIsQuiet(s, d, now);
  }

  lemma HumanWriteAdds(s: Store, d: DocId, humanId: HumanId, expected: int, content: string, now: int)
    ensures var (s', outcome) := HumanWriteStep(s, d, humanId, expected, content, now);
            Added(DocAt(s, d), DocAt(s', d), outcome)
  {
    EnteredIsQuiet(s, d, now);
  }

  lemma ResolveAdds(s: Store, d: DocId, conflict: nat, humanId: HumanId, orchestrator: bool, chosen: string, now: int)
    ensures var (s', outcome) := ResolveStep(s, d, conflict, humanId, orchestrator, chosen, now);
            Added(DocAt(s, d), DocAt(s', d), outcome)
  {
  }

  lemma StepAdds(s: Store, op: Op)
    ensures Added(DocAt(s, op.doc), DocAt(Step(s, op).0, op.doc), Step(s, op).1)
  {
    if op.WriteAsHuman? {
      HumanWriteAdds(s, op.doc, op.humanId, op.expected, op.content, op.now);
    } else if op.Resolve? {
      ResolveAdds(s, op.doc, op.conflict, op.humanId, op.orchestrator, op.chosen, op.now);
    } else if op.Write? && Accepted(Step(s, op).1) {
      WriteCommits(s, op);
      CommitAdds(s, op.doc, op.agent, op.verdict.human, Step(s, op).1.content, Step(s, op).1.MergedInto?, op.now, Step(s, op).1);
    } else {
      var _ := StepOnDoc(s, op);
    }
  }

  lemma AddedMatches(before: Doc, after: Doc, outcome: Outcome)
    requires LogMatches(before) && Added(before, after, outcome)
    ensures LogMatches(after)
  {
    if Accepted(outcome) {
      forall k | 0 <= k < |after.contributions|
        ensures 1 <= after.contributions[k].resultingVersion <= |after.history| &&
                after.contributions[k].baseVersion == after.contributions[k].resultingVersion - 1 &&
                after.contributions[k].id == after.history[after.contributions[k].resultingVersion - 1].contribution
      {
        if k < |before.contributions| {
          assert after.contributions[k] == before.contributions[k];
        }
      }
      forall j, k | 0 <= j < k < |after.contributions|
        ensures after.contributions[j].resultingVersion < after.contributions[k].resultingVersion
      {
        assert after.contributions[j] == before.contributions[j];
      }
    }
  }

  /** How many steps of the run on `d` wrote, and how many settled a conflict. */
  function Count(s: Store, ops: seq<Op>, d: DocId, decisions: bool): nat
    decreases |ops|
  {
    if ops == [] then 0
    else
      var (s', outcome) := Step(s, ops[0]);
      (if ops[0].doc == d && (if decisions then outcome.Resolved? else Logs(outcome)) then 1 else 0) + Count(s', ops[1..], d, decisions)
  }

  /**
   * Over any run the log follows the history: one contribution for every write,
   * under the id of its version, and none for a conflict decision.
   */
  lemma {:induction false} LogFollowsHistory(s: Store, ops: seq<Op>, d: DocId)
    requires LogMatches(DocAt(s, d))
    ensures LogMatches(DocAt(Run(s, ops), d))
    ensures |DocAt(Run(s, ops), d).contributions| == |DocAt(s, d).contributions| + Count(s, ops, d, false)
    ensures DocAt(Run(s, ops), d).version == DocAt(s, d).version + Count(s, ops, d, false) + Count(s, ops, d, true)
    decreases |ops|
  {
    if ops != [] {
      var s' := Step(s, ops[0]).0;
      if d == ops[0].doc {
        StepAdds(s, ops[0]);
        AddedMatches(DocAt(s, d), DocAt(s', d), Step(s, ops[0]).1);
      } else {
        StepElsewhere(s, ops[0], d);
      }
      LogFollowsHistory(s', ops[1..], d);
    }
  }

  /** It holds of a document not yet created. */
  lemma LogFollowsFromEmpty(ops: seq<Op>, d: DocId)
    ensures LogMatches(DocAt(Run(EMPTY, ops), d))
    ensures |DocAt(Run(EMPTY, ops), d).contributions| == Count(EMPTY, ops, d, false)
  {
    LogFollowsHistory(EMPTY, ops, d);
  }
}
