/**
 * Open conflicts: one record per Agent and document, the losing text on record
 * until a decision is committed or tried with another text or its Agent
 * conflicts again, and decisions that keep everybody else's work.
 */
module OpenConflicts {
  import opened Options
  import opened Text
  import opened Merge
  import opened MergeLaws
  import KeepBoth
  import opened StoreState
  import opened Blame
  import opened NoLostUpdate

  // ---------------------------------------------------------- the record lists

  lemma {:induction false} WithoutAgentIs(conflicts: seq<PendingConflict>, agent: AgentId, c: PendingConflict)
    ensures c in WithoutAgent(conflicts, agent) <==> c in conflicts && c.agent != agent
  {
    if conflicts != [] {
      WithoutAgentIs(conflicts[1..], agent, c);
    }
  }

  lemma {:induction false} WithoutIdIs(conflicts: seq<PendingConflict>, id: nat, c: PendingConflict)
    ensures c in WithoutId(conflicts, id) <==> c in conflicts && c.id != id
  {
    if conflicts != [] {
      WithoutIdIs(conflicts[1..], id, c);
    }
  }

  lemma {:induction false} FindConflictIs(conflicts: seq<PendingConflict>, id: nat)
    ensures match FindConflict(conflicts, id)
            case Some(c) => c in conflicts && c.id == id
            case None => forall c :: c in conflicts ==> c.id != id
  {
    if conflicts != [] {
      FindConflictIs(conflicts[1..], id);
    }
  }

  lemma {:induction false} ReplaceAt(conflicts: seq<PendingConflict>, id: nat, again: PendingConflict, k: nat)
    requires k < |conflicts|
    ensures |Replace(conflicts, id, again)| == |conflicts|
    ensures Replace(conflicts, id, again)[k] == if conflicts[k].id == id then again else conflicts[k]
  {
    if k > 0 {
      ReplaceAt(conflicts[1..], id, again, k - 1);
    } else if |conflicts| > 1 {
      ReplaceAt(conflicts[1..], id, again, 0);
    }
  }

  lemma {:induction false} ReplaceLength(conflicts: seq<PendingConflict>, id: nat, again: PendingConflict)
    ensures |Replace(conflicts, id, again)| == |conflicts|
  {
    if conflicts != [] {
      ReplaceLength(conflicts[1..], id, again);
    }
  }

  /** At most one record per Agent, under distinct ids already handed out. */
  ghost predicate OnePerAgent(conflicts: seq<PendingConflict>, issued: nat) {
    (forall i, j :: 0 <= i < j < |conflicts| ==>
       conflicts[i].agent != conflicts[j].agent && conflicts[i].id != conflicts[j].id) &&
    (forall i :: 0 <= i < |conflicts| ==> 1 <= conflicts[i].id <= issued)
  }

  lemma OnePerAgentRest(conflicts: seq<PendingConflict>, c: PendingConflict, issued: nat)
    requires conflicts != [] && OnePerAgent(conflicts, issued) && c in conflicts[1..]
    ensures c.agent != conflicts[0].agent && c.id != conflicts[0].id
  {
    var m :| 0 <= m < |conflicts[1..]| && conflicts[1..][m] == c;
    assert conflicts[m + 1] == c;
  }

  /** Putting the old first record back in front keeps the property. */
  lemma OnePerAgentCons(c: PendingConflict, rest: seq<PendingConflict>, issued: nat)
    requires OnePerAgent(rest, issued) && 1 <= c.id <= issued
    requires forall r :: r in rest ==> r.agent != c.agent && r.id != c.id
    ensures OnePerAgent([c] + rest, issued)
  {
    assert forall j :: 0 <= j < |rest| ==> rest[j] in rest;
  }

  lemma {:induction false} WithoutAgentKeeps(conflicts: seq<PendingConflict>, agent: AgentId, issued: nat)
    requires OnePerAgent(conflicts, issued)
    ensures OnePerAgent(WithoutAgent(conflicts, agent), issued)
  {
    if conflicts != [] {
      WithoutAgentKeeps(conflicts[1..], agent, issued);
      var rest := WithoutAgent(conflicts[1..], agent);
      forall r | r in rest ensures r.agent != conflicts[0].agent && r.id != conflicts[0].id {
        WithoutAgentIs(conflicts[1..], agent, r);
        OnePerAgentRest(conflicts, r, issued);
      }
      OnePerAgentCons(conflicts[0], rest, issued);
      assert [] + rest == rest;
    }
  }

  lemma {:induction false} WithoutIdKeeps(conflicts: seq<PendingConflict>, id: nat, issued: nat)
    requires OnePerAgent(conflicts, issued)
    ensures OnePerAgent(WithoutId(conflicts, id), issued)
  {
    if conflicts != [] {
      WithoutIdKeeps(conflicts[1..], id, issued);
      var rest := WithoutId(conflicts[1..], id);
      forall r | r in rest ensures r.agent != conflicts[0].agent && r.id != conflicts[0].id {
        WithoutIdIs(conflicts[1..], id, r);
        OnePerAgentRest(conflicts, r, issued);
      }
      OnePerAgentCons(conflicts[0], rest, issued);
      assert [] + rest == rest;
    }
  }

  lemma WithoutAgentThenNew(conflicts: seq<PendingConflict>, c: PendingConflict, issued: nat)
    requires OnePerAgent(conflicts, issued) && c.id == issued + 1
    ensures OnePerAgent(WithoutAgent(conflicts, c.agent) + [c], issued + 1)
  {
    WithoutAgentKeeps(conflicts, c.agent, issued);
    var rest := WithoutAgent(conflicts, c.agent);
    forall i | 0 <= i < |rest| ensures rest[i].agent != c.agent {
      WithoutAgentIs(conflicts, c.agent, rest[i]);
      assert rest[i] in rest;
    }
  }

  lemma ReplaceKeeps(conflicts: seq<PendingConflict>, id: nat, again: PendingConflict, issued: nat)
    requires OnePerAgent(conflicts, issued) && FindConflict(conflicts, id).Some?
    requires again.id == id && again.agent == FindConflict(conflicts, id).value.agent
    ensures OnePerAgent(Replace(conflicts, id, again), issued)
  {
    FindConflictIs(conflicts, id);
    ReplaceLength(conflicts, id, again);
    var m :| 0 <= m < |conflicts| && conflicts[m] == FindConflict(conflicts, id).value;
    var after := Replace(conflicts, id, again);
    forall i | 0 <= i < |after| ensures after[i].id == conflicts[i].id && after[i].agent == conflicts[i].agent {
      ReplaceAt(conflicts, id, again, i);
      if conflicts[i].id == id && i != m {
        assert false;
      }
    }
  }

  // ------------------------------------------------------------- every step keeps

  ghost predicate AllOnePerAgent(s: Store) {
    forall d: DocId :: OnePerAgent(DocAt(s, d).conflicts, s.conflictSeq)
  }

  /** The record of a contested write: whose it was, both sides, the version it met, and the contested ranges. */
  ghost predicate Records(c: PendingConflict, s: Store, op: Op, outcome: Outcome)
    requires op.Write? && outcome.ConflictAt?
  {
    var doc := DocAt(s, op.doc);
    c.id == outcome.conflict && c.agent == op.agent && c.human == op.verdict.human && c.at == op.now &&
    c.base == BaseOf(s, op.agent, op.doc) && c.ours == op.content && c.theirs == doc.content &&
    c.atVersion == doc.version && c.conflicts == outcome.conflicts
  }

  /** The record after a decision that conflicts again: the same owner, the chosen text against the current one. */
  ghost predicate Retries(c: PendingConflict, before: PendingConflict, s: Store, op: Op, outcome: Outcome)
    requires op.Resolve? && outcome.ConflictAt?
  {
    var doc := DocAt(s, op.doc);
    c.id == before.id == op.conflict && c.agent == before.agent && c.human == before.human && c.base == before.base &&
    c.at == op.now && c.ours == op.chosen && c.theirs == doc.content && c.atVersion == doc.version && c.conflicts == outcome.conflicts
  }

  /** What a step does to the records of its document. */
  lemma ConflictsAfter(s: Store, op: Op)
    ensures var (s', outcome) := Step(s, op);
            var before, after := DocAt(s, op.doc).conflicts, DocAt(s', op.doc).conflicts;
            if op.Write? && outcome.ConflictAt? then
              s'.conflictSeq == s.conflictSeq + 1 && outcome.conflict == s'.conflictSeq &&
              exists c :: after == WithoutAgent(before, op.agent) + [c] && Records(c, s, op, outcome)
            else if op.Resolve? && outcome.ConflictAt? then
              s'.conflictSeq == s.conflictSeq && FindConflict(before, op.conflict).Some? &&
              exists c :: after == Replace(before, op.conflict, c) && Retries(c, FindConflict(before, op.conflict).value, s, op, outcome)
            else if outcome.Resolved? then
              op.Resolve? && s'.conflictSeq == s.conflictSeq && after == WithoutId(before, op.conflict)
            else s'.conflictSeq == s.conflictSeq && after == before
  {
    match op
    case Write(d, agent, expected, content, verdict, now) => WriteConflicts(s, op);
    case Resolve(d, conflict, humanId, orchestrator, chosen, now) => ResolveConflicts(s, op);
    case WriteAsHuman(d, humanId, expected, content, now) =>
    case _ =>
  }

  lemma SubmitConflicts(s: Store, d: DocId, doc: Doc, agent: AgentId, expected: int, content: string, human: Option<HumanId>, now: int)
    ensures var (s', outcome) := Submit(s, d, doc, agent, expected, content, human, now);
            !outcome.Resolved? && d in s'.docs &&
            if outcome.ConflictAt? then
              s'.conflictSeq == s.conflictSeq + 1 && outcome.conflict == s'.conflictSeq &&
              s'.docs[d].conflicts == WithoutAgent(doc.conflicts, agent) +
                [PendingConflict(s.conflictSeq + 1, agent, human, now, BaseOf(s, agent, d), content, doc.content, doc.version, outcome.conflicts)]
            else s'.conflictSeq == s.conflictSeq && s'.docs[d].conflicts == doc.conflicts
  {
    var s', outcome := Submit(s, d, doc, agent, expected, content, human, now).0, Submit(s, d, doc, agent, expected, content, human, now).1;
    SubmitCommits(s, d, doc, agent, expected, content, human, now);
    SubmitRefuses(s, d, doc, agent, expected, content, human, now);
  }

  lemma WriteConflicts(s: Store, op: Op)
    requires op.Write?
    ensures var (s', outcome) := Step(s, op);
            var before, after := DocAt(s, op.doc).conflicts, DocAt(s', op.doc).conflicts;
            !outcome.Resolved? &&
            if outcome.ConflictAt? then
              s'.conflictSeq == s.conflictSeq + 1 && outcome.conflict == s'.conflictSeq &&
              exists c :: after == WithoutAgent(before, op.agent) + [c] && Records(c, s, op, outcome)
            else s'.conflictSeq == s.conflictSeq && after == before
  {
    var doc := Entered(s, op.doc, op.now);
    EnteredIsQuiet(s, op.doc, op.now);
    assert doc.conflicts == DocAt(s, op.doc).conflicts;
    if op.verdict.allowed && !LeasedToAnother(doc, op.agent) {
      SubmitConflicts(s, op.doc, doc, op.agent, op.expected, op.content, op.verdict.human, op.now);
      var outcome := Step(s, op).1;
      if outcome.ConflictAt? {
        var c := PendingConflict(s.conflictSeq + 1, op.agent, op.verdict.human, op.now, BaseOf(s, op.agent, op.doc), op.content,
                                 doc.content, doc.version, outcome.conflicts);
        assert Records(c, s, op, outcome);
      }
    }
  }

  lemma ResolveConflicts(s: Store, op: Op)
    requires op.Resolve?
    ensures var (s', outcome) := Step(s, op);
            var before, after := DocAt(s, op.doc).conflicts, DocAt(s', op.doc).conflicts;
            s'.conflictSeq == s.conflictSeq &&
            if outcome.ConflictAt? then
              FindConflict(before, op.conflict).Some? &&
              exists c :: after == Replace(before, op.conflict, c) && Retries(c, FindConflict(before, op.conflict).value, s, op, outcome)
            else if outcome.Resolved? then after == WithoutId(before, op.conflict)
            else after == before
  {
    var s', outcome := Step(s, op).0, Step(s, op).1;
    FindConflictIs(DocAt(s, op.doc).conflicts, op.conflict);
    if outcome.ConflictAt? {
      var doc := s.docs[op.doc];
      var pending := FindConflict(doc.conflicts, op.conflict).value;
      var again := pending.(ours := op.chosen, theirs := doc.content, atVersion := doc.version, at := op.now,
                            conflicts := outcome.conflicts);
      assert s'.docs[op.doc].conflicts == Replace(doc.conflicts, op.conflict, again);
      assert Retries(again, pending, s, op, outcome);
    }
  }

  lemma StepKeepsOnePerAgent(s: Store, op: Op)
    requires AllOnePerAgent(s)
    ensures AllOnePerAgent(Step(s, op).0)
  {
    var s', outcome := Step(s, op).0, Step(s, op).1;
    var before, after := DocAt(s, op.doc).conflicts, DocAt(s', op.doc).conflicts;
    ConflictsAfter(s, op);
    assert OnePerAgent(before, s.conflictSeq);
    if op.Write? && outcome.ConflictAt? {
      var c :| after == WithoutAgent(before, op.agent) + [c] && Records(c, s, op, outcome);
      WithoutAgentThenNew(before, c, s.conflictSeq);
    } else if op.Resolve? && outcome.ConflictAt? {
      var c :| after == Replace(before, op.conflict, c) && Retries(c, FindConflict(before, op.conflict).value, s, op, outcome);
      ReplaceKeeps(before, op.conflict, c, s.conflictSeq);
    } else if outcome.Resolved? {
      WithoutIdKeeps(before, op.conflict, s.conflictSeq);
    }
    assert OnePerAgent(after, s'.conflictSeq);
    forall d: DocId ensures OnePerAgent(DocAt(s', d).conflicts, s'.conflictSeq) {
      assert OnePerAgent(DocAt(s, d).conflicts, s.conflictSeq);
      if d != op.doc {
        StepElsewhere(s, op, d);
      }
    }
  }

  /** Over every run, each document holds at most one open conflict per Agent. */
  lemma {:induction false} RunKeepsOnePerAgent(s: Store, ops: seq<Op>)
    requires AllOnePerAgent(s)
    ensures AllOnePerAgent(Run(s, ops))
    decreases |ops|
  {
    if ops != [] {
      StepKeepsOnePerAgent(s, ops[0]);
      RunKeepsOnePerAgent(Step(s, ops[0]).0, ops[1..]);
    }
  }

  /** In particular from the empty store. */
  lemma OnePerAgentAlways(ops: seq<Op>)
    ensures AllOnePerAgent(Run(EMPTY, ops))
  {
    RunKeepsOnePerAgent(EMPTY, ops);
  }

  // ------------------------------------------------------ the losing side stays

  /** The step settles record `c`, tries to and conflicts again, or its Agent conflicts anew. */
  predicate Touches(s: Store, op: Op, d: DocId, c: PendingConflict) {
    op.doc == d &&
    ((op.Write? && op.agent == c.agent && Step(s, op).1.ConflictAt?) ||
     (op.Resolve? && op.conflict == c.id && (Step(s, op).1.Resolved? || Step(s, op).1.ConflictAt?)))
  }

  /** A record is rewritten or removed only by such a step. */
  lemma RecordLeavesOnly(s: Store, op: Op, d: DocId, c: PendingConflict)
    requires c in DocAt(s, d).conflicts
    ensures c in DocAt(Step(s, op).0, d).conflicts || Touches(s, op, d, c)
  {
    var s', outcome := Step(s, op).0, Step(s, op).1;
    if d != op.doc {
      StepElsewhere(s, op, d);
    } else {
      var before, after := DocAt(s, d).conflicts, DocAt(s', d).conflicts;
      ConflictsAfter(s, op);
      if op.Write? && outcome.ConflictAt? {
        WithoutAgentIs(before, op.agent, c);
      } else if op.Resolve? && outcome.ConflictAt? {
        var again :| after == Replace(before, op.conflict, again) && Retries(again, FindConflict(before, op.conflict).value, s, op, outcome);
        var k :| 0 <= k < |before| && before[k] == c;
        ReplaceAt(before, op.conflict, again, k);
      } else if outcome.Resolved? {
        WithoutIdIs(before, op.conflict, c);
      }
    }
  }

  ghost predicate NeverTouched(s: Store, ops: seq<Op>, d: DocId, c: PendingConflict)
    decreases |ops|
  {
    ops == [] || (!Touches(s, ops[0], d, c) && NeverTouched(Step(s, ops[0]).0, ops[1..], d, c))
  }

  /** Until then a record stays word for word, whatever else its Agent or a decider tries. */
  lemma {:induction false} RecordStays(s: Store, ops: seq<Op>, d: DocId, c: PendingConflict)
    requires c in DocAt(s, d).conflicts && NeverTouched(s, ops, d, c)
    ensures c in DocAt(Run(s, ops), d).conflicts
    decreases |ops|
  {
    if ops != [] {
      RecordLeavesOnly(s, ops[0], d, c);
      RecordStays(Step(s, ops[0]).0, ops[1..], d, c);
    }
  }

  /** The losing text of record `c` is on record, under its id and for its Agent. */
  ghost predicate HoldsText(conflicts: seq<PendingConflict>, c: PendingConflict) {
    exists k :: 0 <= k < |conflicts| && SameText(conflicts[k], c)
  }

  predicate SameText(r: PendingConflict, c: PendingConflict) {
    r.id == c.id && r.agent == c.agent && r.ours == c.ours
  }

  /** The step takes the losing text off the record: a decision commits, or conflicts with another text, or its Agent conflicts anew. */
  predicate Drops(s: Store, op: Op, d: DocId, c: PendingConflict) {
    op.doc == d &&
    ((op.Write? && op.agent == c.agent && Step(s, op).1.ConflictAt?) ||
     (op.Resolve? && op.conflict == c.id &&
      (Step(s, op).1.Resolved? || (Step(s, op).1.ConflictAt? && op.chosen != c.ours))))
  }

  lemma TextAfterConflict(before: seq<PendingConflict>, again: PendingConflict, c: PendingConflict, issued: nat)
    requires OnePerAgent(before, issued) && c in before && again.id == issued + 1
    ensures HoldsText(WithoutAgent(before, again.agent) + [again], c) <==> c.agent != again.agent
  {
    var rest := WithoutAgent(before, again.agent);
    WithoutAgentIs(before, again.agent, c);
    if c in rest {
      var k :| 0 <= k < |rest| && rest[k] == c;
      assert (rest + [again])[k] == c;
    }
    if HoldsText(rest + [again], c) {
      var k :| 0 <= k < |rest + [again]| && SameText((rest + [again])[k], c);
      if k < |rest| {
        WithoutAgentIs(before, again.agent, rest[k]);
        assert rest[k] in rest;
      }
    }
  }

  lemma TextAfterRetry(before: seq<PendingConflict>, id: nat, again: PendingConflict, c: PendingConflict, issued: nat)
    requires OnePerAgent(before, issued) && c in before && FindConflict(before, id).Some?
    requires again.id == id && again.agent == FindConflict(before, id).value.agent
    ensures HoldsText(Replace(before, id, again), c) <==> c.id != id || again.ours == c.ours
  {
    var after := Replace(before, id, again);
    FindConflictIs(before, id);
    ReplaceLength(before, id, again);
    var k :| 0 <= k < |before| && before[k] == c;
    var m :| 0 <= m < |before| && before[m] == FindConflict(before, id).value;
    ReplaceAt(before, id, again, k);
    if c.id == id {
      assert k == m;
      forall i | 0 <= i < |after| && SameText(after[i], c) ensures again.ours == c.ours {
        ReplaceAt(before, id, again, i);
      }
    }
    assert c.id != id || again.ours == c.ours ==> SameText(after[k], c);
  }

  lemma TextAfterDecision(before: seq<PendingConflict>, id: nat, c: PendingConflict)
    requires c in before
    ensures HoldsText(WithoutId(before, id), c) <==> c.id != id
  {
    var after := WithoutId(before, id);
    WithoutIdIs(before, id, c);
    if c in after {
      var k :| 0 <= k < |after| && after[k] == c;
      assert SameText(after[k], c);
    }
    if HoldsText(after, c) {
      var k :| 0 <= k < |after| && SameText(after[k], c);
      WithoutIdIs(before, id, after[k]);
      assert after[k] in after;
    }
  }

  /** In any reachable state a step keeps the losing text on record exactly if it is none of those that drop it. */
  lemma LosingTextStaysIff(s: Store, op: Op, d: DocId, c: PendingConflict)
    requires AllOnePerAgent(s) && c in DocAt(s, d).conflicts
    ensures HoldsText(DocAt(Step(s, op).0, d).conflicts, c) <==> !Drops(s, op, d, c)
  {
    var s', outcome := Step(s, op).0, Step(s, op).1;
    var before, after := DocAt(s, d).conflicts, DocAt(s', d).conflicts;
    assert OnePerAgent(before, s.conflictSeq);
    var k :| 0 <= k < |before| && before[k] == c;
    assert SameText(before[k], c);
    if d != op.doc {
      StepElsewhere(s, op, d);
    } else {
      ConflictsAfter(s, op);
      if op.Write? && outcome.ConflictAt? {
        var again :| after == WithoutAgent(before, op.agent) + [again] && Records(again, s, op, outcome);
        TextAfterConflict(before, again, c, s.conflictSeq);
      } else if op.Resolve? && outcome.ConflictAt? {
        var again :| after == Replace(before, op.conflict, again) && Retries(again, FindConflict(before, op.conflict).value, s, op, outcome);
        TextAfterRetry(before, op.conflict, again, c, s.conflictSeq);
      } else if outcome.Resolved? {
        TextAfterDecision(before, op.conflict, c);
      }
    }
  }

  ghost predicate NeverDropped(s: Store, ops: seq<Op>, d: DocId, c: PendingConflict)
    decreases |ops|
  {
    ops == [] || (!Drops(s, ops[0], d, c) && NeverDropped(Step(s, ops[0]).0, ops[1..], d, c))
  }

  /** Over any run without such a step the losing text stays on record. */
  lemma {:induction false} LosingTextStays(s: Store, ops: seq<Op>, d: DocId, c: PendingConflict)
    requires AllOnePerAgent(s) && HoldsText(DocAt(s, d).conflicts, c) && NeverDropped(s, ops, d, c)
    ensures HoldsText(DocAt(Run(s, ops), d).conflicts, c)
    decreases |ops|
  {
    if ops != [] {
      var now := DocAt(s, d).conflicts;
      var k :| 0 <= k < |now| && SameText(now[k], c);
      LosingTextStaysIff(s, ops[0], d, now[k]);
      var next := DocAt(Step(s, ops[0]).0, d).conflicts;
      var m :| 0 <= m < |next| && SameText(next[m], now[k]);
      assert SameText(next[m], c);
      StepKeepsOnePerAgent(s, ops[0]);
      LosingTextStays(Step(s, ops[0]).0, ops[1..], d, c);
    }
  }

  /** A conflict answer leaves text and version alone and keeps the losing text on record. */
  lemma ConflictKeepsBothSides(s: Store, op: Op)
    requires op.Write? && Step(s, op).1.ConflictAt?
    ensures var (s', outcome) := Step(s, op);
            Quiet(DocAt(s, op.doc), DocAt(s', op.doc)) &&
            exists c :: c in DocAt(s', op.doc).conflicts && Records(c, s, op, outcome)
  {
    RefusedIsQuiet(s, op);
    ConflictsAfter(s, op);
    var after := DocAt(Step(s, op).0, op.doc).conflicts;
    assert after[|after| - 1] in after;
  }

  // ------------------------------------------------------------------ settling

  /**
   * A resolve commits the chosen text with every hunk that others landed since
   * the conflict moved over it: verbatim if the document has not moved.
   */
  lemma ResolveKeepsOthers(s: Store, op: Op)
    requires op.Resolve? && Step(s, op).1.Resolved?
    ensures var doc, doc' := DocAt(s, op.doc), DocAt(Step(s, op).0, op.doc);
            var pending := FindConflict(doc.conflicts, op.conflict);
            pending.Some? && pending.value.id == op.conflict &&
            (op.orchestrator || pending.value.human == Some(op.humanId)) &&
            doc'.version == doc.version + 1 &&
            CarriesEdit(pending.value.theirs, doc.content, op.chosen, doc'.content) &&
            CarriesEdit(pending.value.theirs, op.chosen, doc.content, doc'.content) &&
            (doc.content == pending.value.theirs ==> doc'.content == op.chosen) &&
            (forall c :: c in doc'.conflicts ==> c.id != op.conflict) &&
            BaseOf(Step(s, op).0, pending.value.agent, op.doc) == doc'.content
  {
    var doc := s.docs[op.doc];
    FindConflictIs(doc.conflicts, op.conflict);
    var pending := FindConflict(doc.conflicts, op.conflict).value;
    MergeIsSymmetric(pending.theirs, op.chosen, doc.content);
    MergeCarriesEdit(pending.theirs, op.chosen, doc.content);
    MergeCarriesEdit(pending.theirs, doc.content, op.chosen);
    forall c | c in WithoutId(doc.conflicts, op.conflict) ensures c.id != op.conflict {
      WithoutIdIs(doc.conflicts, op.conflict, c);
    }
  }

  lemma FoundByItsId(conflicts: seq<PendingConflict>, c: PendingConflict, issued: nat)
    requires OnePerAgent(conflicts, issued) && c in conflicts
    ensures FindConflict(conflicts, c.id) == Some(c)
  {
    FindConflictIs(conflicts, c.id);
    var k :| 0 <= k < |conflicts| && conflicts[k] == c;
    if FindConflict(conflicts, c.id).Some? {
      var m :| 0 <= m < |conflicts| && conflicts[m] == FindConflict(conflicts, c.id).value;
      assert m == k;
    }
  }

  /** What a decision is answered: no record, not the owner's to decide, contested again, or committed. */
  lemma DecisionIs(s: Store, op: Op)
    requires op.Resolve?
    ensures var doc, outcome := DocAt(s, op.doc), Step(s, op).1;
            if forall c :: c in doc.conflicts ==> c.id != op.conflict then outcome.NotFound?
            else
              exists c :: c in doc.conflicts && c.id == op.conflict &&
                          if !op.orchestrator && c.human != Some(op.humanId) then outcome == Denied(CrossOwner)
                          else if Merge3(c.theirs, op.chosen, doc.content).Merged?
                          then outcome == Resolved(doc.version + 1, Merge3(c.theirs, op.chosen, doc.content).content)
                          else outcome.ConflictAt? && outcome.conflict == op.conflict
  {
    FindConflictIs(DocAt(s, op.doc).conflicts, op.conflict);
  }

  /**
   * A conflict and its decision, end to end. As long as the document has not
   * moved and the record is not touched, a decision on it by anyone but the
   * orchestrator is committed if it is made by the human the losing write was
   * authorised by, and otherwise denied.
   */
  lemma OnlyOwnerDecides(s: Store, write: Op, between: seq<Op>, humanId: HumanId, chosen: string, now: int)
    requires AllOnePerAgent(s) && write.Write? && Step(s, write).1.ConflictAt?
    requires var s' := Step(s, write).0;
             (forall c :: c in DocAt(s', write.doc).conflicts && c.id == Step(s, write).1.conflict ==> NeverTouched(s', between, write.doc, c)) &&
             DocAt(Run(s', between), write.doc).version == DocAt(s, write.doc).version
    ensures var end := Run(Step(s, write).0, between);
            var decision := Resolve(write.doc, Step(s, write).1.conflict, humanId, false, chosen, now);
            (Step(end, decision).1.Resolved? <==> write.verdict.human == Some(humanId)) &&
            (Step(end, decision).1 == Denied(CrossOwner) <==> write.verdict.human != Some(humanId)) &&
            (Step(end, decision).1.Resolved? ==> DocAt(Step(end, decision).0, write.doc).content == chosen)
  {
    var s', outcome := Step(s, write).0, Step(s, write).1;
    var d := write.doc;
    ConflictKeepsBothSides(s, write);
    var c :| c in DocAt(s', d).conflicts && Records(c, s, write, outcome);
    RecordStays(s', between, d, c);
    UnmovedKeepsText(s', between, d);
    StepKeepsOnePerAgent(s, write);
    RunKeepsOnePerAgent(s', between);
    var end := Run(s', between);
    assert OnePerAgent(DocAt(end, d).conflicts, end.conflictSeq);
    FoundByItsId(DocAt(end, d).conflicts, c, end.conflictSeq);
    var decision := Resolve(d, outcome.conflict, humanId, false, chosen, now);
    DecisionAt(end, decision, c);
  }

  lemma DecisionAt(s: Store, op: Op, c: PendingConflict)
    requires op.Resolve? && !op.orchestrator && FindConflict(DocAt(s, op.doc).conflicts, op.conflict) == Some(c)
    requires c.theirs == DocAt(s, op.doc).content
    ensures Step(s, op).1.Resolved? <==> c.human == Some(op.humanId)
    ensures Step(s, op).1 == Denied(CrossOwner) <==> c.human != Some(op.humanId)
    ensures Step(s, op).1.Resolved? ==> DocAt(Step(s, op).0, op.doc).content == op.chosen
  {
    if c.human == Some(op.humanId) {
      UnmovedResolveSucceeds(s, op);
    }
  }

  /** While its version stays, a document's text stays. */
  lemma {:induction false} UnmovedKeepsText(s: Store, ops: seq<Op>, d: DocId)
    requires DocAt(Run(s, ops), d).version == DocAt(s, d).version
    ensures DocAt(Run(s, ops), d).content == DocAt(s, d).content
    decreases |ops|
  {
    if ops != [] {
      var s' := Step(s, ops[0]).0;
      StepVersion(s, ops[0], d);
      RunVersion(s', ops[1..], d);
      if ops[0].doc == d {
        RefusedIsQuiet(s, ops[0]);
      } else {
        StepElsewhere(s, ops[0], d);
      }
      UnmovedKeepsText(s', ops[1..], d);
    }
  }

  /** The contested ranges on record stand in the two texts on record, so putting both in finds its place. */
  lemma RecordedRangesStand(s: Store, op: Op, range: MergeConflict)
    requires op.Write? && Step(s, op).1.ConflictAt? && range in Step(s, op).1.conflicts
    ensures exists p :: KeepBoth.RunAt(SplitLines(op.content), range.ours, p)
    ensures exists p :: KeepBoth.RunAt(SplitLines(DocAt(s, op.doc).content), range.theirs, p)
    ensures range.theirs != [] ==> KeepBoth.FirstRun(SplitLines(DocAt(s, op.doc).content), range.theirs, 0).Some?
  {
    EnteredIsQuiet(s, op.doc, op.now);
    SubmitContested(s, op.doc, Entered(s, op.doc, op.now), op.agent, op.expected, op.content, op.verdict.human, op.now);
    var _, _ := KeepBoth.RangesStand(BaseOf(s, op.agent, op.doc), op.content, DocAt(s, op.doc).content, range);
  }

  lemma SubmitContested(s: Store, d: DocId, doc: Doc, agent: AgentId, expected: int, content: string, human: Option<HumanId>, now: int)
    ensures var outcome := Submit(s, d, doc, agent, expected, content, human, now).1;
            outcome.ConflictAt? ==> Merge3(BaseOf(s, agent, d), content, doc.content) == Conflicted(outcome.conflicts)
  {
  }

  /** If the document has not moved since the conflict, its owner's choice always succeeds. */
  lemma UnmovedResolveSucceeds(s: Store, op: Op)
    requires op.Resolve? && op.doc in s.docs
    requires FindConflict(s.docs[op.doc].conflicts, op.conflict).Some?
    requires var pending := FindConflict(s.docs[op.doc].conflicts, op.conflict).value;
             (op.orchestrator || pending.human == Some(op.humanId)) && s.docs[op.doc].content == pending.theirs
    ensures Step(s, op).1.Resolved? && DocAt(Step(s, op).0, op.doc).content == op.chosen
  {
  }
}
