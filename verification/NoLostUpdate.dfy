/**
 * No lost update: what an accepted write does to the text it lands on, what a
 * refused one leaves alone, and why one version is overwritten at most once.
 */
module NoLostUpdate {
  import opened Options
  import opened Text
  import opened Diff
  import opened Merge
  import opened MergeLaws
  import opened Provenance
  import opened Sections
  import opened SectionLaws
  import opened StoreState
  import opened Blame
  import Credit

  // ---------------------------------------------------------------- one step

  /** An operation that is not accepted leaves text, version, attribution and history alone. */
  lemma RefusedIsQuiet(s: Store, op: Op)
    requires !Accepted(Step(s, op).1)
    ensures Quiet(DocAt(s, op.doc), DocAt(Step(s, op).0, op.doc))
  {
    var _ := StepOnDoc(s, op);
  }

  /** `next` is `current` with the edit from `base` to `payload` moved over it, and nothing else. */
  ghost predicate CarriesEdit(base: string, payload: string, current: string, next: string) {
    (payload == current && next == current) ||
    (Independent(base, payload, current) &&
     Ordered(RebasedEdits(base, payload, current), 0, |SplitLines(current)|) &&
     next == JoinLines(Apply(SplitLines(current), RebasedEdits(base, payload, current))))
  }

  lemma MergeCarriesEdit(base: string, payload: string, current: string)
    requires Merge3(base, payload, current).Merged?
    ensures CarriesEdit(base, payload, current, Merge3(base, payload, current).content)
  {
    if payload != current {
      MergeMeaning(base, payload, current);
    }
  }

  /** An edit that carries the writer's hunks has as many lines as those hunks make of the current text. */
  lemma CarriedLines(base: string, payload: string, current: string, next: string)
    requires payload != current && CarriesEdit(base, payload, current, next)
    ensures SplitLines(next) == [] || |SplitLines(next)| + |SplitLines(base)| == |SplitLines(payload)| + |SplitLines(current)|
  {
    EditsAreCorrect(base, payload);
    EditsAreCorrect(base, current);
    MergedLinesSquare(base, payload, current);
    MergedTextHoldsLines(base, payload, current);
    MergeCountsLines(base, payload, current);
  }

  /** Dropping a deletion of everything does not carry it, nor does filling an emptied text with the whole payload. */
  lemma NotCarried(base: string, payload: string, current: string, next: string)
    requires base != "" && payload != current
    requires (payload == "" && next == current) || (current == "" && next == payload)
    ensures !CarriesEdit(base, payload, current, next)
  {
    JoinSplit(base);
    JoinSplit(next);
    if CarriesEdit(base, payload, current, next) {
      CarriedLines(base, payload, current, next);
    }
  }

  /** From an empty base only that is carried. */
  lemma CarriedFromNothing(payload: string, current: string)
    ensures payload == "" ==> CarriesEdit("", payload, current, current)
    ensures current == "" ==> CarriesEdit("", payload, current, payload)
  {
    if payload == "" && current != "" {
      ShortcutsAgree("", "", current);
      MergeCarriesEdit("", "", current);
    }
    if current == "" {
      SwapCarriesEdit("", payload);
    }
  }

  lemma SwapCarriesEdit(current: string, payload: string)
    ensures CarriesEdit(current, payload, current, payload)
  {
    if payload != current {
      ShortcutsAgree(current, payload, current);
      MergeCarriesEdit(current, payload, current);
    }
  }

  /** What an accepted write commits: the payload, or the writer's edit merged in. */
  lemma AcceptedWrite(s: Store, op: Op)
    requires op.Write? && Accepted(Step(s, op).1)
    ensures var doc, doc' := DocAt(s, op.doc), DocAt(Step(s, op).0, op.doc);
            doc'.version == doc.version + 1 && op.verdict.allowed &&
            (op.expected == doc.version ==> Step(s, op).1.Written? && doc'.content == op.content) &&
            (op.expected != doc.version ==>
               Step(s, op).1.MergedInto? && CarriesEdit(BaseOf(s, op.agent, op.doc), op.content, doc.content, doc'.content))
  {
    var doc := DocAt(s, op.doc);
    EnteredIsQuiet(s, op.doc, op.now);
    CommitWriteShape(s, op.doc, op.agent, op.verdict.human, Step(s, op).1.content, Step(s, op).1.MergedInto?, op.now);
    if op.expected != doc.version {
      MergeCarriesEdit(BaseOf(s, op.agent, op.doc), op.content, doc.content);
    }
  }

  /** The writer states the version whose text is its recorded base. */
  ghost predicate StatesItsBase(w: World, op: Op)
    requires op.Write?
  {
    0 <= op.expected < |Versions(w.archive, op.doc)| &&
    Versions(w.archive, op.doc)[op.expected].content == BaseOf(w.store, op.agent, op.doc)
  }

  lemma NoUpdateLost(w: World, op: Op)
    requires AllTruthful(w) && op.Write? && StatesItsBase(w, op)
    ensures var s' := Step(w.store, op).0;
            var current, base := DocAt(w.store, op.doc).content, Versions(w.archive, op.doc)[op.expected].content;
            if Accepted(Step(w.store, op).1) then CarriesEdit(base, op.content, current, DocAt(s', op.doc).content)
            else Quiet(DocAt(w.store, op.doc), DocAt(s', op.doc))
  {
    var doc := DocAt(w.store, op.doc);
    assert Truthful(doc, Versions(w.archive, op.doc), w.store.supply);
    if Accepted(Step(w.store, op).1) {
      AcceptedWrite(w.store, op);
      if op.expected == doc.version {
        SwapCarriesEdit(doc.content, op.content);
      }
    } else {
      RefusedIsQuiet(w.store, op);
    }
  }

  // ------------------------------------------------------------- over a run

  lemma {:induction false} WorldRunConcat(w: World, front: seq<Op>, back: seq<Op>)
    ensures WorldRun(w, front + back) == WorldRun(WorldRun(w, front), back)
    decreases |front|
  {
    if front == [] {
      assert front + back == back;
    } else {
      var all, w' := front + back, WorldStep(w, front[0]);
      assert all[0] == front[0] && all[1..] == front[1..] + back;
      WorldRunConcat(w', front[1..], back);
      assert WorldRun(w, all) == WorldRun(w', all[1..]);
    }
  }

  /**
   * Over any run from the empty store: a write that states the version of its
   * recorded base either moves exactly its own edit over the current text, or
   * changes nothing.
   */
  lemma NoUpdateLostInRun(ops: seq<Op>, k: nat)
    requires k < |ops| && ops[k].Write? && StatesItsBase(WorldRun(NEW_WORLD, ops[..k]), ops[k])
    ensures var w, op := WorldRun(NEW_WORLD, ops[..k]), ops[k];
            var w' := WorldRun(NEW_WORLD, ops[..k + 1]);
            var current, base := DocAt(w.store, op.doc).content, Versions(w.archive, op.doc)[op.expected].content;
            if Accepted(Step(w.store, op).1) then CarriesEdit(base, op.content, current, DocAt(w'.store, op.doc).content)
            else Quiet(DocAt(w.store, op.doc), DocAt(w'.store, op.doc))
  {
    var w := WorldRun(NEW_WORLD, ops[..k]);
    BlameIsTruthful(ops[..k]);
    NoUpdateLost(w, ops[k]);
    NextWorld(ops, k);
  }

  lemma NextWorld(ops: seq<Op>, k: nat)
    requires k < |ops|
    ensures WorldRun(NEW_WORLD, ops[..k + 1]) == WorldStep(WorldRun(NEW_WORLD, ops[..k]), ops[k])
  {
    assert ops[..k + 1] == ops[..k] + [ops[k]];
    WorldRunConcat(NEW_WORLD, ops[..k], [ops[k]]);
    assert [ops[k]][1..] == [];
  }

  /** A stale write whose recorded base has moved on to the current text replaces that text whole. */
  lemma MovedBaseOverwrites(s: Store, op: Op)
    requires op.Write? && Accepted(Step(s, op).1)
    requires op.expected != DocAt(s, op.doc).version
    requires BaseOf(s, op.agent, op.doc) == DocAt(s, op.doc).content
    ensures DocAt(Step(s, op).0, op.doc).content == op.content
  {
    EnteredIsQuiet(s, op.doc, op.now);
    CommitWriteShape(s, op.doc, op.agent, op.verdict.human, Step(s, op).1.content, Step(s, op).1.MergedInto?, op.now);
  }

  lemma StepVersion(s: Store, op: Op, d: DocId)
    ensures DocAt(Step(s, op).0, d).version ==
            DocAt(s, d).version + (if d == op.doc && Accepted(Step(s, op).1) then 1 else 0)
  {
    if d != op.doc {
      StepElsewhere(s, op, d);
    } else {
      var _ := StepOnDoc(s, op);
    }
  }

  lemma {:induction false} RunVersion(s: Store, ops: seq<Op>, d: DocId)
    ensures DocAt(s, d).version <= DocAt(Run(s, ops), d).version
    decreases |ops|
  {
    if ops != [] {
      StepVersion(s, ops[0], d);
      RunVersion(Step(s, ops[0]).0, ops[1..], d);
    }
  }

  lemma {:induction false} RunConcat(s: Store, front: seq<Op>, back: seq<Op>)
    ensures Run(s, front + back) == Run(Run(s, front), back)
    decreases |front|
  {
    if front == [] {
      assert front + back == back;
    } else {
      var all, s' := front + back, Step(s, front[0]).0;
      assert all[0] == front[0] && all[1..] == front[1..] + back;
      RunConcat(s', front[1..], back);
      assert Run(s, all) == Run(s', all[1..]);
    }
  }

  function OutcomeAt(s: Store, ops: seq<Op>, k: nat): Outcome
    requires k < |ops|
  {
    Step(Run(s, ops[..k]), ops[k]).1
  }

  lemma WrittenStatesCurrent(s: Store, op: Op)
    requires (op.Write? || op.WriteAsHuman?) && Step(s, op).1.Written?
    ensures op.expected == DocAt(s, op.doc).version
  {
  }

  /** Compare-and-swap: of two writes on one document answered "written", the later states a later version. */
  lemma WrittenOncePerVersion(s: Store, ops: seq<Op>, i: nat, j: nat)
    requires i < j < |ops| && ops[i].doc == ops[j].doc
    requires (ops[i].Write? || ops[i].WriteAsHuman?) && (ops[j].Write? || ops[j].WriteAsHuman?)
    requires OutcomeAt(s, ops, i).Written? && OutcomeAt(s, ops, j).Written?
    ensures ops[i].expected < ops[j].expected
  {
    var before := Run(s, ops[..i]);
    StepVersion(before, ops[i], ops[i].doc);
    WrittenStatesCurrent(before, ops[i]);
    WrittenStatesCurrent(Run(s, ops[..j]), ops[j]);
    VersionLater(s, ops, i, j, ops[i].doc);
  }

  lemma VersionLater(s: Store, ops: seq<Op>, i: nat, j: nat, d: DocId)
    requires i < j <= |ops|
    ensures DocAt(Step(Run(s, ops[..i]), ops[i]).0, d).version <= DocAt(Run(s, ops[..j]), d).version
  {
    var before, between := Run(s, ops[..i]), ops[i..j];
    assert ops[..j] == ops[..i] + between;
    RunConcat(s, ops[..i], between);
    assert between[0] == ops[i];
    RunVersion(Step(before, ops[i]).0, between[1..], d);
  }

  // ----------------------------------------------------------- sections, credit

  ghost predicate IsAllocated(s: Store, d: DocId) {
    d in s.sections && |s.sections[d]| > 0
  }

  /** In an allocated document an Agent's commit stays inside the section found in the text it replaces. */
  lemma CommitStaysInSection(s: Store, op: Op)
    requires op.Write? && Accepted(Step(s, op).1) && IsAllocated(s, op.doc)
    ensures op.agent in s.sections[op.doc]
    ensures var doc, doc' := DocAt(s, op.doc), DocAt(Step(s, op).0, op.doc);
            var range := LocateSection(doc.content, s.sections[op.doc][op.agent]);
            range.Some? && Framed(SplitLines(doc.content), SplitLines(doc'.content), range.value)
  {
    AcceptedPassesSection(s, op);
    var doc, next := DocAt(s, op.doc), Step(s, op).1.content;
    AcceptedIsFramed(doc.content, next, LocateSection(doc.content, s.sections[op.doc][op.agent]).value);
  }

  lemma SubmitPassesSection(s: Store, d: DocId, doc: Doc, agent: AgentId, expected: int, content: string,
                            human: Option<HumanId>, now: int)
    ensures var outcome := Submit(s, d, doc, agent, expected, content, human, now).1;
            Accepted(outcome) ==> SectionBreach(s.sections, d, agent, doc.content, outcome.content).None?
  {
  }

  lemma AcceptedPassesSection(s: Store, op: Op)
    requires op.Write? && Accepted(Step(s, op).1)
    ensures DocAt(Step(s, op).0, op.doc).content == Step(s, op).1.content
    ensures SectionBreach(s.sections, op.doc, op.agent, DocAt(s, op.doc).content, Step(s, op).1.content).None?
  {
    var doc := Entered(s, op.doc, op.now);
    EnteredIsQuiet(s, op.doc, op.now);
    SubmitPassesSection(s, op.doc, doc, op.agent, op.expected, op.content, op.verdict.human, op.now);
    AcceptedWrite(s, op);
    var _ := StepOnDoc(s, op);
    SubmitCommitsContent(s, op.doc, op.agent, op.expected, op.content, op.verdict.human, op.now);
  }

  lemma SubmitCommitsContent(s: Store, d: DocId, agent: AgentId, expected: int, content: string, human: Option<HumanId>, now: int)
    ensures var (s', outcome) := Submit(s, d, Entered(s, d, now), agent, expected, content, human, now);
            Accepted(outcome) ==> DocAt(s', d).content == outcome.content
  {
    var outcome := Submit(s, d, Entered(s, d, now), agent, expected, content, human, now).1;
    if Accepted(outcome) {
      CommitWriteShape(s, d, agent, human, outcome.content, outcome.MergedInto?, now);
    }
  }

  /** A merged commit reports at most as many changed lines as the writer's own edit inserted. */
  lemma MergedWriteCredit(s: Store, op: Op)
    requires op.Write? && Step(s, op).1.MergedInto?
    ensures var log := DocAt(Step(s, op).0, op.doc).contributions;
            log != [] && |log[|log| - 1].changed| <= Inserted(Edits(BaseOf(s, op.agent, op.doc), op.content))
  {
    WriteCommits(s, op);
    MergedContent(s, op);
    CommitCredit(s, op.doc, BaseOf(s, op.agent, op.doc), op.content, op.agent, op.verdict.human, op.now);
  }

  lemma CommitCredit(s: Store, d: DocId, base: string, payload: string, agent: AgentId, human: Option<HumanId>, now: int)
    requires Merge3(base, payload, DocAt(s, d).content).Merged?
    ensures var next := Merge3(base, payload, DocAt(s, d).content).content;
            var log := DocAt(CommitWrite(s, d, Entered(s, d, now), agent, human, next, true, now), d).contributions;
            log != [] && |log[|log| - 1].changed| <= Inserted(Edits(base, payload))
  {
    var doc, entered := DocAt(s, d), Entered(s, d, now);
    var next := Merge3(base, payload, doc.content).content;
    EnteredIsQuiet(s, d, now);
    MergeCredit(doc, base, payload, agent, now, s.supply);
    AttributionOfQuiet(doc, entered, next, Some(agent), None, now, s.supply);
    LoggedChange(s, d, entered, agent, human, next, true, now);
  }

  lemma MergedContent(s: Store, op: Op)
    requires op.Write? && Step(s, op).1.MergedInto?
    ensures Merge3(BaseOf(s, op.agent, op.doc), op.content, DocAt(s, op.doc).content) ==
            Merged(Step(s, op).1.content, Step(s, op).1.hunks)
  {
    EnteredIsQuiet(s, op.doc, op.now);
    SubmitMerges(s, op.doc, Entered(s, op.doc, op.now), op.agent, op.expected, op.content, op.verdict.human, op.now);
  }

  lemma SubmitMerges(s: Store, d: DocId, doc: Doc, agent: AgentId, expected: int, content: string, human: Option<HumanId>, now: int)
    ensures var outcome := Submit(s, d, doc, agent, expected, content, human, now).1;
            outcome.MergedInto? ==> Merge3(BaseOf(s, agent, d), content, doc.content) == Merged(outcome.content, outcome.hunks)
  {
  }

  /** The last contribution logs what attribution reports as changed. */
  lemma LoggedChange(s: Store, d: DocId, doc: Doc, agent: AgentId, human: Option<HumanId>, next: string, merged: bool, now: int)
    ensures var log := CommitWrite(s, d, doc, agent, human, next, merged, now).docs[d].contributions;
            log != [] && log[|log| - 1].changed == Attribution(doc, next, Some(agent), None, now, s.supply).changed
  {
  }

  lemma MergeCredit(doc: Doc, base: string, payload: string, agent: AgentId, now: int, supply: nat)
    requires Merge3(base, payload, doc.content).Merged?
    ensures |Attribution(doc, Merge3(base, payload, doc.content).content, Some(agent), None, now, supply).changed|
            <= Inserted(Edits(base, payload))
  {
    Credit.MergedCommitCredit(PreviousEntries(doc, now, supply + 1), base, payload, doc.content,
                              Writer(Some(agent), None, supply, doc.version + 1, now), SupplyAfterSeed(doc, supply + 1));
  }
}
