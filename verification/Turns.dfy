/**
 * One Agent turn around the store (apps/server/src/concord/reconcile.ts):
 * a document is handed out, edited in the workspace, and submitted at the
 * version it was handed out at.
 */
module Turns {
  import opened Options
  import opened Text
  import opened Merge
  import opened MergeLaws
  import opened StoreState
  import opened Blame
  import opened NoLostUpdate
  import opened OpenConflicts
  import opened HumanEdits
  import opened SharedDocStores

  /** What the Agent was handed, so that a later write can state the version it read. */
  datatype Checkout = Checkout(version: nat, content: string)

  /** The reconciler's own state beside the store's. */
  datatype Desk = Desk(store: Store, checkouts: map<BaseKey, Checkout>, files: map<DocId, string>)

  datatype MaterializeResult = Materialized(doc: DocId, version: nat) | HandoutDenied(doc: DocId)

  datatype TurnResult = Unreadable(doc: DocId) | Unchanged(doc: DocId, version: nat) | Submitted(doc: DocId, outcome: Outcome)

  /** The caller's authority and clock for one turn, and which ids stay inside the workspace. */
  datatype Turn = Turn(agent: AgentId, verdict: DocId -> Verdict, now: int, inside: DocId -> bool)

  function ReadOp(turn: Turn, d: DocId): Op {
    Read(d, turn.agent, turn.verdict(d), turn.now)
  }

  function MaterializeDoc(desk: Desk, turn: Turn, d: DocId): (Desk, MaterializeResult) {
    if !turn.inside(d) then (desk, HandoutDenied(d))
    else
      var (s, outcome) := Step(desk.store, ReadOp(turn, d));
      if !outcome.ReadOk? then (desk.(store := s), HandoutDenied(d))
      else
        (Desk(s, desk.checkouts[BaseKey(turn.agent, d) := Checkout(outcome.version, outcome.content)],
              desk.files[d := outcome.content]),
         Materialized(d, outcome.version))
  }

  function MaterializeAll(desk: Desk, turn: Turn, docs: seq<DocId>): (Desk, seq<MaterializeResult>)
    decreases |docs|
  {
    if docs == [] then (desk, [])
    else
      var (next, result) := MaterializeDoc(desk, turn, docs[0]);
      var (last, results) := MaterializeAll(next, turn, docs[1..]);
      (last, [result] + results)
  }

  function SubmitOp(turn: Turn, d: DocId, checkout: Checkout, content: string): Op {
    Write(d, turn.agent, checkout.version, content, turn.verdict(d), turn.now)
  }

  function ReconcileDoc(desk: Desk, turn: Turn, d: DocId): (Desk, TurnResult) {
    var key := BaseKey(turn.agent, d);
    if !turn.inside(d) || key !in desk.checkouts || d !in desk.files then (desk, Unreadable(d))
    else
      var checkout, content := desk.checkouts[key], desk.files[d];
      if content == checkout.content then (desk, Unchanged(d, checkout.version))
      else
        var (s, outcome) := Step(desk.store, SubmitOp(turn, d, checkout, content));
        if outcome.Written? || outcome.MergedInto? then
          (Desk(s, desk.checkouts[key := Checkout(outcome.version, outcome.content)], desk.files[d := outcome.content]),
           Submitted(d, outcome))
        else (desk.(store := s), Submitted(d, outcome))
  }

  function ReconcileAll(desk: Desk, turn: Turn, docs: seq<DocId>): (Desk, seq<TurnResult>)
    decreases |docs|
  {
    if docs == [] then (desk, [])
    else
      var (next, result) := ReconcileDoc(desk, turn, docs[0]);
      var (last, results) := ReconcileAll(next, turn, docs[1..]);
      (last, [result] + results)
  }

  class WorkspaceReconciler {
    const store: SharedDocStore
    var checkouts: map<BaseKey, Checkout>
    var files: map<DocId, string>

    constructor (shared: SharedDocStore)
      ensures store == shared && checkouts == map[] && files == map[]
    {
      store := shared;
      checkouts, files := map[], map[];
    }

    ghost function State(): Desk
      reads this, store, store.sections
    {
      Desk(store.State(), checkouts, files)
    }

    method Materialize(turn: Turn, docs: seq<DocId>) returns (results: seq<MaterializeResult>)
      modifies this, store
      ensures (State(), results) == MaterializeAll(old(State()), turn, docs)
    {
      results := [];
      assert docs[0..] == docs;
      for k := 0 to |docs|
        invariant MaterializeAll(State(), turn, docs[k..]).0 == MaterializeAll(old(State()), turn, docs).0
        invariant results + MaterializeAll(State(), turn, docs[k..]).1 == MaterializeAll(old(State()), turn, docs).1
      {
        ghost var before := State();
        ghost var later := MaterializeAll(MaterializeDoc(before, turn, docs[k]).0, turn, docs[k + 1..]);
        assert docs[k..][1..] == docs[k + 1..];
        var result := HandOut(turn, docs[k]);
        assert results + ([result] + later.1) == results + [result] + later.1;
        results := results + [result];
      }
      assert docs[|docs|..] == [];
      assert results + [] == results;
    }

    method HandOut(turn: Turn, docId: DocId) returns (result: MaterializeResult)
      modifies this, store
      ensures (State(), result) == MaterializeDoc(old(State()), turn, docId)
    {
      if !turn.inside(docId) { return HandoutDenied(docId); }
      var read := store.Read(docId, turn.agent, turn.verdict(docId), turn.now);
      if !read.ReadOk? { return HandoutDenied(docId); }
      files := files[docId := read.content];
      checkouts := checkouts[BaseKey(turn.agent, docId) := Checkout(read.version, read.content)];
      return Materialized(docId, read.version);
    }

    method Reconcile(turn: Turn, docs: seq<DocId>) returns (results: seq<TurnResult>)
      modifies this, store
      ensures (State(), results) == ReconcileAll(old(State()), turn, docs)
    {
      results := [];
      assert docs[0..] == docs;
      for k := 0 to |docs|
        invariant ReconcileAll(State(), turn, docs[k..]).0 == ReconcileAll(old(State()), turn, docs).0
        invariant results + ReconcileAll(State(), turn, docs[k..]).1 == ReconcileAll(old(State()), turn, docs).1
      {
        ghost var before := State();
        ghost var later := ReconcileAll(ReconcileDoc(before, turn, docs[k]).0, turn, docs[k + 1..]);
        assert docs[k..][1..] == docs[k + 1..];
        var result := TakeBack(turn, docs[k]);
        assert results + ([result] + later.1) == results + [result] + later.1;
        results := results + [result];
      }
      assert docs[|docs|..] == [];
      assert results + [] == results;
    }

    method TakeBack(turn: Turn, docId: DocId) returns (result: TurnResult)
      modifies this, store
      ensures (State(), result) == ReconcileDoc(old(State()), turn, docId)
    {
      var key := BaseKey(turn.agent, docId);
      if !turn.inside(docId) || key !in checkouts { return Unreadable(docId); }
      var checkout := checkouts[key];
      if docId !in files { return Unreadable(docId); }
      var content := files[docId];
      if content == checkout.content { return Unchanged(docId, checkout.version); }
      var outcome := store.Write(docId, turn.agent, checkout.version, content, turn.verdict(docId), turn.now);
      if outcome.Written? || outcome.MergedInto? {
        files := files[docId := outcome.content];
        checkouts := checkouts[key := Checkout(outcome.version, outcome.content)];
      }
      return Submitted(docId, outcome);
    }
  }

  // ------------------------------------------------------------ what a turn keeps

  /** The recorded base, if there is one, is the text handed out, at the version stated. */
  ghost predicate Synced(w: World, agent: AgentId, d: DocId, checkout: Checkout) {
    checkout.version < |Versions(w.archive, d)| &&
    Versions(w.archive, d)[checkout.version].content == checkout.content &&
    (HasBase(w.store, agent, d) ==> BaseOf(w.store, agent, d) == checkout.content) &&
    (!HasBase(w.store, agent, d) ==> checkout.version < DocAt(w.store, d).version)
  }

  /** Handing a document out puts the Agent in step with it. */
  lemma HandoutSyncs(w: World, turn: Turn, d: DocId)
    requires AllTruthful(w) && Step(w.store, ReadOp(turn, d)).1.ReadOk?
    ensures var (s, outcome) := Step(w.store, ReadOp(turn, d));
            Synced(WorldStep(w, ReadOp(turn, d)), turn.agent, d, Checkout(outcome.version, outcome.content))
  {
    EnteredIsQuiet(w.store, d, turn.now);
    assert Truthful(DocAt(w.store, d), Versions(w.archive, d), w.store.supply);
  }

  /** An accepted write leaves its writer based on the text it committed. */
  lemma SubmissionBase(s: Store, op: Op)
    requires op.Write? && Accepted(Step(s, op).1)
    ensures var (s', outcome) := Step(s, op);
            HasBase(s', op.agent, op.doc) && BaseOf(s', op.agent, op.doc) == outcome.content &&
            DocAt(s', op.doc).content == outcome.content && DocAt(s', op.doc).version == outcome.version == DocAt(s, op.doc).version + 1
  {
    WriteCommits(s, op);
    CommitBase(s, op.doc, op.agent, op.verdict.human, Step(s, op).1.content, Step(s, op).1.MergedInto?, op.now);
  }

  lemma CommitBase(s: Store, d: DocId, agent: AgentId, human: Option<HumanId>, next: string, merged: bool, now: int)
    ensures var s' := CommitWrite(s, d, Entered(s, d, now), agent, human, next, merged, now);
            HasBase(s', agent, d) && BaseOf(s', agent, d) == next && DocAt(s', d).content == next &&
            DocAt(s', d).version == DocAt(s, d).version + 1
    ensures Entered(s, d, now).version == DocAt(s, d).version
  {
    EnteredIsQuiet(s, d, now);
  }

  /** So does an accepted submission. */
  lemma SubmissionSyncs(w: World, op: Op)
    requires AllTruthful(w) && op.Write? && Accepted(Step(w.store, op).1)
    ensures var outcome := Step(w.store, op).1;
            Synced(WorldStep(w, op), op.agent, op.doc, Checkout(outcome.version, outcome.content))
  {
    SubmissionBase(w.store, op);
    assert Truthful(DocAt(w.store, op.doc), Versions(w.archive, op.doc), w.store.supply);
  }

  lemma SyncedStep(w: World, op: Op, agent: AgentId, d: DocId, checkout: Checkout)
    requires AllTruthful(w) && Synced(w, agent, d, checkout) && !GivesBase(w.store, op, agent, d)
    ensures Synced(WorldStep(w, op), agent, d, checkout)
  {
    BaseStep(w.store, op, agent, d);
    StepVersion(w.store, op, d);
    ArchiveGrows(w, op, d);
    assert Truthful(DocAt(w.store, d), Versions(w.archive, d), w.store.supply);
  }

  /** A step adds to the record of versions and rewrites nothing in it. */
  lemma ArchiveGrows(w: World, op: Op, d: DocId)
    ensures Versions(w.archive, d) <= Versions(WorldStep(w, op).archive, d)
  {
  }

  /** As long as it is given no other base, the Agent stays in step. */
  lemma {:induction false} SyncedRun(w: World, ops: seq<Op>, agent: AgentId, d: DocId, checkout: Checkout)
    requires AllTruthful(w) && Synced(w, agent, d, checkout) && NeverGiven(w.store, ops, agent, d)
    ensures Synced(WorldRun(w, ops), agent, d, checkout)
    decreases |ops|
  {
    if ops != [] {
      SyncedStep(w, ops[0], agent, d, checkout);
      StepIsTruthful(w, ops[0]);
      SyncedRun(WorldStep(w, ops[0]), ops[1..], agent, d, checkout);
    }
  }

  /** The submission moves exactly the Agent's own edit over the current text. */
  ghost predicate Carried(s: Store, op: Op, checkout: Checkout)
    requires op.Write?
  {
    CarriesEdit(checkout.content, op.content, DocAt(s, op.doc).content, DocAt(Step(s, op).0, op.doc).content)
  }

  /**
   * An accepted submission carries the Agent's edit exactly when the base is
   * still recorded, or the payload is the current text, or the text handed out
   * was empty. Otherwise it does one of two things: it drops a deletion of
   * everything, or it fills a text that was emptied since with the whole payload.
   */
  lemma SyncedSubmission(w: World, op: Op, checkout: Checkout)
    requires AllTruthful(w) && op.Write? && op.expected == checkout.version && Synced(w, op.agent, op.doc, checkout)
    requires Accepted(Step(w.store, op).1)
    ensures var current, next := DocAt(w.store, op.doc).content, DocAt(Step(w.store, op).0, op.doc).content;
            (Carried(w.store, op, checkout) <==>
               HasBase(w.store, op.agent, op.doc) || op.content == current || checkout.content == "") &&
            (!Carried(w.store, op, checkout) ==>
               (op.content == "" && next == current) || (current == "" && next == op.content))
  {
    if HasBase(w.store, op.agent, op.doc) {
      NoUpdateLost(w, op);
    } else {
      UnbasedSubmission(w.store, op);
      var current, next := DocAt(w.store, op.doc).content, DocAt(Step(w.store, op).0, op.doc).content;
      if op.content != current {
        if checkout.content == "" {
          CarriedFromNothing(op.content, current);
        } else {
          NotCarried(checkout.content, op.content, current, next);
        }
      }
    }
  }

  /** Without a base an accepted stale submission commits a text that is there, or fills an empty one. */
  lemma UnbasedSubmission(s: Store, op: Op)
    requires op.Write? && Accepted(Step(s, op).1) && !HasBase(s, op.agent, op.doc) && op.expected != DocAt(s, op.doc).version
    ensures var current, next := DocAt(s, op.doc).content, DocAt(Step(s, op).0, op.doc).content;
            (op.content == current == next) || (op.content == "" && next == current) || (current == "" && next == op.content)
  {
    StaleWriteWithoutBase(s, op);
    if DocAt(s, op.doc).content == "" {
      MovedBaseOverwrites(s, op);
    } else {
      AcceptedWrite(s, op);
      MergeFromNothing(op.content, DocAt(s, op.doc).content);
      UnbasedMerge(s, op);
    }
  }

  lemma UnbasedMerge(s: Store, op: Op)
    requires op.Write? && Accepted(Step(s, op).1) && !HasBase(s, op.agent, op.doc) && op.expected != DocAt(s, op.doc).version
    ensures Merge3("", op.content, DocAt(s, op.doc).content).Merged?
  {
    MergedContent(s, op);
  }

  /**
   * A turn: a document is handed out, other things happen, and the edited text
   * is submitted at the version handed out. As long as the Agent is given no
   * other base in between, a refused submission changes nothing, and an
   * accepted one moves exactly the Agent's own edit over the current text if
   * and only if no human wrote since, or the payload is the current text, or
   * the text handed out was empty.
   */
  lemma TurnCarriesEditIff(w: World, turn: Turn, d: DocId, between: seq<Op>, back: Turn, content: string)
    requires AllTruthful(w) && Step(w.store, ReadOp(turn, d)).1.ReadOk? && back.agent == turn.agent
    requires NeverGiven(Step(w.store, ReadOp(turn, d)).0, between, turn.agent, d)
    ensures var read := Step(w.store, ReadOp(turn, d)).1;
            var checkout := Checkout(read.version, read.content);
            var handed := Step(w.store, ReadOp(turn, d)).0;
            var now, op := Run(handed, between), SubmitOp(back, d, checkout, content);
            if Accepted(Step(now, op).1)
            then Carried(now, op, checkout) <==>
                   !HumanWrote(handed, between, d) || content == DocAt(now, d).content || checkout.content == ""
            else Quiet(DocAt(now, d), DocAt(Step(now, op).0, d))
  {
    var read := Step(w.store, ReadOp(turn, d)).1;
    var checkout := Checkout(read.version, read.content);
    var handed := WorldStep(w, ReadOp(turn, d));
    var op := SubmitOp(back, d, checkout, content);
    HandoutSyncs(w, turn, d);
    HandoutGivesBase(w.store, turn, d);
    StepIsTruthful(w, ReadOp(turn, d));
    SyncedRun(handed, between, turn.agent, d, checkout);
    RunIsTruthful(handed, between);
    WorldRunIsRun(handed, between);
    BaseOverRun(handed.store, between, turn.agent, d);
    var now := WorldRun(handed, between);
    if Accepted(Step(now.store, op).1) {
      SyncedSubmission(now, op, checkout);
    } else {
      RefusedIsQuiet(now.store, op);
    }
  }

  lemma HandoutGivesBase(s: Store, turn: Turn, d: DocId)
    requires Step(s, ReadOp(turn, d)).1.ReadOk?
    ensures HasBase(Step(s, ReadOp(turn, d)).0, turn.agent, d)
  {
    BaseStep(s, ReadOp(turn, d), turn.agent, d);
  }

  // ------------------------------------------------------ after a conflict decision

  /** Authority, lease and section rule let the Agent commit `payload` over the current text. */
  predicate Permits(s: Store, agent: AgentId, d: DocId, verdict: Verdict, now: int, payload: string) {
    verdict.allowed && !LeasedToAnother(Entered(s, d, now), agent) &&
    SectionBreach(s.sections, d, agent, DocAt(s, d).content, payload).None?
  }

  /** A permitted stale write based on the current text itself is accepted and replaces that text whole. */
  lemma StaleWriteReplaces(s: Store, op: Op)
    requires op.Write? && Permits(s, op.agent, op.doc, op.verdict, op.now, op.content)
    requires op.expected != DocAt(s, op.doc).version && BaseOf(s, op.agent, op.doc) == DocAt(s, op.doc).content
    ensures Step(s, op).1.MergedInto? && DocAt(Step(s, op).0, op.doc).content == op.content
  {
    EnteredIsQuiet(s, op.doc, op.now);
    assert Merge3(DocAt(s, op.doc).content, op.content, DocAt(s, op.doc).content).content == op.content;
    MovedBaseOverwrites(s, op);
  }

  /** The text after the Agent's write of `payload` at version `expected`. */
  function TextAfter(s: Store, agent: AgentId, d: DocId, expected: int, verdict: Verdict, now: int, payload: string): string {
    DocAt(Step(s, Write(d, agent, expected, payload, verdict, now)).0, d).content
  }

  /**
   * When a base has moved on to the current text, stale writes carry the edit
   * made since the text `stated` of the version they name, whatever it is, if
   * and only if that text is the current one again.
   */
  lemma MovedBaseCarriesIff(s: Store, agent: AgentId, d: DocId, expected: int, verdict: Verdict, now: int, stated: string)
    requires expected != DocAt(s, d).version && BaseOf(s, agent, d) == DocAt(s, d).content
    requires Permits(s, agent, d, verdict, now, stated)
    ensures (forall payload :: Permits(s, agent, d, verdict, now, payload) ==>
               CarriesEdit(stated, payload, DocAt(s, d).content, TextAfter(s, agent, d, expected, verdict, now, payload)))
            <==> stated == DocAt(s, d).content
  {
    var current := DocAt(s, d).content;
    if stated == current {
      forall payload | Permits(s, agent, d, verdict, now, payload)
        ensures CarriesEdit(stated, payload, current, TextAfter(s, agent, d, expected, verdict, now, payload))
      {
        StaleWriteReplaces(s, Write(d, agent, expected, payload, verdict, now));
        SwapCarriesEdit(current, payload);
      }
    } else {
      StaleWriteReplaces(s, Write(d, agent, expected, stated, verdict, now));
      if CarriesEdit(stated, stated, current, stated) {
        UnchangedCarriesNothing(stated, current, stated);
      }
      assert !CarriesEdit(stated, stated, current, TextAfter(s, agent, d, expected, verdict, now, stated));
    }
  }

  /** Sending a text back unedited carries only the text that is there. */
  lemma UnchangedCarriesNothing(stated: string, current: string, next: string)
    requires CarriesEdit(stated, stated, current, next)
    ensures next == current
  {
    EditsAreCorrect(stated, stated);
    assert RebasedEdits(stated, stated, current) == [];
    assert SplitLines(current)[0..] == SplitLines(current);
    JoinSplit(current);
  }

  /** The Agent whose conflict the decision settles. */
  function LoserOf(s: Store, resolve: Op): AgentId
    requires resolve.Resolve?
  {
    var pending := FindConflict(DocAt(s, resolve.doc).conflicts, resolve.conflict);
    if pending.Some? then pending.value.agent else ""
  }

  /**
   * Right after a decision, the losing Agent's writes at another version keep
   * the decision and carry the Agent's own edit, for every payload, if and only
   * if the version they name holds the decided text.
   */
  lemma DecisionIsKeptIff(s: Store, resolve: Op, expected: int, verdict: Verdict, now: int, stated: string)
    requires resolve.Resolve? && Step(s, resolve).1.Resolved?
    requires var decided := Step(s, resolve).0;
             expected != DocAt(decided, resolve.doc).version &&
             Permits(decided, LoserOf(s, resolve), resolve.doc, verdict, now, stated)
    ensures var decided, d, loser := Step(s, resolve).0, resolve.doc, LoserOf(s, resolve);
            (forall payload :: Permits(decided, loser, d, verdict, now, payload) ==>
               CarriesEdit(stated, payload, DocAt(decided, d).content, TextAfter(decided, loser, d, expected, verdict, now, payload)))
            <==> stated == Step(s, resolve).1.content
  {
    DecisionGivesBase(s, resolve);
    MovedBaseCarriesIff(Step(s, resolve).0, LoserOf(s, resolve), resolve.doc, expected, verdict, now, stated);
  }

  /**
   * Whatever others commit after a decision, the losing Agent's late write is
   * taken as an edit of the decision: it carries the way from the decided text
   * to its payload over the current text, as long as no human wrote since. With
   * nothing in between that replaces the decided text by the payload.
   */
  lemma LateWriteEditsDecision(s: Store, resolve: Op, between: seq<Op>, late: Op)
    requires resolve.Resolve? && Step(s, resolve).1.Resolved?
    requires late.Write? && late.doc == resolve.doc && late.agent == LoserOf(s, resolve)
    requires var decided := Step(s, resolve).0;
             NeverGiven(decided, between, late.agent, late.doc) && !HumanWrote(decided, between, late.doc) &&
             late.expected != DocAt(Run(decided, between), late.doc).version && Accepted(Step(Run(decided, between), late).1)
    ensures var now := Run(Step(s, resolve).0, between);
            CarriesEdit(Step(s, resolve).1.content, late.content, DocAt(now, late.doc).content, DocAt(Step(now, late).0, late.doc).content)
    ensures between == [] ==> DocAt(Step(Run(Step(s, resolve).0, between), late).0, late.doc).content == late.content
  {
    var decided := Step(s, resolve).0;
    ResolveKeepsOthers(s, resolve);
    DecisionGivesBase(s, resolve);
    BaseOverRun(decided, between, late.agent, late.doc);
    AcceptedWrite(Run(decided, between), late);
    if between == [] {
      MovedBaseOverwrites(decided, late);
    }
  }

  lemma DecisionGivesBase(s: Store, resolve: Op)
    requires resolve.Resolve? && Step(s, resolve).1.Resolved?
    ensures var decided := Step(s, resolve).0;
            HasBase(decided, LoserOf(s, resolve), resolve.doc) &&
            BaseOf(decided, LoserOf(s, resolve), resolve.doc) == DocAt(decided, resolve.doc).content == Step(s, resolve).1.content
  {
    BaseStep(s, resolve, LoserOf(s, resolve), resolve.doc);
  }

  // --------------------------------------------------------- an Agent that is read again

  /** While nothing is committed, the text stays, and so does a base on it. */
  lemma {:induction false} UncommittedKeepsBase(s: Store, ops: seq<Op>, agent: AgentId, d: DocId)
    requires DocAt(Run(s, ops), d).version == DocAt(s, d).version
    requires HasBase(s, agent, d) && BaseOf(s, agent, d) == DocAt(s, d).content
    ensures DocAt(Run(s, ops), d).content == DocAt(s, d).content
    ensures HasBase(Run(s, ops), agent, d) && BaseOf(Run(s, ops), agent, d) == DocAt(s, d).content
    decreases |ops|
  {
    if ops != [] {
      var s' := Step(s, ops[0]).0;
      StepVersion(s, ops[0], d);
      RunVersion(s', ops[1..], d);
      BaseStep(s, ops[0], agent, d);
      if ops[0].doc == d {
        RefusedIsQuiet(s, ops[0]);
      } else {
        StepElsewhere(s, ops[0], d);
      }
      UncommittedKeepsBase(s', ops[1..], agent, d);
    }
  }

  /** What a permitted read leaves: the text as the reader's base. */
  lemma ReadGivesBase(s: Store, reread: Op)
    requires reread.Read? && Step(s, reread).1.ReadOk?
    ensures var s' := Step(s, reread).0;
            HasBase(s', reread.agent, reread.doc) && BaseOf(s', reread.agent, reread.doc) == DocAt(s', reread.doc).content &&
            DocAt(s', reread.doc).content == DocAt(s, reread.doc).content
  {
    BaseStep(s, reread, reread.agent, reread.doc);
    RefusedIsQuiet(s, reread);
  }

  /**
   * A turn in which the document is read again as the Agent, with nothing
   * committed behind that read: submissions at another version than the current
   * one carry the edit made since the text handed out, for every payload, if and
   * only if that text is the current one.
   */
  lemma RereadCarriesIff(s: Store, reread: Op, later: seq<Op>, expected: int, verdict: Verdict, now: int, handed: string)
    requires reread.Read? && Step(s, reread).1.ReadOk?
    requires var end := Run(Step(s, reread).0, later);
             DocAt(end, reread.doc).version == DocAt(Step(s, reread).0, reread.doc).version &&
             expected != DocAt(end, reread.doc).version && Permits(end, reread.agent, reread.doc, verdict, now, handed)
    ensures var end, d, agent := Run(Step(s, reread).0, later), reread.doc, reread.agent;
            (forall payload :: Permits(end, agent, d, verdict, now, payload) ==>
               CarriesEdit(handed, payload, DocAt(end, d).content, TextAfter(end, agent, d, expected, verdict, now, payload)))
            <==> handed == DocAt(end, d).content
  {
    ReadGivesBase(s, reread);
    UncommittedKeepsBase(Step(s, reread).0, later, reread.agent, reread.doc);
    MovedBaseCarriesIff(Run(Step(s, reread).0, later), reread.agent, reread.doc, expected, verdict, now, handed);
  }
}
