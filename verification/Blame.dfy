/**
 * Blame is truthful over every run of the store: what a line's provenance
 * claims about who wrote it, and when, is what the record of all versions shows.
 */
module Blame {
  import opened Options
  import opened Text
  import opened Provenance
  import opened StoreState

  /** A document not yet created is empty at version 0. */
  function DocAt(s: Store, d: DocId): Doc {
    Ensure(s, d, 0)
  }

  // ------------------------------------------------------ the shape of a step

  /** Nothing a reader of the text or of its attribution could notice. */
  ghost predicate Quiet(before: Doc, after: Doc) {
    after.version == before.version && after.content == before.content && after.provenance == before.provenance &&
    after.history == before.history && after.contributions == before.contributions
  }

  datatype Commit = Commit(next: string, agent: Option<AgentId>, human: Option<HumanId>,
                           actor: string, actorHuman: Option<HumanId>, now: int)

  /** The actor an entry names: its Agent, else its human, else nobody. */
  function ActorOf(agent: Option<AgentId>, human: Option<HumanId>): string {
    if agent.Some? then agent.value else human.GetOr("")
  }

  ghost predicate Commits(before: Doc, after: Doc, c: Commit, supply: nat, supply': nat) {
    var update := Attribution(before, c.next, c.agent, c.human, c.now, supply);
    after.version == before.version + 1 && after.content == c.next && after.provenance == update.lines &&
    supply' == update.supply && ActorOf(c.agent, c.human) == c.actor &&
    after.history == before.history + [HistoryEntry(before.version + 1, c.actor, c.actorHuman, c.now, supply)]
  }

  /** What a step from `s` to `s'` did to document `d`, given whether it was accepted. */
  ghost predicate Shape(s: Store, s': Store, d: DocId, accepted: bool, commit: Option<Commit>) {
    match commit
    case None => !accepted && s'.supply == s.supply && Quiet(DocAt(s, d), DocAt(s', d))
    case Some(c) => accepted && Commits(DocAt(s, d), DocAt(s', d), c, s.supply, s'.supply)
  }

  /** The name a commit writes where an Agent's id belongs: for a conflict decision it is the human's. */
  function NamedAgent(op: Op): Option<string> {
    match op
    case Write(_, agent, _, _, _, _) => Some(agent)
    case Resolve(_, _, humanId, _, _, _) => Some(humanId)
    case _ => None
  }

  /** The commit an accepted operation makes of the text it answers with. */
  function CommitFor(op: Op, next: string): Commit {
    match op
    case Write(_, agent, _, _, verdict, now) => Commit(next, Some(agent), None, agent, verdict.human, now)
    case WriteAsHuman(_, humanId, _, _, now) => Commit(next, None, Some(humanId), humanId, Some(humanId), now)
    case Resolve(_, _, humanId, _, _, now) => Commit(next, Some(humanId), None, humanId, Some(humanId), now)
    case _ => Commit(next, None, None, "", None, 0)
  }

  lemma EnteredIsQuiet(s: Store, d: DocId, now: int)
    ensures Quiet(DocAt(s, d), Entered(s, d, now))
    ensures DocAt(Put(s, d, Entered(s, d, now)), d) == Entered(s, d, now)
  {
  }

  /** Attribution does not look at what entering a document may change. */
  lemma AttributionOfQuiet(before: Doc, doc: Doc, next: string, agent: Option<AgentId>, human: Option<HumanId>, now: int, supply: nat)
    requires Quiet(before, doc)
    ensures Attribution(before, next, agent, human, now, supply) == Attribution(doc, next, agent, human, now, supply)
  {
  }

  lemma CommitWriteShape(s: Store, d: DocId, agent: AgentId, human: Option<HumanId>, next: string, merged: bool, now: int)
    ensures Shape(s, CommitWrite(s, d, Entered(s, d, now), agent, human, next, merged, now), d, true,
                  Some(Commit(next, Some(agent), None, agent, human, now)))
  {
    EnteredIsQuiet(s, d, now);
    AttributionOfQuiet(DocAt(s, d), Entered(s, d, now), next, Some(agent), None, now, s.supply);
  }

  /** An accepted submission is a commit of the text it answers with. */
  lemma SubmitCommits(s: Store, d: DocId, doc: Doc, agent: AgentId, expected: int, content: string, human: Option<HumanId>, now: int)
    ensures var (s', outcome) := Submit(s, d, doc, agent, expected, content, human, now);
            Accepted(outcome) ==>
              (outcome.Written? || outcome.MergedInto?) && outcome.version == doc.version + 1 && outcome.contribution == s.supply &&
              s' == CommitWrite(s, d, doc, agent, human, outcome.content, outcome.MergedInto?, now)
  {
  }

  /** A contested one only records the conflict, any other refusal only enters the document. */
  lemma SubmitRefuses(s: Store, d: DocId, doc: Doc, agent: AgentId, expected: int, content: string, human: Option<HumanId>, now: int)
    ensures var (s', outcome) := Submit(s, d, doc, agent, expected, content, human, now);
            !Accepted(outcome) ==>
              s' == (if outcome.ConflictAt?
                     then RecordConflict(s, d, doc, agent, human, BaseOf(s, agent, d), content, outcome.conflicts, now)
                     else Put(s, d, doc)) &&
              (outcome.ConflictAt? ==> outcome.conflict == s.conflictSeq + 1)
  {
  }

  lemma WriteCommits(s: Store, op: Op)
    requires op.Write? && Accepted(Step(s, op).1)
    ensures var (s', outcome) := Step(s, op);
            (outcome.Written? || outcome.MergedInto?) && outcome.version == Entered(s, op.doc, op.now).version + 1 &&
            s' == CommitWrite(s, op.doc, Entered(s, op.doc, op.now), op.agent, op.verdict.human, outcome.content,
                              outcome.MergedInto?, op.now)
  {
    SubmitCommits(s, op.doc, Entered(s, op.doc, op.now), op.agent, op.expected, op.content, op.verdict.human, op.now);
  }

  lemma SubmitShape(s: Store, d: DocId, agent: AgentId, expected: int, content: string, human: Option<HumanId>, now: int)
    returns (commit: Option<Commit>)
    ensures var r := Submit(s, d, Entered(s, d, now), agent, expected, content, human, now);
            Shape(s, r.0, d, Accepted(r.1), commit)
    ensures commit.Some? ==> commit.value == Commit(commit.value.next, Some(agent), None, agent, human, now)
  {
    var doc := Entered(s, d, now);
    var outcome := Submit(s, d, doc, agent, expected, content, human, now).1;
    EnteredIsQuiet(s, d, now);
    commit := None;
    if Accepted(outcome) {
      CommitWriteShape(s, d, agent, human, outcome.content, outcome.MergedInto?, now);
      commit := Some(Commit(outcome.content, Some(agent), None, agent, human, now));
    }
  }

  lemma HumanEditShape(s: Store, d: DocId, humanId: HumanId, content: string, now: int)
    ensures Shape(s, CommitHumanEdit(s, d, Entered(s, d, now), humanId, content, now), d, true,
                  Some(Commit(content, None, Some(humanId), humanId, Some(humanId), now)))
  {
    EnteredIsQuiet(s, d, now);
    AttributionOfQuiet(DocAt(s, d), Entered(s, d, now), content, None, Some(humanId), now, s.supply);
  }

  lemma HumanWriteShape(s: Store, d: DocId, humanId: HumanId, expected: int, content: string, now: int)
    returns (commit: Option<Commit>)
    ensures var r := HumanWriteStep(s, d, humanId, expected, content, now);
            Shape(s, r.0, d, Accepted(r.1), commit)
    ensures commit.Some? ==> commit.value == Commit(commit.value.next, None, Some(humanId), humanId, Some(humanId), now)
  {
    EnteredIsQuiet(s, d, now);
    HumanEditShape(s, d, humanId, content, now);
    commit := if Accepted(HumanWriteStep(s, d, humanId, expected, content, now).1)
              then Some(Commit(content, None, Some(humanId), humanId, Some(humanId), now)) else None;
  }

  lemma ResolveShape(s: Store, d: DocId, conflict: nat, humanId: HumanId, orchestrator: bool, chosen: string, now: int)
    returns (commit: Option<Commit>)
    ensures var r := ResolveStep(s, d, conflict, humanId, orchestrator, chosen, now);
            Shape(s, r.0, d, Accepted(r.1), commit)
    ensures commit.Some? ==> commit.value == Commit(commit.value.next, Some(humanId), None, humanId, Some(humanId), now)
  {
    var outcome := ResolveStep(s, d, conflict, humanId, orchestrator, chosen, now).1;
    commit := if outcome.Resolved? then Some(Commit(outcome.content, Some(humanId), None, humanId, Some(humanId), now)) else None;
  }

  lemma WriteShape(s: Store, op: Op) returns (commit: Option<Commit>)
    requires op.Write?
    ensures Shape(s, Step(s, op).0, op.doc, Accepted(Step(s, op).1), commit)
    ensures commit.Some? ==> commit.value == CommitFor(op, commit.value.next)
  {
    EnteredIsQuiet(s, op.doc, op.now);
    commit := None;
    if op.verdict.allowed && !LeasedToAnother(Entered(s, op.doc, op.now), op.agent) {
      commit := SubmitShape(s, op.doc, op.agent, op.expected, op.content, op.verdict.human, op.now);
    }
  }

  lemma VisitShape(s: Store, op: Op)
    requires op.Read? || op.AcquireLease? || op.ReleaseLease?
    ensures Shape(s, Step(s, op).0, op.doc, Accepted(Step(s, op).1), None)
  {
    EnteredIsQuiet(s, op.doc, op.now);
  }

  /** Every step either commits one new version of its document, and says so, or is quiet. */
  lemma StepOnDoc(s: Store, op: Op) returns (commit: Option<Commit>)
    ensures Shape(s, Step(s, op).0, op.doc, Accepted(Step(s, op).1), commit)
    ensures commit.Some? ==> commit.value == CommitFor(op, commit.value.next) && commit.value.agent == NamedAgent(op)
  {
    commit := None;
    match op
    case Read(_, _, _, _) => VisitShape(s, op);
    case Write(_, _, _, _, _, _) => commit := WriteShape(s, op);
    case WriteAsHuman(d, humanId, expected, content, now) =>
      commit := HumanWriteShape(s, d, humanId, expected, content, now);
    case Resolve(d, conflict, humanId, orchestrator, chosen, now) =>
      commit := ResolveShape(s, d, conflict, humanId, orchestrator, chosen, now);
    case AcquireLease(_, _, _, _, _) => VisitShape(s, op);
    case ReleaseLease(_, _, _, _) => VisitShape(s, op);
    case Allocate(_, _, _) =>
    case ReleaseSections(_) =>
  }

  /** The documents of two states agree but for `d`. */
  ghost predicate OnlyDoc(s: Store, s': Store, d: DocId) {
    s'.docs == s.docs || (d in s'.docs && s'.docs == s.docs[d := s'.docs[d]])
  }

  lemma PutIsOnly(s: Store, s': Store, d: DocId, doc: Doc)
    requires s'.docs == Put(s, d, doc).docs
    ensures OnlyDoc(s, s', d)
  {
  }

  lemma SubmitTouchesOneDoc(s: Store, d: DocId, doc: Doc, agent: AgentId, expected: int, content: string, human: Option<HumanId>, now: int)
    ensures OnlyDoc(s, Submit(s, d, doc, agent, expected, content, human, now).0, d)
  {
    var s' := Submit(s, d, doc, agent, expected, content, human, now).0;
    SubmitCommits(s, d, doc, agent, expected, content, human, now);
    SubmitRefuses(s, d, doc, agent, expected, content, human, now);
    PutIsOnly(s, s', d, s'.docs[d]);
  }

  lemma HumanWriteTouchesOneDoc(s: Store, d: DocId, humanId: HumanId, expected: int, content: string, now: int)
    ensures OnlyDoc(s, HumanWriteStep(s, d, humanId, expected, content, now).0, d)
  {
  }

  lemma ResolveTouchesOneDoc(s: Store, d: DocId, conflict: nat, humanId: HumanId, orchestrator: bool, chosen: string, now: int)
    ensures OnlyDoc(s, ResolveStep(s, d, conflict, humanId, orchestrator, chosen, now).0, d)
  {
  }

  lemma StepTouchesOneDoc(s: Store, op: Op)
    ensures OnlyDoc(s, Step(s, op).0, op.doc)
  {
    match op
    case Read(d, agent, verdict, now) =>
    case Write(d, agent, expected, content, verdict, now) =>
      SubmitTouchesOneDoc(s, d, Entered(s, d, now), agent, expected, content, verdict.human, now);
    case WriteAsHuman(d, humanId, expected, content, now) => HumanWriteTouchesOneDoc(s, d, humanId, expected, content, now);
    case Resolve(d, conflict, humanId, orchestrator, chosen, now) =>
      ResolveTouchesOneDoc(s, d, conflict, humanId, orchestrator, chosen, now);
    case AcquireLease(d, agent, verdict, ttl, now) =>
    case ReleaseLease(d, agent, verdict, now) =>
    case Allocate(_, _, _) =>
    case ReleaseSections(_) =>
  }

  lemma StepElsewhere(s: Store, op: Op, d: DocId)
    requires d != op.doc
    ensures DocAt(Step(s, op).0, d) == DocAt(s, d)
    ensures d in Step(s, op).0.docs <==> d in s.docs
  {
    StepTouchesOneDoc(s, op);
  }

  // ------------------------------------------------------ the record of a run

  datatype Snapshot = Snapshot(content: string, provenance: seq<LineProvenance>)

  type Archive = map<DocId, seq<Snapshot>>

  function Versions(archive: Archive, d: DocId): seq<Snapshot> {
    if d in archive then archive[d] else [Snapshot("", [])]
  }

  /** Records the document's version if it is new. */
  function Observe(archive: Archive, s: Store, d: DocId): Archive {
    var doc, seen := DocAt(s, d), Versions(archive, d);
    if |seen| == doc.version then archive[d := seen + [Snapshot(doc.content, doc.provenance)]] else archive
  }

  /** The store beside everything it has ever committed. */
  datatype World = World(store: Store, archive: Archive)

  const NEW_WORLD := World(EMPTY, map[])

  function WorldStep(w: World, op: Op): World {
    var s := Step(w.store, op).0;
    World(s, Observe(w.archive, s, op.doc))
  }

  function WorldRun(w: World, ops: seq<Op>): World
    decreases |ops|
  {
    if ops == [] then w else WorldRun(WorldStep(w, ops[0]), ops[1..])
  }

  lemma {:induction false} WorldRunIsRun(w: World, ops: seq<Op>)
    ensures WorldRun(w, ops).store == Run(w.store, ops)
    decreases |ops|
  {
    if ops != [] {
      WorldRunIsRun(WorldStep(w, ops[0]), ops[1..]);
    }
  }

  // ---------------------------------------------------------------- the claim

  /** Some line of the version has this very entry and this text. */
  ghost predicate Holds(version: Snapshot, entry: LineProvenance, line: Line) {
    exists i :: 0 <= i < |version.provenance| && i < |SplitLines(version.content)| &&
                version.provenance[i] == entry && SplitLines(version.content)[i] == line
  }

  ghost predicate Absent(version: Snapshot, id: nat) {
    forall i :: 0 <= i < |version.provenance| ==> version.provenance[i].lineId != id
  }

  /**
   * Line `j` tells the truth: its entry names a version whose history entry
   * carries the same contribution and actor; the line has stood in every
   * version since, and its identity in none before.
   */
  ghost predicate TruthfulLine(doc: Doc, versions: seq<Snapshot>, j: nat)
    requires j < |doc.provenance| == |SplitLines(doc.content)|
    requires |versions| == doc.version + 1 && |doc.history| == doc.version
  {
    var entry := doc.provenance[j];
    1 <= entry.version <= doc.version &&
    entry.contribution == Some(doc.history[entry.version - 1].contribution) &&
    ActorOf(entry.agent, entry.human) == doc.history[entry.version - 1].actor &&
    (forall v :: entry.version <= v <= doc.version ==> Holds(versions[v], entry, SplitLines(doc.content)[j])) &&
    (forall v :: 0 <= v < entry.version ==> Absent(versions[v], entry.lineId))
  }

  ghost predicate Recorded(version: Snapshot, supply: nat) {
    |version.provenance| == |SplitLines(version.content)| && IdsBelow(version.provenance, supply)
  }

  ghost predicate Truthful(doc: Doc, versions: seq<Snapshot>, supply: nat) {
    |doc.provenance| == |SplitLines(doc.content)| && DistinctIds(doc.provenance) &&
    |doc.history| == doc.version && (forall k :: 0 <= k < |doc.history| ==> doc.history[k].version == k + 1) &&
    |versions| == doc.version + 1 && versions[doc.version] == Snapshot(doc.content, doc.provenance) &&
    (forall v :: 0 <= v < |versions| ==> Recorded(versions[v], supply)) &&
    (forall j :: 0 <= j < |doc.provenance| ==> TruthfulLine(doc, versions, j))
  }

  ghost predicate AllTruthful(w: World) {
    forall d: DocId :: Truthful(DocAt(w.store, d), Versions(w.archive, d), w.store.supply)
  }

  // ---------------------------------------------------------------- the proof

  lemma PreviousAreOwn(doc: Doc, now: int, supply: nat)
    requires |doc.provenance| == |SplitLines(doc.content)|
    ensures PreviousEntries(doc, now, supply) == doc.provenance && SupplyAfterSeed(doc, supply) == supply
  {
  }

  /** Each line of a commit is an old line with its old entry, or a new one of the writer's. */
  lemma CommittedLine(before: Doc, c: Commit, supply: nat, j: nat) returns (origin: Option<nat>)
    requires |before.provenance| == |SplitLines(before.content)| && j < |SplitLines(c.next)|
    ensures var lines := Attribution(before, c.next, c.agent, c.human, c.now, supply).lines;
            |lines| == |SplitLines(c.next)| &&
            match origin
            case Some(i) => i < |before.provenance| && lines[j] == before.provenance[i] &&
                            SplitLines(before.content)[i] == SplitLines(c.next)[j]
            case None => lines[j] == Attributed(Writer(c.agent, c.human, supply, before.version + 1, c.now), lines[j].lineId) &&
                         supply < lines[j].lineId
  {
    PreviousAreOwn(before, c.now, supply + 1);
    var writer := Writer(c.agent, c.human, supply, before.version + 1, c.now);
    AttributionIsExact(before.provenance, before.content, c.next, writer, supply + 1, j);
    OriginsAreAlignment(SplitLines(before.content), SplitLines(c.next));
    origin := Origins(SplitLines(before.content), SplitLines(c.next))[j];
  }

  lemma CommitKeepsIds(before: Doc, after: Doc, c: Commit, supply: nat, supply': nat)
    requires |before.provenance| == |SplitLines(before.content)| && DistinctIds(before.provenance)
    requires IdsBelow(before.provenance, supply) && Commits(before, after, c, supply, supply')
    ensures supply < supply' && |after.provenance| == |SplitLines(after.content)|
    ensures DistinctIds(after.provenance) && IdsBelow(after.provenance, supply')
  {
    PreviousAreOwn(before, c.now, supply + 1);
    var writer := Writer(c.agent, c.human, supply, before.version + 1, c.now);
    EntriesMatchLines(before.provenance, before.content, c.next, writer, supply + 1);
    IdsStayDistinct(before.provenance, before.content, c.next, writer, supply + 1);
  }

  lemma NewLineIsTruthful(before: Doc, after: Doc, versions: seq<Snapshot>, c: Commit, supply: nat, supply': nat, j: nat)
    requires Truthful(before, versions, supply) && Commits(before, after, c, supply, supply')
    requires j < |after.provenance| == |SplitLines(after.content)|
    requires after.provenance[j] == Attributed(Writer(c.agent, c.human, supply, before.version + 1, c.now), after.provenance[j].lineId)
    requires supply < after.provenance[j].lineId
    ensures TruthfulLine(after, versions + [Snapshot(after.content, after.provenance)], j)
  {
    var versions' := versions + [Snapshot(after.content, after.provenance)];
    var entry := after.provenance[j];
    forall v | entry.version <= v <= after.version ensures Holds(versions'[v], entry, SplitLines(after.content)[j]) {
      assert versions'[v].provenance[j] == entry;
    }
    forall v | 0 <= v < entry.version ensures Absent(versions'[v], entry.lineId) {
      assert versions'[v] == versions[v] && Recorded(versions[v], supply);
    }
  }

  lemma KeptLineIsTruthful(before: Doc, after: Doc, versions: seq<Snapshot>, supply: nat, i: nat, j: nat)
    requires Truthful(before, versions, supply) && after.version == before.version + 1
    requires |after.history| == |before.history| + 1 && before.history <= after.history
    requires j < |after.provenance| == |SplitLines(after.content)| && i < |before.provenance|
    requires after.provenance[j] == before.provenance[i]
    requires SplitLines(after.content)[j] == SplitLines(before.content)[i]
    ensures TruthfulLine(after, versions + [Snapshot(after.content, after.provenance)], j)
  {
    var versions' := versions + [Snapshot(after.content, after.provenance)];
    var entry, line := after.provenance[j], SplitLines(after.content)[j];
    assert TruthfulLine(before, versions, i);
    assert after.history[entry.version - 1] == before.history[entry.version - 1];
    forall v | entry.version <= v <= after.version ensures Holds(versions'[v], entry, line) {
      if v == after.version {
        assert versions'[v].provenance[j] == entry;
      } else {
        assert versions'[v] == versions[v] && Holds(versions[v], entry, line);
      }
    }
    forall v | 0 <= v < entry.version ensures Absent(versions'[v], entry.lineId) {
      assert versions'[v] == versions[v];
    }
  }

  lemma CommitIsTruthful(before: Doc, after: Doc, versions: seq<Snapshot>, c: Commit, supply: nat, supply': nat)
    requires Truthful(before, versions, supply) && Commits(before, after, c, supply, supply')
    ensures Truthful(after, versions + [Snapshot(after.content, after.provenance)], supply')
  {
    var versions' := versions + [Snapshot(after.content, after.provenance)];
    assert Recorded(versions[before.version], supply);
    CommitKeepsIds(before, after, c, supply, supply');
    forall v | 0 <= v < |versions'| ensures Recorded(versions'[v], supply') {
      if v < |versions| {
        assert versions'[v] == versions[v] && Recorded(versions[v], supply);
      }
    }
    forall j | 0 <= j < |after.provenance| ensures TruthfulLine(after, versions', j) {
      var origin := CommittedLine(before, c, supply, j);
      if origin.Some? {
        KeptLineIsTruthful(before, after, versions, supply, origin.value, j);
      } else {
        NewLineIsTruthful(before, after, versions, c, supply, supply', j);
      }
    }
  }

  lemma QuietIsTruthful(before: Doc, after: Doc, versions: seq<Snapshot>, supply: nat, supply': nat)
    requires Truthful(before, versions, supply) && Quiet(before, after) && supply <= supply'
    ensures Truthful(after, versions, supply')
  {
    forall v | 0 <= v < |versions| ensures Recorded(versions[v], supply') {
      assert Recorded(versions[v], supply);
    }
    forall j | 0 <= j < |after.provenance| ensures TruthfulLine(after, versions, j) {
      assert TruthfulLine(before, versions, j);
    }
  }

  lemma StepIsTruthful(w: World, op: Op)
    requires AllTruthful(w)
    ensures AllTruthful(WorldStep(w, op))
  {
    var w' := WorldStep(w, op);
    var commit := StepOnDoc(w.store, op);
    var doc, doc' := DocAt(w.store, op.doc), DocAt(w'.store, op.doc);
    assert Truthful(doc, Versions(w.archive, op.doc), w.store.supply);
    if commit.Some? {
      assert Recorded(Versions(w.archive, op.doc)[doc.version], w.store.supply);
      CommitKeepsIds(doc, doc', commit.value, w.store.supply, w'.store.supply);
      CommitIsTruthful(doc, doc', Versions(w.archive, op.doc), commit.value, w.store.supply, w'.store.supply);
    }
    forall d: DocId ensures Truthful(DocAt(w'.store, d), Versions(w'.archive, d), w'.store.supply) {
      assert Truthful(DocAt(w.store, d), Versions(w.archive, d), w.store.supply);
      if d != op.doc {
        StepElsewhere(w.store, op, d);
        QuietIsTruthful(DocAt(w.store, d), DocAt(w'.store, d), Versions(w.archive, d), w.store.supply, w'.store.supply);
      } else if commit.None? {
        QuietIsTruthful(doc, doc', Versions(w.archive, d), w.store.supply, w'.store.supply);
      }
    }
  }

  lemma {:induction false} RunIsTruthful(w: World, ops: seq<Op>)
    requires AllTruthful(w)
    ensures AllTruthful(WorldRun(w, ops))
    decreases |ops|
  {
    if ops != [] {
      StepIsTruthful(w, ops[0]);
      RunIsTruthful(WorldStep(w, ops[0]), ops[1..]);
    }
  }

  /** From the empty store, after any run, every line of every document is truthfully blamed. */
  lemma BlameIsTruthful(ops: seq<Op>)
    ensures AllTruthful(WorldRun(NEW_WORLD, ops))
  {
    RunIsTruthful(NEW_WORLD, ops);
  }
}
