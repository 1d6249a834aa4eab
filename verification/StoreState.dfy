/**
 * The versioned document store as a state machine
 * (apps/server/src/concord/store.ts): its state, and for each operation the
 * effect of its critical section. The class in SharedDocStores.dfy refines `Step`.
 *
 * The answer of the authority oracle and the clock reading are part of an
 * operation. Ids of lines and contributions are drawn from one supply.
 */
module StoreState {
  import opened Options
  import opened Text
  import opened Merge
  import opened Provenance
  import opened Sections

  type DocId = string
  type AgentId = string
  type HumanId = string

  datatype Verdict = Verdict(allowed: bool, human: Option<HumanId>)

  datatype Lease = Lease(holder: string, human: Option<HumanId>, acquiredAt: int, expiresAt: int)

  datatype HistoryEntry = HistoryEntry(version: nat, actor: string, human: Option<HumanId>, at: int, contribution: nat)

  datatype Contribution = Contribution(
    id: nat, agent: Option<AgentId>, human: Option<HumanId>, baseVersion: nat, resultingVersion: nat,
    merged: bool, changed: seq<nat>, at: int, caret: Option<Caret>)

  /** A disagreement on record: what the two sides parted from, and what each of them has. */
  datatype PendingConflict = PendingConflict(
    id: nat, agent: AgentId, human: Option<HumanId>, at: int,
    base: string, ours: string, theirs: string, atVersion: nat, conflicts: seq<MergeConflict>)

  datatype Doc = Doc(
    version: nat, content: string, updatedAt: int, updatedBy: Option<string>, lease: Option<Lease>,
    history: seq<HistoryEntry>, conflicts: seq<PendingConflict>,
    provenance: seq<LineProvenance>, contributions: seq<Contribution>)

  datatype BaseKey = BaseKey(agent: AgentId, doc: DocId)

  type Allocations = map<DocId, map<AgentId, string>>

  datatype Store = Store(
    docs: map<DocId, Doc>, bases: map<BaseKey, string>, sections: Allocations, conflictSeq: nat, supply: nat)

  const EMPTY := Store(map[], map[], map[], 0, 0)

  datatype Op =
    | Read(doc: DocId, agent: AgentId, verdict: Verdict, now: int)
    | Write(doc: DocId, agent: AgentId, expected: int, content: string, verdict: Verdict, now: int)
    | WriteAsHuman(doc: DocId, humanId: HumanId, expected: int, content: string, now: int)
    | Resolve(doc: DocId, conflict: nat, humanId: HumanId, orchestrator: bool, chosen: string, now: int)
    | AcquireLease(doc: DocId, agent: AgentId, verdict: Verdict, ttl: int, now: int)
    | ReleaseLease(doc: DocId, agent: AgentId, verdict: Verdict, now: int)
    | Allocate(doc: DocId, agent: AgentId, heading: string)
    | ReleaseSections(doc: DocId)

  datatype Rule = NoAuthority | NotAllocated | SectionMissing | SectionOutside | CrossOwner

  datatype Outcome =
    | ReadOk(version: nat, content: string)
    | Denied(rule: Rule)
    | Leased(holder: string, expiresAt: int)
    | Written(version: nat, content: string, contribution: nat)
    | MergedInto(version: nat, content: string, contribution: nat, hunks: nat)
    | ConflictAt(version: nat, content: string, conflicts: seq<MergeConflict>, conflict: nat)
    | Stale(version: nat, content: string)
    | Resolved(version: nat, content: string)
    | NotFound
    | LeaseTaken(lease: Lease)
    | LeaseHeld(holder: string)
    | LeaseReleased
    | NotHolder(heldBy: Option<string>)
    | Done

  /** The outcomes that commit a new version. */
  predicate Accepted(outcome: Outcome) {
    outcome.Written? || outcome.MergedInto? || outcome.Resolved?
  }

  // -------------------------------------------------------------- documents

  function EmptyDoc(now: int): Doc {
    Doc(0, "", now, None, None, [], [], [], [])
  }

  function Ensure(s: Store, d: DocId, now: int): Doc {
    if d in s.docs then s.docs[d] else EmptyDoc(now)
  }

  function Reap(doc: Doc, now: int): Doc {
    if doc.lease.Some? && doc.lease.value.expiresAt <= now then doc.(lease := None) else doc
  }

  /** The document as every critical section first sees it. */
  function Entered(s: Store, d: DocId, now: int): Doc {
    Reap(Ensure(s, d, now), now)
  }

  function Put(s: Store, d: DocId, doc: Doc): Store {
    s.(docs := s.docs[d := doc])
  }

  predicate LeasedToAnother(doc: Doc, who: string) {
    doc.lease.Some? && doc.lease.value.holder != who
  }

  function BaseOf(s: Store, agent: AgentId, d: DocId): string {
    if BaseKey(agent, d) in s.bases then s.bases[BaseKey(agent, d)] else ""
  }

  function SetBase(s: Store, agent: AgentId, d: DocId, text: string): Store {
    s.(bases := s.bases[BaseKey(agent, d) := text])
  }

  // ------------------------------------------------------------- attribution

  function SeedEntries(count: nat, version: nat, now: int, supply: nat): seq<LineProvenance> {
    seq(count, k requires 0 <= k => LineProvenance(supply + k, None, None, None, version, now))
  }

  /** Entries to carry over; a document without any is seeded from its text. */
  function PreviousEntries(doc: Doc, now: int, supply: nat): seq<LineProvenance> {
    if |doc.provenance| > 0 then doc.provenance
    else SeedEntries(|SplitLines(doc.content)|, doc.version, now, supply)
  }

  function SupplyAfterSeed(doc: Doc, supply: nat): nat {
    if |doc.provenance| > 0 then supply else supply + |SplitLines(doc.content)|
  }

  /** Attribution of the step to `next`; `supply` itself becomes the contribution id. */
  function Attribution(doc: Doc, next: string, agent: Option<AgentId>, human: Option<HumanId>, now: int, supply: nat): Update {
    ReconcileProvenance(PreviousEntries(doc, now, supply + 1), doc.content, next,
                        Writer(agent, human, supply, doc.version + 1, now), SupplyAfterSeed(doc, supply + 1))
  }

  function Advance(doc: Doc, next: string, actor: string, human: Option<HumanId>, now: int, contribution: nat, update: Update): Doc {
    doc.(version := doc.version + 1, content := next, updatedAt := now, updatedBy := Some(actor),
         provenance := update.lines,
         history := doc.history + [HistoryEntry(doc.version + 1, actor, human, now, contribution)])
  }

  function Log(before: Doc, after: Doc, agent: Option<AgentId>, human: Option<HumanId>, merged: bool, now: int,
               contribution: nat, update: Update, caret: Option<Caret>): Doc
  {
    after.(contributions := after.contributions +
           [Contribution(contribution, agent, human, before.version, before.version + 1, merged, update.changed, now, caret)])
  }

  // ----------------------------------------------------------------- reading

  function ReadStep(s: Store, d: DocId, agent: AgentId, verdict: Verdict, now: int): (Store, Outcome) {
    if !verdict.allowed then (s, Denied(NoAuthority))
    else
      var doc := Entered(s, d, now);
      (SetBase(Put(s, d, doc), agent, d, doc.content), ReadOk(doc.version, doc.content))
  }

  // ----------------------------------------------------------------- writing

  /** Why the section rule refuses `next`, checked against the document's own text. */
  function SectionBreach(sections: Allocations, d: DocId, agent: AgentId, content: string, next: string): Option<Rule> {
    if d !in sections || |sections[d]| == 0 then None
    else if agent !in sections[d] then Some(NotAllocated)
    else
      var range := LocateSection(content, sections[d][agent]);
      if range.None? then Some(SectionMissing)
      else if FindOutOfBounds(content, next, range.value).None? then None
      else Some(SectionOutside)
  }

  function CommitWrite(s: Store, d: DocId, doc: Doc, agent: AgentId, human: Option<HumanId>, next: string, merged: bool, now: int): Store {
    var update := Attribution(doc, next, Some(agent), None, now, s.supply);
    var after := Log(doc, Advance(doc, next, agent, human, now, s.supply, update), Some(agent), human, merged, now,
                     s.supply, update, update.caret);
    SetBase(Put(s, d, after), agent, d, next).(supply := update.supply)
  }

  function WithoutAgent(conflicts: seq<PendingConflict>, agent: AgentId): seq<PendingConflict> {
    if conflicts == [] then []
    else (if conflicts[0].agent != agent then [conflicts[0]] else []) + WithoutAgent(conflicts[1..], agent)
  }

  function RecordConflict(s: Store, d: DocId, doc: Doc, agent: AgentId, human: Option<HumanId>, base: string, ours: string,
                          conflicts: seq<MergeConflict>, now: int): Store
  {
    var pending := PendingConflict(s.conflictSeq + 1, agent, human, now, base, ours, doc.content, doc.version, conflicts);
    Put(s, d, doc.(conflicts := WithoutAgent(doc.conflicts, agent) + [pending])).(conflictSeq := s.conflictSeq + 1)
  }

  /** The part of a write after authority and lease: compare-and-swap, or merge. */
  function Submit(s: Store, d: DocId, doc: Doc, agent: AgentId, expected: int, content: string, human: Option<HumanId>, now: int): (Store, Outcome) {
    if expected == doc.version then
      var breach := SectionBreach(s.sections, d, agent, doc.content, content);
      if breach.Some? then (Put(s, d, doc), Denied(breach.value))
      else (CommitWrite(s, d, doc, agent, human, content, false, now), Written(doc.version + 1, content, s.supply))
    else
      var base := BaseOf(s, agent, d);
      match Merge3(base, content, doc.content)
      case Merged(merged, hunks) =>
        var breach := SectionBreach(s.sections, d, agent, doc.content, merged);
        if breach.Some? then (Put(s, d, doc), Denied(breach.value))
        else (CommitWrite(s, d, doc, agent, human, merged, true, now), MergedInto(doc.version + 1, merged, s.supply, hunks))
      case Conflicted(conflicts) =>
        (RecordConflict(s, d, doc, agent, human, base, content, conflicts, now),
         ConflictAt(doc.version, doc.content, conflicts, s.conflictSeq + 1))
  }

  function WriteStep(s: Store, d: DocId, agent: AgentId, expected: int, content: string, verdict: Verdict, now: int): (Store, Outcome) {
    if !verdict.allowed then (s, Denied(NoAuthority))
    else
      var doc := Entered(s, d, now);
      if LeasedToAnother(doc, agent) then (Put(s, d, doc), Leased(doc.lease.value.holder, doc.lease.value.expiresAt))
      else Submit(s, d, doc, agent, expected, content, verdict.human, now)
  }

  function WithoutBases(bases: map<BaseKey, string>, d: DocId): map<BaseKey, string> {
    map key | key in bases && key.doc != d :: bases[key]
  }

  function CommitHumanEdit(s: Store, d: DocId, doc: Doc, humanId: HumanId, content: string, now: int): Store {
    var update := Attribution(doc, content, None, Some(humanId), now, s.supply);
    var after := Log(doc, Advance(doc, content, humanId, Some(humanId), now, s.supply, update), None, Some(humanId), false, now,
                     s.supply, update, None);
    Put(s, d, after).(bases := WithoutBases(s.bases, d), supply := update.supply)
  }

  function HumanWriteStep(s: Store, d: DocId, humanId: HumanId, expected: int, content: string, now: int): (Store, Outcome) {
    var doc := Entered(s, d, now);
    if LeasedToAnother(doc, humanId) then (Put(s, d, doc), Leased(doc.lease.value.holder, doc.lease.value.expiresAt))
    else if expected != doc.version then (Put(s, d, doc), Stale(doc.version, doc.content))
    else (CommitHumanEdit(s, d, doc, humanId, content, now), Written(doc.version + 1, content, s.supply))
  }

  // --------------------------------------------------------------- resolving

  function FindConflict(conflicts: seq<PendingConflict>, id: nat): Option<PendingConflict> {
    if conflicts == [] then None
    else if conflicts[0].id == id then Some(conflicts[0])
    else FindConflict(conflicts[1..], id)
  }

  function WithoutId(conflicts: seq<PendingConflict>, id: nat): seq<PendingConflict> {
    if conflicts == [] then []
    else (if conflicts[0].id != id then [conflicts[0]] else []) + WithoutId(conflicts[1..], id)
  }

  function Replace(conflicts: seq<PendingConflict>, id: nat, again: PendingConflict): seq<PendingConflict> {
    if conflicts == [] then []
    else [if conflicts[0].id == id then again else conflicts[0]] + Replace(conflicts[1..], id, again)
  }

  function CommitResolution(s: Store, d: DocId, pending: PendingConflict, humanId: HumanId, merged: string, now: int): Store
    requires d in s.docs
  {
    var doc := s.docs[d];
    var update := Attribution(doc, merged, Some(humanId), None, now, s.supply);
    var after := Advance(doc, merged, humanId, Some(humanId), now, s.supply, update)
                 .(conflicts := WithoutId(doc.conflicts, pending.id));
    SetBase(Put(s, d, after), pending.agent, d, merged).(supply := update.supply)
  }

  function ResolveStep(s: Store, d: DocId, conflict: nat, humanId: HumanId, orchestrator: bool, chosen: string, now: int): (Store, Outcome) {
    if d !in s.docs || FindConflict(s.docs[d].conflicts, conflict).None? then (s, NotFound)
    else
      var doc := s.docs[d];
      var pending := FindConflict(doc.conflicts, conflict).value;
      if !orchestrator && pending.human != Some(humanId) then (s, Denied(CrossOwner))
      else
        match Merge3(pending.theirs, chosen, doc.content)
        case Conflicted(conflicts) =>
          var again := pending.(ours := chosen, theirs := doc.content, atVersion := doc.version, at := now, conflicts := conflicts);
          (Put(s, d, doc.(conflicts := Replace(doc.conflicts, conflict, again))),
           ConflictAt(doc.version, doc.content, conflicts, conflict))
        case Merged(merged, _) =>
          (CommitResolution(s, d, pending, humanId, merged, now), Resolved(doc.version + 1, merged))
  }

  // ------------------------------------------------------------------ leases

  function AcquireStep(s: Store, d: DocId, agent: AgentId, verdict: Verdict, ttl: int, now: int): (Store, Outcome) {
    if !verdict.allowed then (s, Denied(NoAuthority))
    else
      var doc := Entered(s, d, now);
      if LeasedToAnother(doc, agent) then (Put(s, d, doc), LeaseHeld(doc.lease.value.holder))
      else
        var lease := Lease(agent, verdict.human, now, now + ttl);
        (Put(s, d, doc.(lease := Some(lease))), LeaseTaken(lease))
  }

  function ReleaseStep(s: Store, d: DocId, agent: AgentId, verdict: Verdict, now: int): (Store, Outcome) {
    if !verdict.allowed then (s, Denied(NoAuthority))
    else
      var doc := Entered(s, d, now);
      if doc.lease.None? || doc.lease.value.holder != agent then
        (Put(s, d, doc), NotHolder(if doc.lease.None? then None else Some(doc.lease.value.holder)))
      else (Put(s, d, doc.(lease := None)), LeaseReleased)
  }

  // ---------------------------------------------------------------- sections

  function AllocateIn(sections: Allocations, d: DocId, agent: AgentId, heading: string): Allocations {
    sections[d := (if d in sections then sections[d] else map[])[agent := Trim(heading)]]
  }

  // -------------------------------------------------------------------- steps

  function Step(s: Store, op: Op): (Store, Outcome) {
    match op
    case Read(d, agent, verdict, now) => ReadStep(s, d, agent, verdict, now)
    case Write(d, agent, expected, content, verdict, now) => WriteStep(s, d, agent, expected, content, verdict, now)
    case WriteAsHuman(d, humanId, expected, content, now) => HumanWriteStep(s, d, humanId, expected, content, now)
    case Resolve(d, conflict, humanId, orchestrator, chosen, now) => ResolveStep(s, d, conflict, humanId, orchestrator, chosen, now)
    case AcquireLease(d, agent, verdict, ttl, now) => AcquireStep(s, d, agent, verdict, ttl, now)
    case ReleaseLease(d, agent, verdict, now) => ReleaseStep(s, d, agent, verdict, now)
    case Allocate(d, agent, heading) => (s.(sections := AllocateIn(s.sections, d, agent, heading)), Done)
    case ReleaseSections(d) => (s.(sections := s.sections - {d}), Done)
  }

  /** The state after a run of operations. */
  function Run(s: Store, ops: seq<Op>): Store
    decreases |ops|
  {
    if ops == [] then s else Run(Step(s, ops[0]).0, ops[1..])
  }
}
