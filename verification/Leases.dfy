/**
 * Exclusive leases on a document (apps/server/src/concord/store.ts,
 * `acquireLease`, `releaseLease` and the checks in `write`, `writeAsHuman`).
 */
module Leases {
  import opened Options
  import opened Merge
  import opened StoreState
  import opened Blame

  /** The clock reading of the step, if it takes one, is before `deadline`. */
  predicate EarlierThan(op: Op, deadline: int) {
    op.Allocate? || op.ReleaseSections? || op.now < deadline
  }

  function WriterOf(op: Op): string
    requires op.Write? || op.WriteAsHuman?
  {
    if op.Write? then op.agent else op.humanId
  }

  lemma LiveLeaseIsEntered(s: Store, d: DocId, now: int)
    requires DocAt(s, d).lease.Some? && now < DocAt(s, d).lease.value.expiresAt
    ensures Entered(s, d, now) == s.docs[d]
  {
  }

  // -------------------------------------------------------- who is let through

  /** Somebody else's lease on the document has not run out yet. */
  ghost predicate HeldByAnother(s: Store, d: DocId, who: string, now: int) {
    d in s.docs && s.docs[d].lease.Some? && s.docs[d].lease.value.holder != who && now < s.docs[d].lease.value.expiresAt
  }

  /** The same for `who`. */
  ghost predicate HeldByOneself(s: Store, d: DocId, who: string, now: int) {
    d in s.docs && s.docs[d].lease.Some? && s.docs[d].lease.value.holder == who && now < s.docs[d].lease.value.expiresAt
  }

  lemma EnteredLease(s: Store, d: DocId, who: string, now: int)
    ensures LeasedToAnother(Entered(s, d, now), who) <==> HeldByAnother(s, d, who, now)
    ensures Entered(s, d, now).lease.Some? && Entered(s, d, now).lease.value.holder == who <==> HeldByOneself(s, d, who, now)
    ensures Entered(s, d, now).lease.Some? ==> d in s.docs && Entered(s, d, now).lease == s.docs[d].lease
  {
  }

  lemma SubmitLetsThrough(s: Store, d: DocId, doc: Doc, agent: AgentId, expected: int, content: string, human: Option<HumanId>, now: int)
    ensures var outcome := Submit(s, d, doc, agent, expected, content, human, now).1;
            !outcome.Leased? && outcome != Denied(NoAuthority)
  {
  }

  /** An Agent without authority changes nothing, learns nothing, and is told so; nobody else is. */
  lemma DeniedIff(s: Store, op: Op)
    requires op.Read? || op.Write? || op.AcquireLease? || op.ReleaseLease?
    ensures Step(s, op).1 == Denied(NoAuthority) <==> !op.verdict.allowed
    ensures !op.verdict.allowed ==> Step(s, op).0 == s
  {
    if op.Write? && op.verdict.allowed {
      SubmitLetsThrough(s, op.doc, Entered(s, op.doc, op.now), op.agent, op.expected, op.content, op.verdict.human, op.now);
    }
  }

  /** A read is answered exactly when it is permitted, with the committed text, whoever holds a lease. */
  lemma ReadIff(s: Store, op: Op)
    requires op.Read?
    ensures Step(s, op).1 == if op.verdict.allowed then ReadOk(DocAt(s, op.doc).version, DocAt(s, op.doc).content) else Denied(NoAuthority)
  {
    EnteredIsQuiet(s, op.doc, op.now);
  }

  /**
   * A write is held off exactly by somebody else's lease that has not run out,
   * and is told whose it is and until when; a lease past its end holds off nobody.
   */
  lemma LeasedIff(s: Store, op: Op)
    requires op.Write? || op.WriteAsHuman?
    ensures Step(s, op).1.Leased? <==> (op.Write? ==> op.verdict.allowed) && HeldByAnother(s, op.doc, WriterOf(op), op.now)
    ensures Step(s, op).1.Leased? ==>
              op.doc in s.docs && s.docs[op.doc].lease.Some? &&
              Step(s, op).1 == Leased(s.docs[op.doc].lease.value.holder, s.docs[op.doc].lease.value.expiresAt)
  {
    EnteredLease(s, op.doc, WriterOf(op), op.now);
    if op.Write? {
      SubmitLetsThrough(s, op.doc, Entered(s, op.doc, op.now), op.agent, op.expected, op.content, op.verdict.human, op.now);
    }
  }

  /** A lease is granted exactly when it is permitted and nobody else's stands in the way. */
  lemma TakenIff(s: Store, op: Op)
    requires op.AcquireLease?
    ensures Step(s, op).1.LeaseTaken? <==> op.verdict.allowed && !HeldByAnother(s, op.doc, op.agent, op.now)
    ensures Step(s, op).1.LeaseHeld? <==> op.verdict.allowed && HeldByAnother(s, op.doc, op.agent, op.now)
    ensures Step(s, op).1.LeaseHeld? ==>
              op.doc in s.docs && s.docs[op.doc].lease.Some? && Step(s, op).1.holder == s.docs[op.doc].lease.value.holder
  {
    EnteredLease(s, op.doc, op.agent, op.now);
  }

  /** It is given back exactly by its holder, before it has run out; then the document has none. */
  lemma ReleasedIff(s: Store, op: Op)
    requires op.ReleaseLease?
    ensures Step(s, op).1.LeaseReleased? <==> op.verdict.allowed && HeldByOneself(s, op.doc, op.agent, op.now)
    ensures Step(s, op).1.LeaseReleased? ==> DocAt(Step(s, op).0, op.doc).lease.None?
    ensures op.verdict.allowed && !Step(s, op).1.LeaseReleased? ==>
              Step(s, op).1 == NotHolder(if HeldByAnother(s, op.doc, op.agent, op.now) then Some(s.docs[op.doc].lease.value.holder) else None)
  {
    EnteredLease(s, op.doc, op.agent, op.now);
  }

  /**
   * What a write that is let through is answered. On the version it states, its
   * payload is what would be committed; on any other, the merge of it from the
   * Agent's base. That is committed as the next version unless the section rule
   * refuses it; a merge that conflicts is answered with the text as it is.
   */
  lemma WriteIs(s: Store, op: Op)
    requires op.Write? && op.verdict.allowed && !HeldByAnother(s, op.doc, op.agent, op.now)
    ensures var doc, outcome := DocAt(s, op.doc), Step(s, op).1;
            var merge := Merge3(if BaseKey(op.agent, op.doc) in s.bases then s.bases[BaseKey(op.agent, op.doc)] else "", op.content, doc.content);
            if op.expected != doc.version && merge.Conflicted? then
              outcome.ConflictAt? && outcome.version == doc.version && outcome.content == doc.content && outcome.conflicts == merge.conflicts
            else
              var next := if op.expected == doc.version then op.content else merge.content;
              var breach := SectionBreach(s.sections, op.doc, op.agent, doc.content, next);
              if breach.Some? then outcome == Denied(breach.value)
              else if op.expected == doc.version then outcome.Written? && outcome.version == doc.version + 1 && outcome.content == next
              else outcome.MergedInto? && outcome.version == doc.version + 1 && outcome.content == next && outcome.hunks == merge.hunks
  {
    EnteredLease(s, op.doc, op.agent, op.now);
    EnteredIsQuiet(s, op.doc, op.now);
  }

  /** A human's write is answered by the lease, else by the version: written on the current one, stale on any other. */
  lemma HumanWriteIs(s: Store, op: Op)
    requires op.WriteAsHuman? && !HeldByAnother(s, op.doc, op.humanId, op.now)
    ensures var doc, outcome := DocAt(s, op.doc), Step(s, op).1;
            if op.expected == doc.version
            then outcome.Written? && outcome.version == doc.version + 1 && outcome.content == op.content
            else outcome == Stale(doc.version, doc.content)
  {
    EnteredLease(s, op.doc, op.humanId, op.now);
    EnteredIsQuiet(s, op.doc, op.now);
  }

  // ------------------------------------------------------------------ exclusion

  /** While a lease is live, the only commits on the document are its holder's writes and conflict decisions. */
  lemma LeaseExcludesOthers(s: Store, op: Op)
    requires DocAt(s, op.doc).lease.Some? && EarlierThan(op, DocAt(s, op.doc).lease.value.expiresAt)
    requires Accepted(Step(s, op).1)
    ensures op.Resolve? || ((op.Write? || op.WriteAsHuman?) && WriterOf(op) == DocAt(s, op.doc).lease.value.holder)
  {
  }

  lemma AttributionIgnoresLease(doc: Doc, lease: Option<Lease>, next: string, agent: Option<AgentId>, human: Option<HumanId>,
                                now: int, supply: nat)
    ensures Attribution(doc.(lease := lease), next, agent, human, now, supply) == Attribution(doc, next, agent, human, now, supply)
  {
    var leased := doc.(lease := lease);
    assert PreviousEntries(leased, now, supply + 1) == PreviousEntries(doc, now, supply + 1);
    assert SupplyAfterSeed(leased, supply + 1) == SupplyAfterSeed(doc, supply + 1);
  }

  lemma ResolutionIgnoresLease(s: Store, d: DocId, lease: Option<Lease>, pending: PendingConflict, humanId: HumanId, merged: string, now: int)
    requires d in s.docs
    ensures var leased := Put(s, d, s.docs[d].(lease := lease));
            CommitResolution(leased, d, pending, humanId, merged, now).docs[d] ==
            CommitResolution(s, d, pending, humanId, merged, now).docs[d].(lease := lease)
  {
    AttributionIgnoresLease(s.docs[d], lease, merged, Some(humanId), None, now, s.supply);
  }

  /** A conflict is settled the same way whoever holds a lease. */
  lemma ResolveIgnoresLease(s: Store, op: Op, lease: Option<Lease>)
    requires op.Resolve? && op.doc in s.docs
    ensures var leased := Put(s, op.doc, s.docs[op.doc].(lease := lease));
            Step(leased, op).1 == Step(s, op).1 &&
            DocAt(Step(leased, op).0, op.doc) == DocAt(Step(s, op).0, op.doc).(lease := lease)
  {
    var leased := Put(s, op.doc, s.docs[op.doc].(lease := lease));
    var outcome := Step(s, op).1;
    assert leased.docs[op.doc].conflicts == s.docs[op.doc].conflicts && leased.docs[op.doc].content == s.docs[op.doc].content;
    if outcome.Resolved? {
      var pending := FindConflict(s.docs[op.doc].conflicts, op.conflict).value;
      ResolutionIgnoresLease(s, op.doc, lease, pending, op.humanId, outcome.content, op.now);
    }
  }

  lemma SubmitKeepsLease(s: Store, d: DocId, doc: Doc, agent: AgentId, expected: int, content: string, human: Option<HumanId>, now: int)
    ensures var s' := Submit(s, d, doc, agent, expected, content, human, now).0;
            d in s'.docs && s'.docs[d].lease == doc.lease
  {
    SubmitCommits(s, d, doc, agent, expected, content, human, now);
    SubmitRefuses(s, d, doc, agent, expected, content, human, now);
  }

  /** The holder gives its lease on the document back. */
  predicate Releases(s: Store, op: Op, d: DocId) {
    op.doc == d && op.ReleaseLease? && Step(s, op).1.LeaseReleased?
  }

  /** What a step makes of a lease that is live for it. */
  ghost predicate LeaseAfter(s: Store, op: Op, d: DocId)
    requires DocAt(s, d).lease.Some?
  {
    var (s', outcome) := Step(s, op);
    DocAt(s', d).lease ==
      if op.doc == d && outcome.LeaseTaken? then Some(outcome.lease)
      else if Releases(s, op, d) then None
      else DocAt(s, d).lease
  }

  /** Before it expires a lease changes only by a renewal or a release, and only its holder can do either. */
  lemma LeaseStays(s: Store, op: Op, d: DocId)
    requires DocAt(s, d).lease.Some? && EarlierThan(op, DocAt(s, d).lease.value.expiresAt)
    ensures LeaseAfter(s, op, d)
    ensures op.doc == d && Step(s, op).1.LeaseTaken? ==>
              op.AcquireLease? && op.agent == DocAt(s, d).lease.value.holder == Step(s, op).1.lease.holder
    ensures Releases(s, op, d) ==> op.agent == DocAt(s, d).lease.value.holder
  {
    if d != op.doc {
      StepElsewhere(s, op, d);
    } else if op.Write? {
      LiveLeaseIsEntered(s, d, op.now);
      SubmitKeepsLease(s, d, s.docs[d], op.agent, op.expected, op.content, op.verdict.human, op.now);
      SubmitGrantsNothing(s, d, Entered(s, d, op.now), op.agent, op.expected, op.content, op.verdict.human, op.now);
    } else if op.WriteAsHuman? {
      HumanEditKeepsLease(s, op);
    }
  }

  lemma HumanEditKeepsLease(s: Store, op: Op)
    requires op.WriteAsHuman? && DocAt(s, op.doc).lease.Some? && op.now < DocAt(s, op.doc).lease.value.expiresAt
    ensures DocAt(Step(s, op).0, op.doc).lease == DocAt(s, op.doc).lease && !Step(s, op).1.LeaseTaken?
  {
    LiveLeaseIsEntered(s, op.doc, op.now);
  }

  lemma SubmitGrantsNothing(s: Store, d: DocId, doc: Doc, agent: AgentId, expected: int, content: string, human: Option<HumanId>, now: int)
    ensures !Submit(s, d, doc, agent, expected, content, human, now).1.LeaseTaken?
  {
  }

  /** Every step of the run comes before the lease of its moment expires, and none releases it. */
  ghost predicate NeverLapses(s: Store, ops: seq<Op>, d: DocId)
    decreases |ops|
  {
    ops == [] ||
    (DocAt(s, d).lease.Some? && EarlierThan(ops[0], DocAt(s, d).lease.value.expiresAt) && !Releases(s, ops[0], d) &&
     NeverLapses(Step(s, ops[0]).0, ops[1..], d))
  }

  ghost predicate HeldBy(s: Store, d: DocId, holder: string) {
    DocAt(s, d).lease.Some? && DocAt(s, d).lease.value.holder == holder
  }

  /** Through renewals and everything else, the document stays leased to the same holder. */
  lemma {:induction false} LeaseStaysInRun(s: Store, ops: seq<Op>, d: DocId, holder: string)
    requires HeldBy(s, d, holder) && NeverLapses(s, ops, d)
    ensures HeldBy(Run(s, ops), d, holder)
    decreases |ops|
  {
    if ops != [] {
      LeaseStays(s, ops[0], d);
      LeaseStaysInRun(Step(s, ops[0]).0, ops[1..], d, holder);
    }
  }

  /** What is granted, and that it is on record. */
  lemma GrantedIs(s: Store, acquire: Op)
    requires acquire.AcquireLease? && Step(s, acquire).1.LeaseTaken?
    ensures Step(s, acquire).1.lease == Lease(acquire.agent, acquire.verdict.human, acquire.now, acquire.now + acquire.ttl)
    ensures DocAt(Step(s, acquire).0, acquire.doc).lease == Some(Step(s, acquire).1.lease)
  {
  }

  /**
   * From the moment a lease is granted, as long as it neither lapses nor is
   * given back, nobody but its holder is granted a lease on the document or
   * commits there, conflict decisions aside, whatever runs in between; a
   * renewal carries this on to its own expiry.
   */
  lemma GrantedLeaseIsExclusive(s: Store, acquire: Op, between: seq<Op>, late: Op)
    requires acquire.AcquireLease? && Step(s, acquire).1.LeaseTaken? && late.doc == acquire.doc
    requires NeverLapses(Step(s, acquire).0, between, acquire.doc) && ComesInTime(Run(Step(s, acquire).0, between), late)
    ensures Step(s, acquire).1.lease == Lease(acquire.agent, acquire.verdict.human, acquire.now, acquire.now + acquire.ttl)
    ensures var outcome := Step(Run(Step(s, acquire).0, between), late).1;
            (outcome.LeaseTaken? ==> late.AcquireLease? && late.agent == acquire.agent) &&
            (Accepted(outcome) ==> late.Resolve? || ((late.Write? || late.WriteAsHuman?) && WriterOf(late) == acquire.agent))
  {
    GrantedIs(s, acquire);
    var held := Step(s, acquire).0;
    LeaseStaysInRun(held, between, acquire.doc, acquire.agent);
    OnlyHolderActs(Run(held, between), late, acquire.agent);
  }

  /** The step comes before the lease on its document expires. */
  predicate ComesInTime(s: Store, op: Op) {
    DocAt(s, op.doc).lease.Some? && EarlierThan(op, DocAt(s, op.doc).lease.value.expiresAt)
  }

  lemma OnlyHolderActs(s: Store, op: Op, holder: string)
    requires HeldBy(s, op.doc, holder) && ComesInTime(s, op)
    ensures var outcome := Step(s, op).1;
            (outcome.LeaseTaken? ==> op.AcquireLease? && op.agent == holder) &&
            (Accepted(outcome) ==> op.Resolve? || ((op.Write? || op.WriteAsHuman?) && WriterOf(op) == holder))
  {
    if Accepted(Step(s, op).1) {
      LeaseExcludesOthers(s, op);
    } else {
      LeaseStays(s, op, op.doc);
    }
  }
}
