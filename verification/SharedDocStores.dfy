/**
 * The store as the source has it: an object whose methods update the maps of
 * documents, bases and section allocations (apps/server/src/concord/store.ts,
 * `SharedDocStore`; apps/server/src/concord/sections.ts, `SectionRegistry`).
 * Each method is a critical section and refines one step of StoreState.
 */
module SharedDocStores {
  import opened Options
  import opened Merge
  import opened Provenance
  import opened Sections
  import opened StoreState

  class SectionRegistry {
    var byDoc: Allocations

    constructor ()
      ensures byDoc == map[]
    {
      byDoc := map[];
    }

    method Allocate(docId: DocId, agentId: AgentId, heading: string)
      modifies this
      ensures byDoc == AllocateIn(old(byDoc), docId, agentId, heading)
    {
      var onDoc: map<AgentId, string> := map[];
      if docId in byDoc { onDoc := byDoc[docId]; }
      onDoc := onDoc[agentId := Trim(heading)];
      byDoc := byDoc[docId := onDoc];
    }

    predicate IsAllocated(docId: DocId)
      reads this
    {
      docId in byDoc && |byDoc[docId]| > 0
    }

    function HeadingFor(docId: DocId, agentId: AgentId): Option<string>
      reads this
    {
      if docId in byDoc && agentId in byDoc[docId] then Some(byDoc[docId][agentId]) else None
    }

    method Release(docId: DocId)
      modifies this
      ensures byDoc == old(byDoc) - {docId}
    {
      byDoc := byDoc - {docId};
    }
  }

  class SharedDocStore {
    var docs: map<DocId, Doc>
    var bases: map<BaseKey, string>
    var conflictSeq: nat
    var supply: nat
    const sections: SectionRegistry

    ghost function State(): Store
      reads this, sections
    {
      Store(docs, bases, sections.byDoc, conflictSeq, supply)
    }

    constructor ()
      ensures State() == EMPTY && fresh(sections)
    {
      docs, bases, conflictSeq, supply := map[], map[], 0, 0;
      sections := new SectionRegistry();
    }

    /** `ensure` and `reapLease`: the top of every critical section. */
    method Enter(docId: DocId, now: int) returns (doc: Doc)
      modifies `docs
      ensures doc == Entered(old(State()), docId, now)
      ensures State() == Put(old(State()), docId, doc)
    {
      if docId !in docs { docs := docs[docId := EmptyDoc(now)]; }
      doc := docs[docId];
      if doc.lease.Some? && doc.lease.value.expiresAt <= now {
        doc := doc.(lease := None);
        docs := docs[docId := doc];
      }
      assert docs == old(docs)[docId := doc];
    }

    method Read(docId: DocId, agentId: AgentId, verdict: Verdict, now: int) returns (outcome: Outcome)
      modifies this
      ensures (State(), outcome) == Step(old(State()), StoreState.Read(docId, agentId, verdict, now))
    {
      if !verdict.allowed { return Denied(NoAuthority); }
      var doc := Enter(docId, now);
      bases := bases[BaseKey(agentId, docId) := doc.content];
      return ReadOk(doc.version, doc.content);
    }

    /** Why the section rule refuses `next`; read inside the critical section. */
    method OutOfBounds(docId: DocId, agentId: AgentId, content: string, next: string) returns (breach: Option<Rule>)
      ensures breach == SectionBreach(sections.byDoc, docId, agentId, content, next)
    {
      if !sections.IsAllocated(docId) { return None; }
      var heading := sections.HeadingFor(docId, agentId);
      if heading.None? { return Some(NotAllocated); }
      var range := Locate(content, heading.value);
      if range.None? { return Some(SectionMissing); }
      var violation := CheckBounds(content, next, range.value);
      if violation.None? { return None; }
      return Some(SectionOutside);
    }

    /** Attribution is computed before anything is changed; a failing length check would change nothing. */
    method Attribute(doc: Doc, next: string, agent: Option<AgentId>, human: Option<HumanId>, now: int)
      returns (contribution: nat, update: Update)
      ensures contribution == supply && update == Attribution(doc, next, agent, human, now, supply)
    {
      contribution := supply;
      var result := Reconcile(PreviousEntries(doc, now, supply + 1), doc.content, next,
                              Writer(agent, human, contribution, doc.version + 1, now), SupplyAfterSeed(doc, supply + 1));
      update := result.update;
    }

    method Commit(docId: DocId, doc: Doc, agentId: AgentId, human: Option<HumanId>, next: string, merged: bool, now: int)
      returns (contribution: nat)
      modifies this
      ensures contribution == old(supply)
      ensures State() == CommitWrite(old(State()), docId, doc, agentId, human, next, merged, now)
    {
      var update;
      contribution, update := Attribute(doc, next, Some(agentId), None, now);
      var after := doc.(version := doc.version + 1, content := next, updatedAt := now, updatedBy := Some(agentId),
                        provenance := update.lines);
      after := after.(contributions := after.contributions +
                        [Contribution(contribution, Some(agentId), human, doc.version, after.version, merged, update.changed, now, update.caret)]);
      after := after.(history := after.history + [HistoryEntry(after.version, agentId, human, now, contribution)]);
      docs := docs[docId := after];
      supply := update.supply;
      bases := bases[BaseKey(agentId, docId) := next];
    }

    method Write(docId: DocId, agentId: AgentId, expected: int, content: string, verdict: Verdict, now: int)
      returns (outcome: Outcome)
      modifies this
      ensures (State(), outcome) == Step(old(State()), StoreState.Write(docId, agentId, expected, content, verdict, now))
    {
      if !verdict.allowed { return Denied(NoAuthority); }
      var doc := Enter(docId, now);
      if doc.lease.Some? && doc.lease.value.holder != agentId {
        return Leased(doc.lease.value.holder, doc.lease.value.expiresAt);
      }
      outcome := SubmitEdit(docId, doc, agentId, expected, content, verdict.human, now);
      SubmitAfterEnter(old(State()), docId, doc, agentId, expected, content, verdict.human, now);
    }

    method SubmitEdit(docId: DocId, doc: Doc, agentId: AgentId, expected: int, content: string, human: Option<HumanId>, now: int)
      returns (outcome: Outcome)
      requires docId in docs && docs[docId] == doc
      modifies this
      ensures (State(), outcome) == Submit(old(State()), docId, doc, agentId, expected, content, human, now)
    {
      assert State() == Put(State(), docId, doc);
      if expected == doc.version {
        var breach := OutOfBounds(docId, agentId, doc.content, content);
        if breach.Some? { return Denied(breach.value); }
        var contribution := Commit(docId, doc, agentId, human, content, false, now);
        return Written(doc.version + 1, content, contribution);
      }
      var base := if BaseKey(agentId, docId) in bases then bases[BaseKey(agentId, docId)] else "";
      var merged := ComputeMerge3(base, content, doc.content);
      if merged.Merged? {
        var breach := OutOfBounds(docId, agentId, doc.content, merged.content);
        if breach.Some? { return Denied(breach.value); }
        var contribution := Commit(docId, doc, agentId, human, merged.content, true, now);
        return MergedInto(doc.version + 1, merged.content, contribution, merged.hunks);
      }
      conflictSeq := conflictSeq + 1;
      var pending := PendingConflict(conflictSeq, agentId, human, now, base, content, doc.content, doc.version, merged.conflicts);
      docs := docs[docId := doc.(conflicts := WithoutAgent(doc.conflicts, agentId) + [pending])];
      return ConflictAt(doc.version, doc.content, merged.conflicts, pending.id);
    }

    /** Every Agent's base on the document is dropped, key by key. */
    method ClearBases(docId: DocId)
      modifies `bases
      ensures bases == WithoutBases(old(bases), docId)
    {
      var keys := bases.Keys;
      while keys != {}
        invariant keys <= old(bases).Keys
        invariant bases == map key | key in old(bases) && (key in keys || key.doc != docId) :: old(bases)[key]
        decreases |keys|
      {
        var key :| key in keys;
        if key.doc == docId { bases := bases - {key}; }
        keys := keys - {key};
      }
    }

    method WriteAsHuman(docId: DocId, humanId: HumanId, expected: int, content: string, now: int) returns (outcome: Outcome)
      modifies this
      ensures (State(), outcome) == Step(old(State()), StoreState.WriteAsHuman(docId, humanId, expected, content, now))
    {
      var doc := Enter(docId, now);
      if doc.lease.Some? && doc.lease.value.holder != humanId {
        return Leased(doc.lease.value.holder, doc.lease.value.expiresAt);
      }
      if expected != doc.version { return Stale(doc.version, doc.content); }
      var contribution := CommitAsHuman(docId, doc, humanId, content, now);
      HumanEditAfterEnter(old(State()), docId, doc, humanId, content, now);
      return Written(doc.version + 1, content, contribution);
    }

    method CommitAsHuman(docId: DocId, doc: Doc, humanId: HumanId, content: string, now: int) returns (contribution: nat)
      modifies this
      ensures contribution == old(supply)
      ensures State() == CommitHumanEdit(old(State()), docId, doc, humanId, content, now)
    {
      var update;
      contribution, update := Attribute(doc, content, None, Some(humanId), now);
      var after := doc.(version := doc.version + 1, content := content, updatedAt := now, updatedBy := Some(humanId),
                        provenance := update.lines);
      after := after.(contributions := after.contributions +
                        [Contribution(contribution, None, Some(humanId), doc.version, after.version, false, update.changed, now, None)]);
      after := after.(history := after.history + [HistoryEntry(after.version, humanId, Some(humanId), now, contribution)]);
      docs := docs[docId := after];
      supply := update.supply;
      ClearBases(docId);
    }

    method Resolve(docId: DocId, conflictId: nat, humanId: HumanId, orchestrator: bool, chosen: string, now: int)
      returns (outcome: Outcome)
      modifies this
      ensures (State(), outcome) == Step(old(State()), StoreState.Resolve(docId, conflictId, humanId, orchestrator, chosen, now))
    {
      if docId !in docs { return NotFound; }
      var doc := docs[docId];
      var found := FindConflict(doc.conflicts, conflictId);
      if found.None? { return NotFound; }
      var pending := found.value;
      if !orchestrator && pending.human != Some(humanId) { return Denied(CrossOwner); }
      FoundHasId(doc.conflicts, conflictId);
      var merged := ComputeMerge3(pending.theirs, chosen, doc.content);
      if merged.Conflicted? {
        var again := pending.(ours := chosen, theirs := doc.content, atVersion := doc.version, at := now, conflicts := merged.conflicts);
        docs := docs[docId := doc.(conflicts := Replace(doc.conflicts, conflictId, again))];
        return ConflictAt(doc.version, doc.content, merged.conflicts, conflictId);
      }
      var contribution, update := Attribute(doc, merged.content, Some(humanId), None, now);
      var after := doc.(version := doc.version + 1, content := merged.content, updatedAt := now, updatedBy := Some(humanId),
                        provenance := update.lines);
      after := after.(history := after.history + [HistoryEntry(after.version, humanId, Some(humanId), now, contribution)]);
      after := after.(conflicts := WithoutId(doc.conflicts, conflictId));
      docs := docs[docId := after];
      supply := update.supply;
      bases := bases[BaseKey(pending.agent, docId) := merged.content];
      return Resolved(after.version, merged.content);
    }

    method AcquireLease(docId: DocId, agentId: AgentId, verdict: Verdict, ttl: int, now: int) returns (outcome: Outcome)
      modifies this
      ensures (State(), outcome) == Step(old(State()), StoreState.AcquireLease(docId, agentId, verdict, ttl, now))
    {
      if !verdict.allowed { return Denied(NoAuthority); }
      var doc := Enter(docId, now);
      if doc.lease.Some? && doc.lease.value.holder != agentId { return LeaseHeld(doc.lease.value.holder); }
      var lease := Lease(agentId, verdict.human, now, now + ttl);
      docs := docs[docId := doc.(lease := Some(lease))];
      assert docs == old(docs)[docId := doc.(lease := Some(lease))];
      return LeaseTaken(lease);
    }

    method ReleaseLease(docId: DocId, agentId: AgentId, verdict: Verdict, now: int) returns (outcome: Outcome)
      modifies this
      ensures (State(), outcome) == Step(old(State()), StoreState.ReleaseLease(docId, agentId, verdict, now))
    {
      if !verdict.allowed { return Denied(NoAuthority); }
      var doc := Enter(docId, now);
      if doc.lease.None? { return NotHolder(None); }
      if doc.lease.value.holder != agentId { return NotHolder(Some(doc.lease.value.holder)); }
      docs := docs[docId := doc.(lease := None)];
      assert docs == old(docs)[docId := doc.(lease := None)];
      return LeaseReleased;
    }
  }

  lemma {:induction false} FoundHasId(conflicts: seq<PendingConflict>, id: nat)
    ensures FindConflict(conflicts, id).Some? ==> FindConflict(conflicts, id).value.id == id
  {
    if conflicts != [] && conflicts[0].id != id {
      FoundHasId(conflicts[1..], id);
    }
  }

  lemma PutTwice(s: Store, d: DocId, doc: Doc, after: Doc)
    ensures Put(Put(s, d, doc), d, after) == Put(s, d, after)
  {
    assert s.docs[d := doc][d := after] == s.docs[d := after];
  }

  lemma CommitAfterEnter(s: Store, d: DocId, doc: Doc, agent: AgentId, human: Option<HumanId>, next: string, merged: bool, now: int)
    ensures CommitWrite(Put(s, d, doc), d, doc, agent, human, next, merged, now) == CommitWrite(s, d, doc, agent, human, next, merged, now)
  {
    PutTwice(s, d, doc, CommitWrite(s, d, doc, agent, human, next, merged, now).docs[d]);
  }

  lemma HumanEditAfterEnter(s: Store, d: DocId, doc: Doc, humanId: HumanId, content: string, now: int)
    ensures CommitHumanEdit(Put(s, d, doc), d, doc, humanId, content, now) == CommitHumanEdit(s, d, doc, humanId, content, now)
  {
    PutTwice(s, d, doc, CommitHumanEdit(s, d, doc, humanId, content, now).docs[d]);
  }

  lemma RecordAfterEnter(s: Store, d: DocId, doc: Doc, agent: AgentId, human: Option<HumanId>, base: string, ours: string,
                         conflicts: seq<MergeConflict>, now: int)
    ensures RecordConflict(Put(s, d, doc), d, doc, agent, human, base, ours, conflicts, now) ==
            RecordConflict(s, d, doc, agent, human, base, ours, conflicts, now)
  {
    PutTwice(s, d, doc, RecordConflict(s, d, doc, agent, human, base, ours, conflicts, now).docs[d]);
  }

  /** Submitting starts from the entered document, whether or not it is stored back first. */
  lemma SubmitAfterEnter(s: Store, d: DocId, doc: Doc, agent: AgentId, expected: int, content: string, human: Option<HumanId>, now: int)
    ensures Submit(Put(s, d, doc), d, doc, agent, expected, content, human, now) == Submit(s, d, doc, agent, expected, content, human, now)
  {
    PutTwice(s, d, doc, doc);
    if expected == doc.version {
      CommitAfterEnter(s, d, doc, agent, human, content, false, now);
    } else {
      match Merge3(BaseOf(s, agent, d), content, doc.content)
      case Merged(merged, _) => CommitAfterEnter(s, d, doc, agent, human, merged, true, now);
      case Conflicted(conflicts) => RecordAfterEnter(s, d, doc, agent, human, BaseOf(s, agent, d), content, conflicts, now);
    }
  }
}
