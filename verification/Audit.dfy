/**
 * The hash-chained safety log with retention (apps/server/src/aegis/audit.ts).
 * The digest is any function of the hashed fields; where tamper evidence needs
 * it, it is assumed free of collisions. The redactor is any function.
 */
module Audit {
  import opened Options

  type Hash = string

  const GENESIS: Hash := "0000000000000000000000000000000000000000000000000000000000000000"

  type Evidence = map<string, string>

  datatype Verdict = Verdict(
    decision: string, ruleId: string, reason: string, gate: string, policyVersion: string, policyHash: string, severity: string)

  datatype SafetyEvent = SafetyEvent(
    eventId: nat, runId: string, agentId: string, seqNo: nat, ts: int, gate: string,
    verdict: Verdict, evidence: Evidence, prevHash: Hash, hash: Hash)

  /** The fields the hash covers; of a verdict only its decision, its rule and its policy hash. */
  datatype Hashed = Hashed(
    eventId: nat, runId: string, agentId: string, seqNo: nat, ts: int, gate: string,
    decision: string, ruleId: string, policyHash: string, evidence: Evidence, prevHash: Hash)

  function View(e: SafetyEvent): Hashed {
    Hashed(e.eventId, e.runId, e.agentId, e.seqNo, e.ts, e.gate,
           e.verdict.decision, e.verdict.ruleId, e.verdict.policyHash, e.evidence, e.prevHash)
  }

  type Digest = Hashed -> Hash

  ghost predicate CollisionFree(digest: Digest) {
    forall x, y :: digest(x) == digest(y) ==> x == y
  }

  // -------------------------------------------------------------------- chain

  predicate LinkOk(digest: Digest, previous: Hash, e: SafetyEvent) {
    e.prevHash == previous && digest(View(e)) == e.hash
  }

  function Before(start: Hash, events: seq<SafetyEvent>, k: nat): Hash
    requires k <= |events|
  {
    if k == 0 then start else events[k - 1].hash
  }

  /** Every event hangs on the one before it, the first on `start`. */
  ghost predicate Chain(digest: Digest, start: Hash, events: seq<SafetyEvent>)
    decreases |events|
  {
    events == [] ||
    (var k := |events| - 1;
     Chain(digest, start, events[..k]) && LinkOk(digest, Before(start, events, k), events[k]))
  }

  lemma {:induction false} ChainLink(digest: Digest, start: Hash, events: seq<SafetyEvent>, k: nat)
    requires Chain(digest, start, events) && k < |events|
    ensures LinkOk(digest, Before(start, events, k), events[k])
    ensures Chain(digest, start, events[..k])
    decreases |events|
  {
    var last := |events| - 1;
    if k < last {
      ChainLink(digest, start, events[..last], k);
      assert events[..last][..k] == events[..k];
      assert Before(start, events[..last], k) == Before(start, events, k);
    }
  }

  lemma {:induction false} LinksChain(digest: Digest, start: Hash, events: seq<SafetyEvent>)
    requires forall k :: 0 <= k < |events| ==> LinkOk(digest, Before(start, events, k), events[k])
    ensures Chain(digest, start, events)
    decreases |events|
  {
    if events != [] {
      var last := |events| - 1;
      forall k | 0 <= k < last ensures LinkOk(digest, Before(start, events[..last], k), events[..last][k]) {
        assert LinkOk(digest, Before(start, events, k), events[k]);
        assert Before(start, events[..last], k) == Before(start, events, k);
      }
      LinksChain(digest, start, events[..last]);
    }
  }

  lemma {:induction false} BrokenLink(digest: Digest, start: Hash, events: seq<SafetyEvent>, k: nat)
    requires k < |events| && !LinkOk(digest, Before(start, events, k), events[k])
    ensures !Chain(digest, start, events)
  {
    if Chain(digest, start, events) {
      ChainLink(digest, start, events, k);
    }
  }

  /** Index of the first link that does not hold, or -1. */
  function FirstBreak(digest: Digest, start: Hash, chain: seq<SafetyEvent>, from: nat): int
    requires from <= |chain|
    decreases |chain| - from
  {
    if from == |chain| then -1
    else if !LinkOk(digest, Before(start, chain, from), chain[from]) then from
    else FirstBreak(digest, start, chain, from + 1)
  }

  lemma {:induction false} ChainSnoc(digest: Digest, start: Hash, events: seq<SafetyEvent>, e: SafetyEvent)
    requires Chain(digest, start, events) && LinkOk(digest, Before(start, events, |events|), e)
    ensures Chain(digest, start, events + [e])
  {
    var all := events + [e];
    assert all[..|events|] == events;
    assert Before(start, all, |events|) == Before(start, events, |events|);
  }

  lemma {:induction false} TailSnoc(start: Hash, events: seq<SafetyEvent>, from: nat)
    requires from < |events|
    ensures var last := |events| - 1;
            var cut := Before(start, events, from);
            Before(start, events[..last], from) == cut &&
            Before(cut, events[from..last], last - from) == Before(start, events, last) &&
            events[..last][from..] == events[from..last] &&
            events[from..last] + [events[last]] == events[from..]
  {
  }

  /** The tail of a chain is a chain from the hash it was cut at. */
  lemma {:induction false} ChainTail(digest: Digest, start: Hash, events: seq<SafetyEvent>, from: nat)
    requires Chain(digest, start, events) && from <= |events|
    ensures Chain(digest, Before(start, events, from), events[from..])
    decreases |events|
  {
    if from < |events| {
      var last := |events| - 1;
      ChainTail(digest, start, events[..last], from);
      TailSnoc(start, events, from);
      ChainSnoc(digest, Before(start, events, from), events[from..last], events[last]);
    }
  }

  // -------------------------------------------------------------------- state

  datatype Retention = Retention(maxEvents: nat, maxAge: int)

  datatype Input = Input(runId: string, agentId: string, gate: string, verdict: Verdict, evidence: Evidence)

  datatype Log = Log(events: seq<SafetyEvent>, head: Hash, anchor: Hash, pruned: nat, seqByRun: map<string, nat>, supply: nat)

  const NEW_LOG := Log([], GENESIS, GENESIS, 0, map[], 0)

  function NextSeq(log: Log, runId: string): nat {
    if runId in log.seqByRun then log.seqByRun[runId] + 1 else 0
  }

  function Sealed(digest: Digest, e: SafetyEvent): SafetyEvent {
    e.(hash := digest(View(e)))
  }

  /** The capture level, and what the redactor makes of a verdict and of evidence. */
  datatype Capture = Capture(minimal: bool, verdict: Verdict -> Verdict, evidence: Evidence -> Evidence)

  function Kept(capture: Capture, evidence: Evidence): Evidence {
    if capture.minimal then map[] else capture.evidence(evidence)
  }

  function NewEvent(log: Log, digest: Digest, capture: Capture, input: Input, ts: int): SafetyEvent {
    Sealed(digest, SafetyEvent(log.supply, input.runId, input.agentId, NextSeq(log, input.runId), ts, input.gate,
                               capture.verdict(input.verdict), Kept(capture, input.evidence), log.head, ""))
  }

  /** How many of the oldest events go: each too old, or one too many. */
  function DropCount(events: seq<SafetyEvent>, cutoff: int, maxEvents: nat, from: nat): (drop: nat)
    requires from <= |events|
    ensures from <= drop <= |events|
    decreases |events| - from
  {
    if from < |events| && (events[from].ts < cutoff || |events| - from > maxEvents)
    then DropCount(events, cutoff, maxEvents, from + 1) else from
  }

  lemma {:induction false} DropCountBounds(events: seq<SafetyEvent>, cutoff: int, maxEvents: nat, from: nat)
    requires from <= |events|
    ensures var drop := DropCount(events, cutoff, maxEvents, from);
            from <= drop <= |events| && |events| - drop <= maxEvents &&
            (drop < |events| ==> events[drop].ts >= cutoff) &&
            forall k :: from <= k < drop ==> events[k].ts < cutoff || |events| - k > maxEvents
    decreases |events| - from
  {
    if from < |events| && (events[from].ts < cutoff || |events| - from > maxEvents) {
      DropCountBounds(events, cutoff, maxEvents, from + 1);
    }
  }

  function Prune(log: Log, retention: Retention, now: int): Log {
    var drop := DropCount(log.events, now - retention.maxAge, retention.maxEvents, 0);
    if drop == 0 then log
    else log.(events := log.events[drop..], anchor := log.events[drop - 1].hash, pruned := log.pruned + drop)
  }

  function WithEvent(log: Log, e: SafetyEvent): Log {
    log.(events := log.events + [e], head := e.hash, seqByRun := log.seqByRun[e.runId := e.seqNo], supply := log.supply + 1)
  }

  /** `ts` stamps the event; the clock is read again, as `now`, for the cutoff. */
  function Appended(log: Log, digest: Digest, capture: Capture, retention: Retention, input: Input, ts: int, now: int): Log {
    Prune(WithEvent(log, NewEvent(log, digest, capture, input, ts)), retention, now)
  }

  // ------------------------------------------------------------------- object

  class AuditLog {
    const digest: Digest
    const capture: Capture
    const retention: Retention
    var events: seq<SafetyEvent>
    var head: Hash
    var anchor: Hash
    var prunedCount: nat
    var seqByRun: map<string, nat>
    var supply: nat

    ghost function State(): Log
      reads this
    {
      Log(events, head, anchor, prunedCount, seqByRun, supply)
    }

    constructor (digest: Digest, capture: Capture, retention: Retention)
      ensures State() == NEW_LOG
      ensures this.digest == digest && this.capture == capture && this.retention == retention
    {
      this.digest, this.capture, this.retention := digest, capture, retention;
      events, head, anchor, prunedCount, seqByRun, supply := [], GENESIS, GENESIS, 0, map[], 0;
    }

    method Append(input: Input, ts: int, now: int) returns (event: SafetyEvent)
      modifies this
      ensures event == NewEvent(old(State()), digest, capture, input, ts)
      ensures State() == Appended(old(State()), digest, capture, retention, input, ts, now)
    {
      var seqNo := if input.runId in seqByRun then seqByRun[input.runId] + 1 else 0;
      seqByRun := seqByRun[input.runId := seqNo];
      var evidence: Evidence := if capture.minimal then map[] else capture.evidence(input.evidence);
      var unhashed := SafetyEvent(supply, input.runId, input.agentId, seqNo, ts, input.gate, capture.verdict(input.verdict), evidence, head, "");
      supply := supply + 1;
      event := unhashed.(hash := digest(View(unhashed)));
      events := events + [event];
      head := event.hash;
      PruneOldest(now);
    }

    method PruneOldest(now: int)
      modifies this
      ensures State() == Prune(old(State()), retention, now)
    {
      var cutoff := now - retention.maxAge;
      var drop := 0;
      while drop < |events| && (events[drop].ts < cutoff || |events| - drop > retention.maxEvents)
        invariant drop <= |events|
        invariant DropCount(events, cutoff, retention.maxEvents, drop) == DropCount(events, cutoff, retention.maxEvents, 0)
      {
        drop := drop + 1;
      }
      if drop == 0 { return; }
      anchor := events[drop - 1].hash;
      events := events[drop..];
      prunedCount := prunedCount + drop;
    }

    /** The first broken link from `start`, or -1. */
    method VerifyFrom(start: Hash, chain: seq<SafetyEvent>) returns (bad: int)
      ensures bad == FirstBreak(digest, start, chain, 0)
      ensures bad == -1 <==> Chain(digest, start, chain)
      ensures bad != -1 ==> 0 <= bad < |chain| && Chain(digest, start, chain[..bad]) &&
                            !LinkOk(digest, Before(start, chain, bad), chain[bad])
    {
      var previous := start;
      for index := 0 to |chain|
        invariant previous == Before(start, chain, index)
        invariant FirstBreak(digest, start, chain, index) == FirstBreak(digest, start, chain, 0)
        invariant Chain(digest, start, chain[..index])
      {
        var event := chain[index];
        if event.prevHash != previous || digest(View(event)) != event.hash {
          BrokenLink(digest, start, chain, index);
          return index;
        }
        ChainSnoc(digest, start, chain[..index], event);
        assert chain[..index] + [event] == chain[..index + 1];
        previous := event.hash;
      }
      assert chain[..|chain|] == chain;
      return -1;
    }

    /** Own records are checked from the anchor, others from where they say they start. */
    method Verify(given: Option<seq<SafetyEvent>>) returns (bad: int)
      ensures given.None? ==> bad == FirstBreak(digest, anchor, events, 0)
      ensures given.None? ==> (bad == -1 <==> Chain(digest, anchor, events))
      ensures given.Some? ==> (bad == -1 <==>
                Chain(digest, if given.value == [] then GENESIS else given.value[0].prevHash, given.value))
    {
      if given.None? {
        bad := VerifyFrom(anchor, events);
      } else {
        bad := VerifyFrom(if given.value == [] then GENESIS else given.value[0].prevHash, given.value);
      }
    }
  }

  // ------------------------------------------------------------------ over runs

  datatype Entry = Entry(input: Input, ts: int, now: int)

  /** Configuration of one log. */
  datatype Setup = Setup(digest: Digest, capture: Capture, retention: Retention)

  function AppendEntry(log: Log, setup: Setup, e: Entry): Log {
    Appended(log, setup.digest, setup.capture, setup.retention, e.input, e.ts, e.now)
  }

  function AppendAll(log: Log, setup: Setup, entries: seq<Entry>): Log {
    if entries == [] then log
    else AppendEntry(AppendAll(log, setup, entries[..|entries| - 1]), setup, entries[|entries| - 1])
  }

  /** Everything ever appended, pruned or not. */
  function Everything(setup: Setup, entries: seq<Entry>): seq<SafetyEvent> {
    if entries == [] then []
    else
      var k := |entries| - 1;
      Everything(setup, entries[..k]) +
      [NewEvent(AppendAll(NEW_LOG, setup, entries[..k]), setup.digest, setup.capture, entries[k].input, entries[k].ts)]
  }

  function CountRun(events: seq<SafetyEvent>, runId: string): nat {
    if events == [] then 0
    else CountRun(events[..|events| - 1], runId) + (if events[|events| - 1].runId == runId then 1 else 0)
  }

  /** Each run's records are numbered 0, 1, 2, ... in order of appending. */
  ghost predicate Numbered(all: seq<SafetyEvent>) {
    forall k :: 0 <= k < |all| ==> all[k].seqNo == CountRun(all[..k], all[k].runId)
  }

  ghost predicate Counters(seqByRun: map<string, nat>, all: seq<SafetyEvent>) {
    forall run: string :: CountRun(all, run) == if run in seqByRun then seqByRun[run] + 1 else 0
  }

  /** The log is the tail of everything appended, anchored where the rest was cut off. */
  ghost predicate Faithful(log: Log, digest: Digest, all: seq<SafetyEvent>) {
    Retained(log.events, log.anchor, log.pruned, all) && Recorded(log.head, log.seqByRun, digest, all)
  }

  ghost predicate Retained(events: seq<SafetyEvent>, anchor: Hash, pruned: nat, all: seq<SafetyEvent>) {
    pruned <= |all| && events == all[pruned..] && anchor == Before(GENESIS, all, pruned)
  }

  ghost predicate Recorded(head: Hash, seqByRun: map<string, nat>, digest: Digest, all: seq<SafetyEvent>) {
    head == Before(GENESIS, all, |all|) && Chain(digest, GENESIS, all) && Counters(seqByRun, all) && Numbered(all)
  }

  lemma {:induction false} NewEventLinks(log: Log, setup: Setup, e: Entry)
    ensures LinkOk(setup.digest, log.head, NewEvent(log, setup.digest, setup.capture, e.input, e.ts))
  {
    var event := NewEvent(log, setup.digest, setup.capture, e.input, e.ts);
    assert View(event) == View(event.(hash := ""));
  }

  lemma {:induction false} NumberedSnoc(seqByRun: map<string, nat>, all: seq<SafetyEvent>, e: SafetyEvent)
    requires Counters(seqByRun, all) && Numbered(all)
    requires e.seqNo == if e.runId in seqByRun then seqByRun[e.runId] + 1 else 0
    ensures Counters(seqByRun[e.runId := e.seqNo], all + [e]) && Numbered(all + [e])
  {
    var all' := all + [e];
    assert all'[..|all|] == all;
    forall k | 0 <= k < |all'| ensures all'[k].seqNo == CountRun(all'[..k], all'[k].runId) {
      if k < |all| {
        assert all'[..k] == all[..k];
      }
    }
  }

  lemma {:induction false} NewEventIsFaithful(log: Log, setup: Setup, all: seq<SafetyEvent>, e: Entry)
    requires Faithful(log, setup.digest, all)
    ensures var event := NewEvent(log, setup.digest, setup.capture, e.input, e.ts);
            Faithful(WithEvent(log, event), setup.digest, all + [event])
  {
    var event := NewEvent(log, setup.digest, setup.capture, e.input, e.ts);
    var all' := all + [event];
    NewEventLinks(log, setup, e);
    ChainSnoc(setup.digest, GENESIS, all, event);
    NumberedSnoc(log.seqByRun, all, event);
    assert all'[log.pruned..] == all[log.pruned..] + [event];
    assert Before(GENESIS, all', log.pruned) == Before(GENESIS, all, log.pruned);
  }

  lemma {:induction false} PruneIsFaithful(log: Log, retention: Retention, now: int, digest: Digest, all: seq<SafetyEvent>)
    requires Faithful(log, digest, all)
    ensures Faithful(Prune(log, retention, now), digest, all)
  {
    PruneRetains(log, retention, now, all);
    PruneKeepsRecord(log, retention, now);
  }

  lemma {:induction false} PruneKeepsRecord(log: Log, retention: Retention, now: int)
    ensures Prune(log, retention, now).head == log.head && Prune(log, retention, now).seqByRun == log.seqByRun
  {
  }

  lemma {:induction false} PruneRetains(log: Log, retention: Retention, now: int, all: seq<SafetyEvent>)
    requires Retained(log.events, log.anchor, log.pruned, all)
    ensures var p := Prune(log, retention, now); Retained(p.events, p.anchor, p.pruned, all)
  {
    var drop := DropCount(log.events, now - retention.maxAge, retention.maxEvents, 0);
    if drop > 0 {
      CutTail(log.events, log.anchor, log.pruned, drop, all);
    }
  }

  lemma {:induction false} PruneKeepsCap(log: Log, retention: Retention, now: int)
    ensures |Prune(log, retention, now).events| <= retention.maxEvents
  {
    DropCountBounds(log.events, now - retention.maxAge, retention.maxEvents, 0);
  }

  lemma {:induction false} CutTail(events: seq<SafetyEvent>, anchor: Hash, pruned: nat, drop: nat, all: seq<SafetyEvent>)
    requires Retained(events, anchor, pruned, all) && 0 < drop <= |events|
    ensures Retained(events[drop..], events[drop - 1].hash, pruned + drop, all)
  {
    assert all[pruned..][drop..] == all[pruned + drop..];
  }

  lemma {:induction false} LogIsFaithful(setup: Setup, entries: seq<Entry>)
    ensures Faithful(AppendAll(NEW_LOG, setup, entries), setup.digest, Everything(setup, entries))
    ensures |AppendAll(NEW_LOG, setup, entries).events| <= setup.retention.maxEvents
    ensures |Everything(setup, entries)| == |entries|
    decreases |entries|
  {
    if entries != [] {
      var k := |entries| - 1;
      LogIsFaithful(setup, entries[..k]);
      var log, all := AppendAll(NEW_LOG, setup, entries[..k]), Everything(setup, entries[..k]);
      var event := NewEvent(log, setup.digest, setup.capture, entries[k].input, entries[k].ts);
      NewEventIsFaithful(log, setup, all, entries[k]);
      PruneKeepsCap(WithEvent(log, event), setup.retention, entries[k].now);
      PruneIsFaithful(WithEvent(log, event), setup.retention, entries[k].now, setup.digest, all + [event]);
    }
  }

  /**
   * After any appends: the retained records verify from the anchor, pruned and
   * retained add up to all, the cap holds, and each run counts 0, 1, 2, ...
   */
  lemma {:induction false} RetentionKeepsChain(setup: Setup, entries: seq<Entry>)
    ensures var log, all := AppendAll(NEW_LOG, setup, entries), Everything(setup, entries);
            Chain(setup.digest, log.anchor, log.events) &&
            log.pruned + |log.events| == |entries| == |all| &&
            |log.events| <= setup.retention.maxEvents && log.events == all[log.pruned..] &&
            (log.events != [] ==> log.events[0].prevHash == log.anchor && log.head == log.events[|log.events| - 1].hash) &&
            Numbered(all)
  {
    LogIsFaithful(setup, entries);
    var log, all := AppendAll(NEW_LOG, setup, entries), Everything(setup, entries);
    ChainTail(setup.digest, GENESIS, all, log.pruned);
    if log.events != [] {
      ChainLink(setup.digest, log.anchor, log.events, 0);
    }
  }

  ghost predicate ClockMonotone(entries: seq<Entry>) {
    (forall k :: 0 <= k < |entries| ==> entries[k].ts <= entries[k].now) &&
    (forall i, j :: 0 <= i < j < |entries| ==> entries[i].now <= entries[j].ts)
  }

  lemma {:induction false} EverythingCounts(setup: Setup, entries: seq<Entry>)
    ensures |Everything(setup, entries)| == |entries|
    decreases |entries|
  {
    if entries != [] {
      EverythingCounts(setup, entries[..|entries| - 1]);
    }
  }

  lemma {:induction false} EverythingEnds(setup: Setup, entries: seq<Entry>)
    requires entries != []
    ensures var last := |entries| - 1;
            var all := Everything(setup, entries);
            |all| == |entries| && all[..last] == Everything(setup, entries[..last]) &&
            all[last] == NewEvent(AppendAll(NEW_LOG, setup, entries[..last]), setup.digest, setup.capture, entries[last].input, entries[last].ts)
  {
    EverythingCounts(setup, entries[..|entries| - 1]);
  }

  lemma {:induction false} EverythingIsStamped(setup: Setup, entries: seq<Entry>, k: nat)
    requires k < |entries|
    ensures |Everything(setup, entries)| == |entries| && Everything(setup, entries)[k].ts == entries[k].ts
    decreases |entries|
  {
    var last := |entries| - 1;
    EverythingEnds(setup, entries);
    if k < last {
      EverythingIsStamped(setup, entries[..last], k);
      assert Everything(setup, entries)[k] == Everything(setup, entries)[..last][k];
    }
  }

  /** After pruning, the oldest record kept is not too old. */
  lemma {:induction false} OldestIsRecent(log: Log, retention: Retention, now: int)
    ensures var pruned := Prune(log, retention, now);
            pruned.events != [] ==> pruned.events[0].ts >= now - retention.maxAge
  {
    DropCountBounds(log.events, now - retention.maxAge, retention.maxEvents, 0);
  }

  /** With a clock that does not go back, no retained record is older than the last cutoff. */
  lemma {:induction false} RetainedAreRecent(setup: Setup, entries: seq<Entry>)
    requires ClockMonotone(entries) && entries != []
    ensures var log := AppendAll(NEW_LOG, setup, entries);
            forall k :: 0 <= k < |log.events| ==> log.events[k].ts >= entries[|entries| - 1].now - setup.retention.maxAge
  {
    var last := |entries| - 1;
    var log, all := AppendAll(NEW_LOG, setup, entries), Everything(setup, entries);
    LogIsFaithful(setup, entries);
    var before := AppendAll(NEW_LOG, setup, entries[..last]);
    OldestIsRecent(WithEvent(before, NewEvent(before, setup.digest, setup.capture, entries[last].input, entries[last].ts)),
                   setup.retention, entries[last].now);
    forall k | 0 <= k < |log.events| ensures log.events[k].ts >= entries[last].now - setup.retention.maxAge {
      EverythingIsStamped(setup, entries, log.pruned);
      EverythingIsStamped(setup, entries, log.pruned + k);
      assert log.events[0] == all[log.pruned] && log.events[k] == all[log.pruned + k];
      if k > 0 {
        assert entries[log.pruned].ts <= entries[log.pruned].now <= entries[log.pruned + k].ts;
      }
    }
  }

  /** What one pruning drops was too old, or one too many. */
  lemma {:induction false} DropsForCause(log: Log, retention: Retention, now: int, k: nat)
    requires log.pruned <= k < Prune(log, retention, now).pruned
    ensures k - log.pruned < |log.events|
    ensures log.events[k - log.pruned].ts < now - retention.maxAge || |log.events| - (k - log.pruned) > retention.maxEvents
  {
    DropCountBounds(log.events, now - retention.maxAge, retention.maxEvents, 0);
  }

  lemma {:induction false} DroppedByAppend(log: Log, setup: Setup, all: seq<SafetyEvent>, e: Entry, k: nat)
    requires Faithful(log, setup.digest, all) && log.pruned <= k < AppendEntry(log, setup, e).pruned
    ensures k <= |all|
    ensures (if k < |all| then all[k].ts else e.ts) < e.now - setup.retention.maxAge || |all| + 1 - k > setup.retention.maxEvents
  {
    var event := NewEvent(log, setup.digest, setup.capture, e.input, e.ts);
    DropsForCause(WithEvent(log, event), setup.retention, e.now, k);
  }

  ghost predicate ForCause(setup: Setup, entries: seq<Entry>, k: nat)
    requires k < |entries|
  {
    entries[k].ts < entries[|entries| - 1].now - setup.retention.maxAge || |entries| - k > setup.retention.maxEvents
  }

  ghost predicate Stamped(all: seq<SafetyEvent>, entries: seq<Entry>) {
    |all| <= |entries| && forall i :: 0 <= i < |all| ==> all[i].ts == entries[i].ts
  }

  lemma {:induction false} EverythingStamped(setup: Setup, entries: seq<Entry>)
    requires entries != []
    ensures Stamped(Everything(setup, entries[..|entries| - 1]), entries)
  {
    var front := entries[..|entries| - 1];
    EverythingCounts(setup, front);
    forall i | 0 <= i < |front| ensures Everything(setup, front)[i].ts == entries[i].ts {
      EverythingIsStamped(setup, front, i);
    }
  }

  lemma {:induction false} DroppedLast(before: Log, setup: Setup, all: seq<SafetyEvent>, entries: seq<Entry>, k: nat)
    requires entries != [] && |all| == |entries| - 1 && Stamped(all, entries) && Faithful(before, setup.digest, all)
    requires before.pruned <= k < AppendEntry(before, setup, entries[|entries| - 1]).pruned
    ensures k < |entries| && ForCause(setup, entries, k)
  {
    DroppedByAppend(before, setup, all, entries[|entries| - 1], k);
  }

  /** A cause stays one: the cutoff does not go back, and the log grows. */
  lemma {:induction false} CauseStays(setup: Setup, entries: seq<Entry>, k: nat)
    requires ClockMonotone(entries) && |entries| > 1 && k < |entries| - 1 && ForCause(setup, entries[..|entries| - 1], k)
    ensures ForCause(setup, entries, k)
  {
    var last := |entries| - 1;
    assert entries[last - 1].now <= entries[last].ts <= entries[last].now;
  }

  lemma {:induction false} FrontIsMonotone(entries: seq<Entry>)
    requires ClockMonotone(entries) && entries != []
    ensures ClockMonotone(entries[..|entries| - 1])
  {
  }

  lemma {:induction false} DroppedForCause(setup: Setup, entries: seq<Entry>, k: nat)
    requires ClockMonotone(entries) && k < AppendAll(NEW_LOG, setup, entries).pruned
    ensures k < |entries| && ForCause(setup, entries, k)
    decreases |entries|
  {
    var front := entries[..|entries| - 1];
    if k < AppendAll(NEW_LOG, setup, front).pruned {
      FrontIsMonotone(entries);
      DroppedForCause(setup, front, k);
      CauseStays(setup, entries, k);
    } else {
      LogIsFaithful(setup, front);
      EverythingStamped(setup, entries);
      DroppedLast(AppendAll(NEW_LOG, setup, front), setup, Everything(setup, front), entries, k);
    }
  }

  /**
   * Retention is exact: with a clock that does not go back, a record is retained
   * if and only if it is neither too old at the last cutoff nor one too many.
   */
  lemma {:induction false} RetainedIff(setup: Setup, entries: seq<Entry>, k: nat)
    requires ClockMonotone(entries) && k < |entries|
    ensures AppendAll(NEW_LOG, setup, entries).pruned <= k <==>
              entries[k].ts >= entries[|entries| - 1].now - setup.retention.maxAge && |entries| - k <= setup.retention.maxEvents
  {
    var log := AppendAll(NEW_LOG, setup, entries);
    if log.pruned <= k {
      LogIsFaithful(setup, entries);
      RetainedAreRecent(setup, entries);
      EverythingIsStamped(setup, entries, k);
      assert log.events[k - log.pruned] == Everything(setup, entries)[k];
    } else {
      DroppedForCause(setup, entries, k);
    }
  }

  /** The record says what was appended, redacted; at the minimal capture level it has no evidence. */
  ghost predicate Says(event: SafetyEvent, e: Entry, capture: Capture) {
    event.runId == e.input.runId && event.agentId == e.input.agentId && event.gate == e.input.gate &&
    event.verdict == capture.verdict(e.input.verdict) && event.ts == e.ts &&
    event.evidence == if capture.minimal then map[] else capture.evidence(e.input.evidence)
  }

  lemma {:induction false} EverythingSays(setup: Setup, entries: seq<Entry>, k: nat)
    requires k < |entries|
    ensures |Everything(setup, entries)| == |entries| && Says(Everything(setup, entries)[k], entries[k], setup.capture)
    decreases |entries|
  {
    var last := |entries| - 1;
    EverythingEnds(setup, entries);
    if k < last {
      EverythingSays(setup, entries[..last], k);
      assert Everything(setup, entries)[k] == Everything(setup, entries)[..last][k];
    }
  }

  ghost predicate AllSay(all: seq<SafetyEvent>, entries: seq<Entry>, capture: Capture) {
    |all| == |entries| && forall k :: 0 <= k < |all| ==> Says(all[k], entries[k], capture)
  }

  lemma {:induction false} EverythingIsSaid(setup: Setup, entries: seq<Entry>)
    ensures AllSay(Everything(setup, entries), entries, setup.capture)
  {
    EverythingCounts(setup, entries);
    forall k | 0 <= k < |entries| ensures Says(Everything(setup, entries)[k], entries[k], setup.capture) {
      EverythingSays(setup, entries, k);
    }
  }

  /** The retained records are the last ones appended, and say what was appended. */
  ghost predicate RetainedSay(log: Log, entries: seq<Entry>, capture: Capture) {
    log.pruned + |log.events| == |entries| &&
    forall k :: 0 <= k < |log.events| ==>
      Says(log.events[k], entries[log.pruned + k], capture) && log.events[k].eventId == log.pruned + k
  }

  /** Ids are drawn one by one, so no two records share one. */
  lemma {:induction false} EverythingHasItsId(setup: Setup, entries: seq<Entry>)
    ensures AppendAll(NEW_LOG, setup, entries).supply == |entries|
    ensures AllIdentified(Everything(setup, entries))
    decreases |entries|
  {
    if entries != [] {
      EverythingHasItsId(setup, entries[..|entries| - 1]);
      EverythingCounts(setup, entries[..|entries| - 1]);
    }
  }

  ghost predicate AllIdentified(all: seq<SafetyEvent>) {
    forall k :: 0 <= k < |all| ==> all[k].eventId == k
  }

  lemma {:induction false} TailSays(log: Log, digest: Digest, all: seq<SafetyEvent>, entries: seq<Entry>, capture: Capture)
    requires Faithful(log, digest, all) && AllSay(all, entries, capture) && AllIdentified(all)
    ensures RetainedSay(log, entries, capture)
  {
    forall k | 0 <= k < |log.events|
      ensures Says(log.events[k], entries[log.pruned + k], capture) && log.events[k].eventId == log.pruned + k
    {
      assert log.events[k] == all[log.pruned + k];
    }
  }

  lemma {:induction false} RetainedSayWhatWasAppended(setup: Setup, entries: seq<Entry>)
    ensures RetainedSay(AppendAll(NEW_LOG, setup, entries), entries, setup.capture)
  {
    LogIsFaithful(setup, entries);
    EverythingIsSaid(setup, entries);
    EverythingHasItsId(setup, entries);
    TailSays(AppendAll(NEW_LOG, setup, entries), setup.digest, Everything(setup, entries), entries, setup.capture);
  }

  // -------------------------------------------------------------- tamper evidence

  /** Two records say the same in everything the hash is to protect. */
  ghost predicate SameHashed(a: SafetyEvent, b: SafetyEvent) {
    a.eventId == b.eventId && a.runId == b.runId && a.agentId == b.agentId && a.seqNo == b.seqNo && a.ts == b.ts &&
    a.gate == b.gate && a.verdict.decision == b.verdict.decision && a.verdict.ruleId == b.verdict.ruleId &&
    a.verdict.policyHash == b.verdict.policyHash && a.evidence == b.evidence && a.prevHash == b.prevHash
  }

  lemma {:induction false} ViewIs(a: SafetyEvent, b: SafetyEvent)
    ensures View(a) == View(b) <==> SameHashed(a, b)
  {
  }

  /** With a collision-free digest, the head fixes every hashed field of a chain of given length and anchor. */
  lemma {:induction false} HeadFixesChain(digest: Digest, start: Hash, a: seq<SafetyEvent>, b: seq<SafetyEvent>, k: nat)
    requires CollisionFree(digest) && Chain(digest, start, a) && Chain(digest, start, b) && |a| == |b|
    requires Before(start, a, |a|) == Before(start, b, |b|)
    requires k < |a|
    ensures SameHashed(a[k], b[k]) && a[k].hash == b[k].hash
    decreases |a|
  {
    var last := |a| - 1;
    assert View(a[last]) == View(b[last]);
    ViewIs(a[last], b[last]);
    if k < last {
      assert Before(start, a[..last], last) == Before(start, b[..last], last) by {
        assert a[last].prevHash == b[last].prevHash;
      }
      HeadFixesChain(digest, start, a[..last], b[..last], k);
    }
  }

  /** Replacing a record by one with the same hash and the same hashed fields keeps the chain. */
  lemma {:induction false} SameViewKeepsChain(digest: Digest, start: Hash, events: seq<SafetyEvent>, k: nat, e: SafetyEvent)
    requires Chain(digest, start, events) && k < |events| && e.hash == events[k].hash && View(e) == View(events[k])
    ensures Chain(digest, start, events[k := e])
  {
    var changed := events[k := e];
    forall i | 0 <= i < |changed| ensures LinkOk(digest, Before(start, changed, i), changed[i]) {
      ChainLink(digest, start, events, i);
      assert Before(start, changed, i) == Before(start, events, i);
      assert View(changed[i]).prevHash == changed[i].prevHash && View(events[i]).prevHash == events[i].prevHash;
    }
    LinksChain(digest, start, changed);
  }

  /**
   * Rewriting one record in place, its hash included. Before the last place it
   * goes unnoticed exactly when the hash and every hashed field stay the same.
   * In the last place it goes unnoticed exactly when the new record is sealed
   * onto the one before, whatever it says, because the head is not compared.
   */
  lemma {:induction false} RewriteUnnoticedIff(digest: Digest, start: Hash, events: seq<SafetyEvent>, k: nat, e: SafetyEvent)
    requires CollisionFree(digest) && Chain(digest, start, events) && k < |events|
    ensures Chain(digest, start, events[k := e]) <==>
            if k + 1 == |events| then LinkOk(digest, Before(start, events, k), e)
            else e.hash == events[k].hash && SameHashed(e, events[k])
  {
    var changed := events[k := e];
    ViewIs(e, events[k]);
    ChainLink(digest, start, events, k);
    if k + 1 == |events| {
      assert changed == events[..k] + [e];
      if LinkOk(digest, Before(start, events, k), e) {
        ChainSnoc(digest, start, events[..k], e);
      }
      if Chain(digest, start, changed) {
        ChainLink(digest, start, changed, k);
      }
    } else {
      if Chain(digest, start, changed) {
        NextFixesRewrite(digest, start, events, k, e);
      }
      if e.hash == events[k].hash && View(e) == View(events[k]) {
        SameViewKeepsChain(digest, start, events, k, e);
      }
    }
  }

  /**
   * Changing any hashed field of a record and keeping its hash is found, and
   * found at that record.
   */
  lemma {:induction false} RewriteIsFoundThere(digest: Digest, start: Hash, events: seq<SafetyEvent>, k: nat, e: SafetyEvent)
    requires CollisionFree(digest) && Chain(digest, start, events) && k < |events|
    requires e.hash == events[k].hash && !SameHashed(e, events[k])
    ensures FirstBreak(digest, start, events[k := e], 0) == k
  {
    var changed := events[k := e];
    ViewIs(e, events[k]);
    ChainLink(digest, start, events, k);
    forall i | 0 <= i < k ensures LinkOk(digest, Before(start, changed, i), changed[i]) {
      ChainLink(digest, start, events, i);
      assert Before(start, changed, i) == Before(start, events, i);
    }
    FirstBreakAt(digest, start, changed, 0, k);
  }

  lemma {:induction false} FirstBreakAt(digest: Digest, start: Hash, chain: seq<SafetyEvent>, from: nat, k: nat)
    requires from <= k < |chain| && !LinkOk(digest, Before(start, chain, k), chain[k])
    requires forall i :: from <= i < k ==> LinkOk(digest, Before(start, chain, i), chain[i])
    ensures FirstBreak(digest, start, chain, from) == k
    decreases k - from
  {
    if from < k {
      FirstBreakAt(digest, start, chain, from + 1, k);
    }
  }

  /** The record behind a rewritten one still names the old hash. */
  lemma {:induction false} NextFixesRewrite(digest: Digest, start: Hash, events: seq<SafetyEvent>, k: nat, e: SafetyEvent)
    requires CollisionFree(digest) && Chain(digest, start, events) && k + 1 < |events| && Chain(digest, start, events[k := e])
    ensures e.hash == events[k].hash && View(e) == View(events[k])
  {
    var changed := events[k := e];
    ChainLink(digest, start, events, k);
    ChainLink(digest, start, events, k + 1);
    ChainLink(digest, start, changed, k);
    ChainLink(digest, start, changed, k + 1);
  }

  /** A forged last record, hashed anew, is always accepted. */
  lemma {:induction false} ForgedLastIsNotNoticed(digest: Digest, start: Hash, events: seq<SafetyEvent>, forged: SafetyEvent)
    requires Chain(digest, start, events) && events != []
    ensures var last := |events| - 1;
            Chain(digest, start, events[last := Sealed(digest, forged.(prevHash := Before(start, events, last)))])
  {
    var last := |events| - 1;
    var e := Sealed(digest, forged.(prevHash := Before(start, events, last)));
    ChainLink(digest, start, events, last);
    assert View(e) == View(e.(hash := forged.hash));
    ChainSnoc(digest, start, events[..last], e);
    assert events[last := e] == events[..last] + [e];
  }

  /** The reason, gate, policy version and severity of a verdict are outside the hash: they can be rewritten. */
  lemma {:induction false} ReasonIsNotHashed(digest: Digest, start: Hash, events: seq<SafetyEvent>, k: nat, verdict: Verdict)
    requires Chain(digest, start, events) && k < |events|
    requires var sealed := events[k].verdict;
             verdict.decision == sealed.decision && verdict.ruleId == sealed.ruleId && verdict.policyHash == sealed.policyHash
    ensures Chain(digest, start, events[k := events[k].(verdict := verdict)])
  {
    SameViewKeepsChain(digest, start, events, k, events[k].(verdict := verdict));
  }

  /** Records cut off at the end go unnoticed: the check does not look at the head. */
  lemma {:induction false} TruncationIsNotNoticed(digest: Digest, start: Hash, events: seq<SafetyEvent>, k: nat)
    requires Chain(digest, start, events) && k <= |events|
    ensures Chain(digest, start, events[..k])
  {
    if k < |events| {
      ChainLink(digest, start, events, k);
    } else {
      assert events[..k] == events;
    }
  }
}
