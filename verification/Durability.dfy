/**
 * The persist queue (apps/server/src/concord/store.ts, `persist`): a snapshot
 * is taken when an operation asks for it, snapshots are renamed over the file
 * in that order, and an operation is acknowledged after its own.
 */
module Durability {
  import opened Options
  import opened StoreState
  import opened Blame
  import opened NoLostUpdate

  /** What is written out: the documents without their leases, and the bases. */
  function Saved(s: Store): Store {
    Store(map d | d in s.docs :: s.docs[d].(lease := None), s.bases, map[], 0, 0)
  }

  /** A queued snapshot of the state after operation `at`. */
  datatype Job = Job(snapshot: Store, at: nat)

  /**
   * `past[0]` is the first state and `past[k]` the state after the k-th
   * operation. `file` is the last snapshot renamed, taken at `fileAt`.
   */
  datatype Disk = Disk(past: seq<Store>, ops: seq<Op>, queue: seq<Job>, file: Store, fileAt: nat, acknowledged: set<nat>)

  const NEW_DISK := Disk([EMPTY], [], [], EMPTY, 0, {})

  datatype Event = Perform(op: Op) | Renamed | Failed

  /** The operations that wait for the disk before they answer. */
  predicate Persists(s: Store, op: Op) {
    var (s', outcome) := Step(s, op);
    match op
    case Read(d, agent, _, _) => outcome.ReadOk? && (BaseKey(agent, d) !in s.bases || s.bases[BaseKey(agent, d)] != outcome.content)
    case _ => Accepted(outcome) || outcome.ConflictAt?
  }

  predicate Possible(disk: Disk, e: Event) {
    disk.past != [] && (e.Perform? || disk.queue != [])
  }

  /** Writing the temporary file and renaming it either happens or fails; a failure rejects its operation alone. */
  function Next(disk: Disk, e: Event): Disk
    requires Possible(disk, e)
  {
    match e
    case Perform(op) =>
      var s := disk.past[|disk.past| - 1];
      var s' := Step(s, op).0;
      disk.(past := disk.past + [s'], ops := disk.ops + [op],
            queue := if Persists(s, op) then disk.queue + [Job(Saved(s'), |disk.past|)] else disk.queue)
    case Renamed =>
      var job := disk.queue[0];
      disk.(queue := disk.queue[1..], file := job.snapshot, fileAt := job.at, acknowledged := disk.acknowledged + {job.at})
    case Failed => disk.(queue := disk.queue[1..])
  }

  ghost predicate PossibleRun(disk: Disk, events: seq<Event>)
    decreases |events|
  {
    events == [] || (Possible(disk, events[0]) && PossibleRun(Next(disk, events[0]), events[1..]))
  }

  ghost function After(disk: Disk, events: seq<Event>): Disk
    requires PossibleRun(disk, events)
    decreases |events|
  {
    if events == [] then disk else After(Next(disk, events[0]), events[1..])
  }

  // ------------------------------------------------------------ what a file holds

  /** Everything of a document is in the file but its lease. */
  ghost predicate OnFile(saved: Doc, doc: Doc) {
    saved.version == doc.version && saved.content == doc.content && saved.updatedAt == doc.updatedAt &&
    saved.updatedBy == doc.updatedBy && saved.history == doc.history && saved.conflicts == doc.conflicts &&
    saved.provenance == doc.provenance && saved.contributions == doc.contributions && saved.lease.None?
  }

  /** A document nobody has written yet. */
  ghost predicate Blank(doc: Doc) {
    doc.version == 0 && doc.content == "" && doc.updatedBy.None? && doc.history == [] && doc.conflicts == [] &&
    doc.provenance == [] && doc.contributions == []
  }

  /** The file holds every document and every base of the state, and no others. */
  ghost predicate FileIs(file: Store, s: Store) {
    file.docs.Keys == s.docs.Keys && (forall d :: d in s.docs ==> OnFile(file.docs[d], s.docs[d])) && file.bases == s.bases
  }

  /** The same, but for documents that are still blank. */
  ghost predicate UpToDate(file: Store, s: Store) {
    file.docs.Keys <= s.docs.Keys && file.bases == s.bases &&
    forall d :: d in s.docs ==> if d in file.docs then OnFile(file.docs[d], s.docs[d]) else Blank(s.docs[d])
  }

  lemma SavedIs(s: Store)
    ensures FileIs(Saved(s), s) && UpToDate(Saved(s), s)
  {
  }

  /** Entering a document, and its lease, are nothing the file holds. */
  lemma LeaseIsNotOnFile(file: Store, s: Store, d: DocId, now: int, lease: Option<Lease>)
    requires UpToDate(file, s)
    ensures UpToDate(file, Put(s, d, Entered(s, d, now).(lease := lease)))
    ensures UpToDate(file, Put(s, d, Entered(s, d, now)))
  {
  }

  lemma UnsavedWrite(file: Store, s: Store, op: Op)
    requires op.Write? && UpToDate(file, s) && !Persists(s, op)
    ensures UpToDate(file, Step(s, op).0)
  {
    LeaseIsNotOnFile(file, s, op.doc, op.now, None);
    SubmitRefuses(s, op.doc, Entered(s, op.doc, op.now), op.agent, op.expected, op.content, op.verdict.human, op.now);
  }

  lemma AcquireShape(s: Store, op: Op)
    requires op.AcquireLease?
    ensures var s', entered := Step(s, op).0, Entered(s, op.doc, op.now);
            s' == s || s' == Put(s, op.doc, entered) ||
            s' == Put(s, op.doc, entered.(lease := Some(Lease(op.agent, op.verdict.human, op.now, op.now + op.ttl))))
  {
  }

  lemma UnsavedAcquire(file: Store, s: Store, op: Op)
    requires op.AcquireLease? && UpToDate(file, s)
    ensures UpToDate(file, Step(s, op).0)
  {
    AcquireShape(s, op);
    LeaseIsNotOnFile(file, s, op.doc, op.now, Some(Lease(op.agent, op.verdict.human, op.now, op.now + op.ttl)));
  }

  lemma UnsavedRelease(file: Store, s: Store, op: Op)
    requires op.ReleaseLease? && UpToDate(file, s)
    ensures UpToDate(file, Step(s, op).0)
  {
    LeaseIsNotOnFile(file, s, op.doc, op.now, None);
  }

  /** A step that does not wait for the disk changes nothing the file holds. */
  lemma UnsavedChangesNothing(file: Store, s: Store, op: Op)
    requires UpToDate(file, s) && !Persists(s, op)
    ensures UpToDate(file, Step(s, op).0)
  {
    match op
    case Read(_, _, _, _) => UnsavedRead(file, s, op);
    case Write(_, _, _, _, _, _) => UnsavedWrite(file, s, op);
    case WriteAsHuman(d, _, _, _, now) => LeaseIsNotOnFile(file, s, d, now, None);
    case Resolve(_, _, _, _, _, _) =>
    case AcquireLease(_, _, _, _, _) => UnsavedAcquire(file, s, op);
    case ReleaseLease(_, _, _, _) => UnsavedRelease(file, s, op);
    case Allocate(_, _, _) =>
    case ReleaseSections(_) =>
  }

  lemma UnsavedRead(file: Store, s: Store, op: Op)
    requires op.Read? && UpToDate(file, s) && !Persists(s, op)
    ensures UpToDate(file, Step(s, op).0)
  {
    if op.verdict.allowed {
      var key := BaseKey(op.agent, op.doc);
      LeaseIsNotOnFile(file, s, op.doc, op.now, None);
      assert s.bases[key := s.bases[key]] == s.bases;
    }
  }

  // ------------------------------------------------------------------- invariant

  ghost predicate Steps(past: seq<Store>, ops: seq<Op>) {
    |past| == |ops| + 1 && forall k :: 0 <= k < |ops| ==> past[k + 1] == Step(past[k], ops[k]).0
  }

  ghost predicate Sound(disk: Disk) {
    Steps(disk.past, disk.ops) &&
    disk.fileAt < |disk.past| && disk.file == Saved(disk.past[disk.fileAt]) &&
    (forall j :: 0 <= j < |disk.queue| ==>
       disk.fileAt < disk.queue[j].at < |disk.past| && disk.queue[j].snapshot == Saved(disk.past[disk.queue[j].at])) &&
    (forall i, j :: 0 <= i < j < |disk.queue| ==> disk.queue[i].at < disk.queue[j].at) &&
    (forall a :: a in disk.acknowledged ==> a <= disk.fileAt)
  }

  lemma StepIsSound(disk: Disk, e: Event)
    requires Sound(disk) && Possible(disk, e)
    ensures Sound(Next(disk, e))
    ensures disk.fileAt <= Next(disk, e).fileAt && disk.past <= Next(disk, e).past && disk.ops <= Next(disk, e).ops
  {
    match e
    case Perform(op) => PerformIsSound(disk, op);
    case _ => DequeueIsSound(disk, e);
  }

  lemma PerformIsSound(disk: Disk, op: Op)
    requires Sound(disk)
    ensures Sound(Next(disk, Perform(op)))
  {
    var next := Next(disk, Perform(op));
    forall k | 0 <= k < |next.ops| ensures next.past[k + 1] == Step(next.past[k], next.ops[k]).0 {
      if k < |disk.ops| {
        assert next.past[k] == disk.past[k] && next.past[k + 1] == disk.past[k + 1] && next.ops[k] == disk.ops[k];
      }
    }
    forall j | 0 <= j < |next.queue|
      ensures next.fileAt < next.queue[j].at < |next.past| && next.queue[j].snapshot == Saved(next.past[next.queue[j].at])
    {
      if j < |disk.queue| {
        assert next.queue[j] == disk.queue[j] && next.past[disk.queue[j].at] == disk.past[disk.queue[j].at];
      }
    }
  }

  lemma DequeueIsSound(disk: Disk, e: Event)
    requires Sound(disk) && !e.Perform? && disk.queue != []
    ensures Sound(Next(disk, e)) && disk.fileAt <= Next(disk, e).fileAt
  {
    var next := Next(disk, e);
    assert forall j :: 0 <= j < |next.queue| ==> next.queue[j] == disk.queue[j + 1];
    assert disk.fileAt < disk.queue[0].at;
  }

  lemma {:induction false} RunIsSound(disk: Disk, events: seq<Event>)
    requires Sound(disk) && PossibleRun(disk, events)
    ensures Sound(After(disk, events))
    ensures disk.fileAt <= After(disk, events).fileAt && disk.past <= After(disk, events).past && disk.ops <= After(disk, events).ops
    decreases |events|
  {
    if events != [] {
      StepIsSound(disk, events[0]);
      RunIsSound(Next(disk, events[0]), events[1..]);
    }
  }

  lemma {:induction false} VersionsGrow(past: seq<Store>, ops: seq<Op>, i: nat, j: nat, d: DocId)
    requires Steps(past, ops) && i <= j < |past|
    ensures DocAt(past[i], d).version <= DocAt(past[j], d).version
    decreases j
  {
    if i < j {
      var k := j - 1;
      VersionsGrow(past, ops, i, k, d);
      assert past[k + 1] == Step(past[k], ops[k]).0;
      StepVersion(past[k], ops[k], d);
    }
  }

  /** Whatever happens next, no document's version in the file ever goes back. */
  lemma FileNeverGoesBack(events: seq<Event>, more: seq<Event>, d: DocId)
    requires PossibleRun(NEW_DISK, events) && PossibleRun(After(NEW_DISK, events), more)
    ensures DocAt(After(NEW_DISK, events).file, d).version <= DocAt(After(After(NEW_DISK, events), more).file, d).version
  {
    RunIsSound(NEW_DISK, events);
    var disk := After(NEW_DISK, events);
    RunIsSound(disk, more);
    var later := After(disk, more);
    assert later.past[disk.fileAt] == disk.past[disk.fileAt];
    VersionsGrow(later.past, later.ops, disk.fileAt, later.fileAt, d);
  }

  /**
   * Durable before acknowledged: once an accepted operation has answered, the
   * file holds its version of the document or a later one, and the file is
   * exactly a state the store has been in since.
   */
  lemma AcknowledgedIsDurable(events: seq<Event>, k: nat)
    requires PossibleRun(NEW_DISK, events)
    requires var disk := After(NEW_DISK, events); k < |disk.ops| && k + 1 in disk.acknowledged
    ensures var disk := After(NEW_DISK, events);
            |disk.past| == |disk.ops| + 1 && k + 1 <= disk.fileAt < |disk.past| && FileIs(disk.file, disk.past[disk.fileAt]) &&
            disk.past[k + 1] == Step(disk.past[k], disk.ops[k]).0 &&
            DocAt(disk.past[k + 1], disk.ops[k].doc).version <= DocAt(disk.file, disk.ops[k].doc).version &&
            (Accepted(Step(disk.past[k], disk.ops[k]).1) ==>
               DocAt(disk.past[k], disk.ops[k].doc).version < DocAt(disk.file, disk.ops[k].doc).version)
  {
    RunIsSound(NEW_DISK, events);
    var disk := After(NEW_DISK, events);
    SavedIs(disk.past[disk.fileAt]);
    VersionsGrow(disk.past, disk.ops, k + 1, disk.fileAt, disk.ops[k].doc);
    StepVersion(disk.past[k], disk.ops[k], disk.ops[k].doc);
  }

  /** At every moment, whatever failed, the file is a state the store has been in, whole. */
  lemma FileIsPast(events: seq<Event>)
    requires PossibleRun(NEW_DISK, events)
    ensures var disk := After(NEW_DISK, events);
            disk.fileAt < |disk.past| && FileIs(disk.file, disk.past[disk.fileAt])
    ensures var disk := After(NEW_DISK, events);
            disk.past[0] == EMPTY && |disk.past| == |disk.ops| + 1 &&
            forall k :: 0 <= k < |disk.ops| ==> disk.past[k + 1] == Step(disk.past[k], disk.ops[k]).0
  {
    RunIsSound(NEW_DISK, events);
    var disk := After(NEW_DISK, events);
    SavedIs(disk.past[disk.fileAt]);
  }

  /** What will be in the file once the queue is through. */
  function Pending(disk: Disk): Store {
    if disk.queue == [] then disk.file else disk.queue[|disk.queue| - 1].snapshot
  }

  ghost predicate Settles(disk: Disk) {
    disk.past != [] && UpToDate(Pending(disk), disk.past[|disk.past| - 1])
  }

  lemma PendingPerform(disk: Disk, op: Op)
    requires Settles(disk)
    ensures Settles(Next(disk, Perform(op)))
  {
    var s := disk.past[|disk.past| - 1];
    SavedIs(Step(s, op).0);
    if !Persists(s, op) {
      UnsavedChangesNothing(Pending(disk), s, op);
    }
  }

  lemma PendingStep(disk: Disk, e: Event)
    requires Possible(disk, e) && !e.Failed? && Settles(disk)
    ensures Settles(Next(disk, e))
  {
    if e.Perform? {
      PendingPerform(disk, e.op);
    }
  }

  lemma {:induction false} PendingRun(disk: Disk, events: seq<Event>)
    requires PossibleRun(disk, events) && Settles(disk)
    requires forall k :: 0 <= k < |events| ==> !events[k].Failed?
    ensures Settles(After(disk, events))
    decreases |events|
  {
    if events != [] {
      PendingStep(disk, events[0]);
      PendingRun(Next(disk, events[0]), events[1..]);
    }
  }

  /** When nothing failed and nothing is queued, the file is up to date with the state, but for blank documents. */
  lemma QuietDiskIsCurrent(events: seq<Event>)
    requires PossibleRun(NEW_DISK, events) && (forall k :: 0 <= k < |events| ==> !events[k].Failed?)
    requires After(NEW_DISK, events).queue == []
    ensures var disk := After(NEW_DISK, events); disk.past != [] && UpToDate(disk.file, disk.past[|disk.past| - 1])
  {
    PendingRun(NEW_DISK, events);
  }

  /** Every accepted operation and every recorded conflict does wait for the disk. */
  lemma CommitsPersist(s: Store, op: Op)
    requires Accepted(Step(s, op).1) || Step(s, op).1.ConflictAt?
    ensures Persists(s, op)
  {
  }
}
