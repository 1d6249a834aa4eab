/**
 * The per-document promise chain (apps/server/src/concord/store.ts,
 * `serialize`) as a transition system. A call is a sequence of atomic segments,
 * the stretches between its await points; the scheduler may interleave
 * segments of different calls in any way the promises allow.
 */
module Serialization {
  import opened Options

  type DocId = string

  /** How many segments of a call have run, and whether its promise has settled. */
  datatype Phase = Waiting | Running(done: nat) | Settled(done: nat) {
    function Done(): nat {
      if Waiting? then 0 else done
    }
  }

  datatype Call<!D> = Call(doc: DocId, segments: seq<D -> D>, predecessor: Option<nat>, phase: Phase)

  /** `tail` maps a document to the call whose promise ends its chain. */
  datatype System<!D> = System(calls: seq<Call<D>>, tail: map<DocId, nat>, docs: map<DocId, D>)

  datatype Event<!D> =
    | Queue(doc: DocId, segments: seq<D -> D>)
    | Start(call: nat)
    | RunSegment(call: nat)
    | Settle(call: nat)

  function Initial<D>(): System<D> {
    System([], map[], map[])
  }

  function Content<D>(s: System<D>, d: DocId, zero: D): D {
    if d in s.docs then s.docs[d] else zero
  }

  /** A call starts once its predecessor has settled, one way or the other. */
  predicate CanStart<D>(s: System<D>, k: nat) {
    k < |s.calls| && s.calls[k].phase.Waiting? &&
    (s.calls[k].predecessor.Some? ==>
       s.calls[k].predecessor.value < |s.calls| && s.calls[s.calls[k].predecessor.value].phase.Settled?)
  }

  /** The events possible in a state. A running call may settle anywhere: early is a rejection. */
  predicate Enabled<D>(s: System<D>, e: Event<D>) {
    match e
    case Queue(_, _) => true
    case Start(k) => CanStart(s, k)
    case RunSegment(k) => k < |s.calls| && s.calls[k].phase.Running? && s.calls[k].phase.done < |s.calls[k].segments|
    case Settle(k) => k < |s.calls| && s.calls[k].phase.Running?
  }

  function SetPhase<D>(s: System<D>, k: nat, phase: Phase): System<D>
    requires k < |s.calls|
  {
    s.(calls := s.calls[k := s.calls[k].(phase := phase)])
  }

  function Next<D>(s: System<D>, e: Event<D>, zero: D): System<D>
    requires Enabled(s, e)
  {
    match e
    case Queue(d, segments) =>
      var predecessor := if d in s.tail then Some(s.tail[d]) else None;
      System(s.calls + [Call(d, segments, predecessor, Waiting)], s.tail[d := |s.calls|], s.docs)
    case Start(k) => SetPhase(s, k, Running(0))
    case RunSegment(k) =>
      var call := s.calls[k];
      SetPhase(s, k, Running(call.phase.done + 1))
        .(docs := s.docs[call.doc := call.segments[call.phase.done](Content(s, call.doc, zero))])
    case Settle(k) => SetPhase(s, k, Settled(s.calls[k].phase.done))
  }

  /** A run: every event is possible where it happens. */
  ghost predicate Possible<D>(s: System<D>, events: seq<Event<D>>, zero: D)
    decreases |events|
  {
    events == [] || (Enabled(s, events[0]) && Possible(Next(s, events[0], zero), events[1..], zero))
  }

  ghost function After<D>(s: System<D>, events: seq<Event<D>>, zero: D): System<D>
    requires Possible(s, events, zero)
    decreases |events|
  {
    if events == [] then s else After(Next(s, events[0], zero), events[1..], zero)
  }

  // -------------------------------------------------------------- sequential run

  /** The first `count` segments, one after the other. */
  function RunSegments<D>(segments: seq<D -> D>, count: nat, d: D): D
    requires count <= |segments|
  {
    if count == 0 then d else segments[count - 1](RunSegments(segments, count - 1, d))
  }

  predicate Counted<D>(calls: seq<Call<D>>) {
    forall k :: 0 <= k < |calls| ==> calls[k].phase.Done() <= |calls[k].segments|
  }

  /** Calls on `d` one after the other in call order, each as far as it has run. */
  function Sequential<D>(calls: seq<Call<D>>, d: DocId, zero: D): D
    requires Counted(calls)
    decreases |calls|
  {
    if calls == [] then zero
    else
      var k := |calls| - 1;
      var before := Sequential(calls[..k], d, zero);
      if calls[k].doc == d then RunSegments(calls[k].segments, calls[k].phase.Done(), before) else before
  }

  // -------------------------------------------------------------------- invariant

  /** `p` is the last call on `d` before call `k`, if there is one. */
  ghost predicate IsPrevious<D>(calls: seq<Call<D>>, d: DocId, k: nat, p: Option<nat>)
    requires k <= |calls|
  {
    match p
    case None => forall j :: 0 <= j < k ==> calls[j].doc != d
    case Some(i) => i < k && calls[i].doc == d && forall j :: i < j < k ==> calls[j].doc != d
  }

  function TailOf<D>(s: System<D>, d: DocId): Option<nat> {
    if d in s.tail then Some(s.tail[d]) else None
  }

  /** The chain: each call hangs on the previous one of its document, and starts after it settles. */
  ghost predicate Chained<D>(s: System<D>) {
    (forall k :: 0 <= k < |s.calls| ==> IsPrevious(s.calls, s.calls[k].doc, k, s.calls[k].predecessor)) &&
    (forall d: DocId :: IsPrevious(s.calls, d, |s.calls|, TailOf(s, d))) &&
    (forall k :: 0 <= k < |s.calls| && !s.calls[k].phase.Waiting? && s.calls[k].predecessor.Some? ==>
       s.calls[s.calls[k].predecessor.value].phase.Settled?)
  }

  /** A started call has every earlier call on its document settled. */
  lemma {:induction false} StartedAfterSettled<D>(s: System<D>, j: nat, k: nat)
    requires Chained(s) && j < k < |s.calls| && s.calls[j].doc == s.calls[k].doc && !s.calls[k].phase.Waiting?
    ensures s.calls[j].phase.Settled?
    decreases k
  {
    assert IsPrevious(s.calls, s.calls[k].doc, k, s.calls[k].predecessor);
    var p := s.calls[k].predecessor.value;
    if p != j {
      StartedAfterSettled(s, j, p);
    }
  }

  lemma {:induction false} SamePrevious<D>(calls: seq<Call<D>>, calls': seq<Call<D>>, d: DocId, k: nat, p: Option<nat>)
    requires k <= |calls| && k <= |calls'| && IsPrevious(calls, d, k, p)
    requires forall j :: 0 <= j < k ==> calls'[j].doc == calls[j].doc
    ensures IsPrevious(calls', d, k, p)
  {
  }

  lemma {:induction false} QueueKeepsChain<D>(s: System<D>, d: DocId, segments: seq<D -> D>, zero: D)
    requires Chained(s)
    ensures Chained(Next(s, Queue(d, segments), zero))
  {
    var s' := Next(s, Queue(d, segments), zero);
    forall k | 0 <= k < |s'.calls| ensures IsPrevious(s'.calls, s'.calls[k].doc, k, s'.calls[k].predecessor) {
      if k < |s.calls| {
        SamePrevious(s.calls, s'.calls, s.calls[k].doc, k, s.calls[k].predecessor);
      } else {
        SamePrevious(s.calls, s'.calls, d, k, TailOf(s, d));
      }
    }
    forall x: DocId ensures IsPrevious(s'.calls, x, |s'.calls|, TailOf(s', x)) {
      SamePrevious(s.calls, s'.calls, x, |s.calls|, TailOf(s, x));
    }
    forall k | 0 <= k < |s'.calls| && !s'.calls[k].phase.Waiting? && s'.calls[k].predecessor.Some?
      ensures s'.calls[s'.calls[k].predecessor.value].phase.Settled?
    {
      assert IsPrevious(s.calls, s.calls[k].doc, k, s.calls[k].predecessor);
    }
  }

  /** A phase may change to anything that does not undo a settlement or start too early. */
  lemma {:induction false} PhaseKeepsChain<D>(s: System<D>, i: nat, phase: Phase, docs: map<DocId, D>)
    requires Chained(s) && i < |s.calls| && !s.calls[i].phase.Settled? && !phase.Waiting?
    requires s.calls[i].phase.Waiting? ==> CanStart(s, i)
    ensures Chained(SetPhase(s, i, phase).(docs := docs))
  {
    var s' := SetPhase(s, i, phase).(docs := docs);
    forall k | 0 <= k < |s'.calls| ensures IsPrevious(s'.calls, s'.calls[k].doc, k, s'.calls[k].predecessor) {
      SamePrevious(s.calls, s'.calls, s.calls[k].doc, k, s.calls[k].predecessor);
    }
    forall x: DocId ensures IsPrevious(s'.calls, x, |s'.calls|, TailOf(s', x)) {
      SamePrevious(s.calls, s'.calls, x, |s.calls|, TailOf(s, x));
    }
    forall k | 0 <= k < |s'.calls| && !s'.calls[k].phase.Waiting? && s'.calls[k].predecessor.Some?
      ensures s'.calls[s'.calls[k].predecessor.value].phase.Settled?
    {
      assert IsPrevious(s.calls, s.calls[k].doc, k, s.calls[k].predecessor);
      assert s.calls[s.calls[k].predecessor.value].phase.Settled?;
    }
  }

  lemma {:induction false} StepKeepsChain<D>(s: System<D>, e: Event<D>, zero: D)
    requires Chained(s) && Enabled(s, e)
    ensures Chained(Next(s, e, zero))
  {
    match e
    case Queue(d, segments) => QueueKeepsChain(s, d, segments, zero);
    case Start(k) => PhaseKeepsChain(s, k, Running(0), s.docs);
    case RunSegment(k) => PhaseKeepsChain(s, k, Running(s.calls[k].phase.done + 1), Next(s, e, zero).docs);
    case Settle(k) => PhaseKeepsChain(s, k, Settled(s.calls[k].phase.done), s.docs);
  }

  /** Every document is where the sequential run of its calls has got to. */
  ghost predicate Linear<D>(s: System<D>, zero: D) {
    Counted(s.calls) && forall d: DocId :: Content(s, d, zero) == Sequential(s.calls, d, zero)
  }

  /** Running one more segment of call `k` moves the sequential run on, when later calls have not begun. */
  lemma {:induction false} SequentialRuns<D>(calls: seq<Call<D>>, calls': seq<Call<D>>, k: nat, d: DocId, zero: D)
    requires Counted(calls) && Counted(calls') && k < |calls| == |calls'|
    requires calls[k].phase.Running? && calls[k].phase.done < |calls[k].segments|
    requires calls' == calls[k := calls[k].(phase := Running(calls[k].phase.done + 1))]
    requires forall j :: k < j < |calls| && calls[j].doc == calls[k].doc ==> calls[j].phase.Waiting?
    ensures Sequential(calls', d, zero) ==
            if d == calls[k].doc then calls[k].segments[calls[k].phase.done](Sequential(calls, d, zero))
            else Sequential(calls, d, zero)
    decreases |calls|
  {
    var last := |calls| - 1;
    if k == last {
      assert calls'[..last] == calls[..last];
    } else {
      assert calls'[..last] == calls[..last][k := calls'[k]];
      SequentialRuns(calls[..last], calls'[..last], k, d, zero);
    }
  }

  lemma {:induction false} SequentialSame<D>(calls: seq<Call<D>>, calls': seq<Call<D>>, d: DocId, zero: D)
    requires Counted(calls) && Counted(calls') && |calls| == |calls'|
    requires forall j :: 0 <= j < |calls| ==>
               calls'[j].doc == calls[j].doc && calls'[j].segments == calls[j].segments &&
               calls'[j].phase.Done() == calls[j].phase.Done()
    ensures Sequential(calls', d, zero) == Sequential(calls, d, zero)
    decreases |calls|
  {
    if calls != [] {
      SequentialSame(calls[..|calls| - 1], calls'[..|calls| - 1], d, zero);
    }
  }

  lemma {:induction false} StepKeepsLinear<D>(s: System<D>, e: Event<D>, zero: D)
    requires Chained(s) && Linear(s, zero) && Enabled(s, e)
    ensures Linear(Next(s, e, zero), zero)
  {
    var s' := Next(s, e, zero);
    forall d: DocId ensures Content(s', d, zero) == Sequential(s'.calls, d, zero) {
      assert Content(s, d, zero) == Sequential(s.calls, d, zero);
      match e
      case Queue(_, _) => assert s'.calls[..|s.calls|] == s.calls;
      case Start(_) => SequentialSame(s.calls, s'.calls, d, zero);
      case Settle(_) => SequentialSame(s.calls, s'.calls, d, zero);
      case RunSegment(k) =>
        forall j | k < j < |s.calls| && s.calls[j].doc == s.calls[k].doc ensures s.calls[j].phase.Waiting? {
          if !s.calls[j].phase.Waiting? {
            StartedAfterSettled(s, k, j);
          }
        }
        SequentialRuns(s.calls, s'.calls, k, d, zero);
    }
  }

  lemma {:induction false} RunKeeps<D>(s: System<D>, events: seq<Event<D>>, zero: D)
    requires Chained(s) && Linear(s, zero) && Possible(s, events, zero)
    ensures Chained(After(s, events, zero)) && Linear(After(s, events, zero), zero)
    decreases |events|
  {
    if events != [] {
      StepKeepsChain(s, events[0], zero);
      StepKeepsLinear(s, events[0], zero);
      RunKeeps(Next(s, events[0], zero), events[1..], zero);
    }
  }

  /**
   * Under every interleaving: calls on one document start in call order, each
   * after all earlier ones have settled; so at most one is under way; and each
   * document is exactly as far as the sequential run of its calls.
   */
  lemma {:induction false} CallsAreSerialized<D>(events: seq<Event<D>>, zero: D)
    requires Possible(Initial(), events, zero)
    ensures var s := After(Initial(), events, zero);
            (forall j, k :: 0 <= j < k < |s.calls| && s.calls[j].doc == s.calls[k].doc && !s.calls[k].phase.Waiting? ==>
               s.calls[j].phase.Settled?) &&
            (forall j, k ::
               (0 <= j < |s.calls| && 0 <= k < |s.calls| && s.calls[j].doc == s.calls[k].doc &&
                s.calls[j].phase.Running? && s.calls[k].phase.Running?) ==> j == k) &&
            Counted(s.calls) && forall d: DocId :: Content(s, d, zero) == Sequential(s.calls, d, zero)
  {
    RunKeeps(Initial(), events, zero);
    var s := After(Initial(), events, zero);
    forall j, k | 0 <= j < k < |s.calls| && s.calls[j].doc == s.calls[k].doc && !s.calls[k].phase.Waiting?
      ensures s.calls[j].phase.Settled?
    {
      StartedAfterSettled(s, j, k);
    }
  }

  /** No document stalls: while a call on it waits, one is running or one can start. */
  lemma {:induction false} NeverStalls<D>(s: System<D>, k: nat) returns (i: nat)
    requires Chained(s) && k < |s.calls| && s.calls[k].phase.Waiting?
    ensures i <= k && s.calls[i].doc == s.calls[k].doc
    ensures s.calls[i].phase.Running? || CanStart(s, i)
    decreases k
  {
    assert IsPrevious(s.calls, s.calls[k].doc, k, s.calls[k].predecessor);
    if s.calls[k].predecessor.None? {
      i := k;
    } else {
      var p := s.calls[k].predecessor.value;
      match s.calls[p].phase
      case Settled(_) => i := k;
      case Running(_) => i := p;
      case Waiting => i := NeverStalls(s, p);
    }
  }
}
