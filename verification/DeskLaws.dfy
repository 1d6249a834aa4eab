/**
 * What the workspace reconciler does around the store
 * (apps/server/src/concord/reconcile.ts): which files and checkouts a hand-out
 * and a submission leave, and the turn theorem for whole lists of documents.
 */
module DeskLaws {
  import opened Options
  import opened StoreState
  import opened Blame
  import opened NoLostUpdate
  import opened HumanEdits
  import opened Turns

  function KeyOf(turn: Turn, d: DocId): BaseKey {
    BaseKey(turn.agent, d)
  }

  /** Nothing about files and checkouts but those of `d` under `key` differs. */
  ghost predicate OnlyAt(desk: Desk, desk': Desk, key: BaseKey, d: DocId) {
    (forall x :: x != d ==> (x in desk'.files <==> x in desk.files) && (x in desk.files ==> desk'.files[x] == desk.files[x])) &&
    (forall k :: k != key ==> (k in desk'.checkouts <==> k in desk.checkouts) && (k in desk.checkouts ==> desk'.checkouts[k] == desk.checkouts[k]))
  }

  /** File and checkout of the document are the given text, at the given version. */
  ghost predicate Holds(desk: Desk, key: BaseKey, d: DocId, version: nat, content: string) {
    d in desk.files && desk.files[d] == content && key in desk.checkouts && desk.checkouts[key] == Checkout(version, content)
  }

  /** File and checkout of the document are as before. */
  ghost predicate SameAt(desk: Desk, desk': Desk, key: BaseKey, d: DocId) {
    (d in desk'.files <==> d in desk.files) && (d in desk.files ==> desk'.files[d] == desk.files[d]) &&
    (key in desk'.checkouts <==> key in desk.checkouts) && (key in desk.checkouts ==> desk'.checkouts[key] == desk.checkouts[key])
  }

  // -------------------------------------------------------------------- one document

  /**
   * A hand-out succeeds exactly inside the workspace and with read authority; it
   * leaves file and checkout equal to the document's text and version. A refused
   * one leaves both as they were.
   */
  lemma HandoutIs(desk: Desk, turn: Turn, d: DocId)
    ensures var (desk', result) := MaterializeDoc(desk, turn, d);
            var doc := DocAt(desk.store, d);
            OnlyAt(desk, desk', KeyOf(turn, d), d) &&
            (result.Materialized? <==> turn.inside(d) && turn.verdict(d).allowed) &&
            (if result.Materialized?
             then result == Materialized(d, doc.version) && Holds(desk', KeyOf(turn, d), d, doc.version, doc.content)
             else result == HandoutDenied(d) && SameAt(desk, desk', KeyOf(turn, d), d))
    ensures MaterializeDoc(desk, turn, d).0.store == if turn.inside(d) then Step(desk.store, ReadOp(turn, d)).0 else desk.store
  {
    EnteredIsQuiet(desk.store, d, turn.now);
  }

  /** The file is there, was handed out, and differs from what was handed out. */
  predicate Edited(desk: Desk, turn: Turn, d: DocId) {
    turn.inside(d) && KeyOf(turn, d) in desk.checkouts && d in desk.files &&
    desk.files[d] != desk.checkouts[KeyOf(turn, d)].content
  }

  /**
   * Exactly an edited file is submitted, at the version handed out, and the
   * answer is the store's. If it commits, file and checkout become what was
   * committed; if not, both stay. Nothing else changes any of them.
   */
  lemma SubmissionIs(desk: Desk, turn: Turn, d: DocId)
    ensures var (desk', result) := ReconcileDoc(desk, turn, d);
            OnlyAt(desk, desk', KeyOf(turn, d), d) && (result.Submitted? <==> Edited(desk, turn, d)) &&
            if Edited(desk, turn, d) then
              var checkout := desk.checkouts[KeyOf(turn, d)];
              var op := Write(d, turn.agent, checkout.version, desk.files[d], turn.verdict(d), turn.now);
              var (s, outcome) := Step(desk.store, op);
              result == Submitted(d, outcome) && desk'.store == s &&
              if Accepted(outcome) then Holds(desk', KeyOf(turn, d), d, DocAt(s, d).version, DocAt(s, d).content)
              else SameAt(desk, desk', KeyOf(turn, d), d)
            else
              desk' == desk &&
              result == if turn.inside(d) && KeyOf(turn, d) in desk.checkouts && d in desk.files
                        then Unchanged(d, desk.checkouts[KeyOf(turn, d)].version) else Unreadable(d)
  {
    if Edited(desk, turn, d) {
      var op := SubmitOp(turn, d, desk.checkouts[KeyOf(turn, d)], desk.files[d]);
      if Accepted(Step(desk.store, op).1) {
        SubmissionBase(desk.store, op);
        WriteCommits(desk.store, op);
      }
    }
  }

  // -------------------------------------------------------------- lists of documents

  /** The store operations of a hand-out. */
  function HandoutOps(turn: Turn, docs: seq<DocId>): seq<Op> {
    if docs == [] then []
    else (if turn.inside(docs[0]) then [ReadOp(turn, docs[0])] else []) + HandoutOps(turn, docs[1..])
  }

  /** The store operations of a submission. */
  function SubmissionOps(desk: Desk, turn: Turn, docs: seq<DocId>): seq<Op>
    decreases |docs|
  {
    if docs == [] then []
    else
      (if Edited(desk, turn, docs[0])
       then [SubmitOp(turn, docs[0], desk.checkouts[KeyOf(turn, docs[0])], desk.files[docs[0]])] else [])
      + SubmissionOps(ReconcileDoc(desk, turn, docs[0]).0, turn, docs[1..])
  }

  lemma RunFirst(s: Store, op: Op, rest: seq<Op>)
    ensures Run(s, [op] + rest) == Run(Step(s, op).0, rest)
  {
    assert ([op] + rest)[1..] == rest;
  }

  lemma {:induction false} HandoutRuns(desk: Desk, turn: Turn, docs: seq<DocId>)
    ensures MaterializeAll(desk, turn, docs).0.store == Run(desk.store, HandoutOps(turn, docs))
    decreases |docs|
  {
    if docs != [] {
      HandoutIs(desk, turn, docs[0]);
      HandoutRuns(MaterializeDoc(desk, turn, docs[0]).0, turn, docs[1..]);
      var rest := HandoutOps(turn, docs[1..]);
      RunFirst(desk.store, ReadOp(turn, docs[0]), rest);
      assert [] + rest == rest;
    }
  }

  lemma {:induction false} SubmissionRuns(desk: Desk, turn: Turn, docs: seq<DocId>)
    ensures ReconcileAll(desk, turn, docs).0.store == Run(desk.store, SubmissionOps(desk, turn, docs))
    decreases |docs|
  {
    if docs != [] {
      var next := ReconcileDoc(desk, turn, docs[0]).0;
      var rest := SubmissionOps(next, turn, docs[1..]);
      SubmissionIs(desk, turn, docs[0]);
      SubmissionRuns(next, turn, docs[1..]);
      if Edited(desk, turn, docs[0]) {
        RunFirst(desk.store, SubmitOp(turn, docs[0], desk.checkouts[KeyOf(turn, docs[0])], desk.files[docs[0]]), rest);
      }
      assert [] + rest == rest;
    }
  }

  ghost predicate Elsewhere(ops: seq<Op>, d: DocId) {
    forall k :: 0 <= k < |ops| ==> ops[k].doc != d
  }

  lemma {:induction false} HandoutElsewhere(turn: Turn, docs: seq<DocId>, d: DocId)
    requires d !in docs
    ensures Elsewhere(HandoutOps(turn, docs), d)
  {
    if docs != [] {
      HandoutElsewhere(turn, docs[1..], d);
    }
  }

  lemma {:induction false} SubmissionElsewhere(desk: Desk, turn: Turn, docs: seq<DocId>, d: DocId)
    requires d !in docs
    ensures Elsewhere(SubmissionOps(desk, turn, docs), d)
    decreases |docs|
  {
    if docs != [] {
      SubmissionElsewhere(ReconcileDoc(desk, turn, docs[0]).0, turn, docs[1..], d);
    }
  }

  /** Operations on other documents neither give a base on this one nor edit it by hand. */
  lemma {:induction false} ElsewhereGivesNothing(s: Store, ops: seq<Op>, agent: AgentId, d: DocId)
    requires Elsewhere(ops, d)
    ensures NeverGiven(s, ops, agent, d) && !HumanWrote(s, ops, d)
    decreases |ops|
  {
    if ops != [] {
      assert forall k :: 0 <= k < |ops[1..]| ==> ops[1..][k] == ops[k + 1];
      ElsewhereGivesNothing(Step(s, ops[0]).0, ops[1..], agent, d);
    }
  }

  lemma {:induction false} GivenConcat(s: Store, front: seq<Op>, back: seq<Op>, agent: AgentId, d: DocId)
    ensures NeverGiven(s, front + back, agent, d) <==> NeverGiven(s, front, agent, d) && NeverGiven(Run(s, front), back, agent, d)
    ensures HumanWrote(s, front + back, d) <==> HumanWrote(s, front, d) || HumanWrote(Run(s, front), back, d)
    decreases |front|
  {
    if front == [] {
      assert front + back == back;
    } else {
      assert (front + back)[0] == front[0] && (front + back)[1..] == front[1..] + back;
      GivenConcat(Step(s, front[0]).0, front[1..], back, agent, d);
    }
  }

  lemma SameList(front: seq<DocId>, d: DocId, back: seq<DocId>)
    ensures front + [d] + back == front + ([d] + back)
  {
  }

  lemma Placed<T>(first: seq<T>, here: T, later: seq<T>, all: seq<T>)
    requires all == first + ([here] + later)
    ensures |all| == |first| + 1 + |later| && all[|first|] == here
  {
  }

  lemma HandoutFirst(desk: Desk, turn: Turn, d: DocId, back: seq<DocId>)
    ensures var (here, result) := MaterializeDoc(desk, turn, d);
            MaterializeAll(desk, turn, [d] + back) == (MaterializeAll(here, turn, back).0, [result] + MaterializeAll(here, turn, back).1)
  {
    assert ([d] + back)[1..] == back;
  }

  lemma {:induction false} HandoutCount(desk: Desk, turn: Turn, docs: seq<DocId>)
    ensures |MaterializeAll(desk, turn, docs).1| == |docs|
    decreases |docs|
  {
    if docs != [] {
      HandoutCount(MaterializeDoc(desk, turn, docs[0]).0, turn, docs[1..]);
    }
  }

  lemma {:induction false} HandoutConcat(desk: Desk, turn: Turn, front: seq<DocId>, back: seq<DocId>)
    ensures var first := MaterializeAll(desk, turn, front);
            MaterializeAll(desk, turn, front + back) == (MaterializeAll(first.0, turn, back).0, first.1 + MaterializeAll(first.0, turn, back).1)
    decreases |front|
  {
    if front == [] {
      assert front + back == back;
      assert [] + MaterializeAll(desk, turn, back).1 == MaterializeAll(desk, turn, back).1;
    } else {
      assert (front + back)[0] == front[0] && (front + back)[1..] == front[1..] + back;
      var (next, result) := MaterializeDoc(desk, turn, front[0]);
      HandoutConcat(next, turn, front[1..], back);
      var first := MaterializeAll(next, turn, front[1..]);
      var later := MaterializeAll(first.0, turn, back).1;
      assert [result] + (first.1 + later) == [result] + first.1 + later;
    }
  }

  lemma SubmissionFirst(desk: Desk, turn: Turn, d: DocId, back: seq<DocId>)
    ensures var (here, result) := ReconcileDoc(desk, turn, d);
            ReconcileAll(desk, turn, [d] + back) == (ReconcileAll(here, turn, back).0, [result] + ReconcileAll(here, turn, back).1)
  {
    assert ([d] + back)[1..] == back;
  }

  lemma {:induction false} SubmissionCount(desk: Desk, turn: Turn, docs: seq<DocId>)
    ensures |ReconcileAll(desk, turn, docs).1| == |docs|
    decreases |docs|
  {
    if docs != [] {
      SubmissionCount(ReconcileDoc(desk, turn, docs[0]).0, turn, docs[1..]);
    }
  }

  lemma {:induction false} SubmissionConcat(desk: Desk, turn: Turn, front: seq<DocId>, back: seq<DocId>)
    ensures var first := ReconcileAll(desk, turn, front);
            ReconcileAll(desk, turn, front + back) == (ReconcileAll(first.0, turn, back).0, first.1 + ReconcileAll(first.0, turn, back).1)
    decreases |front|
  {
    if front == [] {
      assert front + back == back;
      assert [] + ReconcileAll(desk, turn, back).1 == ReconcileAll(desk, turn, back).1;
    } else {
      assert (front + back)[0] == front[0] && (front + back)[1..] == front[1..] + back;
      var (next, result) := ReconcileDoc(desk, turn, front[0]);
      SubmissionConcat(next, turn, front[1..], back);
      var first := ReconcileAll(next, turn, front[1..]);
      var later := ReconcileAll(first.0, turn, back).1;
      assert [result] + (first.1 + later) == [result] + first.1 + later;
    }
  }

  /** One document in a list: its result, and the desks before and behind it. */
  lemma HandoutAt(desk: Desk, turn: Turn, front: seq<DocId>, d: DocId, back: seq<DocId>)
    ensures var before := MaterializeAll(desk, turn, front).0;
            var (here, result) := MaterializeDoc(before, turn, d);
            var (end, results) := MaterializeAll(desk, turn, front + [d] + back);
            |results| == |front| + 1 + |back| && results[|front|] == result && end == MaterializeAll(here, turn, back).0
  {
    var before := MaterializeAll(desk, turn, front).0;
    var (here, result) := MaterializeDoc(before, turn, d);
    HandoutConcat(desk, turn, front, [d] + back);
    HandoutFirst(before, turn, d, back);
    HandoutCount(desk, turn, front);
    HandoutCount(here, turn, back);
    SameList(front, d, back);
    Placed(MaterializeAll(desk, turn, front).1, result, MaterializeAll(here, turn, back).1, MaterializeAll(desk, turn, front + [d] + back).1);
  }

  lemma SubmissionAt(desk: Desk, turn: Turn, front: seq<DocId>, d: DocId, back: seq<DocId>)
    ensures var before := ReconcileAll(desk, turn, front).0;
            var (here, result) := ReconcileDoc(before, turn, d);
            var (end, results) := ReconcileAll(desk, turn, front + [d] + back);
            |results| == |front| + 1 + |back| && results[|front|] == result && end == ReconcileAll(here, turn, back).0
  {
    var before := ReconcileAll(desk, turn, front).0;
    var (here, result) := ReconcileDoc(before, turn, d);
    SubmissionConcat(desk, turn, front, [d] + back);
    SubmissionFirst(before, turn, d, back);
    SubmissionCount(desk, turn, front);
    SubmissionCount(here, turn, back);
    SameList(front, d, back);
    Placed(ReconcileAll(desk, turn, front).1, result, ReconcileAll(here, turn, back).1, ReconcileAll(desk, turn, front + [d] + back).1);
  }

  /** Documents handed out or submitted beside it leave a document's file and checkout alone. */
  lemma {:induction false} HandoutBeside(desk: Desk, turn: Turn, docs: seq<DocId>, d: DocId)
    requires d !in docs
    ensures SameAt(desk, MaterializeAll(desk, turn, docs).0, KeyOf(turn, d), d)
    decreases |docs|
  {
    if docs != [] {
      HandoutIs(desk, turn, docs[0]);
      HandoutBeside(MaterializeDoc(desk, turn, docs[0]).0, turn, docs[1..], d);
    }
  }

  lemma {:induction false} SubmissionBeside(desk: Desk, turn: Turn, docs: seq<DocId>, d: DocId)
    requires d !in docs
    ensures SameAt(desk, ReconcileAll(desk, turn, docs).0, KeyOf(turn, d), d)
    decreases |docs|
  {
    if docs != [] {
      SubmissionIs(desk, turn, docs[0]);
      SubmissionBeside(ReconcileDoc(desk, turn, docs[0]).0, turn, docs[1..], d);
    }
  }

  /** What runs on other documents around `between` gives no base on `d`, and no human edits `d` in it. */
  lemma AroundGivesNothing(s: Store, front: seq<Op>, between: seq<Op>, back: seq<Op>, agent: AgentId, d: DocId)
    requires Elsewhere(front, d) && Elsewhere(back, d) && NeverGiven(Run(s, front), between, agent, d)
    ensures NeverGiven(s, front + between + back, agent, d)
    ensures HumanWrote(s, front + between + back, d) <==> HumanWrote(Run(s, front), between, d)
    ensures Run(s, front + between + back) == Run(Run(Run(s, front), between), back)
  {
    ElsewhereGivesNothing(s, front, agent, d);
    ElsewhereGivesNothing(Run(s, front + between), back, agent, d);
    GivenConcat(s, front, between, agent, d);
    GivenConcat(s, front + between, back, agent, d);
    RunConcat(s, front, between);
    RunConcat(s, front + between, back);
  }

  /** The turn theorem for the store's own operations in a turn over lists of documents. */
  lemma StoreOfTurn(w: World, turn: Turn, d: DocId, front: seq<Op>, between: seq<Op>, behind: seq<Op>, back: Turn, content: string)
    requires AllTruthful(w) && back.agent == turn.agent && Step(w.store, ReadOp(turn, d)).1.ReadOk?
    requires Elsewhere(front, d) && Elsewhere(behind, d)
    requires NeverGiven(Run(Step(w.store, ReadOp(turn, d)).0, front), between, turn.agent, d)
    ensures var read := Step(w.store, ReadOp(turn, d)).1;
            var checkout := Checkout(read.version, read.content);
            var handed := Run(Step(w.store, ReadOp(turn, d)).0, front);
            var now, op := Run(Run(handed, between), behind), SubmitOp(back, d, checkout, content);
            if Accepted(Step(now, op).1)
            then Carried(now, op, checkout) <==>
                   !HumanWrote(handed, between, d) || content == DocAt(now, d).content || checkout.content == ""
            else Quiet(DocAt(now, d), DocAt(Step(now, op).0, d))
  {
    AroundGivesNothing(Step(w.store, ReadOp(turn, d)).0, front, between, behind, turn.agent, d);
    TurnCarriesEditIff(w, turn, d, front + between + behind, back, content);
  }

  // ------------------------------------------------------------------- a whole turn

  /**
   * A turn over whole lists of documents. `d` is handed out among others; other
   * operations run, none of which gives the Agent another base on it; the Agent
   * edits files; then `d` is submitted among others. If its file was edited, the
   * store is asked to write it at the version handed out. An accepted submission
   * carries exactly the Agent's edit if and only if no human wrote in between,
   * or the file is the current text, or the text handed out was empty; file and
   * checkout become what was committed. After a refused one nothing has changed.
   */
  lemma DeskTurnCarriesEditIff(
    w: World, desk: Desk, turn: Turn, front: seq<DocId>, d: DocId, behind: seq<DocId>,
    between: seq<Op>, files: map<DocId, string>, back: Turn, front': seq<DocId>, behind': seq<DocId>)
    requires AllTruthful(w) && desk.store == w.store && back.agent == turn.agent
    requires d !in behind && d !in front' && d !in behind'
    requires MaterializeDoc(MaterializeAll(desk, turn, front).0, turn, d).1.Materialized?
    requires var handed := MaterializeAll(desk, turn, front + [d] + behind).0;
             NeverGiven(handed.store, between, turn.agent, d) &&
             Edited(Desk(Run(handed.store, between), handed.checkouts, files), back, d)
    ensures var before := MaterializeAll(desk, turn, front).0.store;
            var handed := MaterializeAll(desk, turn, front + [d] + behind).0;
            var edited := Desk(Run(handed.store, between), handed.checkouts, files);
            var now := ReconcileAll(edited, back, front').0.store;
            var (end, results) := ReconcileAll(edited, back, front' + [d] + behind');
            var checkout := Checkout(DocAt(before, d).version, DocAt(before, d).content);
            var op := SubmitOp(back, d, checkout, files[d]);
            |results| == |front'| + 1 + |behind'| && results[|front'|] == Submitted(d, Step(now, op).1) &&
            if Accepted(Step(now, op).1) then
              (Carried(now, op, checkout) <==>
                 !HumanWrote(handed.store, between, d) || files[d] == DocAt(now, d).content || checkout.content == "") &&
              Holds(end, KeyOf(back, d), d, DocAt(Step(now, op).0, d).version, DocAt(Step(now, op).0, d).content)
            else
              Quiet(DocAt(now, d), DocAt(Step(now, op).0, d)) &&
              SameAt(edited, end, KeyOf(back, d), d)
  {
    var desk1 := MaterializeAll(desk, turn, front).0;
    var desk2 := MaterializeDoc(desk1, turn, d).0;
    var handed := MaterializeAll(desk, turn, front + [d] + behind).0;
    HandoutAt(desk, turn, front, d, behind);
    HandoutIs(desk1, turn, d);
    HandoutBeside(desk2, turn, behind, d);
    var edited := Desk(Run(handed.store, between), handed.checkouts, files);
    var desk3 := ReconcileAll(edited, back, front').0;
    var desk4 := ReconcileDoc(desk3, back, d).0;
    SubmissionAt(edited, back, front', d, behind');
    SubmissionBeside(edited, back, front', d);
    SubmissionIs(desk3, back, d);
    SubmissionBeside(desk4, back, behind', d);
    var first := WorldRun(w, HandoutOps(turn, front));
    RunIsTruthful(w, HandoutOps(turn, front));
    WorldRunIsRun(w, HandoutOps(turn, front));
    HandoutRuns(desk, turn, front);
    HandoutRuns(desk2, turn, behind);
    SubmissionRuns(edited, back, front');
    HandoutElsewhere(turn, behind, d);
    SubmissionElsewhere(edited, back, front', d);
    StoreOfTurn(first, turn, d, HandoutOps(turn, behind), between, SubmissionOps(edited, back, front'), back, files[d]);
  }
}
