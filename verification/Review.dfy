/**
 * The review loop (apps/server/src/review/service.ts; the selection rule of
 * Auto mode is in apps/server/src/review/routes.ts): comments, the runs that
 * answer them, and the budget that stops two Agents from going round for ever.
 */
module Review {
  import opened Options
  import opened Text
  import Provenance
  import Sections

  datatype Status = Open | InProgress | Addressed | Settled | Stale | Contested | Failed | Blocked

  /** An empty author id counts as no Agent, but is not the absence of one. */
  datatype Comment = Comment(
    doc: string, responsible: string, human: string, author: Option<string>,
    rounds: nat, agreed: seq<string>, status: Status, lastRun: Option<nat>)

  datatype RunStatus = Queued | Written | Merged | Conflict | Denied | Leased | RunFailed | NoChange

  datatype ReRun = ReRun(doc: string, agent: string, human: string, comments: seq<nat>, status: RunStatus)

  datatype Board = Board(comments: map<nat, Comment>, runs: map<nat, ReRun>, supply: nat)

  const NEW_BOARD := Board(map[], map[], 0)
  const MAX_COMMENTS_PER_RUN := 10
  const MAX_BODY := 2000

  predicate ByAgent(c: Comment) {
    c.author.Some? && c.author.value != ""
  }

  // ------------------------------------------------------------------ closing

  function Outcome(status: RunStatus): Status {
    match status
    case Written => Addressed
    case Merged => Addressed
    case Conflict => Contested
    case NoChange => Open
    case _ => Failed
  }

  /** Where an Agent's comment stops being the Agents' problem. */
  function Escalate(c: Comment, outcome: Status, maxRounds: nat): Status {
    if !ByAgent(c) then outcome
    else if outcome == Contested || outcome == Failed then Blocked
    else if c.rounds >= maxRounds && outcome != Settled then Blocked
    else outcome
  }

  function CloseComment(c: Comment, status: RunStatus, maxRounds: nat): Comment {
    var counted := c.(rounds := c.rounds + 1);
    counted.(status := Escalate(counted, Outcome(status), maxRounds))
  }

  function CloseComments(comments: map<nat, Comment>, ids: seq<nat>, status: RunStatus, maxRounds: nat): map<nat, Comment>
    decreases |ids|
  {
    if ids == [] then comments
    else
      var next := if ids[0] in comments then comments[ids[0] := CloseComment(comments[ids[0]], status, maxRounds)] else comments;
      CloseComments(next, ids[1..], status, maxRounds)
  }

  function CloseRun(b: Board, run: nat, status: RunStatus, maxRounds: nat): Board {
    if run !in b.runs then b
    else b.(runs := b.runs[run := b.runs[run].(status := status)],
            comments := CloseComments(b.comments, b.runs[run].comments, status, maxRounds))
  }

  // ------------------------------------------------------------------ planning

  /** Comments for one Agent on one document. */
  datatype Group = Group(doc: string, agent: string, comments: seq<nat>)

  datatype Plan = Planned(groups: seq<Group>) | Refused(board: Board)

  function AddToGroups(groups: seq<Group>, c: Comment, id: nat): seq<Group> {
    if groups == [] then [Group(c.doc, c.responsible, [id])]
    else if groups[0].doc == c.doc && groups[0].agent == c.responsible
    then [groups[0].(comments := groups[0].comments + [id])] + groups[1..]
    else [groups[0]] + AddToGroups(groups[1..], c, id)
  }

  /** The caller: who they are, which Agents they own, and which anchors still hold. */
  datatype Caller = Caller(human: string, owns: string -> bool, intact: nat -> bool)

  predicate MayDispatch(c: Comment, caller: Caller) {
    c.human == caller.human || (c.author.Some? && caller.owns(c.responsible))
  }

  function MarkStale(b: Board, id: nat): Board
    requires id in b.comments
  {
    var c := b.comments[id];
    b.(comments := b.comments[id := c.(status := if ByAgent(c) then Blocked else Stale)])
  }

  function PlanFrom(b: Board, ids: seq<nat>, caller: Caller, groups: seq<Group>): Plan
    decreases |ids|
  {
    if ids == [] then
      if exists k :: 0 <= k < |groups| && |groups[k].comments| > MAX_COMMENTS_PER_RUN then Refused(b) else Planned(groups)
    else if ids[0] !in b.comments || !MayDispatch(b.comments[ids[0]], caller) || b.comments[ids[0]].status == Settled then Refused(b)
    else if !caller.intact(ids[0]) then Refused(MarkStale(b, ids[0]))
    else PlanFrom(b, ids[1..], caller, AddToGroups(groups, b.comments[ids[0]], ids[0]))
  }

  function PlanRuns(b: Board, ids: seq<nat>, caller: Caller): Plan {
    if ids == [] then Refused(b) else PlanFrom(b, ids, caller, [])
  }

  // ------------------------------------------------------------------- opening

  function OpenComments(comments: map<nat, Comment>, ids: seq<nat>, run: nat): map<nat, Comment>
    decreases |ids|
  {
    if ids == [] then comments
    else
      var next := if ids[0] in comments
                  then comments[ids[0] := comments[ids[0]].(status := InProgress, lastRun := Some(run))] else comments;
      OpenComments(next, ids[1..], run)
  }

  function OpenRun(b: Board, g: Group, human: string): Board {
    b.(runs := b.runs[b.supply := ReRun(g.doc, g.agent, human, g.comments, Queued)],
       comments := OpenComments(b.comments, g.comments, b.supply), supply := b.supply + 1)
  }

  /** `accepts` says of which Agents a run can be started now. */
  function OpenRuns(b: Board, groups: seq<Group>, human: string, accepts: string -> bool): Board
    decreases |groups|
  {
    if groups == [] then b
    else OpenRuns(if accepts(groups[0].agent) then OpenRun(b, groups[0], human) else b, groups[1..], human, accepts)
  }

  function Dispatch(b: Board, ids: seq<nat>, caller: Caller, accepts: string -> bool): Board {
    match PlanRuns(b, ids, caller)
    case Refused(next) => next
    case Planned(groups) => OpenRuns(b, groups, caller.human, accepts)
  }

  /** Auto mode sends what an Agent raised, what is open, and what an idle Agent answers for. */
  predicate AutoSelects(c: Comment, idle: set<string>) {
    c.author.Some? && c.status == Open && c.responsible in idle
  }

  function AutoPending(b: Board, idle: set<string>, from: nat): seq<nat>
    requires from <= b.supply
    decreases b.supply - from
  {
    if from == b.supply then []
    else (if from in b.comments && AutoSelects(b.comments[from], idle) then [from] else []) + AutoPending(b, idle, from + 1)
  }

  // --------------------------------------------------------------------- steps

  /** What is asked for: the lines, the text, and perhaps the Agent. `spent` rounds lie behind the thread. */
  datatype Draft = Draft(
    doc: string, human: string, author: Option<string>, target: Option<string>,
    body: string, startLine: int, endLine: int, spent: nat)

  datatype Op =
    | Create(draft: Draft, content: Option<string>, routing: Provenance.ResponsibleAgents)
    | Auto(caller: Caller, idle: set<string>, accepts: string -> bool)
    | Manual(ids: seq<nat>, caller: Caller, accepts: string -> bool)
    | Close(run: nat, status: RunStatus)
    | AgentSettles(comment: nat, agent: string)
    | HumanSettles(comment: nat, human: string)

  /** The Agent named explicitly, else the one recommended; an empty name is none. */
  function Chosen(draft: Draft, routing: Provenance.ResponsibleAgents): Option<string> {
    var named := if draft.target.Some? then draft.target else routing.recommended;
    if named == Some("") then None else named
  }

  /** The body, the line range, the choice of Agent and the ban on reviewing one's own lines. */
  predicate MayCreate(draft: Draft, content: Option<string>, routing: Provenance.ResponsibleAgents) {
    1 <= |Sections.Trim(draft.body)| <= MAX_BODY &&
    content.Some? && 1 <= draft.startLine <= draft.endLine <= |SplitLines(content.value)| &&
    Chosen(draft, routing).Some? &&
    (draft.target.Some? && draft.target.value != "" && routing.candidates != [] ==> draft.target.value in routing.candidates) &&
    !(draft.author.Some? && draft.author.value != "" && draft.author == Chosen(draft, routing))
  }

  /** `content` is the document's text and `routing` says who wrote the selected lines. */
  function CreateComment(b: Board, draft: Draft, content: Option<string>, routing: Provenance.ResponsibleAgents): Board {
    if !MayCreate(draft, content, routing) then b
    else
      var c := Comment(draft.doc, Chosen(draft, routing).value, draft.human, draft.author, draft.spent, [], Open, None);
      b.(comments := b.comments[b.supply := c], supply := b.supply + 1)
  }

  /** Both ends of an Agents' thread must agree; a human's comment only a human settles. */
  function AgentResolve(b: Board, id: nat, agent: string): Board {
    if id !in b.comments || !ByAgent(b.comments[id]) ||
       (Some(agent) != b.comments[id].author && agent != b.comments[id].responsible) then b
    else
      var c := b.comments[id];
      var agreed := if agent in c.agreed then c.agreed else c.agreed + [agent];
      var status := if c.author.value in agreed && c.responsible in agreed then Settled else c.status;
      b.(comments := b.comments[id := c.(agreed := agreed, status := status)])
  }

  function HumanResolve(b: Board, id: nat, human: string): Board {
    if id in b.comments && b.comments[id].human == human then b.(comments := b.comments[id := b.comments[id].(status := Settled)]) else b
  }

  function Step(b: Board, op: Op, maxRounds: nat): Board {
    match op
    case Create(draft, content, routing) => CreateComment(b, draft, content, routing)
    case Auto(caller, idle, accepts) =>
      var pending := AutoPending(b, idle, 0);
      if pending == [] then b else Dispatch(b, pending, caller, accepts)
    case Manual(ids, caller, accepts) => Dispatch(b, ids, caller, accepts)
    case Close(run, status) => CloseRun(b, run, status, maxRounds)
    case AgentSettles(id, agent) => AgentResolve(b, id, agent)
    case HumanSettles(id, human) => HumanResolve(b, id, human)
  }

  function Run(b: Board, ops: seq<Op>, maxRounds: nat): Board
    decreases |ops|
  {
    if ops == [] then b else Run(Step(b, ops[0], maxRounds), ops[1..], maxRounds)
  }

  // ------------------------------------------------------------------ the object

  class ReviewService {
    const maxRounds: nat
    var comments: map<nat, Comment>
    var runs: map<nat, ReRun>
    var supply: nat

    ghost function State(): Board
      reads this
    {
      Board(comments, runs, supply)
    }

    constructor (maxRounds: nat)
      ensures State() == NEW_BOARD && this.maxRounds == maxRounds
    {
      this.maxRounds := maxRounds;
      comments, runs, supply := map[], map[], 0;
    }

    /** Every refusal of the source, in its order; then the comment is open. */
    method AddComment(draft: Draft, content: Option<string>, routing: Provenance.ResponsibleAgents)
      modifies this
      ensures State() == CreateComment(old(State()), draft, content, routing)
    {
      var body := Sections.Trim(draft.body);
      if body == "" || |body| > MAX_BODY { return; }
      if content.None? { return; }
      var lines := SplitLines(content.value);
      if draft.startLine < 1 || draft.endLine < draft.startLine || draft.endLine > |lines| { return; }
      var chosen := if draft.target.Some? then draft.target else routing.recommended;
      if chosen.None? || chosen.value == "" { return; }
      if draft.target.Some? && draft.target.value != "" && |routing.candidates| > 0 && draft.target.value !in routing.candidates {
        return;
      }
      if draft.author.Some? && draft.author.value != "" && draft.author.value == chosen.value { return; }
      comments := comments[supply := Comment(draft.doc, chosen.value, draft.human, draft.author, draft.spent, [], Open, None)];
      supply := supply + 1;
    }

    /** Only the human a comment belongs to settles it alone. */
    method Resolve(id: nat, human: string)
      modifies `comments
      ensures State() == HumanResolve(old(State()), id, human)
    {
      if id !in comments || comments[id].human != human { return; }
      comments := comments[id := comments[id].(status := Settled)];
    }

    method CloseReRun(run: nat, status: RunStatus)
      modifies this
      ensures State() == CloseRun(old(State()), run, status, maxRounds)
    {
      if run !in runs { return; }
      runs := runs[run := runs[run].(status := status)];
      var ids := runs[run].comments;
      assert ids[0..] == ids;
      for k := 0 to |ids|
        invariant runs == CloseRun(old(State()), run, status, maxRounds).runs && supply == old(supply)
        invariant CloseComments(comments, ids[k..], status, maxRounds) == CloseComments(old(comments), ids, status, maxRounds)
      {
        assert ids[k..][1..] == ids[k + 1..];
        if ids[k] in comments {
          var c := comments[ids[k]];
          c := c.(rounds := c.rounds + 1);
          c := c.(status := Escalate(c, Outcome(status), maxRounds));
          comments := comments[ids[k] := c];
        }
      }
    }

    method OpenReRun(group: Group, human: string) returns (run: nat)
      modifies this
      ensures run == old(supply) && State() == OpenRun(old(State()), group, human)
    {
      run := supply;
      runs := runs[run := ReRun(group.doc, group.agent, human, group.comments, Queued)];
      supply := supply + 1;
      assert group.comments[0..] == group.comments;
      for k := 0 to |group.comments|
        invariant runs == OpenRun(old(State()), group, human).runs && supply == old(supply) + 1
        invariant OpenComments(comments, group.comments[k..], run) == OpenComments(old(comments), group.comments, run)
      {
        assert group.comments[k..][1..] == group.comments[k + 1..];
        var id := group.comments[k];
        if id in comments {
          comments := comments[id := comments[id].(status := InProgress, lastRun := Some(run))];
        }
      }
    }

    /** Groups by document and Agent; the first comment that may not go stops the whole plan. */
    method PlanReRuns(ids: seq<nat>, caller: Caller) returns (plan: Plan)
      modifies `comments
      ensures plan == PlanRuns(old(State()), ids, caller)
      ensures State() == if plan.Refused? then plan.board else old(State())
    {
      if |ids| == 0 { return Refused(Board(comments, runs, supply)); }
      var groups: seq<Group> := [];
      assert ids[0..] == ids;
      for k := 0 to |ids|
        invariant State() == old(State())
        invariant PlanFrom(State(), ids[k..], caller, groups) == PlanRuns(State(), ids, caller)
      {
        assert ids[k..][1..] == ids[k + 1..];
        var id := ids[k];
        if id !in comments || !MayDispatch(comments[id], caller) || comments[id].status == Settled {
          return Refused(Board(comments, runs, supply));
        }
        if !caller.intact(id) {
          comments := comments[id := comments[id].(status := if ByAgent(comments[id]) then Blocked else Stale)];
          return Refused(Board(comments, runs, supply));
        }
        groups := AddToGroups(groups, comments[id], id);
      }
      for k := 0 to |groups|
        invariant forall i :: 0 <= i < k ==> |groups[i].comments| <= MAX_COMMENTS_PER_RUN
      {
        if |groups[k].comments| > MAX_COMMENTS_PER_RUN { return Refused(Board(comments, runs, supply)); }
      }
      return Planned(groups);
    }

    method AgentResolves(id: nat, agent: string)
      modifies `comments
      ensures State() == AgentResolve(old(State()), id, agent)
    {
      if id !in comments { return; }
      var c := comments[id];
      if !ByAgent(c) || (Some(agent) != c.author && agent != c.responsible) { return; }
      if agent !in c.agreed { c := c.(agreed := c.agreed + [agent]); }
      if c.author.value in c.agreed && c.responsible in c.agreed { c := c.(status := Settled); }
      comments := comments[id := c];
    }
  }

  // ------------------------------------------------------ what steps do to a comment

  /** A comment keeps its identity over a step. */
  ghost predicate SameThread(c: Comment, c': Comment) {
    c'.author == c.author && c'.responsible == c.responsible && c'.human == c.human && c'.doc == c.doc
  }

  /** Comments and runs carry ids already handed out, and only existing comments have run. */
  ghost predicate Issued(b: Board) {
    (forall id :: id in b.comments ==> id < b.supply && (b.comments[id].lastRun.Some? ==> b.comments[id].lastRun.value < b.supply)) &&
    (forall run :: run in b.runs ==> run < b.supply)
  }

  lemma {:induction false} OpenCommentsIs(comments: map<nat, Comment>, ids: seq<nat>, run: nat, id: nat)
    ensures id in OpenComments(comments, ids, run) <==> id in comments
    ensures id in comments ==>
              OpenComments(comments, ids, run)[id] ==
              if id in ids then comments[id].(status := InProgress, lastRun := Some(run)) else comments[id]
    decreases |ids|
  {
    if ids != [] {
      var next := if ids[0] in comments
                  then comments[ids[0] := comments[ids[0]].(status := InProgress, lastRun := Some(run))] else comments;
      OpenCommentsIs(next, ids[1..], run, id);
    }
  }

  /** After starting runs, a comment is untouched, or it is in progress under a new run. */
  lemma {:induction false} OpenRunsDo(b: Board, groups: seq<Group>, human: string, accepts: string -> bool, id: nat)
    requires Issued(b) && id in b.comments
    ensures var b' := OpenRuns(b, groups, human, accepts);
            Issued(b') && b.supply <= b'.supply && id in b'.comments &&
            (b'.comments[id] == b.comments[id] ||
             (b'.comments[id] == b.comments[id].(status := InProgress, lastRun := b'.comments[id].lastRun) &&
              b'.comments[id].lastRun.Some? && b.supply <= b'.comments[id].lastRun.value &&
              InGroups(groups, id)))
    decreases |groups|
  {
    if groups != [] {
      var next := if accepts(groups[0].agent) then OpenRun(b, groups[0], human) else b;
      if accepts(groups[0].agent) {
        OpenCommentsIs(b.comments, groups[0].comments, b.supply, id);
        forall x | x in next.comments
          ensures x < next.supply && (next.comments[x].lastRun.Some? ==> next.comments[x].lastRun.value < next.supply)
        {
          OpenCommentsIs(b.comments, groups[0].comments, b.supply, x);
        }
      }
      OpenRunsDo(next, groups[1..], human, accepts, id);
      assert forall k :: 0 <= k < |groups[1..]| ==> groups[1..][k] == groups[k + 1];
      assert id in groups[0].comments || InGroups(groups[1..], id) ==> InGroups(groups, id);
    }
  }

  ghost predicate InGroups(groups: seq<Group>, id: nat) {
    exists k :: 0 <= k < |groups| && id in groups[k].comments
  }

  lemma {:induction false} AddToGroupsHolds(groups: seq<Group>, c: Comment, id: nat, x: nat)
    requires InGroups(AddToGroups(groups, c, id), x)
    ensures x == id || InGroups(groups, x)
  {
    if groups != [] {
      var after := AddToGroups(groups, c, id);
      if k :| 0 <= k < |after| && x in after[k].comments {
        if groups[0].doc == c.doc && groups[0].agent == c.responsible {
          if k > 0 {
            assert after[k] == groups[k];
          }
        } else if k > 0 {
          AddToGroupsHolds(groups[1..], c, id, x);
          assert after[k] == AddToGroups(groups[1..], c, id)[k - 1];
          if x != id {
            var m :| 0 <= m < |groups[1..]| && x in groups[1..][m].comments;
            assert groups[m + 1] == groups[1..][m];
          }
        } else {
          assert after[0] == groups[0];
        }
      }
    }
  }

  /** A plan sends only comments it was asked for; a refused plan can only have put one aside. */
  lemma {:induction false} PlanDoes(b: Board, ids: seq<nat>, caller: Caller, groups: seq<Group>, id: nat)
    requires id in b.comments
    ensures match PlanFrom(b, ids, caller, groups)
            case Planned(planned) =>
              InGroups(planned, id) ==> (id in ids && b.comments[id].status != Settled) || InGroups(groups, id)
            case Refused(b') =>
              b'.runs == b.runs && b'.supply == b.supply && b'.comments.Keys == b.comments.Keys &&
              (b'.comments[id] == b.comments[id] ||
               (b.comments[id].status != Settled &&
                b'.comments[id] == b.comments[id].(status := if ByAgent(b.comments[id]) then Blocked else Stale)))
    decreases |ids|
  {
    if ids != [] && ids[0] in b.comments && MayDispatch(b.comments[ids[0]], caller) && b.comments[ids[0]].status != Settled &&
       caller.intact(ids[0])
    {
      var next := AddToGroups(groups, b.comments[ids[0]], ids[0]);
      PlanDoes(b, ids[1..], caller, next, id);
      if InGroups(next, id) {
        AddToGroupsHolds(groups, b.comments[ids[0]], ids[0], id);
      }
    }
  }

  /** One group per document and Agent, holding comments of that document for that Agent, each of them from `ids`. */
  ghost predicate Grouped(groups: seq<Group>, b: Board, ids: seq<nat>) {
    (forall i, j :: 0 <= i < j < |groups| ==> groups[i].doc != groups[j].doc || groups[i].agent != groups[j].agent) &&
    (forall k :: 0 <= k < |groups| ==> GroupOf(groups[k], b, ids))
  }

  ghost predicate GroupOf(g: Group, b: Board, ids: seq<nat>) {
    forall id :: id in g.comments ==> id in ids && id in b.comments && b.comments[id].doc == g.doc && b.comments[id].responsible == g.agent
  }

  predicate KeyIs(g: Group, c: Comment) {
    g.doc == c.doc && g.agent == c.responsible
  }

  /** A group that was there keeps its key, and gains at most this comment. */
  lemma {:induction false} AddToGroupsAt(groups: seq<Group>, c: Comment, id: nat, k: nat)
    requires k < |groups|
    ensures var after := AddToGroups(groups, c, id);
            |groups| <= |after| <= |groups| + 1 &&
            (after[k] == groups[k] || (KeyIs(groups[k], c) && after[k] == groups[k].(comments := groups[k].comments + [id])))
  {
    if !KeyIs(groups[0], c) && |groups| > 1 {
      AddToGroupsAt(groups[1..], c, id, if k == 0 then 0 else k - 1);
    }
  }

  /** A new group is opened last, and only for a key that is not there yet. */
  lemma {:induction false} AddToGroupsNew(groups: seq<Group>, c: Comment, id: nat)
    ensures var after := AddToGroups(groups, c, id);
            if exists k :: 0 <= k < |groups| && KeyIs(groups[k], c) then |after| == |groups|
            else |after| == |groups| + 1 && after[|groups|] == Group(c.doc, c.responsible, [id])
  {
    if groups != [] && !KeyIs(groups[0], c) {
      AddToGroupsNew(groups[1..], c, id);
      assert forall k :: 0 <= k < |groups[1..]| ==> groups[1..][k] == groups[k + 1];
      if k :| 0 <= k < |groups| && KeyIs(groups[k], c) {
        assert KeyIs(groups[1..][k - 1], c);
      }
    }
  }

  lemma {:induction false} AddToGroupsPuts(groups: seq<Group>, c: Comment, id: nat)
    ensures InGroups(AddToGroups(groups, c, id), id)
  {
    var after := AddToGroups(groups, c, id);
    if groups == [] || KeyIs(groups[0], c) {
      assert id in after[0].comments;
    } else {
      AddToGroupsPuts(groups[1..], c, id);
      var rest := AddToGroups(groups[1..], c, id);
      var m :| 0 <= m < |rest| && id in rest[m].comments;
      assert after[m + 1] == rest[m];
    }
  }

  lemma AddToGroupsHeld(groups: seq<Group>, c: Comment, id: nat, x: nat)
    requires InGroups(groups, x)
    ensures InGroups(AddToGroups(groups, c, id), x)
  {
    var k :| 0 <= k < |groups| && x in groups[k].comments;
    AddToGroupsAt(groups, c, id, k);
    assert x in AddToGroups(groups, c, id)[k].comments;
  }

  lemma AddToGroupsKeeps(groups: seq<Group>, b: Board, ids: seq<nat>, id: nat)
    requires Grouped(groups, b, ids) && id in ids && id in b.comments
    ensures Grouped(AddToGroups(groups, b.comments[id], id), b, ids)
  {
    var c := b.comments[id];
    var after := AddToGroups(groups, c, id);
    AddToGroupsNew(groups, c, id);
    forall k | 0 <= k < |groups| ensures after[k].doc == groups[k].doc && after[k].agent == groups[k].agent && GroupOf(after[k], b, ids) {
      AddToGroupsAt(groups, c, id, k);
      assert GroupOf(groups[k], b, ids);
    }
    forall i, j | 0 <= i < j < |after| ensures after[i].doc != after[j].doc || after[i].agent != after[j].agent {
      if j == |groups| {
        assert !KeyIs(groups[i], c);
      }
    }
  }

  lemma {:induction false} PlanFromGroups(b: Board, done: seq<nat>, ids: seq<nat>, caller: Caller, groups: seq<Group>)
    requires Grouped(groups, b, done + ids) && forall x :: x in done ==> InGroups(groups, x)
    ensures var plan := PlanFrom(b, ids, caller, groups);
            plan.Planned? ==>
              Grouped(plan.groups, b, done + ids) && (forall x :: x in done + ids ==> InGroups(plan.groups, x)) &&
              (forall k :: 0 <= k < |plan.groups| ==> |plan.groups[k].comments| <= MAX_COMMENTS_PER_RUN) &&
              (forall x :: x in ids ==> x in b.comments && MayDispatch(b.comments[x], caller) &&
                                        b.comments[x].status != Settled && caller.intact(x))
    decreases |ids|
  {
    if ids == [] {
      assert done + ids == done;
    } else if PlanFrom(b, ids, caller, groups).Planned? {
      var id := ids[0];
      var next := AddToGroups(groups, b.comments[id], id);
      AddToGroupsKeeps(groups, b, done + ids, id);
      assert done + [id] + ids[1..] == done + ids;
      forall x | x in done + [id] ensures InGroups(next, x) {
        if x in done {
          AddToGroupsHeld(groups, b.comments[id], id, x);
        } else {
          AddToGroupsPuts(groups, b.comments[id], id);
        }
      }
      PlanFromGroups(b, done + [id], ids[1..], caller, next);
    }
  }

  /**
   * A plan has at most one run per document and Agent, of at most ten comments;
   * it covers every comment asked for, under its own document and Agent, and
   * each of them may go.
   */
  lemma PlanIsGrouped(b: Board, ids: seq<nat>, caller: Caller)
    requires PlanRuns(b, ids, caller).Planned?
    ensures var groups := PlanRuns(b, ids, caller).groups;
            Grouped(groups, b, ids) && (forall x :: x in ids ==> InGroups(groups, x)) &&
            (forall k :: 0 <= k < |groups| ==> |groups[k].comments| <= MAX_COMMENTS_PER_RUN) &&
            (forall x :: x in ids ==> x in b.comments && MayGo(b, x, caller))
  {
    assert [] + ids == ids;
    PlanFromGroups(b, [], ids, caller, []);
  }

  /** The caller wrote the comment, or an Agent did and the caller answers for the one it is sent to; it still stands. */
  ghost predicate MayGo(b: Board, id: nat, caller: Caller) {
    id in b.comments &&
    var c := b.comments[id];
    (c.human == caller.human || (c.author.Some? && caller.owns(c.responsible))) && c.status != Settled && caller.intact(id)
  }

  /** Of these comments, in order, the ones on the document for the Agent. */
  ghost function For(b: Board, ids: seq<nat>, doc: string, agent: string): (mine: seq<nat>)
    ensures forall x :: x in mine ==> x in ids && x in b.comments && b.comments[x].doc == doc && b.comments[x].responsible == agent
    decreases |ids|
  {
    if ids == [] then []
    else
      var last := |ids| - 1;
      For(b, ids[..last], doc, agent) +
      (if ids[last] in b.comments && b.comments[ids[last]].doc == doc && b.comments[ids[last]].responsible == agent then [ids[last]] else [])
  }

  /** The groups after some comments: one per document and Agent that occurs, with exactly its comments in order. */
  ghost predicate GroupsAre(groups: seq<Group>, b: Board, done: seq<nat>) {
    (forall i, j :: 0 <= i < j < |groups| ==> groups[i].doc != groups[j].doc || groups[i].agent != groups[j].agent) &&
    (forall k :: 0 <= k < |groups| ==> groups[k].comments != [] && groups[k].comments == For(b, done, groups[k].doc, groups[k].agent)) &&
    (forall x :: x in done ==> x in b.comments && HasGroup(groups, b.comments[x]))
  }

  ghost predicate HasGroup(groups: seq<Group>, c: Comment) {
    exists k :: 0 <= k < |groups| && KeyIs(groups[k], c)
  }

  lemma ForNext(b: Board, done: seq<nat>, id: nat, doc: string, agent: string)
    requires id in b.comments
    ensures For(b, done + [id], doc, agent) ==
            For(b, done, doc, agent) + (if b.comments[id].doc == doc && b.comments[id].responsible == agent then [id] else [])
  {
    assert (done + [id])[..|done|] == done;
  }

  lemma {:induction false} ForNone(b: Board, done: seq<nat>, doc: string, agent: string)
    requires forall x :: x in done ==> x in b.comments && (b.comments[x].doc != doc || b.comments[x].responsible != agent)
    ensures For(b, done, doc, agent) == []
    decreases |done|
  {
    if done != [] {
      assert done[|done| - 1] in done;
      ForNone(b, done[..|done| - 1], doc, agent);
    }
  }

  /** What adding does to each group, by its place. */
  lemma {:induction false} AddToGroupsIs(groups: seq<Group>, c: Comment, id: nat, k: nat)
    requires k < |groups|
    requires forall i, j :: 0 <= i < j < |groups| ==> groups[i].doc != groups[j].doc || groups[i].agent != groups[j].agent
    ensures var after := AddToGroups(groups, c, id);
            k < |after| &&
            after[k] == if KeyIs(groups[k], c) then groups[k].(comments := groups[k].comments + [id]) else groups[k]
  {
    if !KeyIs(groups[0], c) && k > 0 {
      assert forall i :: 0 <= i < |groups[1..]| ==> groups[1..][i] == groups[i + 1];
      AddToGroupsIs(groups[1..], c, id, k - 1);
    }
  }

  lemma AddedGroupsAre(groups: seq<Group>, b: Board, done: seq<nat>, id: nat)
    requires GroupsAre(groups, b, done) && id in b.comments
    ensures GroupsAre(AddToGroups(groups, b.comments[id], id), b, done + [id])
  {
    var c := b.comments[id];
    var after := AddToGroups(groups, c, id);
    AddToGroupsNew(groups, c, id);
    forall k | 0 <= k < |groups|
      ensures after[k].doc == groups[k].doc && after[k].agent == groups[k].agent && after[k].comments != []
      ensures after[k].comments == For(b, done + [id], after[k].doc, after[k].agent)
    {
      AddToGroupsIs(groups, c, id, k);
      ForNext(b, done, id, groups[k].doc, groups[k].agent);
    }
    AddedKeys(groups, b, done, id);
    if |after| > |groups| {
      ForNext(b, done, id, c.doc, c.responsible);
      forall x | x in done ensures b.comments[x].doc != c.doc || b.comments[x].responsible != c.responsible {
        assert HasGroup(groups, b.comments[x]);
      }
      ForNone(b, done, c.doc, c.responsible);
      assert [] + [id] == [id];
    }
  }

  lemma AddedKeys(groups: seq<Group>, b: Board, done: seq<nat>, id: nat)
    requires GroupsAre(groups, b, done) && id in b.comments
    ensures var after := AddToGroups(groups, b.comments[id], id);
            (forall i, j :: 0 <= i < j < |after| ==> after[i].doc != after[j].doc || after[i].agent != after[j].agent) &&
            (forall x :: x in done + [id] ==> x in b.comments && HasGroup(after, b.comments[x]))
  {
    var c := b.comments[id];
    var after := AddToGroups(groups, c, id);
    AddToGroupsNew(groups, c, id);
    forall k | 0 <= k < |groups| ensures after[k].doc == groups[k].doc && after[k].agent == groups[k].agent {
      AddToGroupsIs(groups, c, id, k);
    }
    forall i, j | 0 <= i < j < |after| ensures after[i].doc != after[j].doc || after[i].agent != after[j].agent {
      if j == |groups| {
        assert !KeyIs(groups[i], c);
      }
    }
    forall x | x in done + [id] ensures x in b.comments && HasGroup(after, b.comments[x]) {
      if x in done {
        var k :| 0 <= k < |groups| && KeyIs(groups[k], b.comments[x]);
        assert KeyIs(after[k], b.comments[x]);
      } else if k :| 0 <= k < |groups| && KeyIs(groups[k], c) {
        assert KeyIs(after[k], c);
      } else {
        assert KeyIs(after[|groups|], c);
      }
    }
  }

  ghost predicate Small(groups: seq<Group>) {
    forall k :: 0 <= k < |groups| ==> |groups[k].comments| <= MAX_COMMENTS_PER_RUN
  }

  /** The groups these comments make are not all small enough. */
  ghost predicate Overfull(b: Board, ids: seq<nat>) {
    exists groups :: GroupsAre(groups, b, ids) && !Small(groups)
  }

  lemma {:induction false} PlannedMayGo(b: Board, ids: seq<nat>, caller: Caller, groups: seq<Group>)
    requires PlanFrom(b, ids, caller, groups).Planned?
    ensures forall x :: x in ids ==> MayGo(b, x, caller)
    decreases |ids|
  {
    if ids != [] {
      PlannedMayGo(b, ids[1..], caller, AddToGroups(groups, b.comments[ids[0]], ids[0]));
    }
  }

  lemma {:induction false} PlanFromEnds(b: Board, done: seq<nat>, ids: seq<nat>, caller: Caller, groups: seq<Group>, all: seq<nat>)
    requires GroupsAre(groups, b, done) && all == done + ids
    ensures var plan := PlanFrom(b, ids, caller, groups);
            if plan.Planned? then GroupsAre(plan.groups, b, all) && Small(plan.groups)
            else Overfull(b, all) || Stops(b, ids, caller)
    decreases |ids|
  {
    if ids == [] {
      assert all == done;
    } else if MayGo(b, ids[0], caller) {
      AddedGroupsAre(groups, b, done, ids[0]);
      var next := AddToGroups(groups, b.comments[ids[0]], ids[0]);
      Moved(done, ids, all);
      PlanFromEnds(b, done + [ids[0]], ids[1..], caller, next, all);
      assert PlanFrom(b, ids, caller, groups) == PlanFrom(b, ids[1..], caller, next);
      if Stops(b, ids[1..], caller) {
        var x :| x in ids[1..] && !MayGo(b, x, caller);
        assert x in ids;
      }
    }
  }

  lemma Moved(done: seq<nat>, ids: seq<nat>, all: seq<nat>)
    requires ids != [] && all == done + ids
    ensures all == done + [ids[0]] + ids[1..]
  {
  }

  ghost predicate Stops(b: Board, ids: seq<nat>, caller: Caller) {
    exists x :: x in ids && !MayGo(b, x, caller)
  }

  /** There are too many comments for one Agent on one document exactly when a group is too large. */
  lemma SmallIff(b: Board, ids: seq<nat>, groups: seq<Group>)
    requires GroupsAre(groups, b, ids)
    ensures Small(groups) <==> forall doc, agent :: |For(b, ids, doc, agent)| <= MAX_COMMENTS_PER_RUN
  {
    if Small(groups) {
      forall doc, agent ensures |For(b, ids, doc, agent)| <= MAX_COMMENTS_PER_RUN {
        var mine := For(b, ids, doc, agent);
        if mine != [] {
          assert mine[0] in mine;
          var k :| 0 <= k < |groups| && KeyIs(groups[k], b.comments[mine[0]]);
          assert groups[k].comments == For(b, ids, doc, agent);
        }
      }
    } else {
      var k :| 0 <= k < |groups| && |groups[k].comments| > MAX_COMMENTS_PER_RUN;
      assert |For(b, ids, groups[k].doc, groups[k].agent)| > MAX_COMMENTS_PER_RUN;
    }
  }

  /**
   * The plan is exact: it is made if and only if something is asked for, each
   * comment may go, and no Agent is sent more than ten on one document; and then
   * every group is, in order, what was asked for of its document and Agent.
   */
  lemma PlannedIff(b: Board, ids: seq<nat>, caller: Caller)
    ensures PlanRuns(b, ids, caller).Planned? <==>
              ids != [] && (forall x :: x in ids ==> MayGo(b, x, caller)) &&
              (forall doc, agent :: |For(b, ids, doc, agent)| <= 10)
    ensures PlanRuns(b, ids, caller).Planned? ==> GroupsAre(PlanRuns(b, ids, caller).groups, b, ids)
  {
    if ids != [] {
      PlanFromEnds(b, [], ids, caller, [], ids);
      var plan := PlanRuns(b, ids, caller);
      if plan.Planned? {
        PlannedMayGo(b, ids, caller, []);
        SmallIff(b, ids, plan.groups);
      } else if !Stops(b, ids, caller) {
        var all :| GroupsAre(all, b, ids) && !Small(all);
        SmallIff(b, ids, all);
      }
    }
  }

  /**
   * The first comment that may not go stops the plan. If all that is wrong with
   * it is that its lines have changed, it is put aside: an Agent's to be looked
   * at by a human, a human's as stale. Nothing else changes.
   */
  lemma {:induction false} PlanStopsAt(b: Board, ids: seq<nat>, caller: Caller, groups: seq<Group>, k: nat)
    requires k < |ids| && (forall x :: x in ids[..k] ==> MayGo(b, x, caller)) && !MayGo(b, ids[k], caller)
    ensures var id, plan := ids[k], PlanFrom(b, ids, caller, groups);
            plan.Refused? && plan.board.runs == b.runs && plan.board.supply == b.supply &&
            if id in b.comments && MayGo(b, id, caller.(intact := x => true)) then
              plan.board.comments ==
                b.comments[id := b.comments[id].(status := if b.comments[id].author.Some? && b.comments[id].author.value != ""
                                                           then Blocked else Stale)]
            else plan.board == b
    decreases |ids|
  {
    if k > 0 {
      assert ids[0] in ids[..k];
      assert ids[1..][..k - 1] == ids[..k][1..];
      PlanStopsAt(b, ids[1..], caller, AddToGroups(groups, b.comments[ids[0]], ids[0]), k - 1);
    }
  }

  // --------------------------------------------------------------------- sending

  lemma {:induction false} OpenRunsKeep(b: Board, groups: seq<Group>, human: string, accepts: string -> bool, run: nat)
    requires Issued(b) && run in b.runs
    ensures var b' := OpenRuns(b, groups, human, accepts); run in b'.runs && b'.runs[run] == b.runs[run]
    decreases |groups|
  {
    if groups != [] {
      OpenRunsIssued(b, [groups[0]], human, accepts);
      assert [groups[0]][1..] == [];
      OpenRunsKeep(if accepts(groups[0].agent) then OpenRun(b, groups[0], human) else b, groups[1..], human, accepts, run);
    }
  }

  ghost predicate SentAs(b: Board, b': Board, id: nat, g: Group, human: string) {
    id in b.comments && id in b'.comments && b'.comments[id].lastRun.Some? &&
    var run := b'.comments[id].lastRun.value;
    b'.comments[id] == b.comments[id].(status := InProgress, lastRun := Some(run)) &&
    b.supply <= run && run in b'.runs && b'.runs[run] == ReRun(g.doc, g.agent, human, g.comments, Queued)
  }

  lemma OpenRunSends(b: Board, g: Group, human: string, id: nat)
    requires id in b.comments && id in g.comments
    ensures SentAs(b, OpenRun(b, g, human), id, g, human)
  {
    OpenCommentsIs(b.comments, g.comments, b.supply, id);
  }

  lemma OpenRunElsewhere(b: Board, g: Group, human: string, id: nat)
    requires Issued(b) && id in b.comments && id !in g.comments
    ensures id in OpenRun(b, g, human).comments && OpenRun(b, g, human).comments[id] == b.comments[id]
  {
    OpenCommentsIs(b.comments, g.comments, b.supply, id);
  }

  lemma {:induction false} OpenRunsSend(b: Board, groups: seq<Group>, human: string, accepts: string -> bool, id: nat, k: nat)
    requires Issued(b) && id in b.comments && k < |groups| && id in groups[k].comments
    requires forall i :: 0 <= i < |groups| && i != k ==> id !in groups[i].comments
    ensures var b' := OpenRuns(b, groups, human, accepts);
            if accepts(groups[k].agent) then SentAs(b, b', id, groups[k], human)
            else id in b'.comments && b'.comments[id] == b.comments[id]
    decreases |groups|
  {
    var next := if accepts(groups[0].agent) then OpenRun(b, groups[0], human) else b;
    OpenRunsIssued(b, [groups[0]], human, accepts);
    assert [groups[0]][1..] == [] && OpenRuns(b, [groups[0]], human, accepts) == next;
    if k == 0 {
      if accepts(groups[0].agent) {
        OpenRunSends(b, groups[0], human, id);
        OpenRunsKeep(next, groups[1..], human, accepts, b.supply);
      }
      assert !InGroups(groups[1..], id) by {
        assert forall i :: 0 <= i < |groups[1..]| ==> groups[1..][i] == groups[i + 1];
      }
      OpenRunsDo(next, groups[1..], human, accepts, id);
    } else {
      OpenRunElsewhere(b, groups[0], human, id);
      assert forall i :: 0 <= i < |groups[1..]| ==> groups[1..][i] == groups[i + 1];
      OpenRunsSend(next, groups[1..], human, accepts, id, k - 1);
    }
  }

  lemma {:induction false} ForHolds(b: Board, ids: seq<nat>, id: nat)
    requires id in ids && id in b.comments
    ensures id in For(b, ids, b.comments[id].doc, b.comments[id].responsible)
    decreases |ids|
  {
    if id != ids[|ids| - 1] {
      ForHolds(b, ids[..|ids| - 1], id);
    }
  }

  /**
   * What is planned is sent. A comment whose Agent can be started is in progress
   * under one new run, of the caller, with exactly the comments asked for of its
   * document and Agent; the others stay as they were.
   */
  lemma PlannedIsSent(b: Board, ids: seq<nat>, caller: Caller, accepts: string -> bool, id: nat)
    requires Issued(b) && PlanRuns(b, ids, caller).Planned? && id in ids
    ensures id in b.comments &&
            var c, b' := b.comments[id], Dispatch(b, ids, caller, accepts);
            if accepts(c.responsible)
            then SentAs(b, b', id, Group(c.doc, c.responsible, For(b, ids, c.doc, c.responsible)), caller.human)
            else id in b'.comments && b'.comments[id] == c
  {
    PlannedIff(b, ids, caller);
    var groups := PlanRuns(b, ids, caller).groups;
    var c := b.comments[id];
    var k :| 0 <= k < |groups| && KeyIs(groups[k], c);
    ForHolds(b, ids, id);
    forall i | 0 <= i < |groups| && i != k ensures id !in groups[i].comments {
      assert groups[i].comments == For(b, ids, groups[i].doc, groups[i].agent);
    }
    OpenRunsSend(b, groups, caller.human, accepts, id, k);
  }

  /** Auto mode asks for exactly the open comments an Agent raised whose Agent is idle. */
  lemma {:induction false} AutoAsksIff(b: Board, idle: set<string>, from: nat, id: nat)
    requires Issued(b) && from <= b.supply
    ensures id in AutoPending(b, idle, from) <==>
              from <= id && id in b.comments && b.comments[id].author.Some? && b.comments[id].status == Open &&
              b.comments[id].responsible in idle
    decreases b.supply - from
  {
    if from < b.supply {
      AutoAsksIff(b, idle, from + 1, id);
    }
  }

  // --------------------------------------------------------------------- closing

  /**
   * How a run ends for a comment. What landed is addressed, what changed nothing
   * is open again, a conflict is contested and any other end failed. An Agent's
   * comment is never left at a bad end, nor out of rounds: it goes to a human.
   */
  ghost predicate EndsAs(c: Comment, run: RunStatus, maxRounds: nat) {
    var byAgent := c.author.Some? && c.author.value != "";
    (c.status == Blocked <==> byAgent && (c.rounds >= maxRounds || run in {Conflict, Denied, Leased, RunFailed, Queued})) &&
    (c.status == Addressed <==> c.status != Blocked && run in {Written, Merged}) &&
    (c.status == Open <==> c.status != Blocked && run == NoChange) &&
    (c.status == Contested <==> c.status != Blocked && run == Conflict) &&
    (c.status == Failed <==> c.status != Blocked && run in {Denied, Leased, RunFailed, Queued})
  }

  /** Closing a run ends each of its comments so, counts the round, and leaves the others alone. */
  lemma ClosedRun(b: Board, run: nat, status: RunStatus, maxRounds: nat, id: nat)
    requires run in b.runs && id in b.comments
    ensures var b' := CloseRun(b, run, status, maxRounds);
            b'.runs == b.runs[run := b.runs[run].(status := status)] && b'.supply == b.supply && b'.comments.Keys == b.comments.Keys &&
            if id in b.runs[run].comments
            then b.comments[id].rounds < b'.comments[id].rounds && SameThread(b.comments[id], b'.comments[id]) &&
                 EndsAs(b'.comments[id], status, maxRounds)
            else b'.comments[id] == b.comments[id]
  {
    CloseCommentsKeys(b.comments, b.runs[run].comments, status, maxRounds);
    CloseCommentsDo(b.comments, b.runs[run].comments, status, maxRounds, id);
  }

  // ------------------------------------------------------------------- agreement

  lemma AgreedStaysInStep(b: Board, op: Op, maxRounds: nat, id: nat, agent: string)
    requires Issued(b) && id in b.comments && ByAgent(b.comments[id]) && agent in b.comments[id].agreed
    ensures id in Step(b, op, maxRounds).comments && agent in Step(b, op, maxRounds).comments[id].agreed
  {
    match op
    case Auto(caller, idle, accepts) => DispatchDoes(b, AutoPending(b, idle, 0), caller, accepts, id);
    case Manual(ids, caller, accepts) => DispatchDoes(b, ids, caller, accepts, id);
    case Close(run, status) =>
      if run in b.runs {
        CloseCommentsDo(b.comments, b.runs[run].comments, status, maxRounds, id);
      }
    case AgentSettles(_, _) =>
    case HumanSettles(_, _) =>
    case Create(_, _, _) =>
  }

  lemma {:induction false} AgreedStays(b: Board, ops: seq<Op>, maxRounds: nat, id: nat, agent: string)
    requires Issued(b) && id in b.comments && ByAgent(b.comments[id]) && agent in b.comments[id].agreed
    ensures var end := Run(b, ops, maxRounds);
            Issued(end) && id in end.comments && SameThread(b.comments[id], end.comments[id]) && agent in end.comments[id].agreed
    decreases |ops|
  {
    if ops != [] {
      AgreedStaysInStep(b, ops[0], maxRounds, id, agent);
      StepSpends(b, ops[0], maxRounds, id);
      StepKeepsIssued(b, ops[0], maxRounds);
      AgreedStays(Step(b, ops[0], maxRounds), ops[1..], maxRounds, id, agent);
    }
  }

  /** Once both of its Agents have agreed, whatever came in between, an Agent's comment is settled. */
  lemma BothEndsSettle(b: Board, id: nat, first: string, between: seq<Op>, second: string, maxRounds: nat)
    requires Issued(b) && id in b.comments && ByAgent(b.comments[id])
    requires var c := b.comments[id]; {first, second} == {c.author.value, c.responsible}
    ensures var met := Run(Step(b, AgentSettles(id, first), maxRounds), between, maxRounds);
            var end := Step(met, AgentSettles(id, second), maxRounds);
            id in end.comments && end.comments[id].status == Settled
  {
    var agreed := Step(b, AgentSettles(id, first), maxRounds);
    var c := b.comments[id];
    assert first in {c.author.value, c.responsible} && second in {c.author.value, c.responsible};
    assert c.author.value in {first, second} && c.responsible in {first, second};
    StepKeepsIssued(b, AgentSettles(id, first), maxRounds);
    AgreedStays(agreed, between, maxRounds, id, first);
  }

  ghost predicate DispatchEffect(b: Board, b': Board, ids: seq<nat>, id: nat)
    requires id in b.comments
  {
    id in b'.comments &&
    var c, c' := b.comments[id], b'.comments[id];
    c' == c ||
    (c.status != Settled && c'.lastRun == c.lastRun && c' == c.(status := if ByAgent(c) then Blocked else Stale)) ||
    (c.status != Settled && id in ids && c' == c.(status := InProgress, lastRun := c'.lastRun) &&
     c'.lastRun.Some? && b.supply <= c'.lastRun.value)
  }

  lemma DispatchDoes(b: Board, ids: seq<nat>, caller: Caller, accepts: string -> bool, id: nat)
    requires Issued(b) && id in b.comments
    ensures Issued(Dispatch(b, ids, caller, accepts)) && DispatchEffect(b, Dispatch(b, ids, caller, accepts), ids, id)
  {
    if ids != [] {
      PlanDoes(b, ids, caller, [], id);
      assert !InGroups([], id);
      match PlanRuns(b, ids, caller)
      case Planned(groups) => OpenRunsDo(b, groups, caller.human, accepts, id);
      case Refused(b') =>
        forall x | x in b'.comments
          ensures x < b'.supply && (b'.comments[x].lastRun.Some? ==> b'.comments[x].lastRun.value < b'.supply)
        {
          PlanDoes(b, ids, caller, [], x);
        }
    }
  }

  lemma {:induction false} AutoPendingIs(b: Board, idle: set<string>, from: nat, id: nat)
    requires from <= b.supply && id in AutoPending(b, idle, from)
    ensures id in b.comments && AutoSelects(b.comments[id], idle)
    decreases b.supply - from
  {
    if from < b.supply {
      if id in AutoPending(b, idle, from + 1) {
        AutoPendingIs(b, idle, from + 1, id);
      }
    }
  }

  // -------------------------------------------------------------------- the budget

  /** What a comment can still be sent: once if it is open, and once per round it has left before the last. */
  function Allowance(c: Comment, maxRounds: nat): nat {
    (if c.status == Open then 1 else 0) + (if c.rounds + 1 < maxRounds then maxRounds - 1 - c.rounds else 0)
  }

  lemma CloseSpends(c: Comment, status: RunStatus, maxRounds: nat)
    requires ByAgent(c)
    ensures Allowance(CloseComment(c, status, maxRounds), maxRounds) <= Allowance(c, maxRounds)
    ensures c.rounds + 1 >= maxRounds ==> CloseComment(c, status, maxRounds).status != Open
    ensures CloseComment(c, status, maxRounds).status != Settled
  {
  }

  /** Closing counts a round for each mention of a comment, and touches nothing else about it. */
  lemma {:induction false} CloseCommentsDo(comments: map<nat, Comment>, ids: seq<nat>, status: RunStatus, maxRounds: nat, id: nat)
    requires id in comments
    ensures CloseComments(comments, ids, status, maxRounds).Keys == comments.Keys
    ensures var c, c' := comments[id], CloseComments(comments, ids, status, maxRounds)[id];
            SameThread(c, c') && c'.lastRun == c.lastRun && c'.agreed == c.agreed && c.rounds <= c'.rounds &&
            (id !in ids ==> c' == c) &&
            (id in ids ==> c.rounds < c'.rounds && c'.status == Escalate(c', Outcome(status), maxRounds)) &&
            (ByAgent(c) ==> Allowance(c', maxRounds) <= Allowance(c, maxRounds))
    decreases |ids|
  {
    if ids != [] {
      var next := if ids[0] in comments then comments[ids[0] := CloseComment(comments[ids[0]], status, maxRounds)] else comments;
      if ids[0] == id && ByAgent(comments[id]) {
        CloseSpends(comments[id], status, maxRounds);
      }
      CloseCommentsDo(next, ids[1..], status, maxRounds, id);
    }
  }

  /** The step sent the comment by Auto mode. */
  predicate AutoSent(b: Board, op: Op, maxRounds: nat, id: nat) {
    op.Auto? && id in b.comments && id in Step(b, op, maxRounds).comments &&
    Step(b, op, maxRounds).comments[id].lastRun != b.comments[id].lastRun
  }

  lemma StepKeepsIssued(b: Board, op: Op, maxRounds: nat)
    requires Issued(b)
    ensures Issued(Step(b, op, maxRounds)) && b.supply <= Step(b, op, maxRounds).supply
    ensures b.comments.Keys <= Step(b, op, maxRounds).comments.Keys
  {
    var b' := Step(b, op, maxRounds);
    match op
    case Auto(caller, idle, accepts) =>
      forall id | id in b.comments ensures id in b'.comments {
        DispatchDoes(b, AutoPending(b, idle, 0), caller, accepts, id);
      }
      DispatchKeepsIssued(b, AutoPending(b, idle, 0), caller, accepts);
    case Manual(ids, caller, accepts) =>
      forall id | id in b.comments ensures id in b'.comments {
        DispatchDoes(b, ids, caller, accepts, id);
      }
      DispatchKeepsIssued(b, ids, caller, accepts);
    case Close(run, status) =>
      if run in b.runs {
        CloseCommentsKeys(b.comments, b.runs[run].comments, status, maxRounds);
        forall id | id in b'.comments
          ensures id < b'.supply && (b'.comments[id].lastRun.Some? ==> b'.comments[id].lastRun.value < b'.supply)
        {
          CloseCommentsDo(b.comments, b.runs[run].comments, status, maxRounds, id);
        }
      }
    case _ =>
  }

  lemma {:induction false} CloseCommentsKeys(comments: map<nat, Comment>, ids: seq<nat>, status: RunStatus, maxRounds: nat)
    ensures CloseComments(comments, ids, status, maxRounds).Keys == comments.Keys
    decreases |ids|
  {
    if ids != [] {
      var next := if ids[0] in comments then comments[ids[0] := CloseComment(comments[ids[0]], status, maxRounds)] else comments;
      CloseCommentsKeys(next, ids[1..], status, maxRounds);
    }
  }

  lemma {:induction false} OpenRunsIssued(b: Board, groups: seq<Group>, human: string, accepts: string -> bool)
    requires Issued(b)
    ensures Issued(OpenRuns(b, groups, human, accepts)) && b.supply <= OpenRuns(b, groups, human, accepts).supply
    decreases |groups|
  {
    if groups != [] {
      var next := if accepts(groups[0].agent) then OpenRun(b, groups[0], human) else b;
      if accepts(groups[0].agent) {
        forall x | x in next.comments
          ensures x < next.supply && (next.comments[x].lastRun.Some? ==> next.comments[x].lastRun.value < next.supply)
        {
          OpenCommentsIs(b.comments, groups[0].comments, b.supply, x);
        }
      }
      OpenRunsIssued(next, groups[1..], human, accepts);
    }
  }

  lemma DispatchKeepsIssued(b: Board, ids: seq<nat>, caller: Caller, accepts: string -> bool)
    requires Issued(b)
    ensures Issued(Dispatch(b, ids, caller, accepts)) && b.supply <= Dispatch(b, ids, caller, accepts).supply
  {
    match PlanRuns(b, ids, caller)
    case Planned(groups) => OpenRunsIssued(b, groups, caller.human, accepts);
    case Refused(b') =>
      if ids != [] {
        PlanRefusedKeys(b, ids, caller, []);
        forall x | x in b'.comments
          ensures x < b'.supply && (b'.comments[x].lastRun.Some? ==> b'.comments[x].lastRun.value < b'.supply)
        {
          PlanDoes(b, ids, caller, [], x);
        }
      }
  }

  lemma {:induction false} PlanRefusedKeys(b: Board, ids: seq<nat>, caller: Caller, groups: seq<Group>)
    ensures var plan := PlanFrom(b, ids, caller, groups);
            plan.Refused? ==> plan.board.comments.Keys == b.comments.Keys && plan.board.runs == b.runs && plan.board.supply == b.supply
    decreases |ids|
  {
    if ids != [] && ids[0] in b.comments && MayDispatch(b.comments[ids[0]], caller) && b.comments[ids[0]].status != Settled &&
       caller.intact(ids[0])
    {
      PlanRefusedKeys(b, ids[1..], caller, AddToGroups(groups, b.comments[ids[0]], ids[0]));
    }
  }

  /** Each sending spends one of an Agent comment's allowance, and nothing raises it. */
  lemma StepSpends(b: Board, op: Op, maxRounds: nat, id: nat)
    requires Issued(b) && id in b.comments && ByAgent(b.comments[id])
    ensures var b' := Step(b, op, maxRounds);
            id in b'.comments && SameThread(b.comments[id], b'.comments[id]) &&
            b.comments[id].rounds <= b'.comments[id].rounds &&
            Allowance(b'.comments[id], maxRounds) + (if AutoSent(b, op, maxRounds, id) then 1 else 0)
              <= Allowance(b.comments[id], maxRounds)
  {
    match op
    case Auto(caller, idle, accepts) =>
      var pending := AutoPending(b, idle, 0);
      DispatchDoes(b, pending, caller, accepts, id);
      if id in pending {
        AutoPendingIs(b, idle, 0, id);
      }
    case Manual(ids, caller, accepts) => DispatchDoes(b, ids, caller, accepts, id);
    case Close(run, status) =>
      if run in b.runs {
        CloseCommentsDo(b.comments, b.runs[run].comments, status, maxRounds, id);
      }
    case _ =>
  }

  /** How often Auto mode sends the comment over a run. */
  function AutoCount(b: Board, ops: seq<Op>, maxRounds: nat, id: nat): nat
    decreases |ops|
  {
    if ops == [] then 0
    else (if AutoSent(b, ops[0], maxRounds, id) then 1 else 0) + AutoCount(Step(b, ops[0], maxRounds), ops[1..], maxRounds, id)
  }

  lemma {:induction false} RunSpends(b: Board, ops: seq<Op>, maxRounds: nat, id: nat)
    requires Issued(b) && id in b.comments && ByAgent(b.comments[id])
    ensures AutoCount(b, ops, maxRounds, id) <= Allowance(b.comments[id], maxRounds)
    decreases |ops|
  {
    if ops != [] {
      StepSpends(b, ops[0], maxRounds, id);
      StepKeepsIssued(b, ops[0], maxRounds);
      RunSpends(Step(b, ops[0], maxRounds), ops[1..], maxRounds, id);
    }
  }

  lemma {:induction false} RunKeepsIssued(b: Board, ops: seq<Op>, maxRounds: nat)
    requires Issued(b)
    ensures Issued(Run(b, ops, maxRounds))
    decreases |ops|
  {
    if ops != [] {
      StepKeepsIssued(b, ops[0], maxRounds);
      RunKeepsIssued(Step(b, ops[0], maxRounds), ops[1..], maxRounds);
    }
  }

  /** The request creates a comment, and an Agent makes it. */
  predicate RaisedByAgent(op: Op) {
    op.Create? && MayCreate(op.draft, op.content, op.routing) && op.draft.author.Some? && op.draft.author.value != ""
  }

  /**
   * What creating a comment puts on the board: it is open, it goes to one of the
   * candidates if there are any, where there is not exactly one only to one
   * named explicitly, and never to the Agent that raised it.
   */
  lemma CreatedComment(b: Board, draft: Draft, content: Option<string>, routing: Provenance.ResponsibleAgents)
    requires MayCreate(draft, content, routing)
    requires forall a :: routing.recommended == Some(a) ==> routing.candidates == [a]
    ensures var b' := CreateComment(b, draft, content, routing);
            b.supply in b'.comments &&
            var c := b'.comments[b.supply];
            c.status == Open && c.rounds == draft.spent && c.author == draft.author && c.human == draft.human &&
            c.responsible != "" && (routing.candidates != [] ==> c.responsible in routing.candidates) &&
            (|routing.candidates| != 1 ==> draft.target == Some(c.responsible)) &&
            (ByAgent(c) ==> c.author != Some(c.responsible))
  {
    var chosen := Chosen(draft, routing).value;
    if draft.target.None? {
      assert routing.candidates == [chosen];
    }
  }

  /** The Agent a request names, or else the one recommended for its lines. */
  ghost predicate Addresses(draft: Draft, routing: Provenance.ResponsibleAgents, agent: string) {
    agent != "" && (draft.target == Some(agent) || (draft.target.None? && routing.recommended == Some(agent)))
  }

  /**
   * A comment is created, and nothing else changes, if and only if its body is
   * of 1 to 2000 characters without the white space around it, its lines are
   * lines of the document, and the Agent it addresses is not the one that raises
   * it and, if named explicitly, one of those its lines name, if they name any.
   */
  lemma CreatedIff(b: Board, draft: Draft, content: Option<string>, routing: Provenance.ResponsibleAgents)
    ensures var b' := CreateComment(b, draft, content, routing);
            if 1 <= |Sections.Trim(draft.body)| <= 2000 && content.Some? &&
               1 <= draft.startLine <= draft.endLine <= |SplitLines(content.value)| &&
               (exists agent :: Addresses(draft, routing, agent) && draft.author != Some(agent) &&
                                (draft.target.Some? && routing.candidates != [] ==> agent in routing.candidates))
            then b'.supply == b.supply + 1 && b'.runs == b.runs && b.supply in b'.comments &&
                 b'.comments - {b.supply} == b.comments - {b.supply} &&
                 Addresses(draft, routing, b'.comments[b.supply].responsible) && b'.comments[b.supply].doc == draft.doc
            else b' == b
  {
    if MayCreate(draft, content, routing) {
      assert Addresses(draft, routing, Chosen(draft, routing).value);
    } else if agent :| Addresses(draft, routing, agent) && draft.author != Some(agent) &&
                       (draft.target.Some? && routing.candidates != [] ==> agent in routing.candidates) {
      assert Chosen(draft, routing) == Some(agent);
    }
  }

  /**
   * The round budget: an Agent's comment created with `spent` rounds behind it
   * is sent by Auto mode at most max(1, maxRounds - spent) times, over any run.
   */
  lemma BudgetHolds(before: seq<Op>, create: Op, after: seq<Op>, maxRounds: nat)
    requires RaisedByAgent(create)
    ensures var b := Run(NEW_BOARD, before, maxRounds);
            var b' := Step(b, create, maxRounds);
            b.supply in b'.comments &&
            AutoCount(b', after, maxRounds, b.supply) <= if create.draft.spent + 1 < maxRounds then maxRounds - create.draft.spent else 1
  {
    RunKeepsIssued(NEW_BOARD, before, maxRounds);
    var b := Run(NEW_BOARD, before, maxRounds);
    StepKeepsIssued(b, create, maxRounds);
    RunSpends(Step(b, create, maxRounds), after, maxRounds, b.supply);
  }

  /** Out of rounds, and no longer open. */
  ghost predicate Spent(b: Board, id: nat, maxRounds: nat) {
    id in b.comments && ByAgent(b.comments[id]) && b.comments[id].rounds >= maxRounds && b.comments[id].status != Open
  }

  lemma CloseMakesSpent(b: Board, run: nat, status: RunStatus, maxRounds: nat, id: nat)
    requires run in b.runs && id in b.runs[run].comments && id in b.comments && ByAgent(b.comments[id])
    requires b.comments[id].rounds + 1 >= maxRounds
    ensures Spent(CloseRun(b, run, status, maxRounds), id, maxRounds)
  {
    CloseCommentsDo(b.comments, b.runs[run].comments, status, maxRounds, id);
  }

  /** Once out of rounds a comment is never open again. */
  lemma {:induction false} SpentStays(b: Board, ops: seq<Op>, maxRounds: nat, id: nat)
    requires Issued(b) && Spent(b, id, maxRounds)
    ensures Spent(Run(b, ops, maxRounds), id, maxRounds)
    decreases |ops|
  {
    if ops != [] {
      StepSpends(b, ops[0], maxRounds, id);
      StepKeepsIssued(b, ops[0], maxRounds);
      SpentStays(Step(b, ops[0], maxRounds), ops[1..], maxRounds, id);
    }
  }

  // ---------------------------------------------------------------------- settling

  /** A settled comment stays settled unless a run that lists it closes. */
  lemma SettledStaysIff(b: Board, op: Op, maxRounds: nat, id: nat)
    requires Issued(b) && id in b.comments && b.comments[id].status == Settled
    ensures id in Step(b, op, maxRounds).comments
    ensures Step(b, op, maxRounds).comments[id].status == Settled <==>
            !(op.Close? && op.run in b.runs && id in b.runs[op.run].comments)
  {
    match op
    case Auto(caller, idle, accepts) => DispatchDoes(b, AutoPending(b, idle, 0), caller, accepts, id);
    case Manual(ids, caller, accepts) => DispatchDoes(b, ids, caller, accepts, id);
    case Close(run, status) =>
      if run in b.runs {
        CloseCommentsDo(b.comments, b.runs[run].comments, status, maxRounds, id);
      }
    case _ =>
  }

  const SOLE := Provenance.ResponsibleAgents(Some("b"), ["b"], false)

  /** Agent "a" raises a point with Agent "b"; it is sent; the human settles it; then the run closes. */
  function ReopenedOps(): seq<Op> {
    [Create(Draft("d", "h", Some("a"), None, "why?", 1, 1, 0), Some("text"), SOLE),
     Manual([0], Caller("h", _ => true, _ => true), _ => true),
     HumanSettles(0, "h"),
     Close(1, Written)]
  }

  /** The settled comment is no longer settled. */
  lemma SettledIsReopened()
    ensures var settled, closed := Run(NEW_BOARD, ReopenedOps()[..3], 3), Run(NEW_BOARD, ReopenedOps(), 3);
            0 in settled.comments && settled.comments[0].status == Settled &&
            0 in closed.comments && closed.comments[0].status == Addressed
  {
    var ops := ReopenedOps();
    var b1 := Step(NEW_BOARD, ops[0], 3);
    PointIsRaised();
    var b2 := Step(b1, ops[1], 3);
    PointIsSent(b1);
    var b3 := Step(b2, ops[2], 3);
    var b4 := Step(b3, ops[3], 3);
    RunCloses(b3);
    var three := ops[..3];
    assert three[1..][1..] == [ops[2]] && [ops[2]][1..] == [] && three[1..] == [ops[1], ops[2]];
    assert Run(b3, [], 3) == b3 && Run(b2, [ops[2]], 3) == b3 && Run(b1, three[1..], 3) == b3;
    assert ops[1..][1..] == ops[2..] && ops[2..][1..] == ops[3..] && ops[3..][1..] == [];
    assert Run(b4, [], 3) == b4 && Run(b3, ops[3..], 3) == b4 && Run(b2, ops[2..], 3) == b4 && Run(b1, ops[1..], 3) == b4;
  }

  lemma RunCloses(b: Board)
    requires 0 in b.comments && b.comments[0].status == Settled && b.comments[0].rounds == 0 && ByAgent(b.comments[0])
    requires 1 in b.runs && b.runs[1].comments == [0]
    ensures var b' := Step(b, ReopenedOps()[3], 3);
            0 in b'.comments && b'.comments[0].status == Addressed
  {
    assert [0][1..] == [];
    assert CloseComments(b.comments, [0], Written, 3) == b.comments[0 := CloseComment(b.comments[0], Written, 3)];
  }

  lemma PointIsRaised()
    ensures Step(NEW_BOARD, ReopenedOps()[0], 3) == Board(map[0 := Comment("d", "b", "h", Some("a"), 0, [], Open, None)], map[], 1)
  {
    var body := "why?";
    assert Sections.TrimStart(body) == body && Sections.TrimEnd(body) == body;
    FieldsOfOne("text", '\n');
  }

  lemma PointIsSent(b: Board)
    requires b == Board(map[0 := Comment("d", "b", "h", Some("a"), 0, [], Open, None)], map[], 1)
    ensures var b' := Step(b, ReopenedOps()[1], 3);
            b'.comments.Keys == {0} && b'.comments[0] == b.comments[0].(status := InProgress, lastRun := Some(1)) &&
            1 in b'.runs && b'.runs[1].comments == [0]
  {
    var caller := Caller("h", _ => true, _ => true);
    var groups := [Group("d", "b", [0])];
    var ids: seq<nat> := [0];
    assert ids[1..] == [];
    assert AddToGroups([], b.comments[0], 0) == groups;
    assert PlanFrom(b, [], ReopenedOps()[1].caller, groups) == Planned(groups);
    assert PlanRuns(b, ids, ReopenedOps()[1].caller) == Planned(groups);
    OpenCommentsIs(b.comments, ids, 1, 0);
    assert groups[1..] == [];
  }

  /** What is agreed over a run, and that nothing but agreement or its own human settles an Agents' thread. */
  ghost predicate Accounted(c: Comment, ops: seq<Op>, id: nat) {
    (forall a :: a in c.agreed ==> AgentSettles(id, a) in ops) &&
    (c.status == Settled ==>
       HumanSettles(id, c.human) in ops ||
       (AgentSettles(id, c.author.GetOr("")) in ops && AgentSettles(id, c.responsible) in ops))
  }

  lemma StepAccounts(b: Board, ops: seq<Op>, op: Op, maxRounds: nat, id: nat)
    requires Issued(b) && id in b.comments && ByAgent(b.comments[id]) && Accounted(b.comments[id], ops, id)
    ensures id in Step(b, op, maxRounds).comments && Accounted(Step(b, op, maxRounds).comments[id], ops + [op], id)
  {
    var c' := Step(b, op, maxRounds).comments;
    StepSpends(b, op, maxRounds, id);
    match op
    case Auto(caller, idle, accepts) => DispatchDoes(b, AutoPending(b, idle, 0), caller, accepts, id);
    case Manual(ids, caller, accepts) => DispatchDoes(b, ids, caller, accepts, id);
    case Close(run, status) =>
      if run in b.runs {
        CloseCommentsDo(b.comments, b.runs[run].comments, status, maxRounds, id);
      }
    case AgentSettles(x, agent) => assert op in ops + [op];
    case HumanSettles(x, human) => assert op in ops + [op];
    case Create(_, _, _) =>
  }

  lemma {:induction false} RunAccounts(b: Board, done: seq<Op>, ops: seq<Op>, maxRounds: nat, id: nat)
    requires Issued(b) && id in b.comments && ByAgent(b.comments[id]) && Accounted(b.comments[id], done, id)
    ensures id in Run(b, ops, maxRounds).comments && SameThread(b.comments[id], Run(b, ops, maxRounds).comments[id])
    ensures Accounted(Run(b, ops, maxRounds).comments[id], done + ops, id)
    decreases |ops|
  {
    if ops == [] {
      assert done + ops == done;
    } else {
      StepAccounts(b, done, ops[0], maxRounds, id);
      StepSpends(b, ops[0], maxRounds, id);
      StepKeepsIssued(b, ops[0], maxRounds);
      RunAccounts(Step(b, ops[0], maxRounds), done + [ops[0]], ops[1..], maxRounds, id);
      assert done + [ops[0]] + ops[1..] == done + ops;
    }
  }

  /** An Agent's comment is settled only by the human it belongs to, or by both of its two different Agents. */
  lemma SettledTakesBoth(before: seq<Op>, create: Op, after: seq<Op>, maxRounds: nat)
    requires RaisedByAgent(create)
    requires var b := Run(NEW_BOARD, before, maxRounds);
             var end := Run(Step(b, create, maxRounds), after, maxRounds);
             b.supply in end.comments && end.comments[b.supply].status == Settled
    ensures var id := Run(NEW_BOARD, before, maxRounds).supply;
            var responsible := Chosen(create.draft, create.routing).value;
            create.draft.author.value != responsible &&
            (HumanSettles(id, create.draft.human) in after ||
             (AgentSettles(id, create.draft.author.value) in after && AgentSettles(id, responsible) in after))
  {
    RunKeepsIssued(NEW_BOARD, before, maxRounds);
    var b := Run(NEW_BOARD, before, maxRounds);
    StepKeepsIssued(b, create, maxRounds);
    RunAccounts(Step(b, create, maxRounds), [], after, maxRounds, b.supply);
    assert [] + after == after;
  }
}
