/**
 * Sharing over warrants (apps/server/src/warrant/sharing.ts and registry.ts):
 * grants between humans, the warrants they mint for Agents, and the rule that
 * nobody grants what they do not hold.
 */
module Sharing {
  import opened Options
  import opened Resources

  datatype Scope = WorkspaceRead | WorkspaceWrite | ModelInvoke | MergePropose | CommentWrite

  datatype Role = Viewer | Commenter | Editor

  function ScopesForRole(role: Role): seq<Scope> {
    match role
    case Viewer => [WorkspaceRead]
    case Commenter => [WorkspaceRead, CommentWrite]
    case Editor => [WorkspaceRead, CommentWrite, WorkspaceWrite, MergePropose]
  }

  /** `grant` is the share a warrant was minted from; subtask warrants have none. */
  datatype Warrant = Warrant(
    human: string, agent: string, grant: Option<nat>, grantedBy: Option<string>,
    scopes: seq<Scope>, resources: seq<string>, issuedAt: int, expiresAt: int, revokedAt: Option<int>)

  datatype Grant = Grant(
    doc: string, grantedBy: string, grantee: string, role: Role,
    issuedAt: int, expiresAt: int, warrants: seq<nat>, revokedAt: Option<int>)

  /** Ids come from one supply, so a map lists its entries oldest first by id. */
  datatype Plane = Plane(humans: set<string>, warrants: map<nat, Warrant>, grants: map<nat, Grant>, supply: nat)

  const NEW_PLANE := Plane({}, map[], map[], 0)

  predicate WarrantLive(w: Warrant, now: int) {
    w.revokedAt.None? && w.expiresAt > now
  }

  predicate GrantLive(g: Grant, now: int) {
    g.revokedAt.None? && g.expiresAt > now
  }

  // ------------------------------------------------------------- who may share

  predicate CoversDoc(w: Warrant, resource: string) {
    exists k :: 0 <= k < |w.resources| && Covers(w.resources[k], resource)
  }

  /** The scopes a human holds on a document through any live warrant. */
  function HeldScopes(p: Plane, human: string, doc: string, now: int): set<Scope> {
    set id, scope | id in p.warrants && p.warrants[id].human == human && WarrantLive(p.warrants[id], now) &&
                    CoversDoc(p.warrants[id], DocResource(doc)) && scope in p.warrants[id].scopes :: scope
  }

  predicate HoldsAll(held: set<Scope>, role: Role) {
    forall scope :: scope in ScopesForRole(role) ==> scope in held
  }

  function MaxShareableRole(p: Plane, human: string, doc: string, now: int): Option<Role> {
    var held := HeldScopes(p, human, doc, now);
    if WorkspaceWrite !in held then None
    else if HoldsAll(held, Editor) then Some(Editor)
    else if HoldsAll(held, Commenter) then Some(Commenter)
    else if HoldsAll(held, Viewer) then Some(Viewer)
    else None
  }

  datatype Decision = Allowed | SelfShare | UnknownGrantee | NotAWriter | ExceedsHoldings

  function CanShare(p: Plane, granter: string, grantee: string, doc: string, role: Role, now: int): Decision {
    if granter == grantee then SelfShare
    else if grantee !in p.humans then UnknownGrantee
    else
      var held := HeldScopes(p, granter, doc, now);
      if WorkspaceWrite !in held then NotAWriter
      else if !HoldsAll(held, role) then ExceedsHoldings
      else Allowed
  }

  // ---------------------------------------------------------------- operations

  function RevokeWarrant(warrants: map<nat, Warrant>, id: nat, now: int): map<nat, Warrant> {
    if id in warrants && warrants[id].revokedAt.None? then warrants[id := warrants[id].(revokedAt := Some(now))] else warrants
  }

  function RevokeAll(warrants: map<nat, Warrant>, ids: seq<nat>, now: int): map<nat, Warrant>
    decreases |ids|
  {
    if ids == [] then warrants else RevokeAll(RevokeWarrant(warrants, ids[0], now), ids[1..], now)
  }

  /** Withdraws a share; every warrant it minted falls with it. */
  function RevokeGrant(p: Plane, id: nat, now: int): Plane {
    if id !in p.grants then p
    else
      var g := p.grants[id];
      var g' := if g.revokedAt.None? then g.(revokedAt := Some(now)) else g;
      p.(grants := p.grants[id := g'], warrants := RevokeAll(p.warrants, g.warrants, now))
  }

  /** The first live grant of the document to the grantee. */
  function LiveGrantFrom(p: Plane, doc: string, grantee: string, now: int, from: nat): Option<nat>
    requires from <= p.supply
    decreases p.supply - from
  {
    if from == p.supply then None
    else if from in p.grants && p.grants[from].doc == doc && p.grants[from].grantee == grantee && GrantLive(p.grants[from], now)
    then Some(from)
    else LiveGrantFrom(p, doc, grantee, now, from + 1)
  }

  /** Records the share, replacing a live one between the same document and person. */
  function GrantShare(p: Plane, doc: string, by_: string, grantee: string, role: Role, ttl: int, now: int): Plane {
    var existing := LiveGrantFrom(p, doc, grantee, now, 0);
    var q := if existing.Some? then RevokeGrant(p, existing.value, now) else p;
    q.(grants := q.grants[q.supply := Grant(doc, by_, grantee, role, now, now + ttl, [], None)], supply := q.supply + 1)
  }

  function LiveWarrantIn(p: Plane, ids: seq<nat>, agent: string, now: int): Option<nat>
    decreases |ids|
  {
    if ids == [] then None
    else if ids[0] in p.warrants && p.warrants[ids[0]].agent == agent && WarrantLive(p.warrants[ids[0]], now) then Some(ids[0])
    else LiveWarrantIn(p, ids[1..], agent, now)
  }

  function Minted(g: Grant, id: nat, agent: string, now: int): Warrant {
    Warrant(g.grantee, agent, Some(id), Some(g.grantedBy), ScopesForRole(g.role), [DocResource(g.doc)], now, g.expiresAt, None)
  }

  /** The grantee attaches an Agent, and only now does authority exist. */
  function AttachAgent(p: Plane, id: nat, agent: string, now: int): (Plane, Option<nat>) {
    if id !in p.grants || !GrantLive(p.grants[id], now) then (p, None)
    else
      var g := p.grants[id];
      var existing := LiveWarrantIn(p, g.warrants, agent, now);
      if existing.Some? then (p, existing)
      else
        (p.(warrants := p.warrants[p.supply := Minted(g, id, agent, now)],
            grants := p.grants[id := g.(warrants := g.warrants + [p.supply])], supply := p.supply + 1),
         Some(p.supply))
  }

  function IssueSubtask(p: Plane, human: string, agent: string, scopes: seq<Scope>, resources: seq<string>, ttl: int, now: int): Plane {
    p.(warrants := p.warrants[p.supply := Warrant(human, agent, None, None, scopes, resources, now, now + ttl, None)],
       supply := p.supply + 1)
  }

  datatype Op =
    | AddHuman(human: string)
    | Issue(owner: string, agent: string, scopes: seq<Scope>, resources: seq<string>, ttl: int)
    | Share(granter: string, grantee: string, doc: string, role: Role, ttl: int)
    | Attach(grantId: nat, caller: string, agent: string)
    | Unshare(grantId: nat, caller: string)
    | Revoke(warrantId: nat, owner: string)

  /** Each request with the checks its route makes first. */
  function Step(p: Plane, op: Op, now: int): Plane {
    match op
    case AddHuman(human) => p.(humans := p.humans + {human})
    case Issue(owner, agent, scopes, resources, ttl) => IssueSubtask(p, owner, agent, scopes, resources, ttl, now)
    case Share(granter, grantee, doc, role, ttl) =>
      if CanShare(p, granter, grantee, doc, role, now) == Allowed then GrantShare(p, doc, granter, grantee, role, ttl, now) else p
    case Attach(id, caller, agent) =>
      if id in p.grants && p.grants[id].grantee == caller then AttachAgent(p, id, agent, now).0 else p
    case Unshare(id, caller) =>
      if id in p.grants && (p.grants[id].grantedBy == caller || p.grants[id].grantee == caller) then RevokeGrant(p, id, now) else p
    case Revoke(id, owner) =>
      if id in p.warrants && p.warrants[id].human == owner then p.(warrants := RevokeWarrant(p.warrants, id, now)) else p
  }

  datatype Timed = Timed(op: Op, now: int)

  function Run(p: Plane, ops: seq<Timed>): Plane
    decreases |ops|
  {
    if ops == [] then p else Run(Step(p, ops[0].op, ops[0].now), ops[1..])
  }

  // ------------------------------------------------------------------ the object

  /** Grants and warrants as the two registries hold them: maps their methods update. */
  class ShareRegistry {
    var humans: set<string>
    var warrants: map<nat, Warrant>
    var grants: map<nat, Grant>
    var supply: nat

    ghost function State(): Plane
      reads this
    {
      Plane(humans, warrants, grants, supply)
    }

    /** Every id on record has been handed out. */
    ghost predicate Valid()
      reads this
    {
      (forall id :: id in warrants ==> id < supply) && (forall id :: id in grants ==> id < supply)
    }

    constructor ()
      ensures Valid() && State() == NEW_PLANE
    {
      humans, warrants, grants, supply := {}, map[], map[], 0;
    }

    method Issue(human: string, agent: string, scopes: seq<Scope>, resources: seq<string>, ttl: int, now: int) returns (id: nat)
      requires Valid()
      modifies this
      ensures Valid()
      ensures id == old(supply) && State() == IssueSubtask(old(State()), human, agent, scopes, resources, ttl, now)
    {
      id := supply;
      warrants := warrants[id := Warrant(human, agent, None, None, scopes, resources, now, now + ttl, None)];
      supply := supply + 1;
    }

    /** A human may only revoke their own delegations. */
    method Revoke(id: nat, byHuman: string, now: int) returns (done: bool)
      requires Valid()
      modifies `warrants
      ensures Valid()
      ensures State() == Step(old(State()), Op.Revoke(id, byHuman), now)
      ensures done <==> id in warrants && warrants[id].human == byHuman && warrants[id].revokedAt.Some?
    {
      if id !in warrants || warrants[id].human != byHuman { return false; }
      if warrants[id].revokedAt.Some? { return true; }
      warrants := warrants[id := warrants[id].(revokedAt := Some(now))];
      return true;
    }

    /** The live warrant of an Agent: the oldest, if it has several. */
    method WarrantForAgent(agent: string, now: int) returns (found: Option<nat>)
      requires Valid()
      ensures match found
              case Some(id) => id in warrants && warrants[id].agent == agent && WarrantLive(warrants[id], now) &&
                               forall other :: other in warrants && other < id && warrants[other].agent == agent ==>
                                 !WarrantLive(warrants[other], now)
              case None => forall id :: id in warrants && warrants[id].agent == agent ==> !WarrantLive(warrants[id], now)
    {
      for id := 0 to supply
        invariant forall other :: other in warrants && other < id && warrants[other].agent == agent ==>
                    !WarrantLive(warrants[other], now)
      {
        if id in warrants && warrants[id].agent == agent && WarrantLive(warrants[id], now) { return Some(id); }
      }
      return None;
    }

    method RevokeById(id: nat, now: int) returns (known: bool)
      requires Valid()
      modifies `warrants
      ensures Valid()
      ensures known == (id in old(warrants)) && warrants == RevokeWarrant(old(warrants), id, now)
    {
      if id !in warrants { return false; }
      var warrant := warrants[id];
      if warrant.revokedAt.None? {
        warrants := warrants[id := warrant.(revokedAt := Some(now))];
      }
      return true;
    }

    method RevokeShare(grantId: nat, now: int)
      requires Valid()
      modifies this
      ensures Valid()
      ensures State() == RevokeGrant(old(State()), grantId, now)
    {
      if grantId !in grants { return; }
      var grant := grants[grantId];
      if grant.revokedAt.None? {
        grants := grants[grantId := grant.(revokedAt := Some(now))];
      } else {
        assert grants == grants[grantId := grant];
      }
      assert grant.warrants[0..] == grant.warrants;
      for k := 0 to |grant.warrants|
        invariant Valid() && humans == old(humans) && supply == old(supply)
        invariant grants == RevokeGrant(old(State()), grantId, now).grants
        invariant RevokeAll(warrants, grant.warrants[k..], now) == RevokeAll(old(warrants), grant.warrants, now)
      {
        assert grant.warrants[k..][1..] == grant.warrants[k + 1..];
        var _ := RevokeById(grant.warrants[k], now);
      }
    }

    method FindLive(doc: string, grantee: string, now: int) returns (found: Option<nat>)
      ensures found == LiveGrantFrom(State(), doc, grantee, now, 0)
    {
      for id := 0 to supply
        invariant LiveGrantFrom(State(), doc, grantee, now, id) == LiveGrantFrom(State(), doc, grantee, now, 0)
      {
        if id in grants && grants[id].doc == doc && grants[id].grantee == grantee && GrantLive(grants[id], now) {
          return Some(id);
        }
      }
      return None;
    }

    method GrantTo(doc: string, grantedBy: string, grantee: string, role: Role, ttl: int, now: int) returns (id: nat)
      requires Valid()
      modifies this
      ensures Valid()
      ensures id == old(supply) && State() == GrantShare(old(State()), doc, grantedBy, grantee, role, ttl, now)
    {
      var existing := FindLive(doc, grantee, now);
      if existing.Some? {
        RevokeShare(existing.value, now);
      }
      id := supply;
      grants := grants[id := Grant(doc, grantedBy, grantee, role, now, now + ttl, [], None)];
      supply := supply + 1;
    }

    method Attach(grantId: nat, agent: string, now: int) returns (warrant: Option<nat>)
      requires Valid()
      modifies this
      ensures Valid()
      ensures (State(), warrant) == AttachAgent(old(State()), grantId, agent, now)
    {
      if grantId !in grants || !GrantLive(grants[grantId], now) { return None; }
      var grant := grants[grantId];
      assert grant.warrants[0..] == grant.warrants;
      for k := 0 to |grant.warrants|
        invariant Valid() && State() == old(State())
        invariant LiveWarrantIn(State(), grant.warrants[k..], agent, now) == LiveWarrantIn(State(), grant.warrants, agent, now)
      {
        assert grant.warrants[k..][1..] == grant.warrants[k + 1..];
        var id := grant.warrants[k];
        if id in warrants && warrants[id].agent == agent && WarrantLive(warrants[id], now) { return Some(id); }
      }
      var id := supply;
      warrants := warrants[id := Minted(grant, grantId, agent, now)];
      grants := grants[grantId := grant.(warrants := grant.warrants + [id])];
      supply := supply + 1;
      return Some(id);
    }

    /** The union over the live warrants that cover the document. */
    method Held(human: string, doc: string, now: int) returns (held: set<Scope>)
      ensures held == HeldScopes(State(), human, doc, now)
    {
      var ids := warrants.Keys;
      held := {};
      while ids != {}
        invariant ids <= warrants.Keys
        invariant held == set id, scope | id in warrants && id !in ids && warrants[id].human == human &&
                                          WarrantLive(warrants[id], now) && CoversDoc(warrants[id], DocResource(doc)) &&
                                          scope in warrants[id].scopes :: scope
        decreases |ids|
      {
        var id :| id in ids;
        ids := ids - {id};
        if warrants[id].human == human && WarrantLive(warrants[id], now) && CoversDoc(warrants[id], DocResource(doc)) {
          held := held + set scope | scope in warrants[id].scopes;
        }
      }
    }
  }

  // ------------------------------------------------------------------- invariant

  /** A share warrant says exactly what its grant says, and is down when the grant is. */
  ghost predicate Mirrors(p: Plane, id: nat)
    requires id in p.warrants
  {
    var w := p.warrants[id];
    w.grant.Some? ==>
      w.grant.value in p.grants &&
      var g := p.grants[w.grant.value];
      id in g.warrants && w.human == g.grantee && w.grantedBy == Some(g.grantedBy) &&
      w.scopes == ScopesForRole(g.role) && w.resources == [DocResource(g.doc)] && w.expiresAt == g.expiresAt &&
      (g.revokedAt.Some? ==> w.revokedAt.Some?)
  }

  /** Of two shares of a document with one person the older was over when the newer began. */
  ghost predicate Superseded(p: Plane, i: nat, j: nat)
    requires i in p.grants && j in p.grants
  {
    i < j && p.grants[i].doc == p.grants[j].doc && p.grants[i].grantee == p.grants[j].grantee ==>
      p.grants[i].revokedAt.Some? || p.grants[i].expiresAt <= p.grants[j].issuedAt
  }

  /** Of two warrants a grant minted for one Agent the older was revoked before the newer was minted. */
  ghost predicate Renewed(p: Plane, i: nat, j: nat)
    requires i in p.warrants && j in p.warrants
  {
    i < j && p.warrants[i].grant.Some? && p.warrants[i].grant == p.warrants[j].grant && p.warrants[i].agent == p.warrants[j].agent ==>
      p.warrants[i].revokedAt.Some?
  }

  /** A grant lists only warrants it minted. */
  ghost predicate Lists(p: Plane, id: nat, warrant: nat)
    requires id in p.grants
  {
    warrant in p.grants[id].warrants ==> warrant in p.warrants && p.warrants[warrant].grant == Some(id)
  }

  ghost predicate AllListed(p: Plane) {
    forall id, warrant :: id in p.grants ==> Lists(p, id, warrant)
  }

  ghost predicate AllRenewed(p: Plane) {
    forall i, j :: i in p.warrants && j in p.warrants ==> Renewed(p, i, j)
  }

  ghost predicate Sound(p: Plane, clock: int) {
    (forall id :: id in p.warrants ==> id < p.supply && Mirrors(p, id)) &&
    (forall id :: id in p.grants ==> id < p.supply && p.grants[id].issuedAt <= clock) &&
    (forall i, j :: i in p.grants && j in p.grants ==> Superseded(p, i, j))
  }

  lemma {:induction false} RevokeAllIs(warrants: map<nat, Warrant>, ids: seq<nat>, now: int)
    ensures var after := RevokeAll(warrants, ids, now);
            after.Keys == warrants.Keys &&
            forall id :: id in warrants ==>
              after[id] == (if id in ids && warrants[id].revokedAt.None? then warrants[id].(revokedAt := Some(now)) else warrants[id])
    decreases |ids|
  {
    if ids != [] {
      RevokeAllIs(RevokeWarrant(warrants, ids[0], now), ids[1..], now);
    }
  }

  lemma RevokeGrantIsSound(p: Plane, id: nat, now: int, clock: int)
    requires Sound(p, clock)
    ensures Sound(RevokeGrant(p, id, now), clock)
  {
    if id in p.grants {
      var q := RevokeGrant(p, id, now);
      RevokeAllIs(p.warrants, p.grants[id].warrants, now);
      forall w | w in q.warrants ensures w < q.supply && Mirrors(q, w) {
        assert Mirrors(p, w);
      }
      forall i, j | i in q.grants && j in q.grants ensures Superseded(q, i, j) {
        assert Superseded(p, i, j);
      }
    }
  }

  lemma {:induction false} LiveGrantFromIs(p: Plane, doc: string, grantee: string, now: int, from: nat)
    requires from <= p.supply
    ensures match LiveGrantFrom(p, doc, grantee, now, from)
            case Some(id) => id in p.grants && p.grants[id].doc == doc && p.grants[id].grantee == grantee && GrantLive(p.grants[id], now)
            case None => forall id :: (id in p.grants && from <= id < p.supply && p.grants[id].doc == doc &&
                                       p.grants[id].grantee == grantee) ==> !GrantLive(p.grants[id], now)
    decreases p.supply - from
  {
    if from < p.supply {
      LiveGrantFromIs(p, doc, grantee, now, from + 1);
    }
  }

  /** Two shares of one document with one person are never live together, now or later. */
  lemma NotBothLive(p: Plane, clock: int, i: nat, j: nat, at: int)
    requires Sound(p, clock) && clock <= at && i in p.grants && j in p.grants && i != j
    requires p.grants[i].doc == p.grants[j].doc && p.grants[i].grantee == p.grants[j].grantee
    ensures !(GrantLive(p.grants[i], at) && GrantLive(p.grants[j], at))
  {
    assert Superseded(p, i, j) && Superseded(p, j, i);
  }

  /** The replaced share is down before the new one is written. */
  lemma NoLiveLeft(p: Plane, clock: int, doc: string, grantee: string, now: int)
    requires Sound(p, clock) && clock <= now
    ensures var existing := LiveGrantFrom(p, doc, grantee, now, 0);
            var q := if existing.Some? then RevokeGrant(p, existing.value, now) else p;
            q.supply == p.supply && q.grants.Keys == p.grants.Keys &&
            forall id :: id in q.grants && q.grants[id].doc == doc && q.grants[id].grantee == grantee ==> !GrantLive(q.grants[id], now)
  {
    var existing := LiveGrantFrom(p, doc, grantee, now, 0);
    LiveGrantFromIs(p, doc, grantee, now, 0);
    if existing.Some? {
      var q := RevokeGrant(p, existing.value, now);
      forall id | id in q.grants && q.grants[id].doc == doc && q.grants[id].grantee == grantee
        ensures !GrantLive(q.grants[id], now)
      {
        if id != existing.value {
          NotBothLive(p, clock, id, existing.value, now);
        }
      }
    }
  }

  lemma GrantShareIsSound(p: Plane, clock: int, doc: string, granter: string, grantee: string, role: Role, ttl: int, now: int)
    requires Sound(p, clock) && clock <= now
    ensures Sound(GrantShare(p, doc, granter, grantee, role, ttl, now), now)
  {
    var existing := LiveGrantFrom(p, doc, grantee, now, 0);
    var q := if existing.Some? then RevokeGrant(p, existing.value, now) else p;
    NoLiveLeft(p, clock, doc, grantee, now);
    if existing.Some? {
      RevokeGrantIsSound(p, existing.value, now, clock);
    }
    AddGrantIsSound(q, clock, Grant(doc, granter, grantee, role, now, now + ttl, [], None), now);
  }

  lemma AddGrantIsSound(p: Plane, clock: int, g: Grant, now: int)
    requires Sound(p, clock) && clock <= now && g.issuedAt == now
    requires forall id :: id in p.grants && p.grants[id].doc == g.doc && p.grants[id].grantee == g.grantee ==> !GrantLive(p.grants[id], now)
    ensures Sound(p.(grants := p.grants[p.supply := g], supply := p.supply + 1), now)
  {
    var q := p.(grants := p.grants[p.supply := g], supply := p.supply + 1);
    assert p.supply !in p.grants;
    forall w | w in q.warrants ensures w < q.supply && Mirrors(q, w) {
      assert Mirrors(p, w);
    }
    forall i, j | i in q.grants && j in q.grants ensures Superseded(q, i, j) {
      if i in p.grants && j in p.grants {
        assert Superseded(p, i, j);
      }
    }
  }

  lemma AttachIsSound(p: Plane, clock: int, id: nat, agent: string, now: int)
    requires Sound(p, clock) && clock <= now
    ensures Sound(AttachAgent(p, id, agent, now).0, now)
  {
    var q := AttachAgent(p, id, agent, now).0;
    assert p.supply !in p.warrants;
    forall w | w in q.warrants ensures w < q.supply && Mirrors(q, w) {
      if w in p.warrants {
        assert Mirrors(p, w);
      }
    }
    forall i, j | i in q.grants && j in q.grants ensures Superseded(q, i, j) {
      assert Superseded(p, i, j);
    }
  }

  lemma StepIsSound(p: Plane, clock: int, op: Op, now: int)
    requires Sound(p, clock) && clock <= now
    ensures Sound(Step(p, op, now), now)
  {
    var q := Step(p, op, now);
    match op
    case Share(granter, grantee, doc, role, ttl) => GrantShareIsSound(p, clock, doc, granter, grantee, role, ttl, now);
    case Attach(id, caller, agent) => AttachIsSound(p, clock, id, agent, now);
    case Unshare(id, caller) => RevokeGrantIsSound(p, id, now, clock);
    case _ =>
      forall w | w in q.warrants ensures w < q.supply && Mirrors(q, w) {
        if w in p.warrants { assert Mirrors(p, w); }
      }
      forall i, j | i in q.grants && j in q.grants ensures Superseded(q, i, j) {
        assert Superseded(p, i, j);
      }
  }

  lemma {:induction false} LiveWarrantInIs(p: Plane, ids: seq<nat>, agent: string, now: int)
    ensures LiveWarrantIn(p, ids, agent, now).None? ==>
              forall id :: id in ids && id in p.warrants && p.warrants[id].agent == agent ==> !WarrantLive(p.warrants[id], now)
    decreases |ids|
  {
    if ids != [] {
      LiveWarrantInIs(p, ids[1..], agent, now);
    }
  }

  lemma RevokeKeepsRenewed(p: Plane, ids: seq<nat>, now: int, grants: map<nat, Grant>)
    requires AllRenewed(p)
    ensures AllRenewed(p.(warrants := RevokeAll(p.warrants, ids, now), grants := grants))
  {
    RevokeAllIs(p.warrants, ids, now);
    var q := p.(warrants := RevokeAll(p.warrants, ids, now), grants := grants);
    forall i, j | i in q.warrants && j in q.warrants ensures Renewed(q, i, j) {
      assert Renewed(p, i, j);
    }
  }

  /** A warrant is minted only when the grant has no live one for that Agent, and they all expire with the grant. */
  lemma AttachKeepsRenewed(p: Plane, clock: int, id: nat, agent: string, now: int)
    requires Sound(p, clock) && AllRenewed(p)
    ensures AllRenewed(AttachAgent(p, id, agent, now).0)
  {
    var q := AttachAgent(p, id, agent, now).0;
    if q != p {
      var g := p.grants[id];
      LiveWarrantInIs(p, g.warrants, agent, now);
      forall i, j | i in q.warrants && j in q.warrants ensures Renewed(q, i, j) {
        if i in p.warrants && j in p.warrants {
          assert Renewed(p, i, j);
        } else if i in p.warrants && p.warrants[i].grant == Some(id) && p.warrants[i].agent == agent {
          assert Mirrors(p, i);
          assert i in g.warrants;
        }
      }
    }
  }

  lemma StepKeepsRenewed(p: Plane, clock: int, op: Op, now: int)
    requires Sound(p, clock) && AllRenewed(p)
    ensures AllRenewed(Step(p, op, now))
  {
    match op
    case Share(granter, grantee, doc, role, ttl) =>
      var existing := LiveGrantFrom(p, doc, grantee, now, 0);
      LiveGrantFromIs(p, doc, grantee, now, 0);
      if existing.Some? {
        RevokeKeepsRenewed(p, p.grants[existing.value].warrants, now, Step(p, op, now).grants);
      }
      assert forall i, j :: i in p.warrants && j in p.warrants ==> Renewed(p, i, j);
    case Attach(id, caller, agent) => AttachKeepsRenewed(p, clock, id, agent, now);
    case Unshare(id, caller) =>
      if id in p.grants {
        RevokeKeepsRenewed(p, p.grants[id].warrants, now, Step(p, op, now).grants);
      }
    case Revoke(id, _) =>
      var q := Step(p, op, now);
      forall i, j | i in q.warrants && j in q.warrants ensures Renewed(q, i, j) {
        assert Renewed(p, i, j);
      }
    case Issue(_, _, _, _, _) =>
      var q := Step(p, op, now);
      forall i, j | i in q.warrants && j in q.warrants ensures Renewed(q, i, j) {
        if i in p.warrants && j in p.warrants { assert Renewed(p, i, j); }
      }
    case AddHuman(_) =>
  }

  lemma {:induction false} RunKeepsRenewed(p: Plane, clock: int, ops: seq<Timed>)
    requires Sound(p, clock) && AllRenewed(p) && ClockMonotone(ops) && (ops != [] ==> clock <= ops[0].now)
    ensures AllRenewed(Run(p, ops))
    decreases |ops|
  {
    if ops != [] {
      StepIsSound(p, clock, ops[0].op, ops[0].now);
      StepKeepsRenewed(p, clock, ops[0].op, ops[0].now);
      assert forall k :: 0 <= k < |ops[1..]| ==> ops[1..][k] == ops[k + 1];
      RunKeepsRenewed(Step(p, ops[0].op, ops[0].now), ops[0].now, ops[1..]);
    }
  }

  /** After any run a share has at most one live warrant per Agent. */
  lemma OneWarrantPerAgent(ops: seq<Timed>, i: nat, j: nat, at: int)
    requires ClockMonotone(ops)
    requires var p := Run(NEW_PLANE, ops);
             i in p.warrants && j in p.warrants && p.warrants[i].grant.Some? && p.warrants[i].grant == p.warrants[j].grant &&
             p.warrants[i].agent == p.warrants[j].agent && WarrantLive(p.warrants[i], at) && WarrantLive(p.warrants[j], at)
    ensures i == j
  {
    var p := Run(NEW_PLANE, ops);
    RunKeepsRenewed(NEW_PLANE, if ops == [] then 0 else ops[0].now, ops);
    assert Renewed(p, i, j) && Renewed(p, j, i);
  }

  lemma RevokeKeepsListed(p: Plane, id: nat, now: int)
    requires AllListed(p)
    ensures AllListed(RevokeGrant(p, id, now))
  {
    if id in p.grants {
      RevokeAllIs(p.warrants, p.grants[id].warrants, now);
      var q := RevokeGrant(p, id, now);
      forall g, w | g in q.grants ensures Lists(q, g, w) {
        assert Lists(p, g, w);
      }
    }
  }

  lemma StepKeepsListed(p: Plane, clock: int, op: Op, now: int)
    requires Sound(p, clock) && AllListed(p)
    ensures AllListed(Step(p, op, now))
  {
    var q := Step(p, op, now);
    match op
    case Share(granter, grantee, doc, role, ttl) =>
      var existing := LiveGrantFrom(p, doc, grantee, now, 0);
      var r := if existing.Some? then RevokeGrant(p, existing.value, now) else p;
      if existing.Some? {
        RevokeKeepsListed(p, existing.value, now);
      }
      forall g, w | g in q.grants ensures Lists(q, g, w) {
        if g in r.grants { assert Lists(r, g, w); }
        if g in p.grants { assert Lists(p, g, w); }
      }
    case Unshare(id, caller) => RevokeKeepsListed(p, id, now);
    case _ =>
      forall g, w | g in q.grants ensures Lists(q, g, w) {
        assert Lists(p, g, w);
      }
  }

  lemma {:induction false} RunKeepsListed(p: Plane, clock: int, ops: seq<Timed>)
    requires Sound(p, clock) && AllListed(p) && ClockMonotone(ops) && (ops != [] ==> clock <= ops[0].now)
    ensures AllListed(Run(p, ops))
    decreases |ops|
  {
    if ops != [] {
      StepIsSound(p, clock, ops[0].op, ops[0].now);
      StepKeepsListed(p, clock, ops[0].op, ops[0].now);
      assert forall k :: 0 <= k < |ops[1..]| ==> ops[1..][k] == ops[k + 1];
      RunKeepsListed(Step(p, ops[0].op, ops[0].now), ops[0].now, ops[1..]);
    }
  }

  ghost predicate ClockMonotone(ops: seq<Timed>) {
    forall i, j :: 0 <= i < j < |ops| ==> ops[i].now <= ops[j].now
  }

  lemma {:induction false} RunIsSound(p: Plane, clock: int, ops: seq<Timed>)
    requires Sound(p, clock) && ClockMonotone(ops) && (ops != [] ==> clock <= ops[0].now)
    ensures Sound(Run(p, ops), if ops == [] then clock else ops[|ops| - 1].now)
    decreases |ops|
  {
    if ops != [] {
      StepIsSound(p, clock, ops[0].op, ops[0].now);
      assert forall k :: 0 <= k < |ops[1..]| ==> ops[1..][k] == ops[k + 1];
      RunIsSound(Step(p, ops[0].op, ops[0].now), ops[0].now, ops[1..]);
    }
  }

  // -------------------------------------------------------------------- theorems

  /**
   * After any run with a clock that does not go back, at any later time: one
   * live grant at most per document id and person, and every live share warrant
   * stands for a live grant, with exactly its role, document and person.
   */
  lemma SharesAreExact(ops: seq<Timed>, at: int)
    requires ClockMonotone(ops) && ops != [] && ops[|ops| - 1].now <= at
    ensures var p := Run(NEW_PLANE, ops);
            (forall i, j ::
               (i in p.grants && j in p.grants && p.grants[i].doc == p.grants[j].doc &&
                p.grants[i].grantee == p.grants[j].grantee && GrantLive(p.grants[i], at) && GrantLive(p.grants[j], at)) ==> i == j) &&
            (forall id :: id in p.warrants && p.warrants[id].grant.Some? && WarrantLive(p.warrants[id], at) ==>
               var w := p.warrants[id];
               w.grant.value in p.grants &&
               var g := p.grants[w.grant.value];
               GrantLive(g, at) && w.human == g.grantee && w.scopes == ScopesForRole(g.role) && w.resources == [DocResource(g.doc)])
  {
    var p := Run(NEW_PLANE, ops);
    var clock := ops[|ops| - 1].now;
    RunIsSound(NEW_PLANE, ops[0].now, ops);
    forall i, j | i in p.grants && j in p.grants && p.grants[i].doc == p.grants[j].doc &&
                  p.grants[i].grantee == p.grants[j].grantee && GrantLive(p.grants[i], at) && GrantLive(p.grants[j], at)
      ensures i == j
    {
      if i != j {
        NotBothLive(p, clock, i, j, at);
      }
    }
    forall id | id in p.warrants ensures Mirrors(p, id) {
    }
  }

  /** Sharing again leaves no warrant of an earlier share under that document id with that person live. */
  lemma RegrantLeavesNothingLive(p: Plane, clock: int, doc: string, granter: string, grantee: string, role: Role, ttl: int, now: int, id: nat)
    requires Sound(p, clock) && clock <= now
    requires var q := GrantShare(p, doc, granter, grantee, role, ttl, now);
             id in q.warrants && q.warrants[id].grant.Some? && q.warrants[id].grant.value in q.grants &&
             q.grants[q.warrants[id].grant.value].doc == doc && q.grants[q.warrants[id].grant.value].grantee == grantee
    ensures !WarrantLive(GrantShare(p, doc, granter, grantee, role, ttl, now).warrants[id], now)
  {
    var q := GrantShare(p, doc, granter, grantee, role, ttl, now);
    GrantShareIsSound(p, clock, doc, granter, grantee, role, ttl, now);
    NoLiveLeft(p, clock, doc, grantee, now);
    assert Mirrors(q, id);
    var existing := LiveGrantFrom(p, doc, grantee, now, 0);
    var r := if existing.Some? then RevokeGrant(p, existing.value, now) else p;
    if existing.Some? {
      RevokeGrantIsSound(p, existing.value, now, clock);
    }
    assert q.warrants == r.warrants && Mirrors(r, id);
  }

  /** The first live grant is the one under the id that is shared again; nothing else is revoked. */
  lemma GrantSpares(p: Plane, clock: int, doc: string, granter: string, grantee: string, role: Role, ttl: int, now: int, id: nat)
    requires Sound(p, clock) && AllListed(p) && id in p.warrants && p.warrants[id].grant.Some?
    requires p.warrants[id].grant.value in p.grants && p.grants[p.warrants[id].grant.value].doc != doc
    ensures var q := GrantShare(p, doc, granter, grantee, role, ttl, now);
            id in q.warrants && q.warrants[id] == p.warrants[id]
  {
    var existing := LiveGrantFrom(p, doc, grantee, now, 0);
    LiveGrantFromIs(p, doc, grantee, now, 0);
    if existing.Some? {
      RevokeAllIs(p.warrants, p.grants[existing.value].warrants, now);
      assert Lists(p, existing.value, id);
    }
  }

  /**
   * Per resource, which is what a warrant covers: after any run, sharing a file
   * again with the same person leaves a live warrant of an earlier share of the
   * same file live exactly if that share spelled the document id differently.
   */
  lemma RegrantLeavesLiveIff(ops: seq<Timed>, doc: string, granter: string, grantee: string, role: Role, ttl: int, now: int, id: nat)
    requires ClockMonotone(ops) && (ops != [] ==> ops[|ops| - 1].now <= now)
    requires var p := Run(NEW_PLANE, ops);
             id in p.warrants && WarrantLive(p.warrants[id], now) &&
             p.warrants[id].grant.Some? && p.warrants[id].grant.value in p.grants &&
             var earlier := p.grants[p.warrants[id].grant.value];
             earlier.grantee == grantee && DocResource(earlier.doc) == DocResource(doc)
    ensures var p := Run(NEW_PLANE, ops);
            var q := GrantShare(p, doc, granter, grantee, role, ttl, now);
            id in q.warrants &&
            (WarrantLive(q.warrants[id], now) <==> p.grants[p.warrants[id].grant.value].doc != doc)
  {
    var p := Run(NEW_PLANE, ops);
    var start := if ops == [] then now else ops[0].now;
    var clock := if ops == [] then now else ops[|ops| - 1].now;
    RunIsSound(NEW_PLANE, start, ops);
    RunKeepsListed(NEW_PLANE, start, ops);
    if p.grants[p.warrants[id].grant.value].doc != doc {
      GrantSpares(p, clock, doc, granter, grantee, role, ttl, now, id);
    } else {
      GrantKeepsWarrants(p, doc, granter, grantee, role, ttl, now, id);
      RegrantLeavesNothingLive(p, clock, doc, granter, grantee, role, ttl, now, id);
    }
  }

  lemma GrantKeepsWarrants(p: Plane, doc: string, granter: string, grantee: string, role: Role, ttl: int, now: int, id: nat)
    requires id in p.warrants && p.warrants[id].grant.Some? && p.warrants[id].grant.value in p.grants && p.supply !in p.grants
    ensures var q := GrantShare(p, doc, granter, grantee, role, ttl, now);
            id in q.warrants && q.warrants[id].grant == p.warrants[id].grant && q.warrants[id].grant.value in q.grants &&
            q.grants[q.warrants[id].grant.value].doc == p.grants[p.warrants[id].grant.value].doc &&
            q.grants[q.warrants[id].grant.value].grantee == p.grants[p.warrants[id].grant.value].grantee
  {
    var existing := LiveGrantFrom(p, doc, grantee, now, 0);
    LiveGrantFromIs(p, doc, grantee, now, 0);
    if existing.Some? {
      RevokeAllIs(p.warrants, p.grants[existing.value].warrants, now);
    }
  }

  // -------------------------------------------------- what a share gives, in its own terms

  /** The authority each role stands for. */
  predicate RoleGives(role: Role, scope: Scope) {
    match scope
    case WorkspaceRead => true
    case CommentWrite => role != Viewer
    case WorkspaceWrite => role == Editor
    case MergePropose => role == Editor
    case ModelInvoke => false
  }

  lemma RolesAre(role: Role, scope: Scope)
    ensures scope in ScopesForRole(role) <==> RoleGives(role, scope)
  {
    match role
    case Viewer => assert ScopesForRole(role)[0] == WorkspaceRead;
    case Commenter => assert ScopesForRole(role)[0] == WorkspaceRead && ScopesForRole(role)[1] == CommentWrite;
    case Editor =>
      var all := ScopesForRole(role);
      assert all[0] == WorkspaceRead && all[1] == CommentWrite && all[2] == WorkspaceWrite && all[3] == MergePropose;
  }

  /** The warrant lets its holder do `scope` on the file. */
  ghost predicate Permits(w: Warrant, scope: Scope, file: string) {
    scope in w.scopes && CoversDoc(w, REPO + file)
  }

  /** The share's role gives the scope, and the file is the shared one or lies below it. */
  ghost predicate ShareGives(role: Role, doc: string, scope: Scope, file: string, n: nat)
    requires LeadingSlashes(doc, n)
  {
    RoleGives(role, scope) && (n == |doc| || FileOrBelow(doc[n..], file))
  }

  lemma MintedPermits(w: Warrant, role: Role, doc: string, scope: Scope, file: string, n: nat)
    requires w.scopes == ScopesForRole(role) && w.resources == [DocResource(doc)] && LeadingSlashes(doc, n)
    ensures Permits(w, scope, file) <==> ShareGives(role, doc, scope, file, n)
  {
    RolesAre(role, scope);
    SharedFileIsExactIff(doc, n);
    assert w.resources[0] == DocResource(doc);
    assert Covers(w.resources[0], REPO + file) <==> Covers(DocResource(doc), REPO + file);
  }

  /**
   * After any run a warrant minted from a share permits exactly what the share's
   * role stands for, on exactly its file and what lies below; a Viewer's Agent
   * never edits. It is held by the person it was shared with, until the share ends.
   */
  lemma ShareWarrantPermits(ops: seq<Timed>, id: nat, scope: Scope, file: string, n: nat)
    requires ClockMonotone(ops)
    requires var p := Run(NEW_PLANE, ops);
             id in p.warrants && p.warrants[id].grant.Some? && p.warrants[id].grant.value in p.grants &&
             LeadingSlashes(p.grants[p.warrants[id].grant.value].doc, n)
    ensures var p := Run(NEW_PLANE, ops);
            var w := p.warrants[id];
            var g := p.grants[w.grant.value];
            (Permits(w, scope, file) <==> ShareGives(g.role, g.doc, scope, file, n)) &&
            (g.role == Viewer ==> !Permits(w, WorkspaceWrite, file)) &&
            w.human == g.grantee && w.grantedBy == Some(g.grantedBy) && w.expiresAt == g.expiresAt
  {
    var p := Run(NEW_PLANE, ops);
    RunIsSound(NEW_PLANE, if ops == [] then 0 else ops[0].now, ops);
    assert Mirrors(p, id);
    var g := p.grants[p.warrants[id].grant.value];
    MintedPermits(p.warrants[id], g.role, g.doc, scope, file, n);
    MintedPermits(p.warrants[id], g.role, g.doc, WorkspaceWrite, file, n);
  }

  /** Through some live warrant the human holds the scope on the document. */
  ghost predicate HoldsOn(p: Plane, human: string, doc: string, scope: Scope, now: int) {
    exists id :: id in p.warrants && p.warrants[id].human == human && p.warrants[id].revokedAt.None? &&
                 now < p.warrants[id].expiresAt && scope in p.warrants[id].scopes && CoversDoc(p.warrants[id], DocResource(doc))
  }

  /** Who may share what with whom. */
  lemma MayShareIff(p: Plane, granter: string, grantee: string, doc: string, role: Role, now: int)
    ensures CanShare(p, granter, grantee, doc, role, now) == Allowed <==>
              granter != grantee && grantee in p.humans && HoldsOn(p, granter, doc, WorkspaceWrite, now) &&
              forall scope :: RoleGives(role, scope) ==> HoldsOn(p, granter, doc, scope, now)
  {
    var held := HeldScopes(p, granter, doc, now);
    forall scope ensures (scope in ScopesForRole(role) <==> RoleGives(role, scope)) && (scope in held <==> HoldsOn(p, granter, doc, scope, now)) {
      RolesAre(role, scope);
    }
  }

  /**
   * From sharing to holding: an allowed share, then the grantee attaching an
   * Agent before it ends, leaves that Agent a warrant that is live exactly until
   * the share ends and permits exactly what was shared.
   */
  lemma SharedIsHeld(p: Plane, granter: string, grantee: string, doc: string, role: Role, ttl: int, now: int,
                     agent: string, at: int, scope: Scope, file: string, n: nat)
    requires CanShare(p, granter, grantee, doc, role, now) == Allowed && now <= at < now + ttl && LeadingSlashes(doc, n)
    ensures var shared := Step(p, Share(granter, grantee, doc, role, ttl), now);
            var attached := Step(shared, Attach(p.supply, grantee, agent), at);
            var id := p.supply + 1;
            id in attached.warrants &&
            var w := attached.warrants[id];
            w.human == grantee && w.agent == agent && w.grantedBy == Some(granter) && w.revokedAt.None? &&
            w.expiresAt == now + ttl && (Permits(w, scope, file) <==> ShareGives(role, doc, scope, file, n))
  {
    var shared := Step(p, Share(granter, grantee, doc, role, ttl), now);
    LiveGrantFromIs(p, doc, grantee, now, 0);
    assert shared.grants[p.supply] == Grant(doc, granter, grantee, role, now, now + ttl, [], None);
    MintedPermits(Minted(shared.grants[p.supply], p.supply, agent, at), role, doc, scope, file, n);
  }

  /** A share either party withdraws is over, and so is every warrant it minted; nothing else changes. */
  lemma WithdrawnIs(p: Plane, id: nat, caller: string, now: int)
    requires id in p.grants && (caller == p.grants[id].grantedBy || caller == p.grants[id].grantee)
    ensures var q := Step(p, Unshare(id, caller), now);
            q.grants.Keys == p.grants.Keys && q.warrants.Keys == p.warrants.Keys && q.grants[id].revokedAt.Some? &&
            (forall g :: g in p.grants && g != id ==> q.grants[g] == p.grants[g]) &&
            (forall w :: w in p.warrants ==>
               if w in p.grants[id].warrants then q.warrants[w].revokedAt.Some? else q.warrants[w] == p.warrants[w])
  {
    RevokeAllIs(p.warrants, p.grants[id].warrants, now);
  }

  /** A warrant issued for a subtask is the owner's, for that Agent, and lasts as long as asked; its owner can end it. */
  lemma IssuedIs(p: Plane, owner: string, agent: string, scopes: seq<Scope>, resources: seq<string>, ttl: int, now: int, later: int)
    ensures var q := Step(p, Issue(owner, agent, scopes, resources, ttl), now);
            p.supply in q.warrants &&
            var w := q.warrants[p.supply];
            w.human == owner && w.agent == agent && w.scopes == scopes && w.resources == resources && w.grant.None? &&
            (WarrantLive(w, later) <==> later < now + ttl) &&
            var ended := Step(q, Revoke(p.supply, owner), later);
            p.supply in ended.warrants && !WarrantLive(ended.warrants[p.supply], later)
  {
  }

  /** A request that changes anything comes from someone entitled to make it. */
  lemma OnlyPartiesAct(p: Plane, op: Op, now: int)
    requires Step(p, op, now) != p
    ensures match op
            case Share(granter, grantee, doc, role, _) => CanShare(p, granter, grantee, doc, role, now) == Allowed
            case Attach(id, caller, _) => id in p.grants && caller == p.grants[id].grantee && GrantLive(p.grants[id], now)
            case Unshare(id, caller) => id in p.grants && (caller == p.grants[id].grantee || caller == p.grants[id].grantedBy)
            case Revoke(id, owner) => id in p.warrants && owner == p.warrants[id].human
            case _ => true
  {
  }

  // ------------------------------------------------------------------ the witness

  const ALL := ["repo:"]

  /** "doc" is shared for editing and an Agent attached, then "/doc" for viewing. */
  function RespelledOps(): seq<Timed> {
    [Timed(AddHuman("bob"), 0),
     Timed(Issue("ann", "annAgent", ScopesForRole(Editor), ALL, 100), 0),
     Timed(Share("ann", "bob", "doc", Editor, 100), 0),
     Timed(Attach(1, "bob", "bobAgent"), 0),
     Timed(Share("ann", "bob", "/doc", Viewer, 100), 0)]
  }

  ghost predicate AnnHolds(p: Plane) {
    "bob" in p.humans && 0 in p.warrants && p.warrants[0].human == "ann" && p.warrants[0].scopes == ScopesForRole(Editor) &&
    p.warrants[0].resources == ALL && p.warrants[0].grant.None? && WarrantLive(p.warrants[0], 0)
  }

  lemma AnnMayShare(p: Plane, doc: string, role: Role)
    requires AnnHolds(p)
    ensures CanShare(p, "ann", "bob", doc, role, 0) == Allowed
  {
    CoversOutside("", StripSlashes(doc));
    assert Covers(p.warrants[0].resources[0], DocResource(doc));
    assert CoversDoc(p.warrants[0], DocResource(doc));
    var held := HeldScopes(p, "ann", doc, 0);
    var all := ScopesForRole(Editor);
    assert all[0] in all && all[1] in all && all[2] in all && all[3] in all;
    forall scope | scope in all ensures scope in held {
      assert scope in p.warrants[0].scopes;
    }
    assert forall scope :: scope in ScopesForRole(role) ==> scope in all;
  }

  /** The Editor warrant on the file outlives the narrower share of the same file. */
  lemma RespelledShareKeepsEditor()
    ensures var p := Run(NEW_PLANE, RespelledOps());
            2 in p.warrants && WarrantLive(p.warrants[2], 0) && p.warrants[2].scopes == ScopesForRole(Editor) &&
            p.warrants[2].resources == [DocResource("/doc")] &&
            3 in p.grants && GrantLive(p.grants[3], 0) && p.grants[3].role == Viewer && p.grants[3].grantee == p.warrants[2].human
  {
    var ops := RespelledOps();
    var p1 := Step(NEW_PLANE, ops[0].op, 0);
    var p2 := Step(p1, ops[1].op, 0);
    assert AnnHolds(p2) && p2.grants == map[] && p2.supply == 1;
    SharedForEditing(p2);
    var p3 := Step(p2, ops[2].op, 0);
    var p4 := Step(p3, ops[3].op, 0);
    AttachedAndShared(p4);
    var p5 := Step(p4, ops[4].op, 0);
    assert StripSlashes("/doc") == "doc" by {
      assert "/doc"[1..] == "doc";
    }
    assert ops[1..][1..] == ops[2..] && ops[2..][1..] == ops[3..] && ops[3..][1..] == ops[4..] && ops[4..][1..] == [];
    assert Run(p5, []) == p5 && Run(p4, ops[4..]) == p5 && Run(p3, ops[3..]) == p5 && Run(p2, ops[2..]) == p5 && Run(p1, ops[1..]) == p5;
  }

  lemma SharedForEditing(p: Plane)
    requires AnnHolds(p) && p.grants == map[] && p.supply == 1 && p.warrants.Keys == {0}
    ensures var q := Step(Step(p, RespelledOps()[2].op, 0), RespelledOps()[3].op, 0);
            AnnHolds(q) && q.supply == 3 && q.grants.Keys == {1} && q.grants[1].doc == "doc" && q.warrants.Keys == {0, 2} &&
            q.warrants[2] == Warrant("bob", "bobAgent", Some(1), Some("ann"), ScopesForRole(Editor), [DocResource("doc")], 0, 100, None)
  {
    AnnMayShare(p, "doc", Editor);
    LiveGrantFromIs(p, "doc", "bob", 0, 0);
  }

  lemma AttachedAndShared(p: Plane)
    requires AnnHolds(p) && p.supply == 3 && p.grants.Keys == {1} && p.grants[1].doc == "doc"
    ensures var q := Step(p, RespelledOps()[4].op, 0);
            q.warrants == p.warrants && 3 in q.grants &&
            q.grants[3] == Grant("/doc", "ann", "bob", Viewer, 0, 100, [], None)
  {
    AnnMayShare(p, "/doc", Viewer);
    LiveGrantFromIs(p, "/doc", "bob", 0, 0);
  }

  /**
   * Attenuation: for an allowed share, every scope of the role is held by the
   * granter, at that moment, over everything the minted resource covers.
   */
  lemma ShareWithinHoldings(p: Plane, granter: string, grantee: string, doc: string, role: Role, now: int, scope: Scope, resource: string)
    requires CanShare(p, granter, grantee, doc, role, now) == Allowed
    requires scope in ScopesForRole(role) && Covers(DocResource(doc), resource)
    ensures exists id :: id in p.warrants && p.warrants[id].human == granter && WarrantLive(p.warrants[id], now) &&
                         scope in p.warrants[id].scopes && CoversDoc(p.warrants[id], resource)
  {
    assert scope in HeldScopes(p, granter, doc, now);
    var id :| id in p.warrants && p.warrants[id].human == granter && WarrantLive(p.warrants[id], now) &&
              CoversDoc(p.warrants[id], DocResource(doc)) && scope in p.warrants[id].scopes;
    var k :| 0 <= k < |p.warrants[id].resources| && Covers(p.warrants[id].resources[k], DocResource(doc));
    CoversTransitive(p.warrants[id].resources[k], DocResource(doc), resource);
  }

  // ------------------------------------------------ after the granter's own authority

  lemma {:induction false} LiveWarrantInFinds(p: Plane, ids: seq<nat>, agent: string, now: int)
    ensures match LiveWarrantIn(p, ids, agent, now)
            case Some(id) => id in ids && id in p.warrants && p.warrants[id].agent == agent && WarrantLive(p.warrants[id], now)
            case None => true
    decreases |ids|
  {
    if ids != [] {
      LiveWarrantInFinds(p, ids[1..], agent, now);
    }
  }

  /** What attaching leaves: a live warrant of the Agent with exactly the share's role and document. */
  ghost predicate Holds(p: Plane, warrant: nat, id: nat, agent: string, now: int)
    requires id in p.grants
  {
    warrant in p.warrants &&
    var w := p.warrants[warrant];
    WarrantLive(w, now) && w.agent == agent && w.grant == Some(id) &&
    w.scopes == ScopesForRole(p.grants[id].role) && w.resources == [DocResource(p.grants[id].doc)]
  }

  /**
   * A share outlives what the granter held. After any run, attaching an Agent
   * gives it the share's full authority if and only if the grant itself is live;
   * what the granter still holds does not enter.
   */
  lemma AttachIff(ops: seq<Timed>, id: nat, agent: string, now: int)
    requires ClockMonotone(ops) && (ops != [] ==> ops[|ops| - 1].now <= now)
    ensures var p := Run(NEW_PLANE, ops);
            var (q, warrant) := AttachAgent(p, id, agent, now);
            (warrant.Some? <==> id in p.grants && GrantLive(p.grants[id], now)) &&
            (warrant.Some? ==> id in q.grants && Holds(q, warrant.value, id, agent, now))
  {
    var p := Run(NEW_PLANE, ops);
    var start := if ops == [] then now else ops[0].now;
    RunIsSound(NEW_PLANE, start, ops);
    RunKeepsListed(NEW_PLANE, start, ops);
    if id in p.grants && GrantLive(p.grants[id], now) {
      var g := p.grants[id];
      LiveWarrantInFinds(p, g.warrants, agent, now);
      var existing := LiveWarrantIn(p, g.warrants, agent, now);
      if existing.Some? {
        assert Lists(p, id, existing.value);
        assert Mirrors(p, existing.value);
      }
    }
  }

  /**
   * So an attached Agent is within the granter's holdings of that moment exactly
   * if the granter could share at that role then.
   */
  lemma AttachedWithinIff(ops: seq<Timed>, id: nat, agent: string, now: int)
    requires ClockMonotone(ops) && (ops != [] ==> ops[|ops| - 1].now <= now)
    requires AttachAgent(Run(NEW_PLANE, ops), id, agent, now).1.Some?
    ensures var p := Run(NEW_PLANE, ops);
            var (q, warrant) := AttachAgent(p, id, agent, now);
            id in p.grants && warrant.value in q.warrants &&
            var held := HeldScopes(p, p.grants[id].grantedBy, p.grants[id].doc, now);
            ((forall scope :: scope in q.warrants[warrant.value].scopes ==> scope in held) <==> HoldsAll(held, p.grants[id].role))
  {
    AttachIff(ops, id, agent, now);
  }

  /** Ann shares a file for editing; her own warrant is revoked; then Bob attaches an Agent. */
  function OutlivedOps(): seq<Timed> {
    RespelledOps()[..3] + [Timed(Revoke(0, "ann"), 0), Timed(Attach(1, "bob", "bobAgent"), 0)]
  }

  /** Bob's Agent may edit a file on which Ann, who shared it, holds nothing any more. */
  lemma ShareOutlivesGranter()
    ensures var p := Run(NEW_PLANE, OutlivedOps());
            HeldScopes(p, "ann", "doc", 0) == {} && 1 in p.grants && p.grants[1].grantedBy == "ann" && Holds(p, 2, 1, "bobAgent", 0) &&
            p.grants[1].role == Editor
  {
    var ops := OutlivedOps();
    var p1 := Step(NEW_PLANE, ops[0].op, 0);
    var p2 := Step(p1, ops[1].op, 0);
    assert AnnHolds(p2) && p2.grants == map[] && p2.supply == 1;
    SharedOnly(p2);
    var p3 := Step(p2, ops[2].op, 0);
    var p4 := Step(p3, ops[3].op, 0);
    RevokedThenAttached(p3);
    var p5 := Step(p4, ops[4].op, 0);
    assert ops[1..][1..] == ops[2..] && ops[2..][1..] == ops[3..] && ops[3..][1..] == ops[4..] && ops[4..][1..] == [];
    assert Run(p5, []) == p5 && Run(p4, ops[4..]) == p5 && Run(p3, ops[3..]) == p5 && Run(p2, ops[2..]) == p5 && Run(p1, ops[1..]) == p5;
  }

  lemma SharedOnly(p: Plane)
    requires AnnHolds(p) && p.grants == map[] && p.supply == 1 && p.warrants.Keys == {0}
    ensures var q := Step(p, RespelledOps()[2].op, 0);
            AnnHolds(q) && q.supply == 2 && q.warrants.Keys == {0} &&
            q.grants == map[1 := Grant("doc", "ann", "bob", Editor, 0, 100, [], None)]
  {
    AnnMayShare(p, "doc", Editor);
    LiveGrantFromIs(p, "doc", "bob", 0, 0);
  }

  lemma RevokedThenAttached(p: Plane)
    requires AnnHolds(p) && p.supply == 2 && p.warrants.Keys == {0}
    requires p.grants == map[1 := Grant("doc", "ann", "bob", Editor, 0, 100, [], None)]
    ensures var q := Step(Step(p, Revoke(0, "ann"), 0), Attach(1, "bob", "bobAgent"), 0);
            HeldScopes(q, "ann", "doc", 0) == {} && 1 in q.grants && q.grants[1].grantedBy == "ann" && q.grants[1].role == Editor &&
            Holds(q, 2, 1, "bobAgent", 0)
  {
  }

  function Rank(role: Role): nat {
    match role case Viewer => 0 case Commenter => 1 case Editor => 2
  }

  /** For a known, distinct grantee the share dialog's widest role is exactly what may be shared. */
  lemma CanShareIsUpToMaxRole(p: Plane, granter: string, grantee: string, doc: string, role: Role, now: int)
    requires granter != grantee && grantee in p.humans
    ensures CanShare(p, granter, grantee, doc, role, now) == Allowed <==>
            match MaxShareableRole(p, granter, doc, now)
            case None => false
            case Some(max) => Rank(role) <= Rank(max)
  {
    var held := HeldScopes(p, granter, doc, now);
    assert WorkspaceRead in ScopesForRole(Viewer);
    assert WorkspaceRead in ScopesForRole(Commenter) && CommentWrite in ScopesForRole(Commenter);
    assert CommentWrite in ScopesForRole(Editor) && WorkspaceRead in ScopesForRole(Editor);
    assert HoldsAll(held, Editor) ==> HoldsAll(held, Commenter);
    assert HoldsAll(held, Commenter) ==> HoldsAll(held, Viewer);
  }
}
