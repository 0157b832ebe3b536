/**
 * Organization membership: concurrent requests that lock the organization row, read, decide and
 * write in separate statements.
 */
module Organizations {
  import opened Wrappers

  datatype Role = Viewer | Member | Admin | Owner

  datatype Kind = Personal | Team

  type User = int
  type OrganizationId = int
  type RequestId = int
  type Members = map<User, Role>

  datatype Organization = Organization(slug: string, kind: Kind, deleted: bool, members: Members)

  type Directory = map<OrganizationId, Organization>

  /** A parsed request: `role` is None if the name is unknown, `user` if no active user has the email. */
  datatype Request =
    | AddMember(org: OrganizationId, actor: User, role: Option<Role>, user: Option<User>)
    | RemoveMember(org: OrganizationId, actor: User, target: User)

  datatype Error = NotFound | BadRequest | Forbidden | Conflict | Internal

  function Level(r: Role): nat {
    match r
    case Viewer => 0
    case Member => 1
    case Admin => 2
    case Owner => 3
  }

  function Lookup(members: Members, u: User): Option<Role> {
    if u in members then Some(members[u]) else None
  }

  function Target(r: Request): Option<User> {
    match r
    case AddMember(_, _, _, user) => user
    case RemoveMember(_, _, target) => Some(target)
  }

  function Owners(members: Members): set<User> {
    set u | u in members && members[u] == Owner
  }

  // ---- The checks, in the order the handlers make them ----

  /** `lock_team_organization`. */
  function CheckOrganization(orgs: Directory, org: OrganizationId): Option<Error> {
    if org !in orgs || orgs[org].deleted then Some(NotFound)
    else if orgs[org].kind != Team then Some(BadRequest)
    else None
  }

  /** `require_transaction_role` with a minimum of admin. */
  function CheckActor(actor: Option<Role>): Option<Error> {
    if actor.None? || Level(actor.value) < Level(Admin) then Some(Forbidden) else None
  }

  /** The checks between the actor's role and the owner count, given the target's current role. */
  function CheckTarget(r: Request, actor: Role, previous: Option<Role>): Option<Error> {
    match r
    case AddMember(_, _, role, user) =>
      if role.None? then Some(BadRequest)
      else if Level(role.value) >= Level(Admin) && actor != Owner then Some(Forbidden)
      else if user.None? then Some(BadRequest)
      else None
    case RemoveMember(_, _, _) =>
      if previous.None? then Some(NotFound)
      else if Level(previous.value) >= Level(Admin) && actor != Owner then Some(Forbidden)
      else None
  }

  predicate LosesOwner(r: Request, previous: Option<Role>) {
    previous == Some(Owner) && (r.AddMember? ==> r.role != Some(Owner))
  }

  /** `ensure_another_owner`, called only if an owner is about to go. */
  function CheckOwners(r: Request, previous: Option<Role>, owners: nat): Option<Error> {
    if LosesOwner(r, previous) && owners <= 1 then Some(Conflict) else None
  }

  function Write(r: Request, members: Members): Members {
    match r
    case AddMember(_, _, role, user) => if role.Some? && user.Some? then members[user.value := role.value] else members
    case RemoveMember(_, _, target) => members - {target}
  }

  function PreviousRole(r: Request, members: Members): Option<Role> {
    if Target(r).Some? then Lookup(members, Target(r).value) else None
  }

  /** What a request does to the members, decided and written at one instant. */
  function Change(r: Request, members: Members): Result<Members, Error> {
    var actor := Lookup(members, r.actor);
    if CheckActor(actor).Some? then Err(CheckActor(actor).value)
    else
      var previous := PreviousRole(r, members);
      var refused := CheckTarget(r, actor.value, previous);
      if refused.Some? then Err(refused.value)
      else
        var last := CheckOwners(r, previous, |Owners(members)|);
        if last.Some? then Err(last.value) else Ok(Write(r, members))
  }

  /** The whole request at one instant. */
  function Serve(r: Request, orgs: Directory): Result<Directory, Error> {
    var refused := CheckOrganization(orgs, r.org);
    if refused.Some? then Err(refused.value)
    else
      var changed := Change(r, orgs[r.org].members);
      if changed.Err? then Err(changed.error)
      else Ok(orgs[r.org := orgs[r.org].(members := changed.value)])
  }

  // ---- What the decision guarantees ----

  lemma {:induction false} SetOfTwo<T>(s: set<T>, x: T, y: T)
    requires x in s && y in s && x != y
    ensures |s| >= 2
  {
    assert |s - {x}| == |s| - 1 && y in s - {x};
  }

  lemma OnlyOne<T>(s: set<T>, x: T)
    requires x in s && |s| <= 1
    ensures s == {x}
  {
    forall y | y in s ensures y == x {
      if y != x { SetOfTwo(s, x, y); }
    }
  }

  lemma NotOnlyOne<T>(s: set<T>, x: T)
    requires |s| > 1
    ensures s - {x} != {}
  {
    assert s <= (s - {x}) + {x};
    assert |s - {x}| >= |s| - 1;
  }

  lemma WriteOwners(r: Request, members: Members)
    requires Target(r).Some? && (r.AddMember? ==> r.role.Some?)
    ensures Owners(Write(r, members)) ==
            if r.AddMember? && r.role == Some(Owner) then Owners(members) + {Target(r).value}
            else Owners(members) - {Target(r).value}
  {}

  /** An accepted change never takes the last owner away. */
  lemma ChangeKeepsAnOwner(r: Request, members: Members)
    requires Owners(members) != {} && Change(r, members).Ok?
    ensures Owners(Change(r, members).value) != {}
  {
    WriteOwners(r, members);
    var u := Target(r).value;
    if |Owners(members)| > 1 {
      NotOnlyOne(Owners(members), u);
    } else if !(r.AddMember? && r.role == Some(Owner)) {
      assert u !in Owners(members);
      assert Owners(members) - {u} == Owners(members);
    }
  }

  /** The owner check refuses nothing it need not refuse: the write would have left no owner. */
  lemma ConflictIsNecessary(r: Request, members: Members)
    requires Change(r, members) == Err(Conflict)
    ensures Owners(members) != {} && Owners(Write(r, members)) == {}
  {
    WriteOwners(r, members);
    OnlyOne(Owners(members), Target(r).value);
  }

  // ---- Who may do what ----

  predicate IsActiveTeam(orgs: Directory, org: OrganizationId) {
    org in orgs && !orgs[org].deleted && orgs[org].kind == Team
  }

  predicate Administers(members: Members, u: User) {
    u in members && (members[u] == Admin || members[u] == Owner)
  }

  /** An owner may give or take away any role; an admin only those of viewers and members. */
  predicate MayHandle(actor: Role, role: Role) {
    actor == Owner || (actor == Admin && (role == Viewer || role == Member))
  }

  /** The role a request gives, or takes away. */
  function RoleAtStake(r: Request, members: Members): Option<Role> {
    match r
    case AddMember(_, _, role, _) => role
    case RemoveMember(_, _, target) => Lookup(members, target)
  }

  predicate IsSoleOwner(members: Members, u: User) {
    u in members && members[u] == Owner && forall v :: v in members && members[v] == Owner ==> v == u
  }

  /** The request would leave the team without an owner. */
  predicate TakesLastOwner(r: Request, members: Members) {
    match r
    case AddMember(_, _, role, user) => user.Some? && IsSoleOwner(members, user.value) && role != Some(Owner)
    case RemoveMember(_, _, target) => IsSoleOwner(members, target)
  }

  lemma SoleOwnerMeans(members: Members, u: User)
    requires u in members && members[u] == Owner
    ensures |Owners(members)| <= 1 <==> IsSoleOwner(members, u)
  {
    assert u in Owners(members);
    if |Owners(members)| <= 1 {
      OnlyOne(Owners(members), u);
      forall v | v in members && members[v] == Owner ensures v == u { assert v in Owners(members); }
    }
    if IsSoleOwner(members, u) {
      forall v | v in Owners(members) ensures v == u { assert v in members && members[v] == Owner; }
      assert Owners(members) == {u};
    }
  }

  /** Each refusal in terms of roles, and what an accepted request changes. */
  lemma DecisionsMean(r: Request, members: Members)
    ensures var decided := Change(r, members);
            var at := RoleAtStake(r, members);
            var complete := at.Some? && Target(r).Some?;
            var admin := Administers(members, r.actor);
            && (decided == Err(Forbidden) <==> !admin || (at.Some? && !MayHandle(members[r.actor], at.value)))
            && (decided == Err(NotFound) <==> admin && r.RemoveMember? && r.target !in members)
            && (decided == Err(BadRequest) <==>
                admin && r.AddMember? && !complete && (at.Some? ==> MayHandle(members[r.actor], at.value)))
            && (decided == Err(Conflict) <==>
                admin && complete && MayHandle(members[r.actor], at.value) && TakesLastOwner(r, members))
            && (decided.Ok? <==>
                admin && complete && MayHandle(members[r.actor], at.value) && !TakesLastOwner(r, members))
  {
    if Target(r).Some? && Target(r).value in members && members[Target(r).value] == Owner {
      SoleOwnerMeans(members, Target(r).value);
    }
  }

  /** An accepted request gives its user the role, or takes its target out, and touches no other membership. */
  lemma AcceptedMeans(r: Request, members: Members, u: User)
    requires Change(r, members).Ok?
    ensures var after := Change(r, members).value;
            && (r.AddMember? && r.user == Some(u) ==> u in after && Some(after[u]) == r.role)
            && (r.RemoveMember? && r.target == u ==> u !in after)
            && (Target(r) != Some(u) ==> Lookup(after, u) == Lookup(members, u))
  {}

  /** Only active teams are changed: a missing or deleted one is not found, a personal one a bad request. */
  lemma OnlyActiveTeamsChange(r: Request, orgs: Directory)
    ensures Serve(r, orgs).Ok? <==> IsActiveTeam(orgs, r.org) && Change(r, orgs[r.org].members).Ok?
    ensures Serve(r, orgs).Ok? ==>
              Serve(r, orgs).value
              == orgs[r.org := Organization(orgs[r.org].slug, Team, false, Change(r, orgs[r.org].members).value)]
    ensures r.org !in orgs || orgs[r.org].deleted ==> Serve(r, orgs) == Err(NotFound)
    ensures r.org in orgs && !orgs[r.org].deleted && orgs[r.org].kind == Personal ==> Serve(r, orgs) == Err(BadRequest)
    ensures IsActiveTeam(orgs, r.org) && Change(r, orgs[r.org].members).Err? ==>
              Serve(r, orgs) == Err(Change(r, orgs[r.org].members).error)
  {}

  // ---- Interleaved requests ----

  /** Where a request stands, with what it has read. */
  datatype Phase =
    | Waiting(request: Request)
    | Locked(request: Request)
    | Authorized(request: Request, actor: Role)
    | Examined(request: Request, actor: Role, previous: Option<Role>)
    | Cleared(request: Request)
    | Answered(request: Request, refusal: Option<Error>)

  datatype State = State(orgs: Directory, requests: map<RequestId, Phase>, locks: map<OrganizationId, RequestId>)

  datatype Step =
    | Create(org: OrganizationId, slug: string, kind: Kind, creator: User)
    | Begin(id: RequestId, request: Request)
    | Lock(id: RequestId)
    | ReadActor(id: RequestId)
    | ReadTarget(id: RequestId)
    | CountOwners(id: RequestId)
    | Commit(id: RequestId)
    | Abort(id: RequestId)

  predicate Holding(p: Phase) {
    p.Locked? || p.Authorized? || p.Examined? || p.Cleared?
  }

  predicate SlugTaken(orgs: Directory, slug: string) {
    exists o :: o in orgs && orgs[o].slug == slug
  }

  function NewOrganization(slug: string, kind: Kind, creator: User): Organization {
    Organization(slug, kind, false, map[creator := Owner])
  }

  function MembersAt(s: State, org: OrganizationId): Members {
    if org in s.orgs then s.orgs[org].members else map[]
  }

  predicate Enabled(s: State, step: Step) {
    match step
    case Create(org, slug, _, _) => org !in s.orgs && !SlugTaken(s.orgs, slug)
    case Begin(id, _) => id !in s.requests
    case Lock(id) => id in s.requests && s.requests[id].Waiting? && s.requests[id].request.org !in s.locks
    case ReadActor(id) => id in s.requests && s.requests[id].Locked?
    case ReadTarget(id) => id in s.requests && s.requests[id].Authorized?
    case CountOwners(id) => id in s.requests && s.requests[id].Examined?
    case Commit(id) => id in s.requests && s.requests[id].Cleared?
    case Abort(id) => id in s.requests && (s.requests[id].Waiting? || Holding(s.requests[id]))
  }

  function Move(s: State, id: RequestId, p: Phase): State {
    s.(requests := s.requests[id := p])
  }

  /** The transaction ends: its answer stands and the row lock goes if it held it. */
  function End(s: State, id: RequestId, refusal: Option<Error>): State
    requires id in s.requests
  {
    var p := s.requests[id];
    Move(s, id, Answered(p.request, refusal))
      .(locks := if Holding(p) then s.locks - {p.request.org} else s.locks)
  }

  function Advance(s: State, id: RequestId, refusal: Option<Error>, p: Phase): State
    requires id in s.requests
  {
    if refusal.Some? then End(s, id, refusal) else Move(s, id, p)
  }

  function Apply(s: State, step: Step): State
    requires Enabled(s, step)
  {
    if step.Create? then s.(orgs := s.orgs[step.org := NewOrganization(step.slug, step.kind, step.creator)])
    else if step.Begin? then Move(s, step.id, Waiting(step.request))
    else
      var p := s.requests[step.id];
      var r := p.request;
      var members := MembersAt(s, r.org);
      match step
      case Lock(id) =>
        var refusal := CheckOrganization(s.orgs, r.org);
        if refusal.Some? then End(s, id, refusal) else Move(s, id, Locked(r)).(locks := s.locks[r.org := id])
      case ReadActor(id) =>
        var actor := Lookup(members, r.actor);
        Advance(s, id, CheckActor(actor), Authorized(r, if actor.Some? then actor.value else Viewer))
      case ReadTarget(id) =>
        var previous := PreviousRole(r, members);
        Advance(s, id, CheckTarget(r, p.actor, previous), Examined(r, p.actor, previous))
      case CountOwners(id) =>
        Advance(s, id, CheckOwners(r, p.previous, |Owners(members)|), Cleared(r))
      case Commit(id) =>
        var written :=
          if r.org in s.orgs then s.orgs[r.org := s.orgs[r.org].(members := Write(r, members))] else s.orgs;
        End(s, id, None).(orgs := written)
      case Abort(id) => End(s, id, Some(Internal))
  }

  // ---- Invariant: under the lock, everything read is still true ----

  predicate PhaseOk(s: State, id: RequestId, p: Phase) {
    var r := p.request;
    var members := MembersAt(s, r.org);
    && (Holding(p) ==> r.org in s.locks && s.locks[r.org] == id && CheckOrganization(s.orgs, r.org).None?)
    && (p.Authorized? || p.Examined? ==> Lookup(members, r.actor) == Some(p.actor) && CheckActor(Some(p.actor)).None?)
    && (p.Examined? ==> p.previous == PreviousRole(r, members) && CheckTarget(r, p.actor, p.previous).None?)
    && (p.Cleared? ==> Change(r, members) == Ok(Write(r, members)))
  }

  ghost predicate Inv(s: State) {
    forall id :: id in s.requests ==> PhaseOk(s, id, s.requests[id])
  }

  lemma EndKeepsInv(s: State, id: RequestId, refusal: Option<Error>)
    requires Inv(s) && id in s.requests
    ensures Inv(End(s, id, refusal))
  {}

  lemma MoveKeepsInv(s: State, id: RequestId, p: Phase)
    requires Inv(s) && PhaseOk(s, id, p)
    ensures Inv(Move(s, id, p))
  {}

  lemma LockKeepsInv(s: State, step: Step)
    requires Inv(s) && Enabled(s, step) && step.Lock?
    ensures Inv(Apply(s, step))
  {}

  /** Writing and creating: only the committing request had read anything of the organization. */
  lemma WriteKeepsInv(s: State, step: Step)
    requires Inv(s) && Enabled(s, step) && (step.Commit? || step.Create?)
    ensures Inv(Apply(s, step))
  {}

  lemma ReadKeepsInv(s: State, step: Step)
    requires Inv(s) && Enabled(s, step) && (step.ReadActor? || step.ReadTarget? || step.CountOwners?)
    ensures Inv(Apply(s, step))
  {
    var id := step.id;
    var p' := Apply(s, step).requests[id];
    assert PhaseOk(s, id, s.requests[id]);
    if p'.Answered? {
      EndKeepsInv(s, id, p'.refusal);
    } else {
      MoveKeepsInv(s, id, p');
    }
  }

  lemma StepKeepsInv(s: State, step: Step)
    requires Inv(s) && Enabled(s, step)
    ensures Inv(Apply(s, step))
  {
    match step
    case Create(_, _, _, _) => WriteKeepsInv(s, step);
    case Begin(id, r) => MoveKeepsInv(s, id, Waiting(r));
    case Lock(_) => LockKeepsInv(s, step);
    case Commit(_) => WriteKeepsInv(s, step);
    case Abort(id) => EndKeepsInv(s, id, Some(Internal));
    case _ => ReadKeepsInv(s, step);
  }

  // ---- Every answer is the one a serial execution gives ----

  /** A commit has exactly the effect of serving the whole request at that instant. */
  lemma CommitIsAtomic(s: State, step: Step)
    requires Inv(s) && Enabled(s, step) && step.Commit?
    ensures Serve(s.requests[step.id].request, s.orgs) == Ok(Apply(s, step).orgs)
  {}

  /** A refusal is the one the whole request would meet at that instant, and it changes nothing. */
  lemma RefusalIsAtomic(s: State, step: Step)
    requires Inv(s) && Enabled(s, step)
    requires step.Lock? || step.ReadActor? || step.ReadTarget? || step.CountOwners?
    requires Apply(s, step).requests[step.id].Answered?
    ensures Apply(s, step).orgs == s.orgs
    ensures var refusal := Apply(s, step).requests[step.id].refusal;
            refusal.Some? && Serve(s.requests[step.id].request, s.orgs) == Err(refusal.value)
  {}

  // ---- Whole runs ----

  predicate Next(s: State, step: Step, s': State) {
    Enabled(s, step) && s' == Apply(s, step)
  }

  ghost predicate Run(states: seq<State>, steps: seq<Step>) {
    && |states| == |steps| + 1
    && states[0].requests == map[] && states[0].locks == map[]
    && forall i :: 0 <= i < |steps| ==> Next(states[i], steps[i], states[i + 1])
  }

  lemma {:induction false} RunKeepsInv(states: seq<State>, steps: seq<Step>, n: nat)
    requires Run(states, steps) && n < |states|
    ensures Inv(states[n])
  {
    if n > 0 {
      var k := n - 1;
      RunKeepsInv(states, steps, k);
      assert Next(states[k], steps[k], states[k + 1]);
      StepKeepsInv(states[k], steps[k]);
    }
  }

  /** The directory after the first n steps if only creations and commits were served, whole and one at a time. */
  ghost function Serial(states: seq<State>, steps: seq<Step>, n: nat): Directory
    requires Run(states, steps) && n < |states|
  {
    if n == 0 then states[0].orgs
    else
      var orgs := Serial(states, steps, n - 1);
      assert Next(states[n - 1], steps[n - 1], states[n - 1 + 1]);
      match steps[n - 1]
      case Create(org, slug, kind, creator) => orgs[org := NewOrganization(slug, kind, creator)]
      case Commit(id) =>
        var served := Serve(states[n - 1].requests[id].request, orgs);
        if served.Ok? then served.value else orgs
      case _ => orgs
  }

  /** Every interleaving is serializable in commit order. */
  lemma {:induction false} RunIsSerial(states: seq<State>, steps: seq<Step>, n: nat)
    requires Run(states, steps) && n < |states|
    ensures states[n].orgs == Serial(states, steps, n)
  {
    if n > 0 {
      var k := n - 1;
      RunIsSerial(states, steps, k);
      RunKeepsInv(states, steps, k);
      assert Next(states[k], steps[k], states[k + 1]);
      if steps[k].Commit? { CommitIsAtomic(states[k], steps[k]); }
    }
  }

  predicate HasOwner(orgs: Directory, org: OrganizationId) {
    org in orgs && Owners(orgs[org].members) != {}
  }

  lemma StepKeepsOwner(s: State, step: Step, org: OrganizationId)
    requires Inv(s) && Enabled(s, step) && HasOwner(s.orgs, org)
    ensures HasOwner(Apply(s, step).orgs, org)
  {
    if step.Commit? {
      CommitIsAtomic(s, step);
      var r := s.requests[step.id].request;
      if r.org == org { ChangeKeepsAnOwner(r, s.orgs[org].members); }
    }
  }

  lemma NewOrganizationIsOwned(s: State, step: Step, org: OrganizationId)
    requires Inv(s) && Enabled(s, step) && org !in s.orgs && org in Apply(s, step).orgs
    ensures HasOwner(Apply(s, step).orgs, org)
  {
    if step.Commit? { CommitIsAtomic(s, step); }
    assert step.Create? ==> step.creator in Owners(Apply(s, step).orgs[step.org].members);
  }

  /** Once an organization has an owner, it has one in every later state of every interleaving. */
  lemma {:induction false} OwnersRemain(states: seq<State>, steps: seq<Step>, i: nat, j: nat, org: OrganizationId)
    requires Run(states, steps) && i <= j < |states| && HasOwner(states[i].orgs, org)
    ensures HasOwner(states[j].orgs, org)
    decreases j
  {
    if i < j {
      var k := j - 1;
      OwnersRemain(states, steps, i, k, org);
      RunKeepsInv(states, steps, k);
      assert Next(states[k], steps[k], states[k + 1]);
      StepKeepsOwner(states[k], steps[k], org);
    }
  }

  /** Every organization created during a run has an owner from then on. */
  lemma {:induction false} CreatedOrganizationsAreOwned(
    states: seq<State>, steps: seq<Step>, n: nat, org: OrganizationId)
    requires Run(states, steps) && n < |states| && org !in states[0].orgs && org in states[n].orgs
    ensures HasOwner(states[n].orgs, org)
  {
    if n > 0 {
      var k := n - 1;
      RunKeepsInv(states, steps, k);
      assert Next(states[k], steps[k], states[k + 1]);
      if org in states[k].orgs {
        CreatedOrganizationsAreOwned(states, steps, k, org);
        StepKeepsOwner(states[k], steps[k], org);
      } else {
        NewOrganizationIsOwned(states[k], steps[k], org);
      }
    }
  }

  /** No request ever changes a personal organization. */
  lemma {:induction false} PersonalOrganizationsAreFixed(
    states: seq<State>, steps: seq<Step>, i: nat, j: nat, org: OrganizationId)
    requires Run(states, steps) && i <= j < |states| && org in states[i].orgs && states[i].orgs[org].kind == Personal
    ensures org in states[j].orgs && states[j].orgs[org] == states[i].orgs[org]
    decreases j
  {
    if i < j {
      var k := j - 1;
      PersonalOrganizationsAreFixed(states, steps, i, k, org);
      RunKeepsInv(states, steps, k);
      assert Next(states[k], steps[k], states[k + 1]);
    }
  }

  // ---- The handlers, one at a time ----

  class OrganizationStore {
    var orgs: Directory

    constructor ()
      ensures orgs == map[]
    {
      orgs := map[];
    }

    /** `create` for an id nobody uses: refused exactly if the slug is taken. */
    method CreateTeam(id: OrganizationId, slug: string, creator: User) returns (error: Option<Error>)
      requires id !in orgs
      modifies this
      ensures error == if SlugTaken(old(orgs), slug) then Some(Conflict) else None
      ensures error.Some? ==> orgs == old(orgs)
      ensures error.None? ==> orgs == old(orgs)[id := NewOrganization(slug, Team, creator)] && HasOwner(orgs, id)
    {
      if exists o :: o in orgs && orgs[o].slug == slug {
        return Some(Conflict);
      }
      var members: Members := map[];
      members := members[creator := Owner];
      orgs := orgs[id := Organization(slug, Team, false, members)];
      assert creator in Owners(orgs[id].members);
      error := None;
    }

    /** `add_member`, statement by statement. */
    method AddMember(
      org: OrganizationId, actor: User, role: Option<Role>, user: Option<User>) returns (error: Option<Error>)
      modifies this
      ensures Served(Request.AddMember(org, actor, role, user), old(orgs), orgs, error)
    {
      if org !in orgs || orgs[org].deleted { return Some(NotFound); }
      if orgs[org].kind != Team { return Some(BadRequest); }
      var members := orgs[org].members;
      if actor !in members || Level(members[actor]) < Level(Admin) { return Some(Forbidden); }
      if role.None? { return Some(BadRequest); }
      if Level(role.value) >= Level(Admin) && members[actor] != Owner { return Some(Forbidden); }
      if user.None? { return Some(BadRequest); }
      if user.value in members && members[user.value] == Owner && role.value != Owner {
        if |set u | u in members && members[u] == Owner| <= 1 { return Some(Conflict); }
      }
      orgs := orgs[org := orgs[org].(members := members[user.value := role.value])];
      error := None;
    }

    /** `remove_member`, statement by statement. */
    method RemoveMember(org: OrganizationId, actor: User, target: User) returns (error: Option<Error>)
      modifies this
      ensures Served(Request.RemoveMember(org, actor, target), old(orgs), orgs, error)
    {
      if org !in orgs || orgs[org].deleted { return Some(NotFound); }
      if orgs[org].kind != Team { return Some(BadRequest); }
      var members := orgs[org].members;
      if actor !in members || Level(members[actor]) < Level(Admin) { return Some(Forbidden); }
      if target !in members { return Some(NotFound); }
      if Level(members[target]) >= Level(Admin) && members[actor] != Owner { return Some(Forbidden); }
      if members[target] == Owner {
        if |set u | u in members && members[u] == Owner| <= 1 { return Some(Conflict); }
      }
      orgs := orgs[org := orgs[org].(members := members - {target})];
      error := None;
    }
  }

  /** The reply and the new directory are those of serving the request at one instant. */
  predicate Served(r: Request, before: Directory, after: Directory, error: Option<Error>) {
    match Serve(r, before)
    case Ok(orgs) => error.None? && after == orgs
    case Err(e) => error == Some(e) && after == before
  }
}
