// Who may hold which permission inside one organization: apps/api/src/aegis_api/application/rbac.py,
// api_keys.py and context.py over the roles and memberships of domain/entities/access.py.
module Rbac {
  import opened Prelude

  type Id = nat

  // A role name after trimming, read as a number.
  type Name = nat

  const OWNER: Name := 0

  datatype Permission = ORG_DELETE | ROLE_WRITE | USER_INVITE | USER_REMOVE | SETTINGS_WRITE | OTHER(code: nat)

  datatype Role = Role(name: Name, permissions: set<Permission>, system: bool)

  datatype Status = ACTIVE | INVITED | SUSPENDED

  datatype Membership = Membership(user: Id, roles: set<Id>, status: Status)

  datatype Organization = Organization(
    roles: map<Id, Role>, members: map<Id, Membership>, keys: map<Id, set<Permission>>)

  // Who makes a request: a member, or an API key.
  datatype Actor = Member(id: Id) | Key(id: Id)

  // An actor resolved at some point: what it may use, and its user if it is one.
  datatype Principal = Principal(permissions: set<Permission>, user: Option<Id>)

  datatype Outcome = Done | Denied | Escalation(missing: set<Permission>) | NotFound | Conflict | Invalid

  function Union(roles: map<Id, Role>, ids: set<Id>): set<Permission> {
    set id, p | id in ids && id in roles && p in roles[id].permissions :: p
  }

  // What a membership's roles amount to, whatever its status.
  function Granted(org: Organization, member: Id): set<Permission> {
    if member in org.members then Union(org.roles, org.members[member].roles) else {}
  }

  // What a request by this actor may use.
  function Permissions(org: Organization, actor: Actor): set<Permission> {
    match actor
    case Member(id) => if id in org.members && org.members[id].status == ACTIVE then Granted(org, id) else {}
    case Key(id) => if id in org.keys then org.keys[id] else {}
  }

  function Resolve(org: Organization, actor: Actor): Principal {
    Principal(Permissions(org, actor),
              if actor.Member? && actor.id in org.members then Some(org.members[actor.id].user) else None)
  }

  predicate OwnerRole(org: Organization, role: Id) {
    role in org.roles && org.roles[role].system && org.roles[role].name == OWNER
  }

  predicate IsOwner(org: Organization, member: Id) {
    member in org.members && exists role :: role in org.members[member].roles && OwnerRole(org, role)
  }

  // count_owners: members of any status.
  function Owners(org: Organization): set<Id> {
    set member | member in org.members && IsOwner(org, member)
  }

  function ActiveOwners(org: Organization): set<Id> {
    set member | member in Owners(org) && org.members[member].status == ACTIVE
  }

  datatype Action =
    | CreateRole(id: Id, name: Name, permissions: set<Permission>)
    | UpdateRole(id: Id, newName: Option<Name>, newPermissions: Option<set<Permission>>)
    | DeleteRole(id: Id)
    | AssignRoles(id: Id, roles: seq<Id>)
    | Invite(id: Id, user: Id, roles: seq<Id>)
    | RemoveMember(id: Id)
    | CreateKey(id: Id, permissions: set<Permission>)
    | RevokeKey(id: Id)
    | SetStatus(id: Id, status: Status)          // an invitation is accepted, a member is suspended

  predicate NameTaken(org: Organization, name: Name) {
    exists r :: r in org.roles && org.roles[r].name == name
  }

  predicate InUse(org: Organization, role: Id) {
    exists m :: m in org.members && role in org.members[m].roles
  }

  function Chosen(roles: seq<Id>): set<Id> {
    set r | r in roles
  }

  // _resolve_roles: the roles asked for, all of which the actor could grant.
  function Resolved(org: Organization, p: Principal, roles: seq<Id>): Outcome {
    if roles == [] then Invalid
    else if !(Chosen(roles) <= org.roles.Keys) then NotFound
    else if !(Union(org.roles, Chosen(roles)) <= p.permissions) then
      Escalation(Union(org.roles, Chosen(roles)) - p.permissions)
    else Done
  }

  function Creation(org: Organization, p: Principal, name: Name, permissions: set<Permission>): Outcome {
    if ROLE_WRITE !in p.permissions then Denied
    else if !(permissions <= p.permissions) then Escalation(permissions - p.permissions)
    else if NameTaken(org, name) then Conflict
    else if ORG_DELETE in permissions then Invalid
    else Done
  }

  function Editing(org: Organization, p: Principal, id: Id, name: Option<Name>, permissions: Option<set<Permission>>)
    : Outcome
  {
    if ROLE_WRITE !in p.permissions then Denied
    else if permissions.Some? && !(permissions.value <= p.permissions) then
      Escalation(permissions.value - p.permissions)
    else if id !in org.roles then NotFound
    else if name.Some? && name.value != org.roles[id].name && NameTaken(org, name.value) then Conflict
    else if org.roles[id].system then Invalid
    else if permissions.Some? && ORG_DELETE in permissions.value then Invalid
    else Done
  }

  function Edited(r: Role, name: Option<Name>, permissions: Option<set<Permission>>): Role {
    Role(if name.Some? then name.value else r.name,
         if permissions.Some? then permissions.value else r.permissions, r.system)
  }

  function Deleting(org: Organization, p: Principal, id: Id): Outcome {
    if ROLE_WRITE !in p.permissions then Denied
    else if id !in org.roles then NotFound
    else if org.roles[id].system then Invalid
    else if InUse(org, id) then Conflict
    else Done
  }

  // The organization with this member's roles replaced.
  function WithRoles(org: Organization, id: Id, roles: set<Id>): Organization
    requires id in org.members
  {
    org.(members := org.members[id := org.members[id].(roles := roles)])
  }

  function Assigning(org: Organization, p: Principal, id: Id, roles: seq<Id>): Outcome {
    if ROLE_WRITE !in p.permissions then Denied
    else if id !in org.members then NotFound
    else if Resolved(org, p, roles) != Done then Resolved(org, p, roles)
    else if IsOwner(org, id) && !IsOwner(WithRoles(org, id, Chosen(roles)), id) && |Owners(org)| <= 1 then Invalid
    else Done
  }

  function Inviting(org: Organization, p: Principal, user: Id, roles: seq<Id>): Outcome {
    if USER_INVITE !in p.permissions then Denied
    else if Resolved(org, p, roles) != Done then Resolved(org, p, roles)
    else if exists m :: m in org.members && org.members[m].user == user then Conflict
    else Done
  }

  predicate Self(org: Organization, p: Principal, id: Id) {
    id in org.members && p.user == Some(org.members[id].user)
  }

  function Removing(org: Organization, p: Principal, id: Id): Outcome {
    if USER_REMOVE !in p.permissions then Denied
    else if id !in org.members then NotFound
    else if Self(org, p, id) then Invalid
    else if IsOwner(org, id) && |Owners(org)| <= 1 then Invalid
    else Done
  }

  function Minting(org: Organization, p: Principal, permissions: set<Permission>): Outcome {
    if SETTINGS_WRITE !in p.permissions then Denied
    else if permissions == {} then Invalid
    else if !(permissions <= p.permissions) then Escalation(permissions - p.permissions)
    else Done
  }

  function Judge(org: Organization, p: Principal, a: Action): Outcome {
    match a
    case CreateRole(id, name, permissions) =>
      if id in org.roles then Conflict else Creation(org, p, name, permissions)
    case UpdateRole(id, name, permissions) => Editing(org, p, id, name, permissions)
    case DeleteRole(id) => Deleting(org, p, id)
    case AssignRoles(id, roles) => Assigning(org, p, id, roles)
    case Invite(id, user, roles) =>
      if id in org.members then Conflict else Inviting(org, p, user, roles)
    case RemoveMember(id) => Removing(org, p, id)
    case CreateKey(id, permissions) => if id in org.keys then Conflict else Minting(org, p, permissions)
    case RevokeKey(id) =>
      if SETTINGS_WRITE !in p.permissions then Denied else if id !in org.keys then NotFound else Done
    case SetStatus(id, status) => if id in org.members then Done else NotFound
  }

  // A refused action changes nothing.
  function Next(org: Organization, p: Principal, a: Action): Organization {
    if Judge(org, p, a) != Done then org
    else
      match a
      case CreateRole(id, name, permissions) => org.(roles := org.roles[id := Role(name, permissions, false)])
      case UpdateRole(id, name, permissions) =>
        org.(roles := org.roles[id := Edited(org.roles[id], name, permissions)])
      case DeleteRole(id) => org.(roles := org.roles - {id})
      case AssignRoles(id, roles) => WithRoles(org, id, Chosen(roles))
      case Invite(id, user, roles) =>
        org.(members := org.members[id := Membership(user, Chosen(roles), INVITED)])
      case RemoveMember(id) => org.(members := org.members - {id})
      case CreateKey(id, permissions) => org.(keys := org.keys[id := permissions])
      case RevokeKey(id) => org.(keys := org.keys - {id})
      case SetStatus(id, status) => org.(members := org.members[id := org.members[id].(status := status)])
  }

  // A request: its principal was resolved in an earlier transaction, after so many requests of the run.
  datatype Request = Request(actor: Actor, resolvedAt: nat, action: Action)

  function Asker(org: Organization, earlier: seq<Request>, r: Request): Principal
    decreases |earlier|, 1
  {
    Resolve(Run(org, earlier[..Min(r.resolvedAt, |earlier|)]), r.actor)
  }

  function Run(org: Organization, requests: seq<Request>): Organization
    decreases |requests|, 0
  {
    if |requests| == 0 then org
    else
      var n := |requests| - 1;
      Next(Run(org, requests[..n]), Asker(org, requests[..n], requests[n]), requests[n].action)
  }

  // ---- No permission amplification ----

  // Members and keys acting together.
  datatype Group = Group(members: set<Id>, keys: set<Id>) {
    predicate Has(actor: Actor) {
      match actor case Member(id) => id in members case Key(id) => id in keys
    }
  }

  // A group takes in whom it invites and the keys it mints.
  function Joined(g: Group, org: Organization, p: Principal, a: Action): Group {
    if Judge(org, p, a) != Done then g
    else if a.Invite? then g.(members := g.members + {a.id})
    else if a.CreateKey? then g.(keys := g.keys + {a.id})
    else g
  }

  function Grown(g: Group, org: Organization, requests: seq<Request>): Group
    decreases |requests|
  {
    if |requests| == 0 then g
    else
      var n := |requests| - 1;
      Joined(Grown(g, org, requests[..n]), Run(org, requests[..n]), Asker(org, requests[..n], requests[n]),
             requests[n].action)
  }

  // Every request comes from someone who was in the group when its principal was resolved.
  predicate OnlyActors(g: Group, org: Organization, requests: seq<Request>)
    decreases |requests|
  {
    |requests| > 0 ==>
      var n := |requests| - 1;
      var r := requests[n];
      && OnlyActors(g, org, requests[..n])
      && (r.action.SetStatus? || Grown(g, org, requests[..Min(r.resolvedAt, n)]).Has(r.actor))
  }

  lemma {:induction false} OnlyActorsBefore(g: Group, org: Organization, requests: seq<Request>, k: nat)
    requires OnlyActors(g, org, requests) && k <= |requests|
    ensures OnlyActors(g, org, requests[..k])
    decreases |requests|
  {
    if k < |requests| {
      OnlyActorsBefore(g, org, requests[..|requests| - 1], k);
      assert requests[..|requests| - 1][..k] == requests[..k];
    } else {
      assert requests[..k] == requests;
    }
  }

  // Everything the group's members could ever use and its keys carry.
  function Holdings(org: Organization, g: Group): set<Permission> {
    (set m, p | m in g.members && m in org.members && p in Granted(org, m) :: p)
    + (set k, p | k in g.keys && k in org.keys && p in org.keys[k] :: p)
  }

  predicate Within(org: Organization, g: Group, bound: set<Permission>) {
    && (forall m :: m in g.members ==> Granted(org, m) <= bound)
    && (forall k :: k in g.keys && k in org.keys ==> org.keys[k] <= bound)
  }

  lemma HoldingsBound(org: Organization, g: Group)
    ensures Within(org, g, Holdings(org, g))
  {
    forall m | m in g.members ensures Granted(org, m) <= Holdings(org, g) {
      if m !in org.members {
        assert Granted(org, m) == {};
      }
    }
  }

  lemma ActorWithin(org: Organization, g: Group, bound: set<Permission>, actor: Actor)
    requires Within(org, g, bound) && g.Has(actor)
    ensures Permissions(org, actor) <= bound
  {
  }

  lemma StepStaysWithin(org: Organization, g: Group, bound: set<Permission>, p: Principal, a: Action)
    requires Within(org, g, bound) && (a.SetStatus? || p.permissions <= bound)
    ensures Within(Next(org, p, a), Joined(g, org, p, a), bound)
  {
    if Judge(org, p, a) == Done {
      var org', g' := Next(org, p, a), Joined(g, org, p, a);
      forall m | m in g'.members ensures Granted(org', m) <= bound {
        GrantedStaysWithin(org, g, bound, p, a, m);
      }
    }
  }

  lemma GrantedStaysWithin(org: Organization, g: Group, bound: set<Permission>, p: Principal, a: Action, m: Id)
    requires Within(org, g, bound) && Judge(org, p, a) == Done
    requires a.SetStatus? || p.permissions <= bound
    requires m in Joined(g, org, p, a).members
    ensures Granted(Next(org, p, a), m) <= bound
  {
  }

  // Whatever a group does alone, through roles, assignments, invitations and keys, and however stale the
  // principals it acts with, no one of it, no one it invites and no key it mints ever holds a permission
  // the group did not start with.
  lemma {:induction false} NoAmplification(org: Organization, g: Group, requests: seq<Request>)
    requires OnlyActors(g, org, requests)
    ensures Within(Run(org, requests), Grown(g, org, requests), Holdings(org, g))
    decreases |requests|
  {
    if |requests| == 0 {
      HoldingsBound(org, g);
    } else {
      var n, bound := |requests| - 1, Holdings(org, g);
      var before, r := requests[..n], requests[n];
      NoAmplification(org, g, before);
      if !r.action.SetStatus? {
        var resolving := before[..Min(r.resolvedAt, n)];
        assert resolving == requests[..Min(r.resolvedAt, n)];
        OnlyActorsBefore(g, org, before, Min(r.resolvedAt, n));
        NoAmplification(org, g, resolving);
        ActorWithin(Run(org, resolving), Grown(g, org, resolving), bound, r.actor);
      }
      StepStaysWithin(Run(org, before), Grown(g, org, before), bound, Asker(org, before, r), r.action);
    }
  }

  // ---- There is always an owner ----

  // A system role is never edited or deleted.
  lemma SystemRoleStays(org: Organization, p: Principal, a: Action, r: Id)
    requires r in org.roles && org.roles[r].system
    ensures r in Next(org, p, a).roles && Next(org, p, a).roles[r] == org.roles[r]
  {
  }

  lemma CustomRoleStaysCustom(org: Organization, p: Principal, a: Action, r: Id)
    requires r in Next(org, p, a).roles && Next(org, p, a).roles[r].system
    ensures r in org.roles && org.roles[r] == Next(org, p, a).roles[r]
  {
  }

  lemma OwnerByRoles(org: Organization, org': Organization, m: Id)
    requires m in org.members && m in org'.members && org.members[m].roles <= org'.members[m].roles && IsOwner(org, m)
    requires forall r :: OwnerRole(org, r) ==> OwnerRole(org', r)
    ensures IsOwner(org', m)
  {
  }

  lemma OwnerRolesStay(org: Organization, p: Principal, a: Action)
    ensures forall r :: OwnerRole(org, r) <==> OwnerRole(Next(org, p, a), r)
  {
    forall r ensures OwnerRole(org, r) <==> OwnerRole(Next(org, p, a), r) {
      if OwnerRole(org, r) {
        SystemRoleStays(org, p, a, r);
      }
      if OwnerRole(Next(org, p, a), r) {
        CustomRoleStaysCustom(org, p, a, r);
      }
    }
  }

  // Only the member an action is about can stop being an owner.
  lemma OthersStayOwners(org: Organization, p: Principal, a: Action, m: Id)
    requires IsOwner(org, m) && !((a.AssignRoles? || a.RemoveMember?) && a.id == m)
    ensures IsOwner(Next(org, p, a), m)
  {
    OwnerRolesStay(org, p, a);
    OwnerByRoles(org, Next(org, p, a), m);
  }

  lemma AnotherOne(s: set<Id>, x: Id)
    requires x in s && |s| >= 2
    ensures exists y :: y in s && y != x
  {
    assert |s - {x}| == |s| - 1;
    var y :| y in s - {x};
    assert y in s && y != x;
  }

  lemma StepKeepsAnOwner(org: Organization, p: Principal, a: Action)
    requires Owners(org) != {}
    ensures Owners(Next(org, p, a)) != {}
  {
    var m :| m in Owners(org);
    if (a.AssignRoles? || a.RemoveMember?) && a.id == m && Judge(org, p, a) == Done {
      if |Owners(org)| >= 2 {
        AnotherOne(Owners(org), m);
        var other :| other in Owners(org) && other != m;
        OthersStayOwners(org, p, a, other);
        assert other in Owners(Next(org, p, a));
      } else {
        LoneOwnerStays(org, p, a, m);
        assert m in Owners(Next(org, p, a));
      }
    } else if Judge(org, p, a) == Done {
      OthersStayOwners(org, p, a, m);
      assert m in Owners(Next(org, p, a));
    }
  }

  lemma LoneOwnerStays(org: Organization, p: Principal, a: Action, m: Id)
    requires m in Owners(org) && |Owners(org)| <= 1 && Judge(org, p, a) == Done
    requires (a.AssignRoles? || a.RemoveMember?) && a.id == m
    ensures IsOwner(Next(org, p, a), m)
  {
    assert a.AssignRoles? && IsOwner(WithRoles(org, m, Chosen(a.roles)), m);
  }

  lemma StepKeepsOwnersIfAny(org: Organization, p: Principal, a: Action)
    ensures Owners(org) != {} ==> Owners(Next(org, p, a)) != {}
  {
    if Owners(org) != {} {
      StepKeepsAnOwner(org, p, a);
    }
  }

  // In every run an organization that had an owner has one.
  lemma {:induction false} AlwaysAnOwner(org: Organization, requests: seq<Request>)
    requires Owners(org) != {}
    ensures Owners(Run(org, requests)) != {}
    decreases |requests|
  {
    if |requests| > 0 {
      AlwaysAnOwner(org, requests[..|requests| - 1]);
      StepKeepsAnOwner(Run(org, requests[..|requests| - 1]),
                       Asker(org, requests[..|requests| - 1], requests[|requests| - 1]), requests[|requests| - 1].action);
    }
  }

  // count_owners counts invited and suspended members too, so what is kept is an owner, not one who can
  // sign in. Removing a member leaves no active owner exactly when that member was the only one.
  lemma RemovalLosesActiveOwnersExactlyWhen(org: Organization, p: Principal, a: Action)
    requires a.RemoveMember? && Judge(org, p, a) == Done && ActiveOwners(org) != {}
    ensures ActiveOwners(Next(org, p, a)) == {} <==> ActiveOwners(org) == {a.id}
  {
    forall m ensures IsOwner(Next(org, p, a), m) <==> IsOwner(org, m) && m != a.id {
      assert m != a.id && m in org.members ==> Next(org, p, a).members[m] == org.members[m];
    }
    assert ActiveOwners(Next(org, p, a)) == ActiveOwners(org) - {a.id};
  }

  lemma DemotionLosesActiveOwnersExactlyWhen(org: Organization, p: Principal, a: Action)
    requires a.AssignRoles? && Judge(org, p, a) == Done && ActiveOwners(org) != {}
    ensures ActiveOwners(Next(org, p, a)) == {}
            <==> ActiveOwners(org) == {a.id} && forall r :: r in a.roles ==> !OwnerRole(org, r)
  {
    var org' := Next(org, p, a);
    forall m | m != a.id ensures IsOwner(org', m) <==> IsOwner(org, m) {
      assert m in org.members ==> org'.members[m] == org.members[m];
    }
    assert org'.members[a.id].roles == Chosen(a.roles);
    if r :| r in a.roles && OwnerRole(org, r) {
      assert r in Chosen(a.roles) && OwnerRole(org', r);
    }
    assert forall r :: r in Chosen(a.roles) ==> r in a.roles;
    assert ActiveOwners(org') - {a.id} == ActiveOwners(org) - {a.id};
    assert a.id in ActiveOwners(org') <==> IsOwner(org', a.id) && org.members[a.id].status == ACTIVE;
    if ActiveOwners(org) == {a.id} {
      assert a.id in ActiveOwners(org);
      assert ActiveOwners(org') <= {a.id};
    } else {
      assert !(ActiveOwners(org) <= {a.id});
      var m :| m in ActiveOwners(org) && m != a.id;
      assert m in ActiveOwners(org');
    }
  }

  // An owner invites an owner and steps down before the invitation is accepted.
  const TWO_ROLES := Organization(
    map[1 := Role(OWNER, {ORG_DELETE, ROLE_WRITE, USER_INVITE}, true), 2 := Role(5, {}, true)],
    map[10 := Membership(100, {1}, ACTIVE)], map[])

  const INVITED_OWNER := TWO_ROLES.(
    members := map[10 := Membership(100, {1}, ACTIVE), 11 := Membership(101, {1}, INVITED)])

  const STEP_ONE := Request(Member(10), 0, Invite(11, 101, [1]))

  const STEP_TWO := Request(Member(10), 1, AssignRoles(10, [2]))

  lemma InvitationIsAccepted()
    ensures Next(TWO_ROLES, Resolve(TWO_ROLES, Member(10)), STEP_ONE.action) == INVITED_OWNER
  {
    assert Chosen([1]) == {1};
    assert ROLE_WRITE in TWO_ROLES.roles[1].permissions;
    assert USER_INVITE in Granted(TWO_ROLES, 10);
    assert Union(TWO_ROLES.roles, {1}) <= Permissions(TWO_ROLES, Member(10));
  }

  lemma SteppingDown()
    ensures Judge(INVITED_OWNER, Resolve(INVITED_OWNER, Member(10)), STEP_TWO.action) == Done
    ensures ActiveOwners(INVITED_OWNER) == {10}
  {
    assert Chosen([2]) == {2};
    assert ROLE_WRITE in INVITED_OWNER.roles[1].permissions;
    assert ROLE_WRITE in Granted(INVITED_OWNER, 10);
    assert Union(INVITED_OWNER.roles, {2}) == {};
    assert OwnerRole(INVITED_OWNER, 1);
    assert Owners(INVITED_OWNER) == {10, 11};
  }

  // A request whose principal is resolved at once.
  lemma RunFresh(org: Organization, earlier: seq<Request>, r: Request)
    requires r.resolvedAt == |earlier|
    ensures Run(org, earlier + [r]) == Next(Run(org, earlier), Resolve(Run(org, earlier), r.actor), r.action)
  {
    assert (earlier + [r])[..|earlier|] == earlier && earlier[..|earlier|] == earlier;
  }

  lemma LastActiveOwnerCanLeave()
    ensures ActiveOwners(TWO_ROLES) == {10} && ActiveOwners(Run(TWO_ROLES, [STEP_ONE] + [STEP_TWO])) == {}
  {
    InvitationIsAccepted();
    SteppingDown();
    RunFresh(TWO_ROLES, [], STEP_ONE);
    assert [] + [STEP_ONE] == [STEP_ONE];
    RunFresh(TWO_ROLES, [STEP_ONE], STEP_TWO);
    DemotionLosesActiveOwnersExactlyWhen(INVITED_OWNER, Resolve(INVITED_OWNER, Member(10)), STEP_TWO.action);
    assert OwnerRole(TWO_ROLES, 1);
    assert ActiveOwners(TWO_ROLES) == {10};
  }

  // ---- Owner-only permissions ----

  // Only the system Owner role deletes an organization.
  predicate OwnerOnly(org: Organization) {
    forall r :: r in org.roles && ORG_DELETE in org.roles[r].permissions ==> OwnerRole(org, r)
  }

  lemma StepKeepsOwnerOnly(org: Organization, p: Principal, a: Action)
    requires OwnerOnly(org)
    ensures OwnerOnly(Next(org, p, a))
  {
  }

  // In every run no custom role, however created or edited, carries an owner-only permission, so a
  // member that holds one is an owner.
  lemma {:induction false} OnlyOwnersDelete(org: Organization, requests: seq<Request>, m: Id)
    requires OwnerOnly(org)
    ensures OwnerOnly(Run(org, requests))
    ensures ORG_DELETE in Granted(Run(org, requests), m) ==> IsOwner(Run(org, requests), m)
    decreases |requests|
  {
    if |requests| > 0 {
      OnlyOwnersDelete(org, requests[..|requests| - 1], m);
      StepKeepsOwnerOnly(Run(org, requests[..|requests| - 1]),
                         Asker(org, requests[..|requests| - 1], requests[|requests| - 1]), requests[|requests| - 1].action);
    }
  }

  // Owners are appointed only by actors that hold everything the Owner role carries.
  lemma OwnersAppointOwners(org: Organization, p: Principal, a: Action, m: Id, r: Id)
    requires !IsOwner(org, m) && m in Next(org, p, a).members
    requires r in Next(org, p, a).members[m].roles && OwnerRole(Next(org, p, a), r)
    ensures (a.AssignRoles? || a.Invite?) && org.roles[r].permissions <= p.permissions
  {
    OwnerRolesStay(org, p, a);
    assert OwnerRole(org, r);
    if a.AssignRoles? || a.Invite? {
      assert r in Chosen(a.roles);
      assert org.roles[r].permissions <= Union(org.roles, Chosen(a.roles));
    }
  }

  // ---- The use cases ----

  // parse_permissions: every submitted value must be known; the unknown ones are reported together.
  method ParsePermissions(parse: string -> Option<Permission>, raw: seq<string>)
    returns (result: Result<set<Permission>, seq<string>>)
    ensures result.Ok? <==> forall i :: 0 <= i < |raw| ==> parse(raw[i]).Some?
    ensures result.Ok? ==> result.value == set i | 0 <= i < |raw| && parse(raw[i]).Some? :: parse(raw[i]).value
    ensures result.Err? ==> forall x :: x in result.error <==> x in raw && parse(x).None?
  {
    var unknown: seq<string>, parsed: set<Permission> := [], {};
    for i := 0 to |raw|
      invariant parsed == set j | 0 <= j < i && parse(raw[j]).Some? :: parse(raw[j]).value
      invariant forall x :: x in unknown <==> x in raw[..i] && parse(x).None?
    {
      assert raw[..i + 1] == raw[..i] + [raw[i]];
      if parse(raw[i]).Some? {
        parsed := parsed + {parse(raw[i]).value};
      } else {
        unknown := unknown + [raw[i]];
      }
    }
    assert raw[..|raw|] == raw;
    if unknown != [] {
      assert unknown[0] in raw;
      return Err(unknown);
    }
    forall i | 0 <= i < |raw| ensures parse(raw[i]).Some? {
      assert raw[i] in raw;
    }
    result := Ok(parsed);
  }

  class AccessControl {
    var roles: map<Id, Role>
    var members: map<Id, Membership>
    var keys: map<Id, set<Permission>>

    function Now(): Organization
      reads this
    {
      Organization(roles, members, keys)
    }

    constructor (org: Organization)
      ensures Now() == org
    {
      roles, members, keys := org.roles, org.members, org.keys;
    }

    // _resolve_roles: get_many, then the union of what the roles would grant.
    method ResolveRoles(principal: Principal, ids: seq<Id>) returns (outcome: Outcome)
      ensures outcome == Resolved(Now(), principal, ids)
    {
      if ids == [] {
        return Invalid;
      }
      var granted: set<Permission>, missing := {}, false;
      for i := 0 to |ids|
        invariant missing == !(Chosen(ids[..i]) <= roles.Keys)
        invariant granted == Union(roles, Chosen(ids[..i]))
      {
        assert Chosen(ids[..i + 1]) == Chosen(ids[..i]) + {ids[i]};
        if ids[i] in roles {
          granted := granted + roles[ids[i]].permissions;
        } else {
          missing := true;
        }
      }
      assert ids[..|ids|] == ids;
      if missing {
        return NotFound;
      }
      if !(granted <= principal.permissions) {
        return Escalation(granted - principal.permissions);
      }
      outcome := Done;
    }

    method CreateRole(principal: Principal, id: Id, name: Name, permissions: set<Permission>) returns (outcome: Outcome)
      requires id !in roles
      modifies this`roles
      ensures outcome == Judge(old(Now()), principal, Action.CreateRole(id, name, permissions))
      ensures Now() == Next(old(Now()), principal, Action.CreateRole(id, name, permissions))
      ensures outcome == Done ==> permissions <= principal.permissions && ORG_DELETE !in permissions
      ensures roles == if outcome == Done then old(roles)[id := Role(name, permissions, false)] else old(roles)
    {
      var held := principal.permissions;
      if ROLE_WRITE !in held {
        return Denied;
      }
      if !(permissions <= held) {
        return Escalation(permissions - held);
      }
      if NameTaken(Now(), name) {
        return Conflict;
      }
      if ORG_DELETE in permissions {
        return Invalid;
      }
      roles := roles[id := Role(name, permissions, false)];
      outcome := Done;
    }

    method UpdateRole(principal: Principal, id: Id, name: Option<Name>, permissions: Option<set<Permission>>)
      returns (outcome: Outcome)
      modifies this`roles
      ensures outcome == Judge(old(Now()), principal, Action.UpdateRole(id, name, permissions))
      ensures Now() == Next(old(Now()), principal, Action.UpdateRole(id, name, permissions))
      ensures outcome == Done ==> id in old(roles) && !old(roles)[id].system
      ensures outcome == Done && permissions.Some? ==> permissions.value <= principal.permissions
      ensures outcome == Done ==>
                roles == old(roles)[id := Role(if name.Some? then name.value else old(roles)[id].name,
                                               if permissions.Some? then permissions.value else old(roles)[id].permissions,
                                               false)]
      ensures outcome != Done ==> roles == old(roles)
    {
      var held := principal.permissions;
      if ROLE_WRITE !in held {
        return Denied;
      }
      if permissions.Some? && !(permissions.value <= held) {
        return Escalation(permissions.value - held);
      }
      if id !in roles {
        return NotFound;
      }
      var role := roles[id];
      if name.Some? && name.value != role.name {
        if NameTaken(Now(), name.value) {
          return Conflict;
        }
      }
      if role.system {
        return Invalid;
      }
      if name.Some? {
        role := role.(name := name.value);
      }
      if permissions.Some? {
        if ORG_DELETE in permissions.value {
          return Invalid;
        }
        role := role.(permissions := permissions.value);
      }
      roles := roles[id := role];
      outcome := Done;
    }

    method DeleteRole(principal: Principal, id: Id) returns (outcome: Outcome)
      modifies this`roles
      ensures outcome == Judge(old(Now()), principal, Action.DeleteRole(id))
      ensures Now() == Next(old(Now()), principal, Action.DeleteRole(id))
      ensures id in old(roles) && id !in roles <==> outcome == Done
      ensures roles == if outcome == Done then old(roles) - {id} else old(roles)
      ensures outcome == Done ==> !old(roles)[id].system && forall m :: m in members ==> id !in members[m].roles
    {
      if ROLE_WRITE !in principal.permissions {
        return Denied;
      }
      if id !in roles {
        return NotFound;
      }
      if roles[id].system {
        return Invalid;
      }
      if InUse(Now(), id) {
        return Conflict;
      }
      roles := roles - {id};
      outcome := Done;
    }

    // UpdateMemberRoles: the owner count is still the one before the change.
    method AssignRoles(principal: Principal, id: Id, ids: seq<Id>) returns (outcome: Outcome)
      modifies this`members
      ensures outcome == Judge(old(Now()), principal, Action.AssignRoles(id, ids))
      ensures Now() == Next(old(Now()), principal, Action.AssignRoles(id, ids))
      ensures outcome == Done ==> ids != [] && id in old(members)
      ensures outcome == Done ==> members == old(members)[id := old(members)[id].(roles := set r | r in ids)]
      ensures outcome == Done ==> Granted(Now(), id) <= principal.permissions
      ensures outcome != Done ==> members == old(members)
      ensures Owners(old(Now())) != {} ==> Owners(Now()) != {}
    {
      if ROLE_WRITE !in principal.permissions {
        return Denied;
      }
      if id !in members {
        return NotFound;
      }
      outcome := ResolveRoles(principal, ids);
      if outcome != Done {
        return;
      }
      var wasOwner := IsOwner(Now(), id);
      var membership := members[id].(roles := Chosen(ids));
      if wasOwner && !IsOwner(Now().(members := members[id := membership]), id) {
        var owners := Owners(Now());
        if |owners| <= 1 {
          return Invalid;
        }
      }
      StepKeepsOwnersIfAny(old(Now()), principal, Action.AssignRoles(id, ids));
      members := members[id := membership];
    }

    method Invite(principal: Principal, id: Id, user: Id, ids: seq<Id>) returns (outcome: Outcome)
      requires id !in members
      modifies this`members
      ensures outcome == Judge(old(Now()), principal, Action.Invite(id, user, ids))
      ensures Now() == Next(old(Now()), principal, Action.Invite(id, user, ids))
      ensures members == if outcome == Done then old(members)[id := Membership(user, (set r | r in ids), INVITED)]
                         else old(members)
      ensures outcome == Done ==> Granted(Now(), id) <= principal.permissions
      ensures outcome == Done ==> forall m :: m in old(members) ==> old(members)[m].user != user
    {
      if USER_INVITE !in principal.permissions {
        return Denied;
      }
      outcome := ResolveRoles(principal, ids);
      if outcome != Done {
        return;
      }
      if exists m :: m in members && members[m].user == user {
        return Conflict;
      }
      members := members[id := Membership(user, Chosen(ids), INVITED)];
    }

    method RemoveMember(principal: Principal, id: Id) returns (outcome: Outcome)
      modifies this`members
      ensures outcome == Judge(old(Now()), principal, Action.RemoveMember(id))
      ensures Now() == Next(old(Now()), principal, Action.RemoveMember(id))
      ensures id in old(members) && id !in members <==> outcome == Done
      ensures members == if outcome == Done then old(members) - {id} else old(members)
      ensures outcome == Done ==> principal.user != Some(old(members)[id].user)
      ensures Owners(old(Now())) != {} ==> Owners(Now()) != {}
    {
      if USER_REMOVE !in principal.permissions {
        return Denied;
      }
      if id !in members {
        return NotFound;
      }
      if Self(Now(), principal, id) {
        return Invalid;
      }
      if IsOwner(Now(), id) {
        var owners := Owners(Now());
        if |owners| <= 1 {
          return Invalid;
        }
      }
      StepKeepsOwnersIfAny(old(Now()), principal, Action.RemoveMember(id));
      members := members - {id};
      outcome := Done;
    }

    method CreateKey(principal: Principal, id: Id, permissions: set<Permission>) returns (outcome: Outcome)
      requires id !in keys
      modifies this`keys
      ensures outcome == Judge(old(Now()), principal, Action.CreateKey(id, permissions))
      ensures Now() == Next(old(Now()), principal, Action.CreateKey(id, permissions))
      ensures outcome == Done ==> {} != permissions <= principal.permissions
      ensures outcome == Done ==> keys == old(keys)[id := permissions]
      ensures outcome != Done ==> keys == old(keys)
    {
      var held := principal.permissions;
      if SETTINGS_WRITE !in held {
        return Denied;
      }
      if permissions == {} {
        return Invalid;
      }
      if !(permissions <= held) {
        return Escalation(permissions - held);
      }
      keys := keys[id := permissions];
      outcome := Done;
    }
  }
}
