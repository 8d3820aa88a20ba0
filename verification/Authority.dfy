// What each administrative action asks of whoever requests it, condition by condition.
module Authority {
  import opened Prelude
  import opened Rbac

  // ---- What an actor may use ----

  // An active member may use what one of its roles grants, and a member of another status nothing; a key
  // may use what it carries.
  lemma MayUseExactlyWhen(org: Organization, actor: Actor, permission: Permission)
    ensures permission in Resolve(org, actor).permissions
       <==> if actor.Key? then actor.id in org.keys && permission in org.keys[actor.id]
            else
              && actor.id in org.members && org.members[actor.id].status == ACTIVE
              && exists r :: r in org.members[actor.id].roles && r in org.roles && permission in org.roles[r].permissions
  {
  }

  // The permission the guard of each action asks for.
  lemma DeniedExactlyWhen(org: Organization, p: Principal, a: Action)
    requires a.CreateRole? ==> a.id !in org.roles
    requires a.Invite? ==> a.id !in org.members
    requires a.CreateKey? ==> a.id !in org.keys
    ensures Judge(org, p, a) == Denied
       <==> || ((a.CreateRole? || a.UpdateRole? || a.DeleteRole? || a.AssignRoles?) && ROLE_WRITE !in p.permissions)
            || (a.Invite? && USER_INVITE !in p.permissions)
            || (a.RemoveMember? && USER_REMOVE !in p.permissions)
            || ((a.CreateKey? || a.RevokeKey?) && SETTINGS_WRITE !in p.permissions)
  {
  }

  // ---- Roles ----

  // Every role asked for exists and grants nothing the principal lacks.
  predicate Grantable(org: Organization, p: Principal, roles: seq<Id>) {
    && roles != []
    && forall i :: 0 <= i < |roles| ==> roles[i] in org.roles && org.roles[roles[i]].permissions <= p.permissions
  }

  lemma ResolvedExactlyWhen(org: Organization, p: Principal, roles: seq<Id>)
    ensures Resolved(org, p, roles) == Done <==> Grantable(org, p, roles)
  {
    if Grantable(org, p, roles) {
      assert forall r :: r in Chosen(roles) ==> r in roles;
    } else if roles != [] && Chosen(roles) <= org.roles.Keys {
      var i :| 0 <= i < |roles| && (roles[i] in org.roles ==> !(org.roles[roles[i]].permissions <= p.permissions));
      assert roles[i] in Chosen(roles);
      var x :| x in org.roles[roles[i]].permissions && x !in p.permissions;
      assert x in Union(org.roles, Chosen(roles));
    }
  }

  lemma RoleActionsDoneExactlyWhen(org: Organization, p: Principal, a: Action)
    requires a.CreateRole? ==> a.id !in org.roles
    ensures a.CreateRole? ==>
      (Judge(org, p, a) == Done <==>
         && ROLE_WRITE in p.permissions && a.permissions <= p.permissions && ORG_DELETE !in a.permissions
         && forall r :: r in org.roles ==> org.roles[r].name != a.name)
    ensures a.UpdateRole? ==>
      (Judge(org, p, a) == Done <==>
         && ROLE_WRITE in p.permissions && a.id in org.roles && !org.roles[a.id].system
         && (a.newPermissions.Some? ==> a.newPermissions.value <= p.permissions && ORG_DELETE !in a.newPermissions.value)
         && (a.newName.Some? && a.newName.value != org.roles[a.id].name ==>
               forall r :: r in org.roles ==> org.roles[r].name != a.newName.value))
    ensures a.DeleteRole? ==>
      (Judge(org, p, a) == Done <==>
         && ROLE_WRITE in p.permissions && a.id in org.roles && !org.roles[a.id].system
         && forall m :: m in org.members ==> a.id !in org.members[m].roles)
  {
  }

  lemma KeyActionsDoneExactlyWhen(org: Organization, p: Principal, a: Action)
    requires a.CreateKey? ==> a.id !in org.keys
    ensures a.CreateKey? ==>
      (Judge(org, p, a) == Done <==> SETTINGS_WRITE in p.permissions && {} != a.permissions <= p.permissions)
    ensures a.RevokeKey? ==> (Judge(org, p, a) == Done <==> SETTINGS_WRITE in p.permissions && a.id in org.keys)
  {
  }

  // ---- Members ----

  // Holds the built-in role named Owner, the name read as zero.
  predicate HoldsOwner(org: Organization, roles: set<Id>) {
    exists r :: r in roles && r in org.roles && org.roles[r].system && org.roles[r].name == 0
  }

  // Some other member, of any status, holds it.
  predicate AnotherOwner(org: Organization, id: Id) {
    exists m :: m in org.members && m != id && HoldsOwner(org, org.members[m].roles)
  }

  lemma OwnerIsHolder(org: Organization, m: Id)
    ensures IsOwner(org, m) <==> m in org.members && HoldsOwner(org, org.members[m].roles)
  {
    if IsOwner(org, m) {
      var r :| r in org.members[m].roles && OwnerRole(org, r);
      assert org.roles[r].name == 0;
    }
  }

  lemma AloneExactlyWhen(org: Organization, id: Id)
    requires IsOwner(org, id)
    ensures |Owners(org)| <= 1 <==> !AnotherOwner(org, id)
  {
    assert id in Owners(org);
    if |Owners(org)| > 1 {
      AnotherOne(Owners(org), id);
      var y :| y in Owners(org) && y != id;
      OwnerIsHolder(org, y);
    } else {
      assert Owners(org) == {id} by {
        if y :| y in Owners(org) && y != id {
          TwoAreTwo(Owners(org), id, y);
          assert false;
        }
      }
      forall m | m in org.members && m != id ensures !HoldsOwner(org, org.members[m].roles) {
        OwnerIsHolder(org, m);
        assert m !in Owners(org);
      }
    }
  }

  lemma TwoAreTwo(s: set<Id>, x: Id, y: Id)
    requires x in s && y in s && x != y
    ensures |s| >= 2
  {
    assert s == s - {x, y} + {x, y};
  }

  // An invitation goes out exactly when its roles could be granted and the user is not yet a member; a
  // member is removed or reassigned exactly when, besides, an owner is left.
  lemma MemberActionsDoneExactlyWhen(org: Organization, p: Principal, a: Action)
    requires a.Invite? ==> a.id !in org.members
    ensures a.Invite? ==>
      (Judge(org, p, a) == Done <==>
         && USER_INVITE in p.permissions && Grantable(org, p, a.roles)
         && forall m :: m in org.members ==> org.members[m].user != a.user)
    ensures a.RemoveMember? ==>
      (Judge(org, p, a) == Done <==>
         && USER_REMOVE in p.permissions && a.id in org.members && p.user != Some(org.members[a.id].user)
         && (HoldsOwner(org, org.members[a.id].roles) ==> AnotherOwner(org, a.id)))
    ensures a.AssignRoles? ==>
      (Judge(org, p, a) == Done <==>
         && ROLE_WRITE in p.permissions && a.id in org.members && Grantable(org, p, a.roles)
         && (HoldsOwner(org, org.members[a.id].roles) && !HoldsOwner(org, Chosen(a.roles)) ==> AnotherOwner(org, a.id)))
  {
    match a
    case Invite(_, _, roles) => ResolvedExactlyWhen(org, p, roles);
    case RemoveMember(id) =>
      OwnerIsHolder(org, id);
      if IsOwner(org, id) {
        AloneExactlyWhen(org, id);
      }
    case AssignRoles(id, roles) =>
      ResolvedExactlyWhen(org, p, roles);
      OwnerIsHolder(org, id);
      if IsOwner(org, id) {
        AloneExactlyWhen(org, id);
        OwnerIsHolder(WithRoles(org, id, Chosen(roles)), id);
        SameHolders(org, id, roles);
      }
    case _ =>
  }

  lemma SameHolders(org: Organization, id: Id, roles: seq<Id>)
    requires id in org.members
    ensures var org' := WithRoles(org, id, Chosen(roles));
            HoldsOwner(org', org'.members[id].roles) <==> HoldsOwner(org, Chosen(roles))
  {
  }
}
