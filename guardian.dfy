/**
 * The permission facts that Django's auth backend and django-guardian keep:
 * a grant gives a permission codename to a user or a group, either globally
 * or on one organization or program.  The store is the set of grants.
 */
module Guardian {

  datatype Holder = GroupHolder(group: int) | UserHolder(user: int)

  /**
   * What a grant is on.  Guardian keys an object grant by the object's model
   * and primary key, so an organization of the core app and one of the
   * enrollments app are different targets even when their ids agree.
   */
  datatype Target = Global | OnOrganization(org: int) | OnProgram(program: int) | OnEnrollmentsOrganization(org: int)

  datatype Grant = Grant(holder: Holder, perm: string, target: Target)

  /** The permissions listed in a tuple, as a set. */
  function SetOf(perms: seq<string>): set<string>
  {
    set p | p in perms
  }

  /** The grants that giving each of `perms` to `holder` on `target` creates. */
  function GrantsOf(perms: set<string>, holder: Holder, target: Target): (g: set<Grant>)
    ensures forall x :: x in g <==> x.holder == holder && x.target == target && x.perm in perms
  {
    set p | p in perms :: Grant(holder, p, target)
  }

  /**
   * `user.has_perm(perm)` (target Global) or `user.has_perm(perm, obj)`: the
   * user holds the permission on the target directly or through one of
   * `groups`, the groups the user belongs to.
   */
  predicate UserHasPerm(grants: set<Grant>, user: int, groups: set<int>, perm: string, target: Target)
  {
    Grant(UserHolder(user), perm, target) in grants
    || exists g :: g in groups && Grant(GroupHolder(g), perm, target) in grants
  }

  class PermissionStore {
    var grants: set<Grant>

    constructor ()
      ensures grants == {}
    {
      grants := {};
    }

    /** `assign_perm(perm, holder, obj)`; granting twice is the same as once. */
    method AssignPerm(perm: string, holder: Holder, target: Target)
      modifies this
      ensures grants == old(grants) + {Grant(holder, perm, target)}
    {
      grants := grants + {Grant(holder, perm, target)};
    }

    /** `remove_perm(perm, holder, obj)`; removing a grant that is absent changes nothing. */
    method RemovePerm(perm: string, holder: Holder, target: Target)
      modifies this
      ensures grants == old(grants) - {Grant(holder, perm, target)}
    {
      grants := grants - {Grant(holder, perm, target)};
    }
  }

  /** Django's user–group relation, as (user, group) pairs. */
  class GroupMemberships {
    var pairs: set<(int, int)>

    constructor ()
      ensures pairs == {}
    {
      pairs := {};
    }

    /** `user.groups.add(group)`; adding twice is the same as once. */
    method Add(user: int, group: int)
      modifies this
      ensures pairs == old(pairs) + {(user, group)}
    {
      pairs := pairs + {(user, group)};
    }

    /** The groups `user` belongs to. */
    function GroupsOf(user: int): set<int>
      reads this
    {
      set p | p in pairs && p.0 == user :: p.1
    }
  }
}
