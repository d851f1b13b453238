/**
 * The enrollments app's models (registrar/apps/enrollments/models.py): the
 * placeholder access check, the organization group that grants its role's
 * permissions on save, and future group memberships that are turned into
 * real ones once the user exists.  Timestamps are parameters.
 */
module EnrollmentsModels {
  import opened Wrappers
  import opened Guardian
  import opened EnrollmentsPermissions

  /** An access level: its name and its rank. */
  datatype AccessLevel = AccessLevel(name: string, rank: int)

  const AccessAdmin: AccessLevel := AccessLevel("admin", 2)
  const AccessWrite: AccessLevel := AccessLevel("write", 1)
  const AccessRead: AccessLevel := AccessLevel("read", 0)

  /** `Organization.check_access`: levels from write upwards need staff; lower ones always pass. */
  function CheckAccess(isStaff: bool, accessLevel: AccessLevel): (ok: bool)
    ensures accessLevel.rank >= AccessWrite.rank ==> (ok <==> isStaff)
    ensures accessLevel.rank < AccessWrite.rank ==> ok
  {
    if accessLevel.rank >= AccessWrite.rank then isStaff else true
  }

  /** A program of the enrollments app and the organization that manages it. */
  datatype Program = Program(key: string, managingOrganization: int)

  /** `Program.check_access`: delegated to the managing organization. */
  function ProgramCheckAccess(program: Program, isStaff: bool, accessLevel: AccessLevel): (ok: bool)
    ensures ok == CheckAccess(isStaff, accessLevel)
  {
    CheckAccess(isStaff, accessLevel)
  }

  /** Reading is open to everyone; writing and administering only to staff. */
  lemma AccessLevels(isStaff: bool)
    ensures CheckAccess(isStaff, AccessRead)
    ensures CheckAccess(isStaff, AccessWrite) == isStaff
    ensures CheckAccess(isStaff, AccessAdmin) == isStaff
  {
  }

  /** The role `OrgGroup.save` assigns for a role name, if any of the three matches. */
  function RoleForName(role: string): (r: Option<OrganizationRole>)
    ensures r.Some? <==> role in {ReadMetadataRole.name, ReadEnrollmentsRole.name, ReadWriteEnrollmentsRole.name}
    ensures r.Some? ==> r.value.name == role
  {
    if role == ReadMetadataRole.name then Some(ReadMetadataRole)
    else if role == ReadEnrollmentsRole.name then Some(ReadEnrollmentsRole)
    else if role == ReadWriteEnrollmentsRole.name then Some(ReadWriteEnrollmentsRole)
    else None
  }

  /** The grants a save of a group with this role adds. */
  function SaveGrants(role: string, group: int, org: int): set<Grant>
  {
    match RoleForName(role)
    case None => {}
    case Some(r) => GrantsOf(PermSet(r), GroupHolder(group), OnEnrollmentsOrganization(org))
  }

  /**
   * What a save adds: exactly the matching role's permissions, on the
   * group's organization and nowhere else; nothing for an unknown role.
   */
  lemma SaveGrantsScoped(role: string, group: int, org: int)
    ensures RoleForName(role).None? ==> SaveGrants(role, group, org) == {}
    ensures forall g :: g in SaveGrants(role, group, org) ==>
      g.holder == GroupHolder(group) && g.target == OnEnrollmentsOrganization(org) && g.perm in PermSet(RoleForName(role).value)
    ensures RoleForName(role).Some? ==>
      forall p :: p in PermSet(RoleForName(role).value) ==> Grant(GroupHolder(group), p, OnEnrollmentsOrganization(org)) in SaveGrants(role, group, org)
  {
  }

  class OrgGroup {
    const id: int
    var organization: int
    var role: string
    const store: PermissionStore

    constructor (id: int, organization: int, role: string, store: PermissionStore)
      ensures this.id == id && this.organization == organization && this.role == role && this.store == store
    {
      this.id := id;
      this.organization := organization;
      this.role := role;
      this.store := store;
    }

    /** `save`: the permissions of the role named by `role` are granted on the organization. */
    method Save()
      modifies store
      ensures store.grants == old(store.grants) + SaveGrants(role, id, organization)
    {
      if role == ReadMetadataRole.name {
        AssignToGroup(ReadMetadataRole, store, id, organization);
      } else if role == ReadEnrollmentsRole.name {
        AssignToGroup(ReadEnrollmentsRole, store, id, organization);
      } else if role == ReadWriteEnrollmentsRole.name {
        AssignToGroup(ReadWriteEnrollmentsRole, store, id, organization);
      }
    }
  }

  const EmailMismatchPrefix: string := "Emails for future group membership addition do not match: "

  class OrgGroupFutureMembership {
    const email: string
    const orgGroup: int
    var membershipCreatedAt: Option<int>

    constructor (email: string, orgGroup: int)
      ensures this.email == email && this.orgGroup == orgGroup && membershipCreatedAt == None
    {
      this.email := email;
      this.orgGroup := orgGroup;
      membershipCreatedAt := None;
    }

    /**
     * `add_user_to_group`: a mismatched email raises and changes nothing; a
     * membership already created changes nothing; otherwise the user joins
     * the group and the membership is stamped, so a second call is a no-op.
     */
    method AddUserToGroup(user: int, userEmail: string, memberships: GroupMemberships, now: int)
      returns (r: Result<(), string>)
      modifies this, memberships
      ensures r.Err? <==> userEmail != email
      ensures r.Err? ==> r.error == EmailMismatchPrefix + userEmail + " != " + email
      ensures r.Err? || old(membershipCreatedAt).Some? ==>
        membershipCreatedAt == old(membershipCreatedAt) && memberships.pairs == old(memberships.pairs)
      ensures r.Ok? && old(membershipCreatedAt).None? ==>
        membershipCreatedAt == Some(now) && memberships.pairs == old(memberships.pairs) + {(user, orgGroup)}
    {
      if userEmail != email {
        return Err(EmailMismatchPrefix + userEmail + " != " + email);
      }
      if membershipCreatedAt.Some? {
        return Ok(());
      }
      memberships.Add(user, orgGroup);
      membershipCreatedAt := Some(now);
      r := Ok(());
    }
  }
}
