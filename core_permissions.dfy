/**
 * Permission codenames of the core app and the organization roles built
 * from them (registrar/apps/core/permissions.py).
 */
module CorePermissions {
  import opened Guardian

  const AppPrefix: string := "core."

  const OrganizationReadMetadata: string := AppPrefix + "organization_read_metadata"
  const OrganizationReadEnrollments: string := AppPrefix + "organization_read_enrollments"
  const OrganizationWriteEnrollments: string := AppPrefix + "organization_write_enrollments"

  const OrganizationPermissions: set<string> :=
    {OrganizationReadMetadata, OrganizationReadEnrollments, OrganizationWriteEnrollments}

  /** A role: its name, its description and the permission tuple it grants. */
  datatype OrganizationRole = OrganizationRole(name: string, description: string, permissions: seq<string>)

  const ReadMetadataRole: OrganizationRole :=
    OrganizationRole("organization_read_metadata", "Read Metadata Only",
                     [OrganizationReadMetadata])

  const ReadEnrollmentsRole: OrganizationRole :=
    OrganizationRole("organization_read_enrollments", "Read Enrollments Data",
                     [OrganizationReadMetadata, OrganizationReadEnrollments])

  const ReadWriteEnrollmentsRole: OrganizationRole :=
    OrganizationRole("organization_read_write_enrollments", "Read and Write Enrollments Data",
                     [OrganizationReadMetadata, OrganizationReadEnrollments, OrganizationWriteEnrollments])

  const OrganizationRoles: seq<OrganizationRole> := [ReadMetadataRole, ReadEnrollmentsRole, ReadWriteEnrollmentsRole]

  function PermSet(role: OrganizationRole): set<string>
  {
    SetOf(role.permissions)
  }

  /**
   * `assign_to_group`: grants each of the role's permissions to the group on
   * the object (an organization, or a program for the program groups), one
   * `assign_perm` at a time.
   */
  method AssignToGroup(role: OrganizationRole, store: PermissionStore, group: int, target: Target)
    modifies store
    ensures store.grants == old(store.grants) + GrantsOf(PermSet(role), GroupHolder(group), target)
  {
    for i := 0 to |role.permissions|
      invariant store.grants
        == old(store.grants) + GrantsOf(SetOf(role.permissions[..i]), GroupHolder(group), target)
    {
      store.AssignPerm(role.permissions[i], GroupHolder(group), target);
      assert SetOf(role.permissions[..i + 1]) == SetOf(role.permissions[..i]) + {role.permissions[i]};
    }
    assert role.permissions[..|role.permissions|] == role.permissions;
  }

  /** The grants of a role name a single group and a single organization, never a global one. */
  lemma RoleGrantsAreScoped(role: OrganizationRole, group: int, org: int, org2: int)
    requires org2 != org
    ensures forall g :: g in GrantsOf(PermSet(role), GroupHolder(group), OnOrganization(org)) ==>
      g.target != Global && g.target != OnOrganization(org2) && g.holder == GroupHolder(group)
  {
  }

  /** The three roles form a chain of strictly growing permission sets, the largest being all of them. */
  lemma RoleChain()
    ensures PermSet(ReadMetadataRole) < PermSet(ReadEnrollmentsRole) < PermSet(ReadWriteEnrollmentsRole)
    ensures PermSet(ReadWriteEnrollmentsRole) == OrganizationPermissions
    ensures forall r :: r in OrganizationRoles ==> PermSet(r) <= OrganizationPermissions
  {
    assert OrganizationReadEnrollments !in PermSet(ReadMetadataRole);
    assert OrganizationWriteEnrollments !in PermSet(ReadEnrollmentsRole);
  }

  /** Only the read-write role carries the write permission, and the role names are distinct. */
  lemma OnlyReadWriteWrites()
    ensures forall r :: r in OrganizationRoles ==>
      (OrganizationWriteEnrollments in r.permissions <==> r == ReadWriteEnrollmentsRole)
    ensures forall i, j :: 0 <= i < j < |OrganizationRoles| ==> OrganizationRoles[i].name != OrganizationRoles[j].name
  {
    assert OrganizationWriteEnrollments != OrganizationReadMetadata;
    assert OrganizationWriteEnrollments != OrganizationReadEnrollments;
  }
}
