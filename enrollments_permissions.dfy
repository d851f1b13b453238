/**
 * The enrollments app's unprefixed permission codenames and organization
 * roles (registrar/apps/enrollments/permissions.py).
 */
module EnrollmentsPermissions {
  import opened Guardian

  const OrganizationReadMetadata: string := "organization_read_metadata"
  const OrganizationReadEnrollments: string := "organization_read_enrollments"
  const OrganizationWriteEnrollments: string := "organization_write_enrollments"

  datatype OrganizationRole = OrganizationRole(name: string, permissions: seq<string>)

  const ReadMetadataRole: OrganizationRole :=
    OrganizationRole("organization_read_metadata", [OrganizationReadMetadata])

  const ReadEnrollmentsRole: OrganizationRole :=
    OrganizationRole("organization_read_enrollments", [OrganizationReadMetadata, OrganizationReadEnrollments])

  const ReadWriteEnrollmentsRole: OrganizationRole :=
    OrganizationRole("organization_read_write_enrollments",
                     [OrganizationReadMetadata, OrganizationReadEnrollments, OrganizationWriteEnrollments])

  function PermSet(role: OrganizationRole): set<string>
  {
    SetOf(role.permissions)
  }

  /** `assign_to_group`: each permission of the role, granted to the group on the organization. */
  method AssignToGroup(role: OrganizationRole, store: PermissionStore, group: int, org: int)
    modifies store
    ensures store.grants == old(store.grants) + GrantsOf(PermSet(role), GroupHolder(group), OnEnrollmentsOrganization(org))
  {
    for i := 0 to |role.permissions|
      invariant store.grants
        == old(store.grants) + GrantsOf(SetOf(role.permissions[..i]), GroupHolder(group), OnEnrollmentsOrganization(org))
    {
      store.AssignPerm(role.permissions[i], GroupHolder(group), OnEnrollmentsOrganization(org));
      assert SetOf(role.permissions[..i + 1]) == SetOf(role.permissions[..i]) + {role.permissions[i]};
    }
    assert role.permissions[..|role.permissions|] == role.permissions;
  }

  /** The codenames are distinct; the roles form a strict chain; only read-write can write. */
  lemma RoleChain()
    ensures |{OrganizationReadMetadata, OrganizationReadEnrollments, OrganizationWriteEnrollments}| == 3
    ensures PermSet(ReadMetadataRole) < PermSet(ReadEnrollmentsRole) < PermSet(ReadWriteEnrollmentsRole)
    ensures OrganizationWriteEnrollments in PermSet(ReadWriteEnrollmentsRole)
    ensures OrganizationWriteEnrollments !in PermSet(ReadEnrollmentsRole)
    ensures OrganizationWriteEnrollments !in PermSet(ReadMetadataRole)
  {
    assert OrganizationReadEnrollments !in PermSet(ReadMetadataRole);
    assert OrganizationWriteEnrollments !in PermSet(ReadEnrollmentsRole);
  }
}
