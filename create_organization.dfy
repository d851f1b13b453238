/**
 * The `create_organization` management command
 * (registrar/apps/core/management/commands/create_organization.py): an
 * organization is created with the given key as key and name, and one
 * organization group per `--group role [name]` option.  Every option is
 * checked before anything is created, and the command runs in one
 * transaction, so a failure leaves the tables as they were.
 *
 * Organizations are keyed by their unique key and groups by their unique
 * name.  Creating a group runs `OrganizationGroup.save`, which assigns the
 * Guardian permissions of its role on the organization; the role is looked
 * up among the organization roles, and a role the command accepts but that
 * list lacks makes the save fail.  The accepted role names (`ROLES`), the
 * uuid drawn for the new organization and the primary key the database gives
 * it are parameters; group ids are handed out in order.
 */
module CreateOrganization {
  import opened Wrappers
  import opened Guardian
  import opened CorePermissions
  import CoreConstants
  import CoreModels

  /** A parsed `--group` option: the role and the group name, if one was given. */
  datatype GroupSpec = GroupSpec(role: string, name: Option<string>)

  datatype Failure =
    | TooManyGroupArguments
    | UnknownRole(roleNames: seq<string>)
    | InvalidOrganizationKey
    | OrganizationExists(key: string)
    | GroupExists(name: string)
    | NoRoleObject(name: string)

  datatype OrgRow = OrgRow(id: int, name: string, discoveryUuid: string)

  datatype GroupRow = GroupRow(id: int, orgKey: string, role: string)

  /**
   * `ORGANIZATION_KEY_PATTERN` matches the whole key: letters, digits,
   * dashes and underscores, at least one of them.
   */
  predicate IsOrganizationKey(key: string)
  {
    |key| > 0 && forall i :: 0 <= i < |key| ==> CoreConstants.IsProgramKeyChar(key[i])
  }

  /** One `--group` option; argument parsing gives it at least one argument. */
  function ParseGroup(args: seq<string>, roleNames: seq<string>): (r: Result<GroupSpec, Failure>)
    requires |args| >= 1
    ensures r.Ok? <==> |args| <= 2 && args[0] in roleNames
    ensures |args| > 2 ==> r == Err(TooManyGroupArguments)
    ensures r.Ok? ==> r.value.role == args[0] && (r.value.name.Some? <==> |args| == 2)
    ensures r.Ok? && |args| == 2 ==> r.value.name == Some(args[1])
  {
    if |args| > 2 then Err(TooManyGroupArguments)
    else if args[0] !in roleNames then Err(UnknownRole(roleNames))
    else Ok(GroupSpec(args[0], if |args| == 2 then Some(args[1]) else None))
  }

  /** `parse_groups`: every option parsed, in order, or the first option's error. */
  function ParseGroups(groups: seq<seq<string>>, roleNames: seq<string>): (r: Result<seq<GroupSpec>, Failure>)
    requires forall i :: 0 <= i < |groups| ==> |groups[i]| >= 1
    ensures r.Ok? ==> |r.value| == |groups| && forall i :: 0 <= i < |groups| ==> ParseGroup(groups[i], roleNames) == Ok(r.value[i])
    ensures r.Err? ==> exists i :: (0 <= i < |groups| && ParseGroup(groups[i], roleNames) == Err(r.error) &&
      forall j :: 0 <= j < i ==> ParseGroup(groups[j], roleNames).Ok?)
  {
    if groups == [] then Ok([])
    else
      var n := |groups| - 1;
      match ParseGroups(groups[..n], roleNames)
      case Err(e) => Err(e)
      case Ok(specs) =>
        match ParseGroup(groups[n], roleNames)
        case Err(e) => Err(e)
        case Ok(spec) => Ok(specs + [spec])
  }

  lemma {:induction false} ParseErrorPersists(groups: seq<seq<string>>, roleNames: seq<string>, n: nat)
    requires forall i :: 0 <= i < |groups| ==> |groups[i]| >= 1
    requires n <= |groups| && ParseGroups(groups[..n], roleNames).Err?
    ensures ParseGroups(groups, roleNames) == ParseGroups(groups[..n], roleNames)
    decreases |groups| - n
  {
    if n < |groups| {
      var m := |groups| - 1;
      assert groups[..m][..n] == groups[..n];
      ParseErrorPersists(groups[..m], roleNames, n);
      ParseErrorLast(groups, roleNames);
    } else {
      assert groups[..n] == groups;
    }
  }

  /** An error among all options but the last is the error of them all. */
  lemma ParseErrorLast(groups: seq<seq<string>>, roleNames: seq<string>)
    requires forall i :: 0 <= i < |groups| ==> |groups[i]| >= 1
    requires |groups| > 0 && ParseGroups(groups[..|groups| - 1], roleNames).Err?
    ensures ParseGroups(groups, roleNames) == ParseGroups(groups[..|groups| - 1], roleNames)
  {
  }

  /** `parse_groups`, as the loop the command runs. */
  method ParseGroupOptions(groups: seq<seq<string>>, roleNames: seq<string>) returns (r: Result<seq<GroupSpec>, Failure>)
    requires forall i :: 0 <= i < |groups| ==> |groups[i]| >= 1
    ensures r == ParseGroups(groups, roleNames)
  {
    var result: seq<GroupSpec> := [];
    for i := 0 to |groups|
      invariant ParseGroups(groups[..i], roleNames) == Ok(result)
    {
      assert groups[..i + 1][..i] == groups[..i];
      var group := groups[i];
      if |group| > 2 {
        ParseErrorPersists(groups, roleNames, i + 1);
        return Err(TooManyGroupArguments);
      }
      if group[0] !in roleNames {
        ParseErrorPersists(groups, roleNames, i + 1);
        return Err(UnknownRole(roleNames));
      }
      var name := if |group| == 2 then Some(group[1]) else None;
      result := result + [GroupSpec(group[0], name)];
    }
    assert groups[..|groups|] == groups;
    r := Ok(result);
  }

  /** The name a group gets when none (or an empty one) is given: `{org name}_{role}`. */
  function DefaultGroupName(orgName: string, role: string): string
  {
    orgName + "_" + role
  }

  /** The name of the group created for an option. */
  function GroupName(orgName: string, spec: GroupSpec): (name: string)
    ensures spec.name.Some? && spec.name.value != "" ==> name == spec.name.value
    ensures spec.name.None? || spec.name.value == "" ==> name == DefaultGroupName(orgName, spec.role)
  {
    if spec.name.Some? && spec.name.value != "" then spec.name.value else DefaultGroupName(orgName, spec.role)
  }

  /** Default names of one organization's groups differ exactly when their roles differ. */
  lemma DefaultNamesFollowRoles(orgName: string, role1: string, role2: string)
    ensures DefaultGroupName(orgName, role1) == DefaultGroupName(orgName, role2) <==> role1 == role2
  {
    if DefaultGroupName(orgName, role1) == DefaultGroupName(orgName, role2) {
      var prefix := orgName + "_";
      assert role1 == DefaultGroupName(orgName, role1)[|prefix|..];
      assert role2 == DefaultGroupName(orgName, role2)[|prefix|..];
    }
  }

  /**
   * The groups created in order, with ids from `firstId` on: a name already
   * taken, or a role that is not an organization role, ends the run.
   */
  function AddGroups(groups: map<string, GroupRow>, orgKey: string, firstId: int, specs: seq<GroupSpec>)
    : (r: Result<map<string, GroupRow>, Failure>)
    ensures r.Ok? ==> groups.Keys <= r.value.Keys && forall name :: name in groups ==> r.value[name] == groups[name]
  {
    if specs == [] then Ok(groups)
    else
      var n := |specs| - 1;
      match AddGroups(groups, orgKey, firstId, specs[..n])
      case Err(e) => Err(e)
      case Ok(after) => AddGroup(after, orgKey, specs[n], firstId + n)
  }

  /** One option's group inserted with id `id`; a name already taken, or a role that is not an organization role, fails. */
  function AddGroup(groups: map<string, GroupRow>, orgKey: string, spec: GroupSpec, id: int): (r: Result<map<string, GroupRow>, Failure>)
    ensures r.Ok? <==> GroupName(orgKey, spec) !in groups && CoreModels.RoleNamed(OrganizationRoles, spec.role).Some?
    ensures r.Ok? ==> r.value == groups[GroupName(orgKey, spec) := GroupRow(id, orgKey, spec.role)]
  {
    var name := GroupName(orgKey, spec);
    if name in groups then Err(GroupExists(name))
    else if CoreModels.RoleNamed(OrganizationRoles, spec.role).None? then Err(NoRoleObject(name))
    else Ok(groups[name := GroupRow(id, orgKey, spec.role)])
  }

  /**
   * A successful run inserts, for each option, a row under a name that was
   * free, with the next id and an organization role.
   */
  lemma {:induction false} AddGroupsCreates(groups: map<string, GroupRow>, orgKey: string, firstId: int, specs: seq<GroupSpec>, i: int)
    requires AddGroups(groups, orgKey, firstId, specs).Ok? && 0 <= i < |specs|
    ensures GroupName(orgKey, specs[i]) !in groups
    ensures GroupName(orgKey, specs[i]) in AddGroups(groups, orgKey, firstId, specs).value
    ensures AddGroups(groups, orgKey, firstId, specs).value[GroupName(orgKey, specs[i])] == GroupRow(firstId + i, orgKey, specs[i].role)
    ensures CoreModels.RoleNamed(OrganizationRoles, specs[i].role).Some?
  {
    var n := |specs| - 1;
    if i < n {
      AddGroupsCreates(groups, orgKey, firstId, specs[..n], i);
      assert specs[..n][i] == specs[i];
    }
  }

  /** A successful run inserts no row but those its options name. */
  lemma {:induction false} AddGroupsOnly(groups: map<string, GroupRow>, orgKey: string, firstId: int, specs: seq<GroupSpec>, name: string)
    requires AddGroups(groups, orgKey, firstId, specs).Ok?
    requires name in AddGroups(groups, orgKey, firstId, specs).value && name !in groups
    ensures exists i :: 0 <= i < |specs| && GroupName(orgKey, specs[i]) == name
  {
    var n := |specs| - 1;
    if specs != [] && name != GroupName(orgKey, specs[n]) {
      AddGroupsOnly(groups, orgKey, firstId, specs[..n], name);
      var i :| 0 <= i < n && GroupName(orgKey, specs[..n][i]) == name;
      assert specs[..n][i] == specs[i];
    }
  }

  /** The grants the groups' saves create: each group's role permissions on the organization. */
  function GroupGrants(orgId: int, firstId: int, specs: seq<GroupSpec>): set<Grant>
  {
    if specs == [] then {}
    else
      var n := |specs| - 1;
      GroupGrants(orgId, firstId, specs[..n]) + GrantsOf(CoreModels.RolePerms(OrganizationRoles, specs[n].role), GroupHolder(firstId + n), OnOrganization(orgId))
  }

  /** The grants of the run are those of its groups, every one of them. */
  lemma {:induction false} GroupGrantsMembers(orgId: int, firstId: int, specs: seq<GroupSpec>)
    ensures forall x :: x in GroupGrants(orgId, firstId, specs) ==>
      exists i :: 0 <= i < |specs| && x in GrantsOf(CoreModels.RolePerms(OrganizationRoles, specs[i].role), GroupHolder(firstId + i), OnOrganization(orgId))
    ensures forall i :: 0 <= i < |specs| ==>
      GrantsOf(CoreModels.RolePerms(OrganizationRoles, specs[i].role), GroupHolder(firstId + i), OnOrganization(orgId)) <= GroupGrants(orgId, firstId, specs)
  {
    if specs != [] {
      var n := |specs| - 1;
      GroupGrantsMembers(orgId, firstId, specs[..n]);
      assert forall i :: 0 <= i < n ==> specs[..n][i] == specs[i];
    }
  }

  /**
   * Each created group holds, on the new organization, exactly its role's
   * permissions, and nothing anywhere else.
   */
  lemma GroupGrantsExact(orgId: int, firstId: int, specs: seq<GroupSpec>, i: int, perm: string, target: Target)
    requires 0 <= i < |specs|
    ensures Grant(GroupHolder(firstId + i), perm, target) in GroupGrants(orgId, firstId, specs)
        <==> target == OnOrganization(orgId) && perm in CoreModels.RolePerms(OrganizationRoles, specs[i].role)
  {
    var x := Grant(GroupHolder(firstId + i), perm, target);
    GroupGrantsMembers(orgId, firstId, specs);
    if x in GroupGrants(orgId, firstId, specs) {
      var j :| 0 <= j < |specs| && x in GrantsOf(CoreModels.RolePerms(OrganizationRoles, specs[j].role), GroupHolder(firstId + j), OnOrganization(orgId));
      assert j == i;
    }
  }

  /** One more option in the run: its group is added after the groups so far, with id `id`. */
  lemma AddGroupsStep(groups: map<string, GroupRow>, orgKey: string, firstId: int, specs: seq<GroupSpec>, i: int,
                      after: map<string, GroupRow>, id: int)
    requires 0 <= i < |specs| && id == firstId + i && AddGroups(groups, orgKey, firstId, specs[..i]) == Ok(after)
    ensures AddGroups(groups, orgKey, firstId, specs[..i + 1]) == AddGroup(after, orgKey, specs[i], id)
  {
    var prefix := specs[..i + 1];
    assert prefix[..|prefix| - 1] == specs[..i];
    assert prefix[|prefix| - 1] == specs[i] && firstId + (|prefix| - 1) == id;
  }

  /** One more option in the run: its group's grants are added. */
  lemma GroupGrantsStep(orgId: int, firstId: int, specs: seq<GroupSpec>, i: int, id: int)
    requires 0 <= i < |specs| && id == firstId + i
    ensures GroupGrants(orgId, firstId, specs[..i + 1])
         == GroupGrants(orgId, firstId, specs[..i]) + GrantsOf(CoreModels.RolePerms(OrganizationRoles, specs[i].role), GroupHolder(id), OnOrganization(orgId))
  {
    assert specs[..i + 1][..i] == specs[..i];
  }

  lemma {:induction false} AddErrorPersists(groups: map<string, GroupRow>, orgKey: string, firstId: int, specs: seq<GroupSpec>, n: nat)
    requires n <= |specs| && AddGroups(groups, orgKey, firstId, specs[..n]).Err?
    ensures AddGroups(groups, orgKey, firstId, specs) == AddGroups(groups, orgKey, firstId, specs[..n])
    decreases |specs| - n
  {
    if n < |specs| {
      var m := |specs| - 1;
      assert specs[..m][..n] == specs[..n];
      AddErrorPersists(groups, orgKey, firstId, specs[..m], n);
    } else {
      assert specs[..n] == specs;
    }
  }

  /** Two options without a name and with the same role ask for the same group name, so the command fails. */
  lemma RepeatedUnnamedRoleFails(groups: map<string, GroupRow>, orgKey: string, firstId: int, role: string)
    requires DefaultGroupName(orgKey, role) !in groups
    requires CoreModels.RoleNamed(OrganizationRoles, role).Some?
    ensures AddGroups(groups, orgKey, firstId, [GroupSpec(role, None), GroupSpec(role, None)])
         == Err(GroupExists(DefaultGroupName(orgKey, role)))
  {
    var specs := [GroupSpec(role, None), GroupSpec(role, None)];
    assert specs[..1][..0] == [];
    assert AddGroups(groups, orgKey, firstId, specs[..1]) == Ok(groups[DefaultGroupName(orgKey, role) := GroupRow(firstId, orgKey, role)]);
  }

  /**
   * A role the command accepts but that is not an organization role passes
   * the option check and then fails the group's save.
   */
  lemma UnassignableRoleFails(groups: map<string, GroupRow>, orgKey: string, firstId: int, role: string)
    requires DefaultGroupName(orgKey, role) !in groups
    requires CoreModels.RoleNamed(OrganizationRoles, role).None?
    ensures AddGroups(groups, orgKey, firstId, [GroupSpec(role, None)]) == Err(NoRoleObject(DefaultGroupName(orgKey, role)))
  {
    assert [GroupSpec(role, None)][..0] == [];
  }

  /** The organization and group tables, and the Guardian grants the groups' saves write. */
  class Directory {
    var orgs: map<string, OrgRow>
    var groups: map<string, GroupRow>
    const roleNames: seq<string>
    const store: PermissionStore
    /** The id the next inserted group gets. */
    var nextGroupId: int

    constructor (orgs: map<string, OrgRow>, groups: map<string, GroupRow>, roleNames: seq<string>,
                 store: PermissionStore, nextGroupId: int)
      ensures this.orgs == orgs && this.groups == groups && this.roleNames == roleNames
      ensures this.store == store && this.nextGroupId == nextGroupId
    {
      this.orgs := orgs;
      this.groups := groups;
      this.roleNames := roleNames;
      this.store := store;
      this.nextGroupId := nextGroupId;
    }

    /** No group grant names a group id not yet handed out. */
    predicate IdsFresh()
      reads this, store
    {
      forall g :: g in store.grants && g.holder.GroupHolder? ==> g.holder.group < nextGroupId
    }

    /** `create_organization`: the key must match the pattern and be new; the name is the key. */
    method CreateOrganization(orgKey: string, orgId: int, discoveryUuid: string) returns (r: Result<(), Failure>)
      modifies this
      ensures !IsOrganizationKey(orgKey) ==> r == Err(InvalidOrganizationKey) && orgs == old(orgs)
      ensures IsOrganizationKey(orgKey) && orgKey in old(orgs) ==> r == Err(OrganizationExists(orgKey)) && orgs == old(orgs)
      ensures IsOrganizationKey(orgKey) && orgKey !in old(orgs) ==>
        r.Ok? && orgs == old(orgs)[orgKey := OrgRow(orgId, orgKey, discoveryUuid)]
      ensures groups == old(groups) && nextGroupId == old(nextGroupId)
    {
      if !IsOrganizationKey(orgKey) {
        return Err(InvalidOrganizationKey);
      }
      if orgKey in orgs {
        return Err(OrganizationExists(orgKey));
      }
      orgs := orgs[orgKey := OrgRow(orgId, orgKey, discoveryUuid)];
      r := Ok(());
    }

    /**
     * `create_org_group`: the group gets the given name, or the default one,
     * and is inserted unless the name is taken; its save then assigns its
     * role's permissions on the organization, or fails when the role is not
     * an organization role.
     */
    method CreateOrgGroup(orgKey: string, orgId: int, spec: GroupSpec) returns (r: Result<(), Failure>)
      requires IdsFresh()
      modifies this, store
      ensures GroupName(orgKey, spec) in old(groups) ==>
        && r == Err(GroupExists(GroupName(orgKey, spec)))
        && groups == old(groups) && store.grants == old(store.grants) && nextGroupId == old(nextGroupId)
      ensures GroupName(orgKey, spec) !in old(groups) ==>
        && groups == old(groups)[GroupName(orgKey, spec) := GroupRow(old(nextGroupId), orgKey, spec.role)]
        && nextGroupId == old(nextGroupId) + 1
      ensures GroupName(orgKey, spec) !in old(groups) && CoreModels.RoleNamed(OrganizationRoles, spec.role).None? ==>
        r == Err(NoRoleObject(GroupName(orgKey, spec))) && store.grants == old(store.grants)
      ensures GroupName(orgKey, spec) !in old(groups) && CoreModels.RoleNamed(OrganizationRoles, spec.role).Some? ==>
        && r.Ok?
        && store.grants == old(store.grants) + GrantsOf(CoreModels.RolePerms(OrganizationRoles, spec.role), GroupHolder(old(nextGroupId)), OnOrganization(orgId))
      ensures match AddGroup(old(groups), orgKey, spec, old(nextGroupId))
        case Ok(after) => r.Ok? && groups == after
        case Err(e) => r == Err(e)
      ensures orgs == old(orgs) && IdsFresh()
    {
      var name := if spec.name.Some? && spec.name.value != "" then spec.name.value else DefaultGroupName(orgKey, spec.role);
      if name in groups {
        return Err(GroupExists(name));
      }
      var id := nextGroupId;
      groups := groups[name := GroupRow(id, orgKey, spec.role)];
      nextGroupId := nextGroupId + 1;
      var group := new CoreModels.OrganizationGroup(id, orgId, spec.role, store, OrganizationRoles);
      CoreModels.WithoutPreviousFresh(store.grants, id, OrganizationPermissions, group.Previous());
      var saved := group.Save();
      if saved.Err? {
        return Err(NoRoleObject(name));
      }
      r := Ok(());
    }

    /** The loop of `handle` over the parsed options, in order; the first failure ends it. */
    method CreateGroupsInOrder(orgKey: string, orgId: int, specs: seq<GroupSpec>) returns (r: Result<(), Failure>)
      requires IdsFresh()
      modifies this, store
      ensures match AddGroups(old(groups), orgKey, old(nextGroupId), specs)
        case Ok(after) =>
          && r.Ok? && groups == after && nextGroupId == old(nextGroupId) + |specs|
          && store.grants == old(store.grants) + GroupGrants(orgId, old(nextGroupId), specs)
        case Err(e) => r == Err(e)
      ensures orgs == old(orgs) && nextGroupId >= old(nextGroupId) && IdsFresh()
    {
      var firstId := nextGroupId;
      for i := 0 to |specs|
        invariant AddGroups(old(groups), orgKey, firstId, specs[..i]) == Ok(groups)
        invariant store.grants == old(store.grants) + GroupGrants(orgId, firstId, specs[..i])
        invariant nextGroupId == firstId + i
        invariant orgs == old(orgs) && IdsFresh()
      {
        AddGroupsStep(old(groups), orgKey, firstId, specs, i, groups, nextGroupId);
        GroupGrantsStep(orgId, firstId, specs, i, nextGroupId);
        r := CreateOrgGroup(orgKey, orgId, specs[i]);
        if r.Err? {
          AddErrorPersists(old(groups), orgKey, firstId, specs, i + 1);
          return;
        }
      }
      assert specs[..|specs|] == specs;
      r := Ok(());
    }

    /** The groups of `handle` in its transaction: a failure restores the group table and the grants. */
    method CreateGroups(orgKey: string, orgId: int, specs: seq<GroupSpec>) returns (r: Result<(), Failure>)
      requires IdsFresh()
      modifies this, store
      ensures match AddGroups(old(groups), orgKey, old(nextGroupId), specs)
        case Ok(after) =>
          && r.Ok? && groups == after && nextGroupId == old(nextGroupId) + |specs|
          && store.grants == old(store.grants) + GroupGrants(orgId, old(nextGroupId), specs)
        case Err(e) => r == Err(e) && groups == old(groups) && store.grants == old(store.grants)
      ensures orgs == old(orgs) && nextGroupId >= old(nextGroupId) && IdsFresh()
    {
      var snapshot, grantsBefore := groups, store.grants;
      r := CreateGroupsInOrder(orgKey, orgId, specs);
      if r.Err? {
        groups, store.grants := snapshot, grantsBefore;
        assert IdsFresh() by {
          forall g | g in store.grants && g.holder.GroupHolder?
            ensures g.holder.group < nextGroupId
          {
            assert g in old(store.grants);
          }
        }
      }
    }

    /**
     * `handle`: all options are parsed first, then the organization and its
     * groups are created; any failure leaves the tables and the grants as
     * they were.
     */
    method Handle(orgKey: string, groupOptions: seq<seq<string>>, orgId: int, discoveryUuid: string) returns (r: Result<(), Failure>)
      requires forall i :: 0 <= i < |groupOptions| ==> |groupOptions[i]| >= 1
      requires IdsFresh()
      modifies this, store
      ensures r.Err? ==> orgs == old(orgs) && groups == old(groups) && store.grants == old(store.grants)
      ensures ParseGroups(groupOptions, roleNames).Err? ==> r == Err(ParseGroups(groupOptions, roleNames).error)
      ensures ParseGroups(groupOptions, roleNames).Ok? && !IsOrganizationKey(orgKey) ==> r == Err(InvalidOrganizationKey)
      ensures ParseGroups(groupOptions, roleNames).Ok? && IsOrganizationKey(orgKey) && orgKey in old(orgs) ==>
        r == Err(OrganizationExists(orgKey))
      ensures ParseGroups(groupOptions, roleNames).Ok? && IsOrganizationKey(orgKey) && orgKey !in old(orgs) ==>
        match AddGroups(old(groups), orgKey, old(nextGroupId), ParseGroups(groupOptions, roleNames).value)
        case Ok(after) =>
          && r.Ok? && groups == after && orgs == old(orgs)[orgKey := OrgRow(orgId, orgKey, discoveryUuid)]
          && store.grants == old(store.grants) + GroupGrants(orgId, old(nextGroupId), ParseGroups(groupOptions, roleNames).value)
        case Err(e) => r == Err(e)
      ensures IdsFresh()
    {
      var specs := ParseGroupOptions(groupOptions, roleNames);
      if specs.Err? {
        return Err(specs.error);
      }
      var savedOrgs := orgs;
      r := CreateOrganization(orgKey, orgId, discoveryUuid);
      if r.Err? {
        return;
      }
      r := CreateGroups(orgKey, orgId, specs.value);
      if r.Err? {
        orgs := savedOrgs;
      }
    }
  }
}
