/**
 * The core models of registrar/apps/core/models.py: the user's display
 * name, the discovery-derived properties of `Program`, and the two group
 * models whose `save` recomputes the group's Guardian grants.  The program
 * roles and program permissions the program groups refer to are not defined
 * in the core permissions module this model follows, so they are fields of
 * the program group.
 */
module CoreModels {
  import opened Wrappers
  import opened Json
  import opened Guardian
  import opened CorePermissions
  import Discovery
  import Text

  // User

  /** Django's default `get_full_name`: first and last name joined by a space, stripped. */
  function DefaultFullName(firstName: string, lastName: string): string
  {
    Text.Strip(firstName + " " + lastName)
  }

  /** `get_full_name`: the stored full name when it is set and non-empty, else the default. */
  function GetFullName(fullName: Option<string>, firstName: string, lastName: string): (r: string)
    ensures fullName.Some? && fullName.value != "" ==> r == fullName.value
    ensures fullName.None? || fullName.value == "" ==> r == DefaultFullName(firstName, lastName)
  {
    if fullName.Some? && fullName.value != "" then fullName.value
    else DefaultFullName(firstName, lastName)
  }

  /** Without a full name, names without surrounding blanks are joined by one space. */
  lemma FullNameFromParts(fullName: Option<string>, firstName: string, lastName: string)
    requires fullName.None? || fullName.value == ""
    requires firstName != "" && !Text.IsPySpace(firstName[0])
    requires lastName != "" && !Text.IsPySpace(lastName[|lastName| - 1])
    ensures GetFullName(fullName, firstName, lastName) == firstName + " " + lastName
  {
    var s := firstName + " " + lastName;
    assert s[0] == firstName[0] && s[|s| - 1] == lastName[|lastName| - 1];
  }

  // Program

  /** `discovery_data`: what the discovery cache gives, or `{}` when that is falsy. */
  function DiscoveryData(cached: Json): (d: Json)
    ensures Truthy(cached) ==> d == cached
    ensures !Truthy(cached) ==> d == JObject(map[])
  {
    if Truthy(cached) then cached else JObject(map[])
  }

  /** `title`: the discovery title when truthy, else the program key. */
  function Title(data: Json, key: string): (r: Result<Json, PyError>)
    ensures r.Err? <==> !data.JObject?
    ensures r.Ok? ==> Truthy(r.value)  || r.value == JStr(key)
    ensures r.Ok? && "title" in data.fields && Truthy(data.fields["title"]) ==> r.value == data.fields["title"]
    ensures r.Ok? && ("title" !in data.fields || !Truthy(data.fields["title"])) ==> r.value == JStr(key)
  {
    match Get(data, "title", JNull)
    case Err(e) => Err(e)
    case Ok(t) => if Truthy(t) then Ok(t) else Ok(JStr(key))
  }

  /** `url`: the 'url' field, or None. */
  function Url(data: Json): (r: Result<Json, PyError>)
    ensures data.JObject? && "url" in data.fields ==> r == Ok(data.fields["url"])
    ensures data.JObject? && "url" !in data.fields ==> r == Ok(JNull)
    ensures !data.JObject? ==> r == Err(AttributeError)
  {
    Get(data, "url", JNull)
  }

  /** `is_enrollment_enabled`: the stored 'program_type' is 'Masters'. */
  function IsEnrollmentEnabled(data: Json): (r: Result<bool, PyError>)
    ensures r.Ok? <==> data.JObject?
    ensures r.Ok? ==> (r.value <==> "program_type" in data.fields && data.fields["program_type"] == JStr("Masters"))
  {
    GetEquals(data, "program_type", JStr("Masters"))
  }

  /**
   * `active_curriculum_uuid` of the model: `UUID(curriculum['uuid'])` with
   * KeyError and ValueError giving None.  A null uuid makes `UUID` raise
   * TypeError and any other non-string AttributeError; neither is caught, and
   * neither is the TypeError of curricula that cannot be iterated.
   */
  function ActiveCurriculumUuid(data: Json): (r: Result<Option<string>, PyError>)
    ensures Discovery.ActiveCurriculum(data).Err? ==> r == Err(Discovery.ActiveCurriculum(data).error)
    ensures Discovery.ActiveCurriculum(data).Ok? ==>
      var c := Discovery.ActiveCurriculum(data).value;
      ("uuid" !in c.fields ==> r == Ok(None)) &&
      ("uuid" in c.fields && c.fields["uuid"] == JNull ==> r == Err(TypeError)) &&
      (forall s :: "uuid" in c.fields && c.fields["uuid"] == JStr(s) ==> r == Ok(Discovery.ParseUuid(s))) &&
      ("uuid" in c.fields && !c.fields["uuid"].JNull? && !c.fields["uuid"].JStr? ==> r == Err(AttributeError))
  {
    match Discovery.ActiveCurriculum(data)
    case Err(e) => Err(e)
    case Ok(curriculum) =>
      if "uuid" !in curriculum.fields then Ok(None)
      else match curriculum.fields["uuid"]
        case JNull => Err(TypeError)
        case JStr(s) => Ok(Discovery.ParseUuid(s))
        case _ => Err(AttributeError)
  }

  /**
   * The two readings of a curriculum uuid agree except on a null uuid and on
   * curricula that cannot be iterated: there the discovery proxy answers
   * None where the model raises TypeError.
   */
  lemma UuidReadingsAgree(data: Json)
    requires Discovery.ActiveCurriculum(data).Ok?
    requires var c := Discovery.ActiveCurriculum(data).value; "uuid" !in c.fields || c.fields["uuid"] != JNull
    ensures ActiveCurriculumUuid(data) == Discovery.ActiveCurriculumUuid(data)
  {
  }

  /** Where the readings differ: the model raises TypeError and the proxy answers None. */
  lemma UuidReadingsDiffer(data: Json)
    requires Discovery.ActiveCurriculum(data) == Err(TypeError) ||
             (Discovery.ActiveCurriculum(data).Ok? &&
              var c := Discovery.ActiveCurriculum(data).value; "uuid" in c.fields && c.fields["uuid"] == JNull)
    ensures ActiveCurriculumUuid(data) == Err(TypeError)
    ensures Discovery.ActiveCurriculumUuid(data) == Ok(None)
  {
  }

  // Groups

  /** `role_object`: the first role whose name is `name`, or None. */
  function RoleNamed(roles: seq<OrganizationRole>, name: string): (r: Option<OrganizationRole>)
    ensures r.None? <==> forall i :: 0 <= i < |roles| ==> roles[i].name != name
    ensures r.Some? ==> exists i :: (0 <= i < |roles| && roles[i] == r.value && r.value.name == name &&
                                    forall k :: 0 <= k < i ==> roles[k].name != name)
  {
    if roles == [] then None
    else if roles[0].name == name then Some(roles[0])
    else
      var r := RoleNamed(roles[1..], name);
      if r.Some? then
        var i :| (0 <= i < |roles[1..]| && roles[1..][i] == r.value && r.value.name == name &&
                  forall k :: 0 <= k < i ==> roles[1..][k].name != name);
        assert roles[i + 1] == r.value;
        assert forall k :: 0 <= k < i + 1 ==> roles[k].name != name by {
          forall k | 0 <= k < i + 1 ensures roles[k].name != name {
            if k > 0 { assert roles[k] == roles[1..][k - 1]; }
          }
        }
        r
      else r
  }

  /** The permissions `role_object.assign_to_group` gives for a role name: none when no role in `roles` has it. */
  function RolePerms(roles: seq<OrganizationRole>, name: string): (perms: set<string>)
    ensures RoleNamed(roles, name).Some? ==> perms == PermSet(RoleNamed(roles, name).value)
    ensures RoleNamed(roles, name).None? ==> perms == {}
  {
    match RoleNamed(roles, name)
    case Some(r) => PermSet(r)
    case None => {}
  }

  /** The organization roles have distinct names, so each role's own name finds it. */
  lemma RoleObjectFindsEachRole()
    ensures forall r :: r in OrganizationRoles ==> RoleNamed(OrganizationRoles, r.name) == Some(r)
  {
    OnlyReadWriteWrites();
    assert OrganizationRoles[1..] == [ReadEnrollmentsRole, ReadWriteEnrollmentsRole];
    assert OrganizationRoles[1..][1..] == [ReadWriteEnrollmentsRole];
    assert RoleNamed(OrganizationRoles, ReadMetadataRole.name) == Some(ReadMetadataRole);
    assert RoleNamed(OrganizationRoles, ReadEnrollmentsRole.name) == Some(ReadEnrollmentsRole);
    var n := ReadWriteEnrollmentsRole.name;
    assert OrganizationRoles[0].name != n && OrganizationRoles[1].name != n;
    assert RoleNamed(OrganizationRoles[1..][1..], n) == Some(ReadWriteEnrollmentsRole);
    assert RoleNamed(OrganizationRoles[1..], n) == Some(ReadWriteEnrollmentsRole);
  }

  /** The grants left after removing each of `perms` from the group on the previous object, if any. */
  function WithoutPrevious(grants: set<Grant>, group: int, perms: set<string>, previous: Option<Target>): set<Grant>
  {
    if previous.Some? then grants - GrantsOf(perms, GroupHolder(group), previous.value) else grants
  }

  /** A group that holds no grant at all, such as one just created, loses nothing to the removal. */
  lemma WithoutPreviousFresh(grants: set<Grant>, group: int, perms: set<string>, previous: Option<Target>)
    requires forall g :: g in grants ==> g.holder != GroupHolder(group)
    ensures WithoutPrevious(grants, group, perms, previous) == grants
  {
    if previous.Some? {
      assert grants * GrantsOf(perms, GroupHolder(group), previous.value) == {};
    }
  }

  /**
   * The group holds none of `perms` anywhere but on `previous` (on nothing
   * when there is no previous object).
   */
  predicate ConfinedTo(grants: set<Grant>, group: int, perms: set<string>, previous: Option<Target>)
  {
    forall g :: g in grants && g.holder == GroupHolder(group) && g.perm in perms ==>
      previous.Some? && g.target == previous.value
  }

  /**
   * The invariant `save` keeps: when the group's grants of `perms` were
   * confined to its previous object, afterwards it holds, of `perms`,
   * exactly the role's permissions on its current object; other holders'
   * grants do not change.
   */
  lemma {:induction false} SaveRecomputesGrants(grants: set<Grant>, group: int, perms: set<string>,
                                                previous: Option<Target>, rolePerms: set<string>, current: Target)
    requires ConfinedTo(grants, group, perms, previous)
    requires rolePerms <= perms
    ensures var after := WithoutPrevious(grants, group, perms, previous) + GrantsOf(rolePerms, GroupHolder(group), current);
      && (forall g: Grant :: g.holder == GroupHolder(group) && g.perm in perms ==> (g in after <==> g.target == current && g.perm in rolePerms))
      && (forall g: Grant :: g.holder != GroupHolder(group) ==> (g in after <==> g in grants))
      && ConfinedTo(after, group, perms, Some(current))
  {
    var after := WithoutPrevious(grants, group, perms, previous) + GrantsOf(rolePerms, GroupHolder(group), current);
    forall g: Grant | g.holder == GroupHolder(group) && g.perm in perms
      ensures g in after <==> g.target == current && g.perm in rolePerms
    {
      if g in grants {
        assert previous.Some? && g.target == previous.value;
        assert g in GrantsOf(perms, GroupHolder(group), previous.value);
      }
    }
  }

  /**
   * Removes each of `perms` from the group on the previous object, then
   * assigns the role on the current one: the body of both groups' `save`
   * up to the role lookup.
   */
  method RemovePrevious(store: PermissionStore, group: int, perms: set<string>, previous: Option<Target>)
    modifies store
    ensures store.grants == WithoutPrevious(old(store.grants), group, perms, previous)
  {
    if previous.Some? {
      var rest := perms;
      while rest != {}
        invariant rest <= perms
        invariant store.grants == old(store.grants) - GrantsOf(perms - rest, GroupHolder(group), previous.value)
        decreases rest
      {
        var p :| p in rest;
        store.RemovePerm(p, GroupHolder(group), previous.value);
        rest := rest - {p};
      }
      assert perms - rest == perms;
    }
  }

  class OrganizationGroup {
    const id: int
    var organization: int
    var role: string
    /** `_initial_organization`: the organization whose grants the next save removes. */
    var initialOrganization: Option<int>
    const store: PermissionStore
    /** `ORGANIZATION_ROLES`, the roles `role_object` searches. */
    const roles: seq<OrganizationRole>

    constructor (id: int, organization: int, role: string, store: PermissionStore, roles: seq<OrganizationRole>)
      ensures this.id == id && this.organization == organization && this.role == role
      ensures initialOrganization == Some(organization) && this.store == store && this.roles == roles
    {
      this.id := id;
      this.organization := organization;
      this.role := role;
      initialOrganization := Some(organization);
      this.store := store;
      this.roles := roles;
    }

    function RoleObject(): Option<OrganizationRole>
      reads this
    {
      RoleNamed(roles, role)
    }

    function Previous(): Option<Target>
      reads this
    {
      if initialOrganization.Some? then Some(OnOrganization(initialOrganization.value)) else None
    }

    /**
     * `save`: the organization permissions are removed on the initial
     * organization, the role's are assigned on the current one, and the
     * current one becomes the initial one.  An unknown role name fails with
     * AttributeError after the removal.
     */
    method Save() returns (r: Result<(), PyError>)
      modifies this, store
      ensures r.Ok? <==> old(RoleObject()).Some?
      ensures r.Ok? ==> store.grants == WithoutPrevious(old(store.grants), id, OrganizationPermissions, old(Previous()))
                                        + GrantsOf(PermSet(old(RoleObject()).value), GroupHolder(id), OnOrganization(organization))
      ensures r.Ok? ==> initialOrganization == Some(organization)
      ensures r.Err? ==> store.grants == WithoutPrevious(old(store.grants), id, OrganizationPermissions, old(Previous()))
      ensures r.Err? ==> r.error == AttributeError && initialOrganization == old(initialOrganization)
      ensures organization == old(organization) && role == old(role)
    {
      RemovePrevious(store, id, OrganizationPermissions, Previous());
      var roleObject := RoleObject();
      if roleObject.None? {
        return Err(AttributeError);
      }
      AssignToGroup(roleObject.value, store, id, OnOrganization(organization));
      initialOrganization := Some(organization);
      r := Ok(());
    }
  }

  /** An organization group's save keeps its organization grants on its organization alone. */
  lemma OrganizationGroupSaveConfines(grants: set<Grant>, group: int, previous: Option<Target>, role: OrganizationRole, org: int)
    requires role in OrganizationRoles
    requires ConfinedTo(grants, group, OrganizationPermissions, previous)
    ensures var after := WithoutPrevious(grants, group, OrganizationPermissions, previous)
                         + GrantsOf(PermSet(role), GroupHolder(group), OnOrganization(org));
      forall p, o :: p in OrganizationPermissions ==>
        (Grant(GroupHolder(group), p, OnOrganization(o)) in after <==> o == org && p in PermSet(role))
  {
    RoleChain();
    SaveRecomputesGrants(grants, group, OrganizationPermissions, previous, PermSet(role), OnOrganization(org));
  }

  class ProgramOrganizationGroup {
    const id: int
    var program: int
    var role: string
    /** `_initial_program`: the program whose grants the next save removes. */
    var initialProgram: Option<int>
    const store: PermissionStore
    /** `PROGRAM_ROLES` and `PROGRAM_PERMISSIONS`. */
    const programRoles: seq<OrganizationRole>
    const programPermissions: set<string>

    constructor (id: int, program: int, role: string, store: PermissionStore,
                 programRoles: seq<OrganizationRole>, programPermissions: set<string>)
      ensures this.id == id && this.program == program && this.role == role
      ensures initialProgram == Some(program) && this.store == store
      ensures this.programRoles == programRoles && this.programPermissions == programPermissions
    {
      this.id := id;
      this.program := program;
      this.role := role;
      initialProgram := Some(program);
      this.store := store;
      this.programRoles := programRoles;
      this.programPermissions := programPermissions;
    }

    function RoleObject(): Option<OrganizationRole>
      reads this
    {
      RoleNamed(programRoles, role)
    }

    function Previous(): Option<Target>
      reads this
    {
      if initialProgram.Some? then Some(OnProgram(initialProgram.value)) else None
    }

    /** `save`: as for organization groups, over program permissions and programs. */
    method Save() returns (r: Result<(), PyError>)
      modifies this, store
      ensures r.Ok? <==> old(RoleObject()).Some?
      ensures r.Ok? ==> store.grants == WithoutPrevious(old(store.grants), id, programPermissions, old(Previous()))
                                        + GrantsOf(PermSet(old(RoleObject()).value), GroupHolder(id), OnProgram(program))
      ensures r.Ok? ==> initialProgram == Some(program)
      ensures r.Err? ==> store.grants == WithoutPrevious(old(store.grants), id, programPermissions, old(Previous()))
      ensures r.Err? ==> r.error == AttributeError && initialProgram == old(initialProgram)
      ensures program == old(program) && role == old(role)
    {
      RemovePrevious(store, id, programPermissions, Previous());
      var roleObject := RoleObject();
      if roleObject.None? {
        return Err(AttributeError);
      }
      AssignToGroup(roleObject.value, store, id, OnProgram(program));
      initialProgram := Some(program);
      r := Ok(());
    }
  }
}
