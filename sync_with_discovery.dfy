/**
 * The `sync_with_discovery` management command
 * (registrar/apps/core/management/commands/sync_with_discovery.py): the
 * organizations and programs known to course-discovery are reconciled with
 * the registrar's tables, and every organization or program it creates gets
 * a report-reading group.
 *
 * Tables are maps keyed by discovery uuid.  Discovery's answers are
 * parameters.  The names of the two report roles, the program roles and
 * permissions, and the primary keys the database gives organizations and
 * programs are constants of the catalogue; group ids are handed out in order.
 *
 * The command runs in one transaction.  Organization and program keys and
 * group names are unique in the database, so a write that would repeat one
 * fails, and so does a group save whose role is not found; any failure
 * undoes the whole command.
 */
module SyncWithDiscovery {
  import opened Wrappers
  import opened Guardian
  import opened CorePermissions
  import CoreModels

  /** The program types the command asks discovery for. */
  const ProgramTypesToSync: seq<string> := ["micromasters", "masters", "professional-certificate", "microbachelors", "xseries"]

  const OrgReportGroupSuffix: string := "_ReadOrganizationReports"
  const ProgramReportGroupSuffix: string := "_ReadProgramReports"

  datatype DiscoveryOrg = DiscoveryOrg(uuid: string, name: string, key: string)

  datatype OrgData = OrgData(name: string, key: string)

  datatype OrgGroupRow = OrgGroupRow(id: int, name: string, orgUuid: string, role: string)

  /** A discovery program: each authoring organization is its uuid, None when it has none. */
  datatype DiscoveryProgram = DiscoveryProgram(uuid: string, marketingSlug: string, authoringOrgUuids: seq<Option<string>>)

  datatype ProgramData = ProgramData(key: string, orgUuid: string)

  datatype ProgramGroupRow = ProgramGroupRow(id: int, name: string, orgUuid: string, programUuid: string, role: string)

  /** Why the transaction is undone. */
  datatype SyncError =
    | OrgKeyTaken
    | ProgramKeyTaken
    | GroupNameTaken
    | RoleNotFound(role: string)

  function OrgGroupName(orgKey: string): string
  {
    orgKey + OrgReportGroupSuffix
  }

  function ProgramGroupName(orgKey: string, programKey: string): string
  {
    orgKey + "_" + programKey + ProgramReportGroupSuffix
  }

  predicate DistinctOrgUuids(ds: seq<DiscoveryOrg>)
  {
    forall i, j :: 0 <= i < j < |ds| ==> ds[i].uuid != ds[j].uuid
  }

  predicate DistinctProgramUuids(dps: seq<DiscoveryProgram>)
  {
    forall i, j :: 0 <= i < j < |dps| ==> dps[i].uuid != dps[j].uuid
  }

  /** Entries with the same uuid are the same entry. */
  predicate OrgsConsistent(ds: seq<DiscoveryOrg>)
  {
    forall a, b :: a in ds && b in ds && a.uuid == b.uuid ==> a == b
  }

  predicate ProgramsConsistent(dps: seq<DiscoveryProgram>)
  {
    forall a, b :: a in dps && b in dps && a.uuid == b.uuid ==> a == b
  }

  lemma DistinctOrgsConsistent(ds: seq<DiscoveryOrg>)
    requires DistinctOrgUuids(ds)
    ensures OrgsConsistent(ds)
  {
    forall a, b | a in ds && b in ds && a.uuid == b.uuid ensures a == b {
      var i :| 0 <= i < |ds| && ds[i] == a;
      var j :| 0 <= j < |ds| && ds[j] == b;
      assert i == j;
    }
  }

  lemma DistinctProgramsConsistent(dps: seq<DiscoveryProgram>)
    requires DistinctProgramUuids(dps)
    ensures ProgramsConsistent(dps)
  {
    forall a, b | a in dps && b in dps && a.uuid == b.uuid ensures a == b {
      var i :| 0 <= i < |dps| && dps[i] == a;
      var j :| 0 <= j < |dps| && dps[j] == b;
      assert i == j;
    }
  }

  /** The discovery organizations whose uuid the registrar does not know, in order. */
  function OrgsToCreate(ds: seq<DiscoveryOrg>, orgs: map<string, OrgData>): (r: seq<DiscoveryOrg>)
    ensures forall d :: d in r <==> d in ds && d.uuid !in orgs
  {
    if ds == [] then []
    else
      var last := ds[|ds| - 1];
      assert forall d :: d in ds <==> d in ds[..|ds| - 1] || d == last;
      OrgsToCreate(ds[..|ds| - 1], orgs) + (if last.uuid !in orgs then [last] else [])
  }

  /** The known organizations whose name or key differs from discovery's, in order. */
  function OrgsToUpdate(ds: seq<DiscoveryOrg>, orgs: map<string, OrgData>): (r: seq<DiscoveryOrg>)
    ensures forall d :: d in r <==> d in ds && d.uuid in orgs && orgs[d.uuid] != OrgData(d.name, d.key)
  {
    if ds == [] then []
    else
      var last := ds[|ds| - 1];
      assert forall d :: d in ds <==> d in ds[..|ds| - 1] || d == last;
      OrgsToUpdate(ds[..|ds| - 1], orgs) +
        (if last.uuid in orgs && orgs[last.uuid] != OrgData(last.name, last.key) then [last] else [])
  }

  /**
   * The organization table after a bulk write of discovery organizations:
   * each one's row, keyed by uuid, holds discovery's name and key.
   */
  function WithOrgRows(orgs: map<string, OrgData>, ds: seq<DiscoveryOrg>): (r: map<string, OrgData>)
    ensures r.Keys == orgs.Keys + UuidsOf(ds)
  {
    if ds == [] then orgs
    else
      var last := ds[|ds| - 1];
      assert forall d :: d in ds <==> d in ds[..|ds| - 1] || d == last;
      WithOrgRows(orgs, ds[..|ds| - 1])[last.uuid := OrgData(last.name, last.key)]
  }

  /** Every organization written holds its own data afterwards. */
  lemma {:induction false} WithOrgRowsStores(orgs: map<string, OrgData>, ds: seq<DiscoveryOrg>)
    requires OrgsConsistent(ds)
    ensures forall d :: d in ds ==> d.uuid in WithOrgRows(orgs, ds) && WithOrgRows(orgs, ds)[d.uuid] == OrgData(d.name, d.key)
  {
    if ds != [] {
      var prefix := ds[..|ds| - 1];
      assert forall d :: d in ds <==> d in prefix || d == ds[|ds| - 1];
      WithOrgRowsStores(orgs, prefix);
    }
  }

  /** Rows whose uuid was not written keep their data. */
  lemma {:induction false} WithOrgRowsKeeps(orgs: map<string, OrgData>, ds: seq<DiscoveryOrg>)
    ensures forall u :: u in orgs && u !in UuidsOf(ds) ==> WithOrgRows(orgs, ds)[u] == orgs[u]
  {
    if ds != [] {
      var prefix := ds[..|ds| - 1];
      assert forall d :: d in prefix ==> d in ds;
      WithOrgRowsKeeps(orgs, prefix);
    }
  }

  /** The report group a created organization gets: `{key}_ReadOrganizationReports`, the organization and the report role. */
  function ReportGroupRow(d: DiscoveryOrg, id: int, role: string): OrgGroupRow
  {
    OrgGroupRow(id, OrgGroupName(d.key), d.uuid, role)
  }

  /** The report group each created organization gets, in creation order, with ids from `firstId` on. */
  function ReportGroupsFor(created: seq<DiscoveryOrg>, firstId: int, role: string): seq<OrgGroupRow>
  {
    if created == [] then []
    else
      var n := |created| - 1;
      ReportGroupsFor(created[..n], firstId, role) + [ReportGroupRow(created[n], firstId + n, role)]
  }

  /**
   * The i-th created organization gets the i-th group: named
   * `{key}_ReadOrganizationReports`, with the i-th id, the organization and
   * the report role.
   */
  lemma {:induction false} ReportGroupsForRows(created: seq<DiscoveryOrg>, firstId: int, role: string)
    ensures |ReportGroupsFor(created, firstId, role)| == |created|
    ensures forall i :: 0 <= i < |created| ==>
      ReportGroupsFor(created, firstId, role)[i] == OrgGroupRow(firstId + i, OrgGroupName(created[i].key), created[i].uuid, role)
  {
    if created != [] {
      var n := |created| - 1;
      ReportGroupsForRows(created[..n], firstId, role);
    }
  }

  /** The uuids of a list of discovery organizations. */
  function UuidsOf(ds: seq<DiscoveryOrg>): (uuids: set<string>)
    ensures forall u :: u in uuids <==> exists d :: d in ds && d.uuid == u
  {
    set d | d in ds :: d.uuid
  }

  /**
   * `update_org_groups` as written: every group of an updated organization
   * is renamed after the organization's new key, whatever its role.
   */
  function RenameGroupsAsWritten(groups: seq<OrgGroupRow>, orgs: map<string, OrgData>, updated: set<string>): (r: seq<OrgGroupRow>)
    ensures |r| == |groups|
    ensures forall i :: 0 <= i < |groups| ==>
      r[i] == if groups[i].orgUuid in updated && groups[i].orgUuid in orgs
              then groups[i].(name := OrgGroupName(orgs[groups[i].orgUuid].key)) else groups[i]
  {
    seq(|groups|, i requires 0 <= i < |groups| =>
      if groups[i].orgUuid in updated && groups[i].orgUuid in orgs
      then groups[i].(name := OrgGroupName(orgs[groups[i].orgUuid].key)) else groups[i])
  }

  /**
   * `update_org_groups` restricted to the report groups it names: only
   * groups with the report role are renamed after the new key.
   */
  function RenameReportGroups(groups: seq<OrgGroupRow>, orgs: map<string, OrgData>, updated: set<string>, role: string)
    : (r: seq<OrgGroupRow>)
    ensures |r| == |groups|
    ensures forall i :: 0 <= i < |groups| ==>
      r[i] == if groups[i].orgUuid in updated && groups[i].orgUuid in orgs && groups[i].role == role
              then groups[i].(name := OrgGroupName(orgs[groups[i].orgUuid].key)) else groups[i]
  {
    seq(|groups|, i requires 0 <= i < |groups| =>
      if groups[i].orgUuid in updated && groups[i].orgUuid in orgs && groups[i].role == role
      then groups[i].(name := OrgGroupName(orgs[groups[i].orgUuid].key)) else groups[i])
  }

  /** Every group that holds one of `grants` has an id below `bound`. */
  predicate GroupIdsBelow(grants: set<Grant>, bound: int)
  {
    forall g :: g in grants && g.holder.GroupHolder? ==> g.holder.group < bound
  }

  /** Handing out more ids keeps the ids of existing grants below the next one. */
  lemma GroupIdsBelowGrows(grants: set<Grant>, bound: int, bound': int)
    requires GroupIdsBelow(grants, bound) && bound <= bound'
    ensures GroupIdsBelow(grants, bound')
  {
  }

  /** With no updated organization, no group is renamed. */
  lemma RenameNoReportGroups(groups: seq<OrgGroupRow>, orgs: map<string, OrgData>, role: string)
    ensures RenameReportGroups(groups, orgs, UuidsOf([]), role) == groups
  {
    assert UuidsOf([]) == {};
  }

  /**
   * The renaming as written gives two groups of one updated organization
   * the same name, which the unique group names of the auth tables refuse;
   * so an organization with a second group cannot be renamed by the sync.
   */
  lemma RenameAsWrittenCollides(groups: seq<OrgGroupRow>, orgs: map<string, OrgData>, updated: set<string>, i: nat, j: nat)
    requires i < j < |groups| && groups[i].orgUuid == groups[j].orgUuid
    requires groups[i].orgUuid in updated && groups[i].orgUuid in orgs
    ensures RenameGroupsAsWritten(groups, orgs, updated)[i].name == RenameGroupsAsWritten(groups, orgs, updated)[j].name
  {
  }

  /** The smallest case: a report group and a metadata group of one organization whose key changes. */
  lemma RenameAsWrittenExample()
    ensures var orgs := map["u" := OrgData("Org", "new")];
      var groups := [OrgGroupRow(1, "old_ReadOrganizationReports", "u", "report"), OrgGroupRow(2, "old_metadata", "u", "metadata")];
      var r := RenameGroupsAsWritten(groups, orgs, {"u"});
      r[0].name == r[1].name == "new_ReadOrganizationReports"
  {
  }

  /**
   * The restricted renaming touches only report groups of updated
   * organizations, and two renamed groups share a name only when their
   * organizations share a key.
   */
  lemma RenameReportGroupsConfined(groups: seq<OrgGroupRow>, orgs: map<string, OrgData>, updated: set<string>, role: string)
    ensures var r := RenameReportGroups(groups, orgs, updated, role);
      forall i :: 0 <= i < |groups| && (groups[i].role != role || groups[i].orgUuid !in updated) ==> r[i] == groups[i]
    ensures var r := RenameReportGroups(groups, orgs, updated, role);
      forall i, j :: 0 <= i < |groups| && 0 <= j < |groups| && r[i] != groups[i] && r[j] != groups[j] && r[i].name == r[j].name ==>
        orgs[groups[i].orgUuid].key == orgs[groups[j].orgUuid].key
  {
    forall a: string, b: string ensures OrgGroupName(a) == OrgGroupName(b) ==> a == b {
      if OrgGroupName(a) == OrgGroupName(b) {
        assert a == OrgGroupName(a)[..|a|];
      }
    }
  }

  /** Whether the sync creates a program: one authoring organization, known, and a new program uuid. */
  predicate CreatesProgram(dp: DiscoveryProgram, orgs: map<string, OrgData>, programs: map<string, ProgramData>)
  {
    |dp.authoringOrgUuids| == 1 && dp.authoringOrgUuids[0].Some? && dp.authoringOrgUuids[0].value in orgs
    && dp.uuid !in programs
  }

  /** The discovery programs the sync creates, in order. */
  function ProgramsToCreate(dps: seq<DiscoveryProgram>, orgs: map<string, OrgData>, programs: map<string, ProgramData>)
    : (r: seq<DiscoveryProgram>)
    ensures forall dp :: dp in r <==> dp in dps && CreatesProgram(dp, orgs, programs)
  {
    if dps == [] then []
    else
      var last := dps[|dps| - 1];
      assert forall d :: d in dps <==> d in dps[..|dps| - 1] || d == last;
      ProgramsToCreate(dps[..|dps| - 1], orgs, programs) + (if CreatesProgram(last, orgs, programs) then [last] else [])
  }

  /** The uuid of a program's first authoring organization ("" when it has none). */
  function ManagingOrgUuid(dp: DiscoveryProgram): (org: string)
    ensures |dp.authoringOrgUuids| > 0 && dp.authoringOrgUuids[0].Some? ==> org == dp.authoringOrgUuids[0].value
  {
    if |dp.authoringOrgUuids| > 0 && dp.authoringOrgUuids[0].Some? then dp.authoringOrgUuids[0].value else ""
  }

  /** The uuids of a list of discovery programs. */
  function ProgramUuidsOf(dps: seq<DiscoveryProgram>): (uuids: set<string>)
    ensures forall u :: u in uuids <==> exists dp :: dp in dps && dp.uuid == u
  {
    set dp | dp in dps :: dp.uuid
  }

  /**
   * The program table after a bulk create: each program's row, keyed by
   * uuid, has the marketing slug as key and its authoring organization as
   * managing organization.
   */
  function WithProgramRows(programs: map<string, ProgramData>, dps: seq<DiscoveryProgram>): (r: map<string, ProgramData>)
    ensures r.Keys == programs.Keys + ProgramUuidsOf(dps)
  {
    if dps == [] then programs
    else
      var last := dps[|dps| - 1];
      assert forall d :: d in dps <==> d in dps[..|dps| - 1] || d == last;
      WithProgramRows(programs, dps[..|dps| - 1])[last.uuid := ProgramData(last.marketingSlug, ManagingOrgUuid(last))]
  }

  /** Every program written holds its own data afterwards. */
  lemma {:induction false} WithProgramRowsStores(programs: map<string, ProgramData>, dps: seq<DiscoveryProgram>)
    requires ProgramsConsistent(dps)
    ensures forall dp :: dp in dps ==>
      dp.uuid in WithProgramRows(programs, dps) && WithProgramRows(programs, dps)[dp.uuid] == ProgramData(dp.marketingSlug, ManagingOrgUuid(dp))
  {
    if dps != [] {
      var prefix := dps[..|dps| - 1];
      assert forall d :: d in dps <==> d in prefix || d == dps[|dps| - 1];
      WithProgramRowsStores(programs, prefix);
    }
  }

  /** Rows whose uuid was not written keep their data. */
  lemma {:induction false} WithProgramRowsKeeps(programs: map<string, ProgramData>, dps: seq<DiscoveryProgram>)
    ensures forall u :: u in programs && u !in ProgramUuidsOf(dps) ==> WithProgramRows(programs, dps)[u] == programs[u]
  {
    if dps != [] {
      var prefix := dps[..|dps| - 1];
      assert forall d :: d in prefix ==> d in dps;
      WithProgramRowsKeeps(programs, prefix);
    }
  }

  /**
   * The key of a program's managing organization. Discovery programs the
   * sync creates always have a known one; "" stands for none.
   */
  function ManagingOrgKey(dp: DiscoveryProgram, orgs: map<string, OrgData>): string
  {
    if ManagingOrgUuid(dp) in orgs then orgs[ManagingOrgUuid(dp)].key else ""
  }

  /** The report group a created program gets, named after its organization's key and its own key. */
  function ProgramGroupRowFor(dp: DiscoveryProgram, orgs: map<string, OrgData>, id: int, role: string): ProgramGroupRow
  {
    ProgramGroupRow(id, ProgramGroupName(ManagingOrgKey(dp, orgs), dp.marketingSlug), ManagingOrgUuid(dp), dp.uuid, role)
  }

  /** The report group each created program gets, in creation order, with ids from `firstId` on. */
  function ProgramGroupsFor(created: seq<DiscoveryProgram>, orgs: map<string, OrgData>, firstId: int, role: string)
    : seq<ProgramGroupRow>
  {
    if created == [] then []
    else
      var n := |created| - 1;
      ProgramGroupsFor(created[..n], orgs, firstId, role) + [ProgramGroupRowFor(created[n], orgs, firstId + n, role)]
  }

  /**
   * The i-th created program gets the i-th group: named after its
   * organization's key and its own key with `_ReadProgramReports`, with the
   * i-th id, the organization, the program and the report role.
   */
  lemma {:induction false} ProgramGroupsForRows(created: seq<DiscoveryProgram>, orgs: map<string, OrgData>, firstId: int, role: string)
    ensures |ProgramGroupsFor(created, orgs, firstId, role)| == |created|
    ensures forall i :: 0 <= i < |created| ==>
      ProgramGroupsFor(created, orgs, firstId, role)[i]
        == ProgramGroupRow(firstId + i, ProgramGroupName(ManagingOrgKey(created[i], orgs), created[i].marketingSlug),
                           ManagingOrgUuid(created[i]), created[i].uuid, role)
  {
    if created != [] {
      var n := |created| - 1;
      ProgramGroupsForRows(created[..n], orgs, firstId, role);
    }
  }

  /** No two organizations share a key. */
  predicate UniqueOrgKeys(orgs: map<string, OrgData>)
  {
    forall u, v :: u in orgs && v in orgs && u != v ==> orgs[u].key != orgs[v].key
  }

  /** No two programs share a key. */
  predicate UniqueProgramKeys(programs: map<string, ProgramData>)
  {
    forall u, v :: u in programs && v in programs && u != v ==> programs[u].key != programs[v].key
  }

  /** The group names organization groups hold, with repetitions. */
  function OrgGroupNames(groups: seq<OrgGroupRow>): multiset<string>
  {
    if groups == [] then multiset{} else OrgGroupNames(groups[..|groups| - 1]) + multiset{groups[|groups| - 1].name}
  }

  /** The group names program groups hold, with repetitions. */
  function ProgramGroupNames(groups: seq<ProgramGroupRow>): multiset<string>
  {
    if groups == [] then multiset{} else ProgramGroupNames(groups[..|groups| - 1]) + multiset{groups[|groups| - 1].name}
  }

  /** No name occurs twice. */
  predicate UniqueNames(names: multiset<string>)
  {
    forall x :: x in names ==> names[x] <= 1
  }

  /** One more name keeps the names unique exactly when it is new. */
  lemma UniqueNamesAdd(names: multiset<string>, x: string)
    ensures UniqueNames(names + multiset{x}) <==> UniqueNames(names) && x !in names
  {
    if UniqueNames(names + multiset{x}) {
      forall y | y in names ensures names[y] <= 1 {
        assert (names + multiset{x})[y] >= names[y];
      }
      assert (names + multiset{x})[x] == names[x] + 1;
    }
    if UniqueNames(names) && x !in names {
      forall y | y in names + multiset{x} ensures (names + multiset{x})[y] <= 1 {
        if y != x {
          assert y in names;
        }
      }
    }
  }

  /** The names after a row is added to organization groups. */
  lemma OrgGroupNamesPush(groups: seq<OrgGroupRow>, row: OrgGroupRow, others: multiset<string>)
    ensures OrgGroupNames(groups + [row]) + others == OrgGroupNames(groups) + others + multiset{row.name}
  {
    assert (groups + [row])[..|groups|] == groups;
  }

  /** The names after a row is added to program groups. */
  lemma ProgramGroupNamesPush(groups: seq<ProgramGroupRow>, row: ProgramGroupRow, others: multiset<string>)
    ensures others + ProgramGroupNames(groups + [row]) == others + ProgramGroupNames(groups) + multiset{row.name}
  {
    assert (groups + [row])[..|groups|] == groups;
  }

  /**
   * The grants the created organizations' report groups get: each group
   * holds `perms` on its organization.
   */
  function OrgGroupGrants(created: seq<DiscoveryOrg>, firstId: int, perms: set<string>, orgPk: string -> int): set<Grant>
  {
    if created == [] then {}
    else
      var n := |created| - 1;
      OrgGroupGrants(created[..n], firstId, perms, orgPk) + GrantsOf(perms, GroupHolder(firstId + n), OnOrganization(orgPk(created[n].uuid)))
  }

  /** The organization grants are the grants of each group and no others. */
  lemma OrgGroupGrantsMembers(created: seq<DiscoveryOrg>, firstId: int, perms: set<string>, orgPk: string -> int)
    ensures var g := OrgGroupGrants(created, firstId, perms, orgPk);
      forall x :: x in g ==> exists i ::
        && 0 <= i < |created|
        && x in GrantsOf(perms, GroupHolder(firstId + i), OnOrganization(orgPk(created[i].uuid)))
    ensures var g := OrgGroupGrants(created, firstId, perms, orgPk);
      forall i :: 0 <= i < |created| ==> GrantsOf(perms, GroupHolder(firstId + i), OnOrganization(orgPk(created[i].uuid))) <= g
  {
    OrgGroupGrantsOnlyOfGroups(created, firstId, perms, orgPk);
    OrgGroupGrantsOfEveryGroup(created, firstId, perms, orgPk);
  }

  lemma {:induction false} OrgGroupGrantsOnlyOfGroups(created: seq<DiscoveryOrg>, firstId: int, perms: set<string>, orgPk: string -> int)
    ensures forall x :: x in OrgGroupGrants(created, firstId, perms, orgPk) ==> exists i ::
      && 0 <= i < |created|
      && x in GrantsOf(perms, GroupHolder(firstId + i), OnOrganization(orgPk(created[i].uuid)))
  {
    if created != [] {
      var n := |created| - 1;
      var init := created[..n];
      OrgGroupGrantsOnlyOfGroups(init, firstId, perms, orgPk);
      var last := GrantsOf(perms, GroupHolder(firstId + n), OnOrganization(orgPk(created[n].uuid)));
      assert OrgGroupGrants(created, firstId, perms, orgPk) == OrgGroupGrants(init, firstId, perms, orgPk) + last;
      forall x | x in OrgGroupGrants(created, firstId, perms, orgPk)
        ensures exists i :: 0 <= i < |created| && x in GrantsOf(perms, GroupHolder(firstId + i), OnOrganization(orgPk(created[i].uuid)))
      {
        if x !in last {
          var i :| 0 <= i < n && x in GrantsOf(perms, GroupHolder(firstId + i), OnOrganization(orgPk(init[i].uuid)));
          assert init[i] == created[i];
        }
      }
    }
  }

  lemma {:induction false} OrgGroupGrantsOfEveryGroup(created: seq<DiscoveryOrg>, firstId: int, perms: set<string>, orgPk: string -> int)
    ensures forall i :: 0 <= i < |created| ==> GrantsOf(perms, GroupHolder(firstId + i), OnOrganization(orgPk(created[i].uuid))) <= OrgGroupGrants(created, firstId, perms, orgPk)
  {
    if created != [] {
      var n := |created| - 1;
      var init := created[..n];
      OrgGroupGrantsOfEveryGroup(init, firstId, perms, orgPk);
      var g := OrgGroupGrants(created, firstId, perms, orgPk);
      assert g == OrgGroupGrants(init, firstId, perms, orgPk) + GrantsOf(perms, GroupHolder(firstId + n), OnOrganization(orgPk(created[n].uuid)));
      forall i | 0 <= i < n
        ensures GrantsOf(perms, GroupHolder(firstId + i), OnOrganization(orgPk(created[i].uuid))) <= g
      {
        assert init[i] == created[i];
        assert GrantsOf(perms, GroupHolder(firstId + i), OnOrganization(orgPk(init[i].uuid))) <= OrgGroupGrants(init, firstId, perms, orgPk);
      }
    }
  }

  /** The grants the created programs' report groups get: each group holds `perms` on its program. */
  function ProgramGroupGrants(created: seq<DiscoveryProgram>, firstId: int, perms: set<string>, programPk: string -> int): set<Grant>
  {
    if created == [] then {}
    else
      var n := |created| - 1;
      ProgramGroupGrants(created[..n], firstId, perms, programPk) + GrantsOf(perms, GroupHolder(firstId + n), OnProgram(programPk(created[n].uuid)))
  }

  /** The program grants are the grants of each group and no others. */
  lemma ProgramGroupGrantsMembers(created: seq<DiscoveryProgram>, firstId: int, perms: set<string>, programPk: string -> int)
    ensures var g := ProgramGroupGrants(created, firstId, perms, programPk);
      forall x :: x in g ==> exists i ::
        && 0 <= i < |created|
        && x in GrantsOf(perms, GroupHolder(firstId + i), OnProgram(programPk(created[i].uuid)))
    ensures var g := ProgramGroupGrants(created, firstId, perms, programPk);
      forall i :: 0 <= i < |created| ==> GrantsOf(perms, GroupHolder(firstId + i), OnProgram(programPk(created[i].uuid))) <= g
  {
    ProgramGroupGrantsOnlyOfGroups(created, firstId, perms, programPk);
    ProgramGroupGrantsOfEveryGroup(created, firstId, perms, programPk);
  }

  lemma {:induction false} ProgramGroupGrantsOnlyOfGroups(created: seq<DiscoveryProgram>, firstId: int, perms: set<string>, programPk: string -> int)
    ensures forall x :: x in ProgramGroupGrants(created, firstId, perms, programPk) ==> exists i ::
      && 0 <= i < |created|
      && x in GrantsOf(perms, GroupHolder(firstId + i), OnProgram(programPk(created[i].uuid)))
  {
    if created != [] {
      var n := |created| - 1;
      var init := created[..n];
      ProgramGroupGrantsOnlyOfGroups(init, firstId, perms, programPk);
      var last := GrantsOf(perms, GroupHolder(firstId + n), OnProgram(programPk(created[n].uuid)));
      assert ProgramGroupGrants(created, firstId, perms, programPk) == ProgramGroupGrants(init, firstId, perms, programPk) + last;
      forall x | x in ProgramGroupGrants(created, firstId, perms, programPk)
        ensures exists i :: 0 <= i < |created| && x in GrantsOf(perms, GroupHolder(firstId + i), OnProgram(programPk(created[i].uuid)))
      {
        if x !in last {
          var i :| 0 <= i < n && x in GrantsOf(perms, GroupHolder(firstId + i), OnProgram(programPk(init[i].uuid)));
          assert init[i] == created[i];
        }
      }
    }
  }

  lemma {:induction false} ProgramGroupGrantsOfEveryGroup(created: seq<DiscoveryProgram>, firstId: int, perms: set<string>, programPk: string -> int)
    ensures forall i :: 0 <= i < |created| ==> GrantsOf(perms, GroupHolder(firstId + i), OnProgram(programPk(created[i].uuid))) <= ProgramGroupGrants(created, firstId, perms, programPk)
  {
    if created != [] {
      var n := |created| - 1;
      var init := created[..n];
      ProgramGroupGrantsOfEveryGroup(init, firstId, perms, programPk);
      var g := ProgramGroupGrants(created, firstId, perms, programPk);
      assert g == ProgramGroupGrants(init, firstId, perms, programPk) + GrantsOf(perms, GroupHolder(firstId + n), OnProgram(programPk(created[n].uuid)));
      forall i | 0 <= i < n
        ensures GrantsOf(perms, GroupHolder(firstId + i), OnProgram(programPk(created[i].uuid))) <= g
      {
        assert init[i] == created[i];
        assert GrantsOf(perms, GroupHolder(firstId + i), OnProgram(programPk(init[i].uuid))) <= ProgramGroupGrants(init, firstId, perms, programPk);
      }
    }
  }

  /**
   * Each new organization's report group holds exactly `perms` on that
   * organization and nothing elsewhere.
   */
  lemma OrgGroupGrantsExact(created: seq<DiscoveryOrg>, firstId: int, perms: set<string>, orgPk: string -> int,
                            i: int, perm: string, target: Target)
    requires 0 <= i < |created|
    ensures Grant(GroupHolder(firstId + i), perm, target) in OrgGroupGrants(created, firstId, perms, orgPk)
        <==> target == OnOrganization(orgPk(created[i].uuid)) && perm in perms
  {
    var x := Grant(GroupHolder(firstId + i), perm, target);
    OrgGroupGrantsMembers(created, firstId, perms, orgPk);
    if x in OrgGroupGrants(created, firstId, perms, orgPk) {
      var j :| 0 <= j < |created| && x in GrantsOf(perms, GroupHolder(firstId + j), OnOrganization(orgPk(created[j].uuid)));
      assert j == i;
    }
  }

  /** Each new program's report group holds exactly `perms` on that program and nothing elsewhere. */
  lemma ProgramGroupGrantsExact(created: seq<DiscoveryProgram>, firstId: int, perms: set<string>, programPk: string -> int,
                                i: int, perm: string, target: Target)
    requires 0 <= i < |created|
    ensures Grant(GroupHolder(firstId + i), perm, target) in ProgramGroupGrants(created, firstId, perms, programPk)
        <==> target == OnProgram(programPk(created[i].uuid)) && perm in perms
  {
    var x := Grant(GroupHolder(firstId + i), perm, target);
    ProgramGroupGrantsMembers(created, firstId, perms, programPk);
    if x in ProgramGroupGrants(created, firstId, perms, programPk) {
      var j :| 0 <= j < |created| && x in GrantsOf(perms, GroupHolder(firstId + j), OnProgram(programPk(created[j].uuid)));
      assert j == i;
    }
  }

  /** One more created organization: its report group's grants are added. */
  lemma OrgGrantsStep(created: seq<DiscoveryOrg>, firstId: int, perms: set<string>, orgPk: string -> int, i: int, id: int)
    requires 0 <= i < |created| && id == firstId + i
    ensures OrgGroupGrants(created[..i + 1], firstId, perms, orgPk)
         == OrgGroupGrants(created[..i], firstId, perms, orgPk) + GrantsOf(perms, GroupHolder(id), OnOrganization(orgPk(created[i].uuid)))
  {
    assert created[..i + 1][..i] == created[..i];
  }

  /** One more created program: its report group's grants are added. */
  lemma ProgramGrantsStep(created: seq<DiscoveryProgram>, firstId: int, perms: set<string>, programPk: string -> int, i: int, id: int)
    requires 0 <= i < |created| && id == firstId + i
    ensures ProgramGroupGrants(created[..i + 1], firstId, perms, programPk)
         == ProgramGroupGrants(created[..i], firstId, perms, programPk) + GrantsOf(perms, GroupHolder(id), OnProgram(programPk(created[i].uuid)))
  {
    assert created[..i + 1][..i] == created[..i];
  }

  /**
   * One report group of `create_org_groups` on values: the group of `d` is
   * inserted after `groups` unless its name is among theirs and `others`
   * (the names program groups hold), and its save fails when the report
   * role is not an organization role.
   */
  function AddOrgGroup(groups: seq<OrgGroupRow>, others: multiset<string>, d: DiscoveryOrg, id: int, role: string)
    : Result<seq<OrgGroupRow>, SyncError>
  {
    var row := ReportGroupRow(d, id, role);
    if row.name in OrgGroupNames(groups) + others then Err(GroupNameTaken)
    else if CoreModels.RoleNamed(OrganizationRoles, role).None? then Err(RoleNotFound(role))
    else Ok(groups + [row])
  }

  /**
   * `create_org_groups` on values: the created organizations' report groups
   * are inserted one by one; the first failure stops the run.
   */
  function AddOrgGroups(groups: seq<OrgGroupRow>, others: multiset<string>, created: seq<DiscoveryOrg>, firstId: int, role: string)
    : Result<seq<OrgGroupRow>, SyncError>
  {
    if created == [] then Ok(groups)
    else
      var n := |created| - 1;
      match AddOrgGroups(groups, others, created[..n], firstId, role)
      case Err(e) => Err(e)
      case Ok(after) => AddOrgGroup(after, others, created[n], firstId + n, role)
  }

  /** One more organization in the run: its report group is added after the rows so far. */
  lemma AddOrgGroupsStep(groups: seq<OrgGroupRow>, others: multiset<string>, created: seq<DiscoveryOrg>, firstId: int, role: string,
                         i: int, after: seq<OrgGroupRow>, id: int)
    requires 0 <= i < |created| && id == firstId + i && AddOrgGroups(groups, others, created[..i], firstId, role) == Ok(after)
    ensures AddOrgGroups(groups, others, created[..i + 1], firstId, role) == AddOrgGroup(after, others, created[i], id, role)
  {
    assert created[..i + 1][..i] == created[..i];
  }

  /** Once a prefix of the run fails, the whole run fails the same way. */
  lemma {:induction false} AddOrgGroupsErrorPersists(groups: seq<OrgGroupRow>, others: multiset<string>, created: seq<DiscoveryOrg>,
                                                     firstId: int, role: string, n: nat)
    requires n <= |created| && AddOrgGroups(groups, others, created[..n], firstId, role).Err?
    ensures AddOrgGroups(groups, others, created, firstId, role) == AddOrgGroups(groups, others, created[..n], firstId, role)
    decreases |created| - n
  {
    if n < |created| {
      assert created[..n + 1][..n] == created[..n];
      AddOrgGroupsErrorPersists(groups, others, created, firstId, role, n + 1);
    } else {
      assert created[..n] == created;
    }
  }

  /**
   * Starting from unique names, the run commits exactly when the report role
   * is an organization role (or nothing is created) and the names stay
   * unique with the new report groups; it then adds `ReportGroupsFor`.
   */
  lemma {:induction false} AddOrgGroupsMeaning(groups: seq<OrgGroupRow>, others: multiset<string>, created: seq<DiscoveryOrg>,
                                               firstId: int, role: string)
    requires UniqueNames(OrgGroupNames(groups) + others)
    ensures AddOrgGroups(groups, others, created, firstId, role).Ok? <==>
      && (created == [] || CoreModels.RoleNamed(OrganizationRoles, role).Some?)
      && UniqueNames(OrgGroupNames(groups + ReportGroupsFor(created, firstId, role)) + others)
    ensures AddOrgGroups(groups, others, created, firstId, role).Ok? ==>
      AddOrgGroups(groups, others, created, firstId, role).value == groups + ReportGroupsFor(created, firstId, role)
  {
    if created == [] {
      assert groups + [] == groups;
    } else {
      var n := |created| - 1;
      var row := ReportGroupRow(created[n], firstId + n, role);
      var before := groups + ReportGroupsFor(created[..n], firstId, role);
      AddOrgGroupsMeaning(groups, others, created[..n], firstId, role);
      assert groups + ReportGroupsFor(created, firstId, role) == before + [row];
      OrgGroupNamesPush(before, row, others);
      UniqueNamesAdd(OrgGroupNames(before) + others, row.name);
    }
  }

  /**
   * One report group of `create_program_org_groups` on values: the group of
   * `dp` is inserted after `groups` unless its name is among `others` (the
   * names organization groups hold) and theirs, and its save fails when the
   * report role is not one of `roles`.
   */
  function AddProgramGroup(groups: seq<ProgramGroupRow>, others: multiset<string>, dp: DiscoveryProgram,
                           orgs: map<string, OrgData>, id: int, role: string, roles: seq<OrganizationRole>)
    : Result<seq<ProgramGroupRow>, SyncError>
  {
    var row := ProgramGroupRowFor(dp, orgs, id, role);
    if row.name in others + ProgramGroupNames(groups) then Err(GroupNameTaken)
    else if CoreModels.RoleNamed(roles, role).None? then Err(RoleNotFound(role))
    else Ok(groups + [row])
  }

  /**
   * `create_program_org_groups` on values: the created programs' report
   * groups are inserted one by one; the first failure stops the run.
   */
  function AddProgramGroups(groups: seq<ProgramGroupRow>, others: multiset<string>, created: seq<DiscoveryProgram>,
                            orgs: map<string, OrgData>, firstId: int, role: string, roles: seq<OrganizationRole>)
    : Result<seq<ProgramGroupRow>, SyncError>
  {
    if created == [] then Ok(groups)
    else
      var n := |created| - 1;
      match AddProgramGroups(groups, others, created[..n], orgs, firstId, role, roles)
      case Err(e) => Err(e)
      case Ok(after) => AddProgramGroup(after, others, created[n], orgs, firstId + n, role, roles)
  }

  /** One more program in the run: its report group is added after the rows so far. */
  lemma AddProgramGroupsStep(groups: seq<ProgramGroupRow>, others: multiset<string>, created: seq<DiscoveryProgram>,
                             orgs: map<string, OrgData>, firstId: int, role: string, roles: seq<OrganizationRole>,
                             i: int, after: seq<ProgramGroupRow>, id: int)
    requires 0 <= i < |created| && id == firstId + i && AddProgramGroups(groups, others, created[..i], orgs, firstId, role, roles) == Ok(after)
    ensures AddProgramGroups(groups, others, created[..i + 1], orgs, firstId, role, roles)
         == AddProgramGroup(after, others, created[i], orgs, id, role, roles)
  {
    var prefix := created[..i + 1];
    assert prefix[..|prefix| - 1] == created[..i];
    AddProgramGroupsLast(groups, others, prefix, orgs, firstId, role, roles, created[..i], created[i], id);
  }

  lemma AddProgramGroupsLast(groups: seq<ProgramGroupRow>, others: multiset<string>, created: seq<DiscoveryProgram>,
                             orgs: map<string, OrgData>, firstId: int, role: string, roles: seq<OrganizationRole>,
                             init: seq<DiscoveryProgram>, last: DiscoveryProgram, id: int)
    requires created != [] && init == created[..|created| - 1] && last == created[|created| - 1] && id == firstId + |init|
    ensures AddProgramGroups(groups, others, init, orgs, firstId, role, roles).Ok? ==>
      AddProgramGroups(groups, others, created, orgs, firstId, role, roles)
      == AddProgramGroup(AddProgramGroups(groups, others, init, orgs, firstId, role, roles).value, others, last, orgs, id, role, roles)
    ensures AddProgramGroups(groups, others, init, orgs, firstId, role, roles).Err? ==>
      AddProgramGroups(groups, others, created, orgs, firstId, role, roles) == AddProgramGroups(groups, others, init, orgs, firstId, role, roles)
  {
    var n := |created| - 1;
    assert created[..n] == init && created[n] == last && firstId + n == id;
  }

  /** Once a prefix of the run fails, the whole run fails the same way. */
  lemma {:induction false} AddProgramGroupsErrorPersists(groups: seq<ProgramGroupRow>, others: multiset<string>,
                                                         created: seq<DiscoveryProgram>, orgs: map<string, OrgData>,
                                                         firstId: int, role: string, roles: seq<OrganizationRole>, n: nat)
    requires n <= |created| && AddProgramGroups(groups, others, created[..n], orgs, firstId, role, roles).Err?
    ensures AddProgramGroups(groups, others, created, orgs, firstId, role, roles)
         == AddProgramGroups(groups, others, created[..n], orgs, firstId, role, roles)
    decreases |created| - n
  {
    if n < |created| {
      assert created[..n + 1][..n] == created[..n];
      AddProgramGroupsErrorPersists(groups, others, created, orgs, firstId, role, roles, n + 1);
    } else {
      assert created[..n] == created;
    }
  }

  /**
   * Starting from unique names, the run commits exactly when the report role
   * is a program role (or nothing is created) and the names stay unique with
   * the new report groups; it then adds `ProgramGroupsFor`.
   */
  lemma {:induction false} AddProgramGroupsMeaning(groups: seq<ProgramGroupRow>, others: multiset<string>,
                                                   created: seq<DiscoveryProgram>, orgs: map<string, OrgData>,
                                                   firstId: int, role: string, roles: seq<OrganizationRole>)
    requires UniqueNames(others + ProgramGroupNames(groups))
    ensures AddProgramGroups(groups, others, created, orgs, firstId, role, roles).Ok? <==>
      && (created == [] || CoreModels.RoleNamed(roles, role).Some?)
      && UniqueNames(others + ProgramGroupNames(groups + ProgramGroupsFor(created, orgs, firstId, role)))
    ensures AddProgramGroups(groups, others, created, orgs, firstId, role, roles).Ok? ==>
      AddProgramGroups(groups, others, created, orgs, firstId, role, roles).value == groups + ProgramGroupsFor(created, orgs, firstId, role)
  {
    if created == [] {
      assert groups + [] == groups;
    } else {
      var n := |created| - 1;
      var init := created[..n];
      var row := ProgramGroupRowFor(created[n], orgs, firstId + n, role);
      var before := groups + ProgramGroupsFor(init, orgs, firstId, role);
      AddProgramGroupsMeaning(groups, others, init, orgs, firstId, role, roles);
      AddProgramGroupsLast(groups, others, created, orgs, firstId, role, roles, init, created[n], firstId + n);
      assert ProgramGroupsFor(created, orgs, firstId, role) == ProgramGroupsFor(init, orgs, firstId, role) + [row];
      assert groups + ProgramGroupsFor(created, orgs, firstId, role) == before + [row];
      ProgramGroupNamesPush(before, row, others);
      UniqueNamesAdd(others + ProgramGroupNames(before), row.name);
      if AddProgramGroups(groups, others, init, orgs, firstId, role, roles).Ok? {
        AddProgramGroupMeaning(before, others, created[n], orgs, firstId + n, role, roles);
      }
    }
  }

  /** One insertion after rows with unique names commits exactly when the report role is a program role and the new name is free. */
  lemma AddProgramGroupMeaning(before: seq<ProgramGroupRow>, others: multiset<string>, dp: DiscoveryProgram,
                               orgs: map<string, OrgData>, id: int, role: string, roles: seq<OrganizationRole>)
    requires UniqueNames(others + ProgramGroupNames(before))
    ensures var row := ProgramGroupRowFor(dp, orgs, id, role);
      && (AddProgramGroup(before, others, dp, orgs, id, role, roles).Ok? <==>
            CoreModels.RoleNamed(roles, role).Some? && UniqueNames(others + ProgramGroupNames(before + [row])))
      && (AddProgramGroup(before, others, dp, orgs, id, role, roles).Ok? ==>
            AddProgramGroup(before, others, dp, orgs, id, role, roles).value == before + [row])
  {
    var row := ProgramGroupRowFor(dp, orgs, id, role);
    ProgramGroupNamesPush(before, row, others);
    UniqueNamesAdd(others + ProgramGroupNames(before), row.name);
  }

  /** The organizations after both bulk writes of `sync_organizations`. */
  function SyncedOrgs(ds: seq<DiscoveryOrg>, orgs: map<string, OrgData>): map<string, OrgData>
  {
    WithOrgRows(WithOrgRows(orgs, OrgsToCreate(ds, orgs)), OrgsToUpdate(ds, orgs))
  }

  /** The organization groups after `sync_organizations`: new report groups added, then renamed. */
  function SyncedOrgGroups(ds: seq<DiscoveryOrg>, orgs: map<string, OrgData>, orgGroups: seq<OrgGroupRow>, firstId: int, role: string)
    : seq<OrgGroupRow>
  {
    RenameReportGroups(orgGroups + ReportGroupsFor(OrgsToCreate(ds, orgs), firstId, role), SyncedOrgs(ds, orgs),
                       UuidsOf(OrgsToUpdate(ds, orgs)), role)
  }

  /**
   * When `sync_organizations` commits: the bulk create and the bulk update
   * keep organization keys unique, the report role is an organization role
   * (if any group is created), and group names stay unique after the report
   * groups are created and after they are renamed.
   */
  predicate OrgSyncSucceeds(ds: seq<DiscoveryOrg>, orgs: map<string, OrgData>, orgGroups: seq<OrgGroupRow>,
                            programGroups: seq<ProgramGroupRow>, firstId: int, role: string)
  {
    var toCreate := OrgsToCreate(ds, orgs);
    var orgs1 := WithOrgRows(orgs, toCreate);
    var groups1 := orgGroups + ReportGroupsFor(toCreate, firstId, role);
    && UniqueOrgKeys(orgs1)
    && (toCreate == [] || CoreModels.RoleNamed(OrganizationRoles, role).Some?)
    && UniqueNames(OrgGroupNames(groups1) + ProgramGroupNames(programGroups))
    && UniqueOrgKeys(SyncedOrgs(ds, orgs))
    && UniqueNames(OrgGroupNames(SyncedOrgGroups(ds, orgs, orgGroups, firstId, role)) + ProgramGroupNames(programGroups))
  }

  /**
   * When `sync_programs` commits: the bulk create keeps program keys unique,
   * the report role is a program role (if any program is created), and the
   * new report groups' names are new and distinct.
   */
  predicate ProgramSyncSucceeds(dps: seq<DiscoveryProgram>, orgs: map<string, OrgData>, programs: map<string, ProgramData>,
                                orgGroups: seq<OrgGroupRow>, programGroups: seq<ProgramGroupRow>, firstId: int,
                                role: string, programRoles: seq<OrganizationRole>)
  {
    var toCreate := ProgramsToCreate(dps, orgs, programs);
    && UniqueProgramKeys(WithProgramRows(programs, toCreate))
    && (toCreate == [] || CoreModels.RoleNamed(programRoles, role).Some?)
    && UniqueNames(OrgGroupNames(orgGroups) + ProgramGroupNames(programGroups + ProgramGroupsFor(toCreate, orgs, firstId, role)))
  }

  /** `sync_programs` started from equal tables and group ids gives equal outcomes. */
  lemma ProgramSyncFrom(dps: seq<DiscoveryProgram>, role: string, roles: seq<OrganizationRole>, programPk: string -> int,
                        orgs: map<string, OrgData>, orgs': map<string, OrgData>,
                        programs: map<string, ProgramData>, programs': map<string, ProgramData>,
                        orgGroups: seq<OrgGroupRow>, orgGroups': seq<OrgGroupRow>,
                        programGroups: seq<ProgramGroupRow>, programGroups': seq<ProgramGroupRow>, a: int, b: int)
    requires orgs == orgs' && programs == programs' && orgGroups == orgGroups' && programGroups == programGroups' && a == b
    ensures ProgramSyncSucceeds(dps, orgs, programs, orgGroups, programGroups, a, role, roles)
         == ProgramSyncSucceeds(dps, orgs', programs', orgGroups', programGroups', b, role, roles)
    ensures ProgramsToCreate(dps, orgs, programs) == ProgramsToCreate(dps, orgs', programs')
    ensures ProgramGroupsFor(ProgramsToCreate(dps, orgs, programs), orgs, a, role)
         == ProgramGroupsFor(ProgramsToCreate(dps, orgs', programs'), orgs', b, role)
    ensures ProgramGroupGrants(ProgramsToCreate(dps, orgs, programs), a, CoreModels.RolePerms(roles, role), programPk)
         == ProgramGroupGrants(ProgramsToCreate(dps, orgs', programs'), b, CoreModels.RolePerms(roles, role), programPk)
  {
  }

  /** One discovery organization after both bulk writes: it holds discovery's name and key. */
  lemma SyncedOrgHoldsDiscoveryData(ds: seq<DiscoveryOrg>, orgs: map<string, OrgData>, d: DiscoveryOrg)
    requires OrgsConsistent(ds) && d in ds
    ensures var after := WithOrgRows(WithOrgRows(orgs, OrgsToCreate(ds, orgs)), OrgsToUpdate(ds, orgs));
      d.uuid in after && after[d.uuid] == OrgData(d.name, d.key)
  {
    var toCreate := OrgsToCreate(ds, orgs);
    var toUpdate := OrgsToUpdate(ds, orgs);
    var middle := WithOrgRows(orgs, toCreate);
    if d.uuid in UuidsOf(toUpdate) {
      var e :| e in toUpdate && e.uuid == d.uuid;
      assert e == d;
      WithOrgRowsStores(middle, toUpdate);
    } else {
      WithOrgRowsKeeps(middle, toUpdate);
      if d in toCreate {
        WithOrgRowsStores(orgs, toCreate);
      } else {
        assert d.uuid !in UuidsOf(toCreate);
        WithOrgRowsKeeps(orgs, toCreate);
      }
    }
  }

  /**
   * After the organization sync every discovery organization is stored with
   * discovery's name and key, the table gains exactly the new uuids, and no
   * other organization changes.
   */
  lemma OrganizationsSynced(ds: seq<DiscoveryOrg>, orgs: map<string, OrgData>)
    requires DistinctOrgUuids(ds)
    ensures var after := WithOrgRows(WithOrgRows(orgs, OrgsToCreate(ds, orgs)), OrgsToUpdate(ds, orgs));
      && (forall i :: 0 <= i < |ds| ==> ds[i].uuid in after && after[ds[i].uuid] == OrgData(ds[i].name, ds[i].key))
      && after.Keys == orgs.Keys + UuidsOf(ds)
      && (forall u :: u in orgs && u !in UuidsOf(ds) ==> after[u] == orgs[u])
  {
    DistinctOrgsConsistent(ds);
    forall i | 0 <= i < |ds| {
      SyncedOrgHoldsDiscoveryData(ds, orgs, ds[i]);
    }
    SyncedOrgsKeys(ds, orgs);
    SyncedOrgsKeep(ds, orgs);
  }

  lemma SyncedOrgsKeys(ds: seq<DiscoveryOrg>, orgs: map<string, OrgData>)
    ensures SyncedOrgs(ds, orgs).Keys == orgs.Keys + UuidsOf(ds)
  {
    var toCreate := OrgsToCreate(ds, orgs);
    var toUpdate := OrgsToUpdate(ds, orgs);
    assert UuidsOf(toCreate) <= UuidsOf(ds) && UuidsOf(toUpdate) <= UuidsOf(ds);
    assert UuidsOf(ds) <= orgs.Keys + UuidsOf(toCreate);
  }

  lemma SyncedOrgsKeep(ds: seq<DiscoveryOrg>, orgs: map<string, OrgData>)
    ensures forall u :: u in orgs && u !in UuidsOf(ds) ==> SyncedOrgs(ds, orgs)[u] == orgs[u]
  {
    var toCreate := OrgsToCreate(ds, orgs);
    var toUpdate := OrgsToUpdate(ds, orgs);
    assert UuidsOf(toCreate) <= UuidsOf(ds) && UuidsOf(toUpdate) <= UuidsOf(ds);
    WithOrgRowsKeeps(orgs, toCreate);
    WithOrgRowsKeeps(WithOrgRows(orgs, toCreate), toUpdate);
  }

  /**
   * The program sync never changes an existing program, never creates one
   * with several authoring organizations, and creates exactly the programs
   * `CreatesProgram` admits, keyed by marketing slug and managed by their
   * authoring organization.
   */
  lemma ProgramSyncRules(dps: seq<DiscoveryProgram>, orgs: map<string, OrgData>, programs: map<string, ProgramData>)
    requires DistinctProgramUuids(dps)
    ensures var after := WithProgramRows(programs, ProgramsToCreate(dps, orgs, programs));
      && (forall u :: u in programs ==> u in after && after[u] == programs[u])
      && (forall i :: 0 <= i < |dps| && |dps[i].authoringOrgUuids| > 1 && dps[i].uuid !in programs ==> dps[i].uuid !in after)
      && (forall i :: 0 <= i < |dps| && CreatesProgram(dps[i], orgs, programs) ==>
            dps[i].uuid in after && after[dps[i].uuid] == ProgramData(dps[i].marketingSlug, dps[i].authoringOrgUuids[0].value))
      && (forall u :: u in after && u !in programs ==> exists i :: 0 <= i < |dps| && dps[i].uuid == u && CreatesProgram(dps[i], orgs, programs))
  {
    DistinctProgramsConsistent(dps);
    var created := ProgramsToCreate(dps, orgs, programs);
    WithProgramRowsStores(programs, created);
    WithProgramRowsKeeps(programs, created);
    assert forall dp :: dp in created ==> dp in dps && |dp.authoringOrgUuids| == 1 && dp.uuid !in programs;
    NewProgramsAdmitted(dps, orgs, programs);
  }

  /** Every program the sync adds comes from a discovery program `CreatesProgram` admits. */
  lemma NewProgramsAdmitted(dps: seq<DiscoveryProgram>, orgs: map<string, OrgData>, programs: map<string, ProgramData>)
    ensures var after := WithProgramRows(programs, ProgramsToCreate(dps, orgs, programs));
      forall u :: u in after && u !in programs ==> exists i :: 0 <= i < |dps| && dps[i].uuid == u && CreatesProgram(dps[i], orgs, programs)
  {
    var created := ProgramsToCreate(dps, orgs, programs);
    WithProgramRowsKeeps(programs, created);
    forall u | u in WithProgramRows(programs, created) && u !in programs
      ensures exists i :: 0 <= i < |dps| && dps[i].uuid == u && CreatesProgram(dps[i], orgs, programs)
    {
      var dp :| dp in created && dp.uuid == u;
      var i :| 0 <= i < |dps| && dps[i] == dp;
    }
  }

  /** The registrar's tables the command reads and writes, and the Guardian grants group saves write. */
  class Catalogue {
    var orgs: map<string, OrgData>
    var orgGroups: seq<OrgGroupRow>
    var programs: map<string, ProgramData>
    var programGroups: seq<ProgramGroupRow>
    /** The id the next inserted group gets. */
    var nextGroupId: int
    /** `OrganizationReadReportRole.name` and `ProgramReadReportRole.name`. */
    const orgReportRole: string
    const programReportRole: string
    /** `PROGRAM_ROLES` and `PROGRAM_PERMISSIONS`, which program groups' saves use. */
    const programRoles: seq<OrganizationRole>
    const programPermissions: set<string>
    /** The primary keys the database gives an organization or a program, by discovery uuid. */
    const orgPk: string -> int
    const programPk: string -> int
    const store: PermissionStore

    constructor (orgs: map<string, OrgData>, orgGroups: seq<OrgGroupRow>, programs: map<string, ProgramData>,
                 programGroups: seq<ProgramGroupRow>, nextGroupId: int, orgReportRole: string, programReportRole: string,
                 programRoles: seq<OrganizationRole>, programPermissions: set<string>,
                 orgPk: string -> int, programPk: string -> int, store: PermissionStore)
      ensures this.orgs == orgs && this.orgGroups == orgGroups && this.programs == programs
      ensures this.programGroups == programGroups && this.nextGroupId == nextGroupId
      ensures this.orgReportRole == orgReportRole && this.programReportRole == programReportRole
      ensures this.programRoles == programRoles && this.programPermissions == programPermissions
      ensures this.orgPk == orgPk && this.programPk == programPk && this.store == store
    {
      this.orgs := orgs;
      this.orgGroups := orgGroups;
      this.programs := programs;
      this.programGroups := programGroups;
      this.nextGroupId := nextGroupId;
      this.orgReportRole := orgReportRole;
      this.programReportRole := programReportRole;
      this.programRoles := programRoles;
      this.programPermissions := programPermissions;
      this.orgPk := orgPk;
      this.programPk := programPk;
      this.store := store;
    }

    /** No group grant names a group id not yet handed out. */
    predicate IdsFresh()
      reads this, store
    {
      GroupIdsBelow(store.grants, nextGroupId)
    }

    /** The names of all organization and program groups, with repetitions. */
    function GroupNames(): multiset<string>
      reads this
    {
      OrgGroupNames(orgGroups) + ProgramGroupNames(programGroups)
    }

    /** What the database's unique constraints keep, and fresh group ids. */
    predicate Valid()
      reads this, store
    {
      && UniqueOrgKeys(orgs) && UniqueProgramKeys(programs)
      && UniqueNames(GroupNames())
      && IdsFresh()
    }

    /**
     * A bulk create or bulk update of organizations: the rows are applied
     * in turn to a copy of the table, and the statement fails, writing
     * nothing, when two organizations would share a key.
     */
    method WriteOrganizations(rows: seq<DiscoveryOrg>) returns (r: Result<(), SyncError>)
      modifies this
      ensures r.Ok? <==> UniqueOrgKeys(WithOrgRows(old(orgs), rows))
      ensures r.Ok? ==> orgs == WithOrgRows(old(orgs), rows)
      ensures r.Err? ==> r.error == OrgKeyTaken && orgs == old(orgs)
      ensures orgGroups == old(orgGroups) && programs == old(programs) && programGroups == old(programGroups)
      ensures nextGroupId == old(nextGroupId)
    {
      var table := orgs;
      for i := 0 to |rows|
        invariant table == WithOrgRows(orgs, rows[..i])
      {
        assert rows[..i + 1][..i] == rows[..i];
        table := table[rows[i].uuid := OrgData(rows[i].name, rows[i].key)];
      }
      assert rows[..|rows|] == rows;
      if !UniqueOrgKeys(table) {
        return Err(OrgKeyTaken);
      }
      orgs := table;
      r := Ok(());
    }

    /**
     * One report group of `create_org_groups`: inserted unless its name is
     * taken, then saved, which gives it the report role's permissions on its
     * organization or fails when the role is not an organization role.
     */
    method CreateOrgGroup(org: DiscoveryOrg) returns (r: Result<(), SyncError>)
      requires IdsFresh()
      modifies this, store
      ensures orgs == old(orgs) && programs == old(programs) && programGroups == old(programGroups)
      ensures match AddOrgGroup(old(orgGroups), ProgramGroupNames(programGroups), org, old(nextGroupId), orgReportRole)
        case Err(e) => r == Err(e)
        case Ok(after) =>
          && r.Ok? && orgGroups == after && nextGroupId == old(nextGroupId) + 1
          && store.grants == old(store.grants)
               + GrantsOf(CoreModels.RolePerms(OrganizationRoles, orgReportRole), GroupHolder(old(nextGroupId)), OnOrganization(orgPk(org.uuid)))
      ensures nextGroupId >= old(nextGroupId) && IdsFresh()
    {
      var row := ReportGroupRow(org, nextGroupId, orgReportRole);
      if row.name in OrgGroupNames(orgGroups) + ProgramGroupNames(programGroups) {
        return Err(GroupNameTaken);
      }
      CoreModels.WithoutPreviousFresh(store.grants, row.id, OrganizationPermissions, Some(OnOrganization(orgPk(org.uuid))));
      orgGroups := orgGroups + [row];
      nextGroupId := nextGroupId + 1;
      var group := new CoreModels.OrganizationGroup(row.id, orgPk(org.uuid), orgReportRole, store, OrganizationRoles);
      var saved := group.Save();
      if saved.Err? {
        return Err(RoleNotFound(orgReportRole));
      }
      r := Ok(());
    }

    /**
     * `create_org_groups`: one report group per new organization, in order,
     * as `AddOrgGroups` describes; each saved group holds the report role's
     * permissions on its organization.
     */
    method CreateOrgGroups(created: seq<DiscoveryOrg>) returns (r: Result<(), SyncError>)
      requires IdsFresh()
      modifies this, store
      ensures orgs == old(orgs) && programs == old(programs) && programGroups == old(programGroups)
      ensures match AddOrgGroups(old(orgGroups), ProgramGroupNames(programGroups), created, old(nextGroupId), orgReportRole)
        case Err(e) => r == Err(e)
        case Ok(after) =>
          && r.Ok? && orgGroups == after
          && nextGroupId == old(nextGroupId) + |created|
          && store.grants == old(store.grants)
               + OrgGroupGrants(created, old(nextGroupId), CoreModels.RolePerms(OrganizationRoles, orgReportRole), orgPk)
      ensures nextGroupId >= old(nextGroupId) && IdsFresh()
    {
      var firstId := nextGroupId;
      ghost var perms := CoreModels.RolePerms(OrganizationRoles, orgReportRole);
      ghost var others := ProgramGroupNames(programGroups);
      for i := 0 to |created|
        invariant orgs == old(orgs) && programs == old(programs) && programGroups == old(programGroups)
        invariant AddOrgGroups(old(orgGroups), others, created[..i], firstId, orgReportRole) == Ok(orgGroups)
        invariant nextGroupId == firstId + i
        invariant store.grants == old(store.grants) + OrgGroupGrants(created[..i], firstId, perms, orgPk)
        invariant IdsFresh()
      {
        OrgGrantsStep(created, firstId, perms, orgPk, i, nextGroupId);
        AddOrgGroupsStep(old(orgGroups), others, created, firstId, orgReportRole, i, orgGroups, nextGroupId);
        r := CreateOrgGroup(created[i]);
        if r.Err? {
          AddOrgGroupsErrorPersists(old(orgGroups), others, created, firstId, orgReportRole, i + 1);
          return;
        }
      }
      assert created[..|created|] == created;
      r := Ok(());
    }

    /**
     * `update_org_groups`, renaming the report groups of the updated
     * organizations in one bulk update, which fails, writing nothing, when
     * two groups would share a name.
     */
    method UpdateOrgGroups(updated: seq<DiscoveryOrg>) returns (r: Result<(), SyncError>)
      modifies this
      ensures r.Ok? <==> UniqueNames(OrgGroupNames(RenameReportGroups(old(orgGroups), orgs, UuidsOf(updated), orgReportRole))
                                     + ProgramGroupNames(programGroups))
      ensures r.Ok? ==> orgGroups == RenameReportGroups(old(orgGroups), orgs, UuidsOf(updated), orgReportRole)
      ensures r.Err? ==> r.error == GroupNameTaken && orgGroups == old(orgGroups)
      ensures orgs == old(orgs) && programs == old(programs) && programGroups == old(programGroups)
      ensures nextGroupId == old(nextGroupId)
    {
      var uuids := UuidsOf(updated);
      var groups := orgGroups;
      for i := 0 to |groups|
        invariant |orgGroups| == |groups|
        invariant forall k :: 0 <= k < |groups| ==>
          orgGroups[k] == if k < i then RenameReportGroups(groups, orgs, uuids, orgReportRole)[k] else groups[k]
        invariant orgs == old(orgs) && programs == old(programs) && programGroups == old(programGroups)
        invariant nextGroupId == old(nextGroupId)
      {
        var g := groups[i];
        if g.orgUuid in uuids && g.orgUuid in orgs && g.role == orgReportRole {
          orgGroups := orgGroups[i := g.(name := OrgGroupName(orgs[g.orgUuid].key))];
        }
      }
      assert orgGroups == RenameReportGroups(groups, orgs, uuids, orgReportRole);
      if !UniqueNames(OrgGroupNames(orgGroups) + ProgramGroupNames(programGroups)) {
        orgGroups := groups;
        return Err(GroupNameTaken);
      }
      r := Ok(());
    }

    /**
     * The loop of `sync_organizations`: the discovery organizations to
     * create, and the known ones whose name or key changed, in order.
     */
    method CollectOrgChanges(ds: seq<DiscoveryOrg>) returns (toCreate: seq<DiscoveryOrg>, toUpdate: seq<DiscoveryOrg>)
      ensures forall d :: d in toCreate <==> d in ds && d.uuid !in orgs
      ensures forall d :: d in toUpdate <==> d in ds && d.uuid in orgs && orgs[d.uuid] != OrgData(d.name, d.key)
      ensures toCreate == OrgsToCreate(ds, orgs) && toUpdate == OrgsToUpdate(ds, orgs)
    {
      toCreate := [];
      toUpdate := [];
      for i := 0 to |ds|
        invariant toCreate == OrgsToCreate(ds[..i], orgs)
        invariant toUpdate == OrgsToUpdate(ds[..i], orgs)
      {
        assert ds[..i + 1][..i] == ds[..i];
        var d := ds[i];
        if d.uuid !in orgs {
          toCreate := toCreate + [d];
        } else if orgs[d.uuid] != OrgData(d.name, d.key) {
          toUpdate := toUpdate + [d];
        }
      }
      assert ds[..|ds|] == ds;
    }

    /**
     * `sync_organizations`: discovery's organizations are created or
     * updated in bulk; created ones get their report group, and the report
     * groups of updated ones are renamed after the new key.  It commits
     * exactly when `OrgSyncSucceeds`.
     */
    method SyncOrganizations(ds: seq<DiscoveryOrg>) returns (r: Result<(), SyncError>)
      requires Valid()
      modifies this, store
      ensures r.Ok? <==> OrgSyncSucceeds(ds, old(orgs), old(orgGroups), old(programGroups), old(nextGroupId), orgReportRole)
      ensures r.Ok? ==>
        && orgs == SyncedOrgs(ds, old(orgs))
        && orgGroups == SyncedOrgGroups(ds, old(orgs), old(orgGroups), old(nextGroupId), orgReportRole)
        && nextGroupId == old(nextGroupId) + |OrgsToCreate(ds, old(orgs))|
        && store.grants == old(store.grants)
             + OrgGroupGrants(OrgsToCreate(ds, old(orgs)), old(nextGroupId), CoreModels.RolePerms(OrganizationRoles, orgReportRole), orgPk)
        && Valid()
      ensures programs == old(programs) && programGroups == old(programGroups)
      ensures nextGroupId >= old(nextGroupId) && IdsFresh()
    {
      var toCreate, toUpdate := CollectOrgChanges(ds);
      r := CreateOrganizations(toCreate);
      if r.Err? {
        return;
      }
      r := UpdateOrganizations(toUpdate);
    }

    /** The first half of `sync_organizations`: the new organizations in bulk, then their report groups. */
    method CreateOrganizations(toCreate: seq<DiscoveryOrg>) returns (r: Result<(), SyncError>)
      requires Valid()
      modifies this, store
      ensures r.Ok? <==>
        && UniqueOrgKeys(WithOrgRows(old(orgs), toCreate))
        && (toCreate == [] || CoreModels.RoleNamed(OrganizationRoles, orgReportRole).Some?)
        && UniqueNames(OrgGroupNames(old(orgGroups) + ReportGroupsFor(toCreate, old(nextGroupId), orgReportRole))
                       + ProgramGroupNames(programGroups))
      ensures r.Ok? ==>
        && orgs == WithOrgRows(old(orgs), toCreate)
        && orgGroups == old(orgGroups) + ReportGroupsFor(toCreate, old(nextGroupId), orgReportRole)
        && nextGroupId == old(nextGroupId) + |toCreate|
        && store.grants == old(store.grants)
             + OrgGroupGrants(toCreate, old(nextGroupId), CoreModels.RolePerms(OrganizationRoles, orgReportRole), orgPk)
      ensures programs == old(programs) && programGroups == old(programGroups)
      ensures nextGroupId >= old(nextGroupId) && IdsFresh()
    {
      AddOrgGroupsMeaning(orgGroups, ProgramGroupNames(programGroups), toCreate, nextGroupId, orgReportRole);
      if toCreate == [] {
        assert orgGroups + ReportGroupsFor(toCreate, nextGroupId, orgReportRole) == orgGroups;
        return Ok(());
      }
      r := WriteOrganizations(toCreate);
      if r.Err? {
        return;
      }
      r := CreateOrgGroups(toCreate);
    }

    /** The second half of `sync_organizations`: the changed organizations in bulk, then the renamed report groups. */
    method UpdateOrganizations(toUpdate: seq<DiscoveryOrg>) returns (r: Result<(), SyncError>)
      requires UniqueOrgKeys(orgs) && UniqueNames(GroupNames())
      modifies this
      ensures r.Ok? <==>
        && UniqueOrgKeys(WithOrgRows(old(orgs), toUpdate))
        && UniqueNames(OrgGroupNames(RenameReportGroups(old(orgGroups), WithOrgRows(old(orgs), toUpdate),
                                                       UuidsOf(toUpdate), orgReportRole))
                       + ProgramGroupNames(programGroups))
      ensures r.Ok? ==>
        && orgs == WithOrgRows(old(orgs), toUpdate)
        && orgGroups == RenameReportGroups(old(orgGroups), orgs, UuidsOf(toUpdate), orgReportRole)
      ensures programs == old(programs) && programGroups == old(programGroups) && nextGroupId == old(nextGroupId)
    {
      if toUpdate == [] {
        RenameNoReportGroups(orgGroups, orgs, orgReportRole);
        return Ok(());
      }
      r := WriteOrganizations(toUpdate);
      if r.Err? {
        return;
      }
      r := UpdateOrgGroups(toUpdate);
    }

    /**
     * A bulk create of programs: the rows are applied in turn to a copy of
     * the table, and the statement fails, writing nothing, when two programs
     * would share a key.
     */
    method WritePrograms(rows: seq<DiscoveryProgram>) returns (r: Result<(), SyncError>)
      modifies this
      ensures r.Ok? <==> UniqueProgramKeys(WithProgramRows(old(programs), rows))
      ensures r.Ok? ==> programs == WithProgramRows(old(programs), rows)
      ensures r.Err? ==> r.error == ProgramKeyTaken && programs == old(programs)
      ensures orgs == old(orgs) && orgGroups == old(orgGroups) && programGroups == old(programGroups)
      ensures nextGroupId == old(nextGroupId)
    {
      var table := programs;
      for i := 0 to |rows|
        invariant table == WithProgramRows(programs, rows[..i])
      {
        assert rows[..i + 1][..i] == rows[..i];
        table := table[rows[i].uuid := ProgramData(rows[i].marketingSlug, ManagingOrgUuid(rows[i]))];
      }
      assert rows[..|rows|] == rows;
      if !UniqueProgramKeys(table) {
        return Err(ProgramKeyTaken);
      }
      programs := table;
      r := Ok(());
    }

    /**
     * One report group of `create_program_org_groups`: inserted unless its
     * name is taken, then saved, which gives it the report role's
     * permissions on its program or fails when the role is not a program role.
     */
    method CreateProgramOrgGroup(dp: DiscoveryProgram) returns (r: Result<(), SyncError>)
      requires IdsFresh()
      modifies this, store
      ensures orgs == old(orgs) && orgGroups == old(orgGroups) && programs == old(programs)
      ensures match AddProgramGroup(old(programGroups), OrgGroupNames(orgGroups), dp, orgs, old(nextGroupId),
                                    programReportRole, programRoles)
        case Err(e) => r == Err(e)
        case Ok(after) =>
          && r.Ok? && programGroups == after && nextGroupId == old(nextGroupId) + 1
          && store.grants == old(store.grants)
               + GrantsOf(CoreModels.RolePerms(programRoles, programReportRole), GroupHolder(old(nextGroupId)), OnProgram(programPk(dp.uuid)))
      ensures nextGroupId >= old(nextGroupId) && IdsFresh()
    {
      var row := ProgramGroupRowFor(dp, orgs, nextGroupId, programReportRole);
      if row.name in OrgGroupNames(orgGroups) + ProgramGroupNames(programGroups) {
        return Err(GroupNameTaken);
      }
      CoreModels.WithoutPreviousFresh(store.grants, row.id, programPermissions, Some(OnProgram(programPk(dp.uuid))));
      programGroups := programGroups + [row];
      nextGroupId := nextGroupId + 1;
      var group := new CoreModels.ProgramOrganizationGroup(row.id, programPk(dp.uuid), programReportRole, store,
                                                           programRoles, programPermissions);
      var saved := group.Save();
      if saved.Err? {
        return Err(RoleNotFound(programReportRole));
      }
      r := Ok(());
    }

    /**
     * `create_program_org_groups`: one report group per new program, in
     * order, as `AddProgramGroups` describes; each saved group holds the
     * report role's permissions on its program.
     */
    method CreateProgramOrgGroups(created: seq<DiscoveryProgram>) returns (r: Result<(), SyncError>)
      requires IdsFresh()
      modifies this, store
      ensures orgs == old(orgs) && orgGroups == old(orgGroups) && programs == old(programs)
      ensures match AddProgramGroups(old(programGroups), OrgGroupNames(orgGroups), created, orgs, old(nextGroupId),
                                     programReportRole, programRoles)
        case Err(e) => r == Err(e)
        case Ok(after) =>
          && r.Ok? && programGroups == after
          && nextGroupId == old(nextGroupId) + |created|
          && store.grants == old(store.grants)
               + ProgramGroupGrants(created, old(nextGroupId), CoreModels.RolePerms(programRoles, programReportRole), programPk)
      ensures nextGroupId >= old(nextGroupId) && IdsFresh()
    {
      var firstId := nextGroupId;
      ghost var perms := CoreModels.RolePerms(programRoles, programReportRole);
      ghost var others := OrgGroupNames(orgGroups);
      for i := 0 to |created|
        invariant orgs == old(orgs) && orgGroups == old(orgGroups) && programs == old(programs)
        invariant AddProgramGroups(old(programGroups), others, created[..i], orgs, firstId, programReportRole, programRoles)
               == Ok(programGroups)
        invariant nextGroupId == firstId + i
        invariant store.grants == old(store.grants) + ProgramGroupGrants(created[..i], firstId, perms, programPk)
        invariant IdsFresh()
      {
        ProgramGrantsStep(created, firstId, perms, programPk, i, nextGroupId);
        AddProgramGroupsStep(old(programGroups), others, created, orgs, firstId, programReportRole, programRoles, i, programGroups,
                             nextGroupId);
        r := CreateProgramOrgGroup(created[i]);
        if r.Err? {
          AddProgramGroupsErrorPersists(old(programGroups), others, created, orgs, firstId, programReportRole, programRoles, i + 1);
          return;
        }
      }
      assert created[..|created|] == created;
      r := Ok(());
    }

    /**
     * `sync_programs`: programs with several authoring organizations are
     * skipped; a program with a new uuid is created when its authoring
     * organization is known, with its report group; existing programs are
     * never changed.  It commits exactly when `ProgramSyncSucceeds`.
     */
    method SyncPrograms(dps: seq<DiscoveryProgram>) returns (r: Result<(), SyncError>)
      requires Valid()
      modifies this, store
      ensures r.Ok? <==> ProgramSyncSucceeds(dps, orgs, old(programs), orgGroups, old(programGroups), old(nextGroupId),
                                             programReportRole, programRoles)
      ensures r.Ok? ==>
        var toCreate := ProgramsToCreate(dps, orgs, old(programs));
        && programs == WithProgramRows(old(programs), toCreate)
        && programGroups == old(programGroups) + ProgramGroupsFor(toCreate, orgs, old(nextGroupId), programReportRole)
        && nextGroupId == old(nextGroupId) + |toCreate|
        && store.grants == old(store.grants)
             + ProgramGroupGrants(toCreate, old(nextGroupId), CoreModels.RolePerms(programRoles, programReportRole), programPk)
        && Valid()
      ensures orgs == old(orgs) && orgGroups == old(orgGroups)
      ensures nextGroupId >= old(nextGroupId) && IdsFresh()
    {
      var toCreate: seq<DiscoveryProgram> := [];
      for i := 0 to |dps|
        invariant toCreate == ProgramsToCreate(dps[..i], orgs, programs)
      {
        assert dps[..i + 1][..i] == dps[..i];
        var dp := dps[i];
        if |dp.authoringOrgUuids| > 1 {
          continue;
        }
        if dp.uuid !in programs {
          var first := if |dp.authoringOrgUuids| == 0 then None else dp.authoringOrgUuids[0];
          if first.Some? && first.value in orgs {
            toCreate := toCreate + [dp];
          }
        }
      }
      assert dps[..|dps|] == dps;
      AddProgramGroupsMeaning(programGroups, OrgGroupNames(orgGroups), toCreate, orgs, nextGroupId, programReportRole, programRoles);
      if toCreate == [] {
        assert programs == WithProgramRows(programs, toCreate);
        assert programGroups == programGroups + ProgramGroupsFor(toCreate, orgs, nextGroupId, programReportRole);
        return Ok(());
      }
      r := WritePrograms(toCreate);
      if r.Err? {
        return;
      }
      r := CreateProgramOrgGroups(toCreate);
    }

    /**
     * The body of `handle`: `sync_organizations`, then, when it succeeds,
     * `sync_programs` over the synced organizations and groups.
     */
    method Synchronize(ds: seq<DiscoveryOrg>, dps: seq<DiscoveryProgram>) returns (r: Result<(), SyncError>)
      requires Valid()
      modifies this, store
      ensures r.Ok? <==>
        && OrgSyncSucceeds(ds, old(orgs), old(orgGroups), old(programGroups), old(nextGroupId), orgReportRole)
        && ProgramSyncSucceeds(dps, SyncedOrgs(ds, old(orgs)), old(programs),
                               SyncedOrgGroups(ds, old(orgs), old(orgGroups), old(nextGroupId), orgReportRole),
                               old(programGroups), old(nextGroupId) + |OrgsToCreate(ds, old(orgs))|,
                               programReportRole, programRoles)
      ensures r.Ok? ==>
        var toCreate := OrgsToCreate(ds, old(orgs));
        var created := ProgramsToCreate(dps, orgs, old(programs));
        var firstProgramGroup := old(nextGroupId) + |toCreate|;
        && orgs == SyncedOrgs(ds, old(orgs))
        && orgGroups == SyncedOrgGroups(ds, old(orgs), old(orgGroups), old(nextGroupId), orgReportRole)
        && programs == WithProgramRows(old(programs), created)
        && programGroups == old(programGroups) + ProgramGroupsFor(created, orgs, firstProgramGroup, programReportRole)
        && store.grants == old(store.grants)
             + OrgGroupGrants(toCreate, old(nextGroupId), CoreModels.RolePerms(OrganizationRoles, orgReportRole), orgPk)
             + ProgramGroupGrants(created, firstProgramGroup, CoreModels.RolePerms(programRoles, programReportRole), programPk)
        && Valid()
      ensures nextGroupId >= old(nextGroupId) && IdsFresh()
    {
      r := SyncOrganizations(ds);
      if r.Ok? {
        ghost var start := nextGroupId;
        r := SyncPrograms(dps);
        ProgramSyncFrom(dps, programReportRole, programRoles, programPk,
                        orgs, SyncedOrgs(ds, old(orgs)), old(programs), old(programs),
                        orgGroups, SyncedOrgGroups(ds, old(orgs), old(orgGroups), old(nextGroupId), orgReportRole),
                        old(programGroups), old(programGroups), start, old(nextGroupId) + |OrgsToCreate(ds, old(orgs))|);
      }
    }

    /**
     * `handle`: organizations first, then the programs of the synced types,
     * in one transaction: a failure leaves every table and the grants as
     * they were.
     */
    method Handle(ds: seq<DiscoveryOrg>, dps: seq<DiscoveryProgram>) returns (r: Result<(), SyncError>)
      requires Valid()
      modifies this, store
      ensures r.Ok? <==>
        && OrgSyncSucceeds(ds, old(orgs), old(orgGroups), old(programGroups), old(nextGroupId), orgReportRole)
        && ProgramSyncSucceeds(dps, SyncedOrgs(ds, old(orgs)), old(programs),
                               SyncedOrgGroups(ds, old(orgs), old(orgGroups), old(nextGroupId), orgReportRole),
                               old(programGroups), old(nextGroupId) + |OrgsToCreate(ds, old(orgs))|,
                               programReportRole, programRoles)
      ensures r.Ok? ==>
        var toCreate := OrgsToCreate(ds, old(orgs));
        var created := ProgramsToCreate(dps, orgs, old(programs));
        var firstProgramGroup := old(nextGroupId) + |toCreate|;
        && orgs == SyncedOrgs(ds, old(orgs))
        && orgGroups == SyncedOrgGroups(ds, old(orgs), old(orgGroups), old(nextGroupId), orgReportRole)
        && programs == WithProgramRows(old(programs), created)
        && programGroups == old(programGroups) + ProgramGroupsFor(created, orgs, firstProgramGroup, programReportRole)
        && store.grants == old(store.grants)
             + OrgGroupGrants(toCreate, old(nextGroupId), CoreModels.RolePerms(OrganizationRoles, orgReportRole), orgPk)
             + ProgramGroupGrants(created, firstProgramGroup, CoreModels.RolePerms(programRoles, programReportRole), programPk)
      ensures r.Err? ==>
        && orgs == old(orgs) && orgGroups == old(orgGroups) && programs == old(programs)
        && programGroups == old(programGroups) && store.grants == old(store.grants)
      ensures Valid()
    {
      var orgs0, orgGroups0, programs0, programGroups0, grants0 := orgs, orgGroups, programs, programGroups, store.grants;
      r := Synchronize(ds, dps);
      if r.Err? {
        orgs, orgGroups, programs, programGroups := orgs0, orgGroups0, programs0, programGroups0;
        store.grants := grants0;
        GroupIdsBelowGrows(grants0, old(nextGroupId), nextGroupId);
      }
    }
  }
}
