/**
 * The signal handlers of registrar/apps/core/signals.py: pending group
 * memberships are honoured when a user is saved, and the group pre-save
 * hooks record which organization or program the stored row refers to, so
 * that `save` can clean up the grants made there.
 */
module CoreSignals {
  import opened Wrappers
  import opened Guardian
  import CoreModels

  /** A `PendingUserGroup` row: an email waiting to join a group. */
  datatype PendingUserGroup = PendingUserGroup(userEmail: string, group: int)

  /** The groups pending for `email`. */
  function PendingGroupsFor(records: seq<PendingUserGroup>, email: string): (gs: set<int>)
    ensures forall g :: g in gs <==> exists i :: 0 <= i < |records| && records[i].userEmail == email && records[i].group == g
  {
    set i | 0 <= i < |records| && records[i].userEmail == email :: records[i].group
  }

  /** The records for other emails, in their order. */
  function OtherEmails(records: seq<PendingUserGroup>, email: string): (rest: seq<PendingUserGroup>)
    ensures forall r :: r in rest <==> r in records && r.userEmail != email
    ensures |rest| <= |records|
  {
    if records == [] then []
    else if records[0].userEmail == email then OtherEmails(records[1..], email)
    else [records[0]] + OtherEmails(records[1..], email)
  }

  /** Removing an email's records leaves nothing pending for it and nothing else lost. */
  lemma OtherEmailsClearsEmail(records: seq<PendingUserGroup>, email: string, other: string)
    requires other != email
    ensures PendingGroupsFor(OtherEmails(records, email), email) == {}
    ensures PendingGroupsFor(OtherEmails(records, email), other) == PendingGroupsFor(records, other)
  {
    var rest := OtherEmails(records, email);
    forall g | g in PendingGroupsFor(records, other) ensures g in PendingGroupsFor(rest, other) {
      var i :| 0 <= i < |records| && records[i].userEmail == other && records[i].group == g;
      assert records[i] in rest;
      var j :| 0 <= j < |rest| && rest[j] == records[i];
    }
    forall g | g in PendingGroupsFor(rest, other) ensures g in PendingGroupsFor(records, other) {
      var j :| 0 <= j < |rest| && rest[j].userEmail == other && rest[j].group == g;
      assert rest[j] in records;
      var i :| 0 <= i < |records| && records[i] == rest[j];
    }
  }

  class PendingUserGroups {
    var records: seq<PendingUserGroup>

    constructor (records: seq<PendingUserGroup>)
      ensures this.records == records
    {
      this.records := records;
    }

    /**
     * `handle_user_post_save`: the user joins every group pending for their
     * email, and those pending records are deleted.
     */
    method HandleUserPostSave(user: int, email: string, memberships: GroupMemberships)
      modifies this, memberships
      ensures memberships.pairs == old(memberships.pairs) + set g | g in PendingGroupsFor(old(records), email) :: (user, g)
      ensures records == OtherEmails(old(records), email)
    {
      var pending := records;
      for i := 0 to |pending|
        invariant memberships.pairs == old(memberships.pairs) + set g | g in PendingGroupsFor(pending[..i], email) :: (user, g)
      {
        if pending[i].userEmail == email {
          memberships.Add(user, pending[i].group);
        }
        assert PendingGroupsFor(pending[..i + 1], email) ==
          PendingGroupsFor(pending[..i], email) + (if pending[i].userEmail == email then {pending[i].group} else {}) by {
          assert forall k :: 0 <= k < i ==> pending[..i + 1][k] == pending[..i][k];
        }
      }
      assert pending[..|pending|] == pending;
      records := OtherEmails(pending, email);
    }
  }

  /** A user with nothing pending keeps the same groups. */
  lemma {:induction false} NothingPendingKeepsGroups(records: seq<PendingUserGroup>, email: string, user: int, pairs: set<(int, int)>)
    requires forall i :: 0 <= i < |records| ==> records[i].userEmail != email
    ensures pairs + (set g | g in PendingGroupsFor(records, email) :: (user, g)) == pairs
    ensures OtherEmails(records, email) == records
  {
    if records != [] {
      NothingPendingKeepsGroups(records[1..], email, user, pairs);
      assert [records[0]] + records[1..] == records;
    }
  }

  /**
   * `handle_organization_group_pre_save`: a saved group remembers the
   * organization stored for it (None if that organization no longer
   * exists); an unsaved group remembers none.
   */
  method HandleOrganizationGroupPreSave(instance: CoreModels.OrganizationGroup, saved: bool, storedOrganization: Option<int>)
    modifies instance
    ensures instance.initialOrganization == (if saved then storedOrganization else None)
    ensures instance.organization == old(instance.organization) && instance.role == old(instance.role)
  {
    if saved {
      instance.initialOrganization := storedOrganization;
    } else {
      instance.initialOrganization := None;
    }
  }

  /** `handle_program_group_pre_save`: the same for program groups and their program. */
  method HandleProgramGroupPreSave(instance: CoreModels.ProgramOrganizationGroup, saved: bool, storedProgram: Option<int>)
    modifies instance
    ensures instance.initialProgram == (if saved then storedProgram else None)
    ensures instance.program == old(instance.program) && instance.role == old(instance.role)
  {
    if saved {
      instance.initialProgram := storedProgram;
    } else {
      instance.initialProgram := None;
    }
  }
}
