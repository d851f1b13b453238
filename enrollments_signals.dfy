/**
 * `user_created_callback` of registrar/apps/enrollments/signals.py: when a
 * user is created, every future membership for their email that has not
 * been used yet is turned into a group membership.
 */
module EnrollmentsSignals {
  import opened Wrappers
  import opened Guardian
  import opened EnrollmentsModels

  /** The memberships the callback processes: matching email, not yet created. */
  predicate Selected(f: OrgGroupFutureMembership, email: string)
    reads f
  {
    f.email == email && f.membershipCreatedAt.None?
  }

  /**
   * The callback.  Rows are selected by email, so `add_user_to_group` never
   * meets a mismatched email and nothing is raised; were it to raise, the
   * error would propagate.
   */
  method UserCreatedCallback(created: bool, user: int, email: string, futures: seq<OrgGroupFutureMembership>,
                             memberships: GroupMemberships, now: int)
    returns (r: Result<(), string>)
    modifies memberships, set f | f in futures
    ensures r.Ok?
    ensures !created ==> memberships.pairs == old(memberships.pairs)
    ensures !created ==> forall f :: f in futures ==> f.membershipCreatedAt == old(f.membershipCreatedAt)
    ensures created ==> forall f :: f in futures ==>
      f.membershipCreatedAt == (if old(Selected(f, email)) then Some(now) else old(f.membershipCreatedAt))
    ensures created ==>
      memberships.pairs == old(memberships.pairs) + set f | f in futures && old(Selected(f, email)) :: (user, f.orgGroup)
  {
    if !created {
      return Ok(());
    }
    var selected := PendingFor(futures, email);
    r := StampAll(selected, user, email, memberships, now);
    assert (set f | f in selected :: (user, f.orgGroup)) ==
      set f | f in futures && old(Selected(f, email)) :: (user, f.orgGroup);
  }

  /** The rows `filter(email=..., membership_created_at=None)` selects, in order. */
  method PendingFor(futures: seq<OrgGroupFutureMembership>, email: string)
    returns (selected: seq<OrgGroupFutureMembership>)
    ensures forall f :: f in selected <==> f in futures && Selected(f, email)
  {
    selected := [];
    for i := 0 to |futures|
      invariant forall f :: f in selected <==> f in futures[..i] && Selected(f, email)
    {
      if Selected(futures[i], email) {
        selected := selected + [futures[i]];
      }
      assert futures[..i + 1] == futures[..i] + [futures[i]];
    }
    assert futures[..|futures|] == futures;
  }

  /** `add_user_to_group` on each selected row: each is stamped and its group joined. */
  method StampAll(selected: seq<OrgGroupFutureMembership>, user: int, email: string,
                  memberships: GroupMemberships, now: int)
    returns (r: Result<(), string>)
    requires forall f :: f in selected ==> Selected(f, email)
    modifies memberships, set f | f in selected
    ensures r.Ok?
    ensures forall f :: f in selected ==> f.membershipCreatedAt == Some(now)
    ensures memberships.pairs == old(memberships.pairs) + set f | f in selected :: (user, f.orgGroup)
  {
    r := Ok(());
    for i := 0 to |selected|
      invariant r.Ok?
      invariant forall f :: f in selected ==>
        f.membershipCreatedAt == (if f in selected[..i] then Some(now) else None)
      invariant memberships.pairs == old(memberships.pairs) + set f | f in selected[..i] :: (user, f.orgGroup)
    {
      var f := selected[i];
      assert selected[..i + 1] == selected[..i] + [f];
      r := f.AddUserToGroup(user, email, memberships, now);
      assert (set g | g in selected[..i + 1] :: (user, g.orgGroup)) ==
        (set g | g in selected[..i] :: (user, g.orgGroup)) + {(user, f.orgGroup)};
    }
    assert selected[..|selected|] == selected;
  }
}
