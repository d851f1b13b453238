/**
 * The authorization of the public API: the two `AuthMixin.check_permissions`
 * decision procedures (registrar/apps/api/v1/mixins.py and the older copy in
 * registrar/apps/api/v1/views.py), the required permissions of enrollment
 * views, and the job-invoking and course-validating mixins.
 *
 * Permissions are the Guardian grants.  `get_permission_object` is passed
 * as the value it would produce (an organization, None, or the 404 it
 * raises); it is consulted only after the global check fails.
 * `get_objects_for_user` of the api-docs check is passed as its answer.
 */
module ApiAuth {
  import opened Wrappers
  import opened Guardian
  import CorePermissions
  import Jobs

  /** What stops a request. */
  datatype Denial =
    | NotAuthenticated                   // 401
    | PermissionDenied                   // 403
    | NotFound                           // Http404
    | ImproperlyConfigured(message: string)

  /** The value `get_permission_required` returns (or `permission_required` holds). */
  datatype Required =
    | RequiredStr(perm: string)
    | RequiredIterable(perms: seq<string>)
    | RequiredOther(repr: string)        // neither a string nor an iterable

  /** The requesting user. */
  datatype Caller = Caller(authenticated: bool, isStaff: bool, user: int, groups: set<int>)

  /** The class attributes of a view that the check reads. */
  datatype ViewConfig = ViewConfig(staffOnly: bool, raise404IfUnauthorized: bool)

  const MixinMisconfiguredPrefix: string := "get_permission_required must return string or iterable; returned "
  const ViewsMisconfiguredPrefix: string := "permission_required must be set to string or iterable; is set to "

  /** The required permissions as a list: a string is one permission, an iterable is listed. */
  function NormalizeRequired(required: Required, misconfiguredPrefix: string): (r: Result<seq<string>, Denial>)
    ensures required.RequiredStr? ==> r == Ok([required.perm])
    ensures required.RequiredIterable? ==> r == Ok(required.perms)
    ensures required.RequiredOther? ==> r == Err(ImproperlyConfigured(misconfiguredPrefix + required.repr))
  {
    match required
    case RequiredStr(perm) => Ok([perm])
    case RequiredIterable(perms) => Ok(perms)
    case RequiredOther(repr) => Err(ImproperlyConfigured(misconfiguredPrefix + repr))
  }

  /** `all(user.has_perm(perm, obj) for perm in required)`. */
  predicate HoldsAll(grants: set<Grant>, caller: Caller, required: seq<string>, target: Target)
  {
    forall i :: 0 <= i < |required| ==> UserHasPerm(grants, caller.user, caller.groups, required[i], target)
  }

  /** `unauthorized_response`: 404 when the view hides itself, else 403. */
  function UnauthorizedResponse(view: ViewConfig): (d: Denial)
    ensures d == NotFound || d == PermissionDenied
    ensures d == NotFound <==> view.raise404IfUnauthorized
  {
    if view.raise404IfUnauthorized then NotFound else PermissionDenied
  }

  /**
   * The grant test both variants end with: every permission held globally,
   * or else every permission held on a non-null permission object.
   */
  function Authorize(view: ViewConfig, grants: set<Grant>, caller: Caller, required: seq<string>,
                     permissionObject: Result<Option<Target>, Denial>): (r: Result<(), Denial>)
    ensures r.Ok? <==>
      HoldsAll(grants, caller, required, Global) ||
      (permissionObject.Ok? && permissionObject.value.Some? && HoldsAll(grants, caller, required, permissionObject.value.value))
    ensures r.Err? && permissionObject.Ok? ==> r.error == UnauthorizedResponse(view)
    ensures r.Err? && permissionObject.Err? ==> r.error == permissionObject.error
  {
    if HoldsAll(grants, caller, required, Global) then Ok(())
    else match permissionObject
      case Err(e) => Err(e)
      case Ok(obj) =>
        if obj.Some? && HoldsAll(grants, caller, required, obj.value) then Ok(())
        else Err(UnauthorizedResponse(view))
  }

  /**
   * `check_permissions` of registrar/apps/api/v1/mixins.py: api-docs
   * requests are settled by the docs check alone; an anonymous caller is
   * not authenticated; a staff-only view turns non-staff away; the
   * requirement is normalised and the grant test decides.  Its ensures say
   * case by case which check answers; where `Authorize` decides, its own
   * if-and-only-if gives the whole grant test.
   */
  function MixinCheckPermissions(view: ViewConfig, isDocsRequest: bool, docsObjectsExist: bool, caller: Caller,
                                 required: Required, grants: set<Grant>,
                                 permissionObject: Result<Option<Target>, Denial>): (r: Result<(), Denial>)
    ensures isDocsRequest ==> r == (if docsObjectsExist then Ok(()) else Err(PermissionDenied))
    ensures !isDocsRequest && !caller.authenticated ==> r == Err(NotAuthenticated)
    ensures !isDocsRequest && caller.authenticated && view.staffOnly && !caller.isStaff ==>
      r == Err(UnauthorizedResponse(view))
    ensures !isDocsRequest && caller.authenticated && (caller.isStaff || !view.staffOnly) ==>
      r == match NormalizeRequired(required, MixinMisconfiguredPrefix)
           case Err(e) => Err(e)
           case Ok(perms) => Authorize(view, grants, caller, perms, permissionObject)
  {
    if isDocsRequest then
      (if docsObjectsExist then Ok(()) else Err(PermissionDenied))
    else if !caller.authenticated then Err(NotAuthenticated)
    else if view.staffOnly && !caller.isStaff then Err(UnauthorizedResponse(view))
    else match NormalizeRequired(required, MixinMisconfiguredPrefix)
      case Err(e) => Err(e)
      case Ok(perms) => Authorize(view, grants, caller, perms, permissionObject)
  }

  /**
   * `check_permissions` of registrar/apps/api/v1/views.py: the same without
   * the authentication and staff checks, reading `permission_required`.
   */
  function ViewsCheckPermissions(view: ViewConfig, isDocsRequest: bool, docsObjectsExist: bool, caller: Caller,
                                 required: Required, grants: set<Grant>,
                                 permissionObject: Result<Option<Target>, Denial>): (r: Result<(), Denial>)
    ensures isDocsRequest ==> r == (if docsObjectsExist then Ok(()) else Err(PermissionDenied))
    ensures !isDocsRequest ==>
      r == match NormalizeRequired(required, ViewsMisconfiguredPrefix)
           case Err(e) => Err(e)
           case Ok(perms) => Authorize(view, grants, caller, perms, permissionObject)
  {
    if isDocsRequest then
      (if docsObjectsExist then Ok(()) else Err(PermissionDenied))
    else match NormalizeRequired(required, ViewsMisconfiguredPrefix)
      case Err(e) => Err(e)
      case Ok(perms) => Authorize(view, grants, caller, perms, permissionObject)
  }

  /** An empty requirement admits every caller who gets past the earlier checks. */
  lemma EmptyRequirementPasses(view: ViewConfig, grants: set<Grant>, caller: Caller,
                               permissionObject: Result<Option<Target>, Denial>)
    ensures Authorize(view, grants, caller, [], permissionObject) == Ok(())
    ensures caller.authenticated && !view.staffOnly ==>
      MixinCheckPermissions(view, false, false, caller, RequiredIterable([]), grants, permissionObject) == Ok(())
  {
  }

  /**
   * A caller holding every permission globally is admitted whatever the
   * permission object would have been, even the 404 of an unknown object.
   */
  lemma GlobalHolderIgnoresObject(view: ViewConfig, grants: set<Grant>, caller: Caller, required: seq<string>,
                                  obj1: Result<Option<Target>, Denial>, obj2: Result<Option<Target>, Denial>)
    requires HoldsAll(grants, caller, required, Global)
    ensures Authorize(view, grants, caller, required, obj1) == Authorize(view, grants, caller, required, obj2) == Ok(())
  {
  }

  /** Requiring more permissions never admits more callers. */
  lemma {:induction false} MoreRequiredAdmitsFewer(view: ViewConfig, grants: set<Grant>, caller: Caller,
                                                   fewer: seq<string>, more: seq<string>,
                                                   permissionObject: Result<Option<Target>, Denial>)
    requires forall i :: 0 <= i < |fewer| ==> fewer[i] in more
    requires Authorize(view, grants, caller, more, permissionObject).Ok?
    ensures Authorize(view, grants, caller, fewer, permissionObject).Ok?
  {
    var t := if HoldsAll(grants, caller, more, Global) then Global else permissionObject.value.value;
    assert HoldsAll(grants, caller, more, t);
    forall i | 0 <= i < |fewer| ensures UserHasPerm(grants, caller.user, caller.groups, fewer[i], t) {
      var j :| 0 <= j < |more| && more[j] == fewer[i];
    }
  }

  /**
   * For an authenticated caller of a view that is not staff-only, the two
   * variants decide alike; they differ only in the wording of the
   * misconfiguration error.
   */
  lemma VariantsAgree(view: ViewConfig, isDocsRequest: bool, docsObjectsExist: bool, caller: Caller,
                      required: Required, grants: set<Grant>, permissionObject: Result<Option<Target>, Denial>)
    requires caller.authenticated && !view.staffOnly
    ensures !required.RequiredOther? ==>
      MixinCheckPermissions(view, isDocsRequest, docsObjectsExist, caller, required, grants, permissionObject) ==
      ViewsCheckPermissions(view, isDocsRequest, docsObjectsExist, caller, required, grants, permissionObject)
    ensures MixinCheckPermissions(view, isDocsRequest, docsObjectsExist, caller, required, grants, permissionObject).Ok? ==
      ViewsCheckPermissions(view, isDocsRequest, docsObjectsExist, caller, required, grants, permissionObject).Ok?
  {
  }

  /** `EnrollmentMixin.get_permission_required`: read for GET, write for POST and PATCH, nothing otherwise. */
  function EnrollmentPermissionRequired(httpMethod: string): (r: Required)
    ensures httpMethod == "GET" ==> r == RequiredStr(CorePermissions.OrganizationReadEnrollments)
    ensures httpMethod == "POST" || httpMethod == "PATCH" ==> r == RequiredStr(CorePermissions.OrganizationWriteEnrollments)
    ensures httpMethod !in {"GET", "POST", "PATCH"} ==> r == RequiredIterable([])
  {
    if httpMethod == "GET" then RequiredStr(CorePermissions.OrganizationReadEnrollments)
    else if httpMethod == "POST" || httpMethod == "PATCH" then RequiredStr(CorePermissions.OrganizationWriteEnrollments)
    else RequiredIterable([])
  }

  /**
   * Writing enrollments needs the write permission, which of the
   * organization roles only ReadWriteEnrollments grants: a caller whose
   * only grants on the organization come from a read role is turned away.
   */
  lemma WritesNeedWriteRole(view: ViewConfig, caller: Caller, group: int, org: int,
                            role: CorePermissions.OrganizationRole, httpMethod: string)
    requires caller.authenticated && !view.staffOnly
    requires role in CorePermissions.OrganizationRoles && role != CorePermissions.ReadWriteEnrollmentsRole
    requires httpMethod == "POST" || httpMethod == "PATCH"
    ensures var grants := GrantsOf(CorePermissions.PermSet(role), GroupHolder(group), OnOrganization(org));
      MixinCheckPermissions(view, false, false, caller, EnrollmentPermissionRequired(httpMethod), grants,
                            Ok(Some(OnOrganization(org)))) == Err(UnauthorizedResponse(view))
  {
    CorePermissions.OnlyReadWriteWrites();
    var grants := GrantsOf(CorePermissions.PermSet(role), GroupHolder(group), OnOrganization(org));
    var perm := CorePermissions.OrganizationWriteEnrollments;
    assert perm !in CorePermissions.PermSet(role);
    assert forall g :: Grant(GroupHolder(g), perm, OnOrganization(org)) !in grants;
    assert Grant(UserHolder(caller.user), perm, OnOrganization(org)) !in grants;
    assert !UserHasPerm(grants, caller.user, caller.groups, perm, OnOrganization(org));
    assert [perm][0] == perm;
    assert !HoldsAll(grants, caller, [perm], OnOrganization(org));
    assert forall g :: Grant(GroupHolder(g), perm, Global) !in grants;
    assert Grant(UserHolder(caller.user), perm, Global) !in grants;
    assert !HoldsAll(grants, caller, [perm], Global);
  }

  /** The configuration of `FlushProgramCacheView`: staff only, hidden behind 404. */
  const FlushViewConfig: ViewConfig := ViewConfig(true, true)

  /**
   * The cache-flush view admits exactly the authenticated staff, and turns
   * every other authenticated caller away with 404, never 403.
   */
  lemma FlushViewAdmitsOnlyStaff(caller: Caller, grants: set<Grant>, permissionObject: Result<Option<Target>, Denial>)
    requires caller.authenticated
    ensures var r := MixinCheckPermissions(FlushViewConfig, false, false, caller, RequiredIterable([]), grants, permissionObject);
      (r.Ok? <==> caller.isStaff) && (r.Err? ==> r.error == NotFound)
  {
  }

  /** `CourseSpecificViewMixin.validate_course_id`: 404 unless the course id is a run key of the program. */
  function ValidateCourseId(courseId: string, programRunKeys: seq<string>): (r: Result<(), Denial>)
    ensures r.Ok? <==> exists i :: 0 <= i < |programRunKeys| && programRunKeys[i] == courseId
    ensures r.Err? ==> r.error == NotFound
  {
    if courseId in programRunKeys then Ok(()) else Err(NotFound)
  }

  /** The answer to an accepted job request. */
  datatype JobAcceptance = JobAcceptance(jobId: string, jobUrl: string)

  /** The `fmt` query parameter, defaulting to 'json'. */
  function FileFormat(fmt: Option<string>): string
  {
    if fmt.Some? then fmt.value else "json"
  }

  /**
   * `JobInvokerMixin.invoke_job`: an unsupported format is a 404 and starts
   * nothing; otherwise a job is started with the format after the job id
   * and user id, and its id and status url are returned with 202.
   * `jobStatusUrl` stands for the absolute url of the job-status route.
   */
  method InvokeJob(ledger: Jobs.JobLedger, userId: int, fmt: Option<string>, task: string, args: seq<Jobs.TaskArg>,
                   kwargs: map<string, Jobs.TaskArg>, jobStatusUrl: string -> string, freshId: string)
    returns (r: Result<JobAcceptance, Denial>)
    requires ledger.IsFresh(freshId)
    modifies ledger
    ensures FileFormat(fmt) !in {"json", "csv"} ==> r == Err(NotFound) && unchanged(ledger)
    ensures FileFormat(fmt) in {"json", "csv"} ==>
      && r == Ok(JobAcceptance(freshId, jobStatusUrl(freshId)))
      && ledger.scheduled == old(ledger.scheduled) +
           [Jobs.ScheduledCall(task, [Jobs.StrArg(freshId), Jobs.IntArg(userId), Jobs.StrArg(FileFormat(fmt))] + args, kwargs, freshId)]
      && ledger.statuses == old(ledger.statuses)
  {
    var fileFormat := FileFormat(fmt);
    if fileFormat !in {"json", "csv"} {
      return Err(NotFound);
    }
    var jobId := ledger.StartJob(userId, task, [Jobs.StrArg(fileFormat)] + args, kwargs, freshId);
    assert [Jobs.StrArg(jobId), Jobs.IntArg(userId)] + ([Jobs.StrArg(fileFormat)] + args) ==
      [Jobs.StrArg(jobId), Jobs.IntArg(userId), Jobs.StrArg(fileFormat)] + args;
    r := Ok(JobAcceptance(jobId, jobStatusUrl(jobId)));
  }
}
