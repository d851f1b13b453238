/**
 * The read views of registrar/apps/api/v1/views.py: program listing with
 * its organization filter and permission object, the per-view program
 * memo, and the course list of a program read from course-discovery.
 * Fetching from discovery is a parameter: the decoded body, or the HTTP
 * status of the error it raised.
 */
module V1Views {
  import opened Wrappers
  import opened Json
  import opened Guardian
  import Text
  import CorePermissions
  import EnrollmentsPermissions
  import EnrollmentsModels
  import opened ApiAuth

  datatype OrgRow = OrgRow(id: int, key: string)

  datatype ProgramRow = ProgramRow(key: string, discoveryUuid: string, managingOrganization: OrgRow)

  /** Program keys are unique in the table. */
  predicate UniqueKeys(programs: seq<ProgramRow>)
  {
    forall i, j :: 0 <= i < j < |programs| ==> programs[i].key != programs[j].key
  }

  /** `Program.objects.get(key=...)`: the program with the key, if any. */
  function FindProgram(programs: seq<ProgramRow>, key: string): (r: Option<ProgramRow>)
    ensures r.Some? <==> exists i :: 0 <= i < |programs| && programs[i].key == key
    ensures r.Some? ==> r.value in programs && r.value.key == key
  {
    if programs == [] then None
    else if programs[0].key == key then Some(programs[0])
    else FindProgram(programs[1..], key)
  }

  /** The programs managed by the organization with the key, in table order. */
  function ProgramsOf(programs: seq<ProgramRow>, orgKey: string): (r: seq<ProgramRow>)
    ensures forall p :: p in r <==> p in programs && p.managingOrganization.key == orgKey
    ensures |r| <= |programs|
  {
    if programs == [] then []
    else (if programs[0].managingOrganization.key == orgKey then [programs[0]] else []) + ProgramsOf(programs[1..], orgKey)
  }

  /** `ProgramListView.get_queryset`: every program, narrowed by a non-empty `org`. */
  function ProgramListQueryset(programs: seq<ProgramRow>, orgKey: Option<string>): (r: seq<ProgramRow>)
    ensures orgKey.None? || orgKey.value == "" ==> r == programs
    ensures orgKey.Some? && orgKey.value != "" ==> r == ProgramsOf(programs, orgKey.value)
  {
    if orgKey.Some? && orgKey.value != "" then ProgramsOf(programs, orgKey.value) else programs
  }

  /** `ProgramListView.get_permission_object`: the filter organization (404 if unknown), or None. */
  function ProgramListPermissionObject(orgs: map<string, OrgRow>, orgKey: Option<string>): (r: Result<Option<Target>, Denial>)
    ensures orgKey.None? || orgKey.value == "" ==> r == Ok(None)
    ensures orgKey.Some? && orgKey.value != "" && orgKey.value !in orgs ==> r == Err(NotFound)
    ensures orgKey.Some? && orgKey.value in orgs && orgKey.value != "" ==> r == Ok(Some(OnOrganization(orgs[orgKey.value].id)))
  {
    if orgKey.None? || orgKey.value == "" then Ok(None)
    else if orgKey.value !in orgs then Err(NotFound)
    else Ok(Some(OnOrganization(orgs[orgKey.value].id)))
  }

  /** The program list view's class attributes: 403 on denial, metadata read required. */
  const ProgramListConfig: ViewConfig := ViewConfig(false, false)

  /** A program list request: the permission check, then the queryset. */
  function ListPrograms(caller: Caller, grants: set<Grant>, orgs: map<string, OrgRow>,
                        programs: seq<ProgramRow>, orgKey: Option<string>): Result<seq<ProgramRow>, Denial>
  {
    match ViewsCheckPermissions(ProgramListConfig, false, false, caller,
                                RequiredStr(CorePermissions.OrganizationReadMetadata), grants,
                                ProgramListPermissionObject(orgs, orgKey))
    case Err(e) => Err(e)
    case Ok(_) => Ok(ProgramListQueryset(programs, orgKey))
  }

  /**
   * The listing rules: global metadata permission lists everything, with or
   * without a filter (an unknown organization then lists nothing); without
   * it, no filter is 403, an unknown organization 404, and a known one is
   * listed exactly when the caller may read its metadata.
   */
  lemma ListingRules(caller: Caller, grants: set<Grant>, orgs: map<string, OrgRow>,
                     programs: seq<ProgramRow>, orgKey: Option<string>)
    ensures var perm := CorePermissions.OrganizationReadMetadata;
      var global := UserHasPerm(grants, caller.user, caller.groups, perm, Global);
      var r := ListPrograms(caller, grants, orgs, programs, orgKey);
      && (global ==> r == Ok(ProgramListQueryset(programs, orgKey)))
      && (!global && (orgKey.None? || orgKey.value == "") ==> r == Err(PermissionDenied))
      && (!global && orgKey.Some? && orgKey.value != "" && orgKey.value !in orgs ==> r == Err(NotFound))
      && (!global && orgKey.Some? && orgKey.value != "" && orgKey.value in orgs ==>
            r == if UserHasPerm(grants, caller.user, caller.groups, perm, OnOrganization(orgs[orgKey.value].id))
                 then Ok(ProgramsOf(programs, orgKey.value)) else Err(PermissionDenied))
  {
    var perm := CorePermissions.OrganizationReadMetadata;
    assert [perm][0] == perm;
    assert forall t :: HoldsAll(grants, caller, [perm], t) <==> UserHasPerm(grants, caller.user, caller.groups, perm, t);
  }

  /** Filtering by an unknown organization key lists nothing. */
  lemma {:induction false} UnknownOrgListsNothing(programs: seq<ProgramRow>, orgKey: string)
    requires forall i :: 0 <= i < |programs| ==> programs[i].managingOrganization.key != orgKey
    ensures ProgramsOf(programs, orgKey) == []
  {
    if programs != [] {
      UnknownOrgListsNothing(programs[1..], orgKey);
    }
  }

  /**
   * A view for one program, named by the `program_key` URL parameter; the
   * program is loaded on first use and kept in `cached`.
   */
  class ProgramSpecificView {
    const programKey: string
    const programs: seq<ProgramRow>
    var cached: Option<ProgramRow>
    var lookups: nat

    constructor (programKey: string, programs: seq<ProgramRow>)
      ensures this.programKey == programKey && this.programs == programs && cached == None && lookups == 0
    {
      this.programKey := programKey;
      this.programs := programs;
      cached := None;
      lookups := 0;
    }

    /** The memo holds only the program the key names. */
    predicate Valid()
      reads this
    {
      cached.Some? ==> cached == FindProgram(programs, programKey)
    }

    /**
     * The `program` property: the first use looks the key up (404 when
     * no program has it) and keeps the program; later uses reuse it.
     */
    method Program() returns (r: Result<ProgramRow, Denial>)
      requires Valid()
      modifies this
      ensures Valid()
      ensures r.Ok? <==> FindProgram(programs, programKey).Some?
      ensures r.Ok? ==> r.value == FindProgram(programs, programKey).value && cached == Some(r.value)
      ensures r.Err? ==> r.error == NotFound && cached == None
      ensures lookups == old(lookups) + (if old(cached).Some? then 0 else 1)
    {
      if cached.None? {
        lookups := lookups + 1;
        var found := FindProgram(programs, programKey);
        if found.None? {
          return Err(NotFound);
        }
        cached := found;
      }
      r := Ok(cached.value);
    }

    /**
     * `get_permission_object`: the managing organization of the program,
     * which is an organization of the enrollments app.
     */
    method PermissionObject() returns (r: Result<Option<Target>, Denial>)
      requires Valid()
      modifies this
      ensures Valid()
      ensures FindProgram(programs, programKey).None? ==> r == Err(NotFound)
      ensures FindProgram(programs, programKey).Some? ==>
        r == Ok(Some(OnEnrollmentsOrganization(FindProgram(programs, programKey).value.managingOrganization.id)))
      ensures lookups == old(lookups) + (if old(cached).Some? then 0 else 1)
    {
      var program := Program();
      if program.Err? {
        return Err(program.error);
      }
      r := Ok(Some(OnEnrollmentsOrganization(program.value.managingOrganization.id)));
    }
  }

  /**
   * Grants on the enrollments organization that name none of the required
   * permissions count for nothing: a program-specific view then answers as
   * if it had no permission object, so only global grants admit.
   */
  lemma EnrollmentsOrganizationAdmitsOnlyGlobal(view: ViewConfig, grants: set<Grant>, caller: Caller,
                                                required: seq<string>, org: int)
    requires forall g :: g in grants && g.target == OnEnrollmentsOrganization(org) ==> g.perm !in required
    ensures Authorize(view, grants, caller, required, Ok(Some(OnEnrollmentsOrganization(org))))
         == Authorize(view, grants, caller, required, Ok(None))
  {
    if |required| > 0 && !HoldsAll(grants, caller, required, Global) {
      var target := OnEnrollmentsOrganization(org);
      assert Grant(UserHolder(caller.user), required[0], target) !in grants;
      assert forall g :: Grant(GroupHolder(g), required[0], target) !in grants;
      assert !UserHasPerm(grants, caller.user, caller.groups, required[0], target);
    }
  }

  /**
   * The enrollments roles grant unprefixed codenames, and the views require
   * 'core.' ones: a group's enrollments grants never admit a caller to a
   * program-specific view that needs a core organization permission.
   */
  lemma EnrollmentsGrantsDoNotAdmit(view: ViewConfig, role: string, group: int, org: int,
                                    caller: Caller, perm: string)
    requires perm in CorePermissions.OrganizationPermissions
    ensures Authorize(view, EnrollmentsModels.SaveGrants(role, group, org), caller, [perm],
                      Ok(Some(OnEnrollmentsOrganization(org)))) == Err(UnauthorizedResponse(view))
  {
    var grants := EnrollmentsModels.SaveGrants(role, group, org);
    EnrollmentsModels.SaveGrantsScoped(role, group, org);
    assert forall g :: g in grants ==> g.target != Global;
    forall g | g in grants && g.target == OnEnrollmentsOrganization(org)
      ensures g.perm !in [perm]
    {
      assert g.perm in EnrollmentsPermissions.PermSet(EnrollmentsModels.RoleForName(role).value);
      assert g.perm in {EnrollmentsPermissions.OrganizationReadMetadata, EnrollmentsPermissions.OrganizationReadEnrollments,
                        EnrollmentsPermissions.OrganizationWriteEnrollments};
      assert perm[..5] == "core.";
    }
    assert !HoldsAll(grants, caller, [perm], Global) by {
      assert Grant(UserHolder(caller.user), perm, Global) !in grants;
      assert forall g :: Grant(GroupHolder(g), perm, Global) !in grants;
      assert !UserHasPerm(grants, caller.user, caller.groups, [perm][0], Global);
    }
    EnrollmentsOrganizationAdmitsOnlyGlobal(view, grants, caller, [perm], org);
  }

  /** Two uses of `program` on one view look the program up at most once, and agree. */
  method ProgramTwice(view: ProgramSpecificView) returns (first: Result<ProgramRow, Denial>, second: Result<ProgramRow, Denial>)
    requires view.Valid() && view.cached.None?
    modifies view
    ensures first == second
    ensures view.lookups == old(view.lookups) + (if first.Ok? then 1 else 2)
  {
    first := view.Program();
    second := view.Program();
  }

  /** Why the course list could not be built. */
  datatype CourseListError =
    | DiscoveryFailed(message: string)   // the re-raised Exception
    | Python(error: PyError)

  function DiscoveryFailureMessage(programKey: string, uuid: string, httpStatus: nat): string
  {
    "Failed to retrieve program data from course-discovery " +
    "(key = " + programKey + ", uuid = " + uuid + ", http status = " + Text.NatText(httpStatus) + ")"
  }

  /** `curricula[0]` of a truthy value. */
  function FirstItem(curricula: Json): (r: Result<Json, PyError>)
    requires Truthy(curricula)
    ensures curricula.JList? ==> r == Ok(curricula.items[0])
  {
    match curricula
    case JList(items) => Ok(items[0])
    case JStr(s) => Ok(JStr([s[0]]))
    case JObject(_) => Err(KeyError)   // keys are strings, the index is 0
    case _ => Err(TypeError)
  }

  /** `course.get('course_runs')`, which must be a list to be added to one. */
  function RunsOfCourse(course: Json): (r: Result<seq<Json>, PyError>)
    ensures r.Ok? <==> course.JObject? && "course_runs" in course.fields && course.fields["course_runs"].JList?
    ensures r.Ok? ==> r.value == course.fields["course_runs"].items
  {
    match Get(course, "course_runs", JNull)
    case Err(e) => Err(e)
    case Ok(runs) => if runs.JList? then Ok(runs.items) else Err(TypeError)
  }

  /** The runs of the courses, concatenated in order; the first bad course decides the error. */
  function ConcatRuns(courses: seq<Json>): (r: Result<seq<Json>, PyError>)
    ensures r.Ok? <==> forall i :: 0 <= i < |courses| ==> RunsOfCourse(courses[i]).Ok?
  {
    if courses == [] then Ok([])
    else
      var last := |courses| - 1;
      match ConcatRuns(courses[..last])
      case Err(e) => Err(e)
      case Ok(acc) =>
        match RunsOfCourse(courses[last])
        case Err(e) => Err(e)
        case Ok(runs) => Ok(acc + runs)
  }

  /** The courses the view iterates: `curricula[0].get('courses') or []`, when there are curricula. */
  function CoursesOfFirstCurriculum(details: Json): (r: Result<seq<Json>, PyError>)
    ensures details.JObject? && ("curricula" !in details.fields || !Truthy(details.fields["curricula"])) ==> r == Ok([])
  {
    match Get(details, "curricula", JNull)
    case Err(e) => Err(e)
    case Ok(curricula) =>
      if !Truthy(curricula) then Ok([])
      else match FirstItem(curricula)
        case Err(e) => Err(e)
        case Ok(first) =>
          match Get(first, "courses", JNull)
          case Err(e) => Err(e)
          case Ok(courses) => Elements(if Truthy(courses) then courses else JList([]))
  }

  /**
   * `ProgramCourseListView.get_queryset`: the runs of every course of the
   * first curriculum, in order; a discovery HTTP error is logged and
   * re-raised with the program key, uuid and status in its message.
   */
  method ProgramCourseList(programKey: string, uuid: string, fetched: Result<Json, nat>)
    returns (r: Result<seq<Json>, CourseListError>, logged: Option<string>)
    ensures fetched.Err? ==>
      r == Err(DiscoveryFailed(DiscoveryFailureMessage(programKey, uuid, fetched.error))) &&
      logged == Some(DiscoveryFailureMessage(programKey, uuid, fetched.error))
    ensures fetched.Ok? ==> logged == None
    ensures fetched.Ok? ==>
      r == match CoursesOfFirstCurriculum(fetched.value)
           case Err(e) => Err(Python(e))
           case Ok(courses) =>
             match ConcatRuns(courses)
             case Err(e) => Err(Python(e))
             case Ok(runs) => Ok(runs)
  {
    if fetched.Err? {
      var message := DiscoveryFailureMessage(programKey, uuid, fetched.error);
      return Err(DiscoveryFailed(message)), Some(message);
    }
    logged := None;
    var courses := CoursesOfFirstCurriculum(fetched.value);
    if courses.Err? {
      return Err(Python(courses.error)), None;
    }
    var courseRuns: seq<Json> := [];
    var i := 0;
    while i < |courses.value|
      invariant 0 <= i <= |courses.value|
      invariant ConcatRuns(courses.value[..i]) == Ok(courseRuns)
    {
      var course := courses.value[i];
      assert courses.value[..i + 1][..i] == courses.value[..i];
      var runs := RunsOfCourse(course);
      if runs.Err? {
        ConcatErrorPersists(courses.value, i + 1);
        assert courses.value[..|courses.value|] == courses.value;
        return Err(Python(runs.error)), None;
      }
      courseRuns := courseRuns + runs.value;
      i := i + 1;
    }
    assert courses.value[..i] == courses.value;
    r := Ok(courseRuns);
  }

  /** An error in a prefix of the courses is the error of the whole list. */
  lemma {:induction false} ConcatErrorPersists(courses: seq<Json>, n: nat)
    requires n <= |courses| && ConcatRuns(courses[..n]).Err?
    ensures ConcatRuns(courses) == ConcatRuns(courses[..n])
    decreases |courses| - n
  {
    if n < |courses| {
      assert courses[..n + 1][..n] == courses[..n];
      ConcatErrorPersists(courses, n + 1);
    } else {
      assert courses[..n] == courses;
    }
  }

  /** Runs of two lists of courses, concatenated, are the runs of the joined list. */
  lemma {:induction false} ConcatRunsAppend(a: seq<Json>, b: seq<Json>)
    requires ConcatRuns(a).Ok? && ConcatRuns(b).Ok?
    ensures ConcatRuns(a + b) == Ok(ConcatRuns(a).value + ConcatRuns(b).value)
    decreases |b|
  {
    if b == [] {
      assert a + b == a;
      assert ConcatRuns(a).value + [] == ConcatRuns(a).value;
    } else {
      var last := |b| - 1;
      assert (a + b)[..|a + b| - 1] == a + b[..last];
      assert (a + b)[|a + b| - 1] == b[last];
      assert ConcatRuns(b[..last]).Ok? by {
        forall i | 0 <= i < last ensures RunsOfCourse(b[..last][i]).Ok? {
          assert b[..last][i] == b[i];
        }
      }
      ConcatRunsAppend(a, b[..last]);
      var runs := RunsOfCourse(b[last]).value;
      assert ConcatRuns(b) == Ok(ConcatRuns(b[..last]).value + runs);
      assert ConcatRuns(a + b) == Ok(ConcatRuns(a + b[..last]).value + runs);
      assert ConcatRuns(a).value + ConcatRuns(b[..last]).value + runs ==
        ConcatRuns(a).value + (ConcatRuns(b[..last]).value + runs);
    }
  }

  /**
   * The list reads the first curriculum whether or not it is active:
   * changing its `is_active` changes nothing.
   */
  lemma FirstCurriculumRegardlessOfActive(fields: map<string, Json>, curriculum: map<string, Json>,
                                          rest: seq<Json>, active: Json)
    ensures var flipped := JObject(curriculum["is_active" := active]);
      var d1 := JObject(fields["curricula" := JList([JObject(curriculum)] + rest)]);
      var d2 := JObject(fields["curricula" := JList([flipped] + rest)]);
      CoursesOfFirstCurriculum(d1) == CoursesOfFirstCurriculum(d2)
  {
    var flipped := JObject(curriculum["is_active" := active]);
    assert Get(flipped, "courses", JNull) == Get(JObject(curriculum), "courses", JNull);
  }
}
