/**
 * The v1 mock API views (registrar/apps/api/v1_mock/views.py).  They answer
 * like the v0 mock views, over the tables of FakeData (registrar/apps/api/v1_mock/data.py
 * is not part of this model; its tables are taken to be those of v0), but also record why a
 * request failed in the view's tracking data, and the program listing honours
 * a global metadata-read permission.  A decision here returns the tracking
 * fields the view merges with `add_tracking_data` alongside its result.
 */
module MockV1Views {
  import opened Wrappers
  import opened FakeData
  import opened EnrollmentWrites
  import opened Tracking
  import CorePermissions
  import V0 = MockV0Views

  type ViewFailure = V0.ViewFailure
  type FakeCourseRun = V0.FakeCourseRun

  datatype Outcome<T> = Outcome(result: Result<T, ViewFailure>, tracking: map<string, TrackValue>)

  const MissingPermissionsKey: string := "missing_permissions"
  const FailureKey: string := "failure"
  const JobStateKey: string := "job_state"

  function MissingPermission(perm: string): map<string, TrackValue>
  {
    map[MissingPermissionsKey := StrList([perm])]
  }

  function Failure(reason: string): map<string, TrackValue>
  {
    map[FailureKey := Str(reason)]
  }

  /**
   * `MockProgramListView.check_permissions` followed by `get_queryset`.
   * `globalRead` is whether the user holds the metadata-read permission
   * globally.
   */
  function ListPrograms(orgKey: Option<string>, globalRead: bool): (o: Outcome<seq<FakeProgram>>)
    ensures o.result.Ok? <==>
      (!V0.Given(orgKey) && globalRead) ||
      (V0.Given(orgKey) && orgKey.value in FakeOrgDict() &&
        (FakeOrgDict()[orgKey.value].metadataReadable || globalRead))
    ensures !V0.Given(orgKey) && o.result.Ok? ==> o.result.value == FakePrograms
    ensures V0.Given(orgKey) && o.result.Ok? ==>
      forall p :: p in o.result.value <==> p in FakePrograms && p.managingOrganization.key == orgKey.value
    ensures o.result == Err(V0.Forbidden) <==>
      (!globalRead &&
        (!V0.Given(orgKey) || (orgKey.value in FakeOrgDict() && !FakeOrgDict()[orgKey.value].metadataReadable)))
    ensures o.result == Err(V0.NotFound) <==> V0.Given(orgKey) && orgKey.value !in FakeOrgDict()
    ensures o.tracking ==
      if o.result == Err(V0.Forbidden) then MissingPermission(CorePermissions.OrganizationReadMetadata)
      else if o.result.Err? then Failure("org_not_found")
      else map[]
  {
    if !V0.Given(orgKey) then
      if globalRead then Outcome(Ok(FakePrograms), map[])
      else Outcome(Err(V0.Forbidden), MissingPermission(CorePermissions.OrganizationReadMetadata))
    else if orgKey.value in FakeOrgDict() && !FakeOrgDict()[orgKey.value].metadataReadable && !globalRead then
      Outcome(Err(V0.Forbidden), MissingPermission(CorePermissions.OrganizationReadMetadata))
    else if orgKey.value !in FakeOrgDict() then
      Outcome(Err(V0.NotFound), Failure("org_not_found"))
    else
      V0.FakeOrgDictKeys(orgKey.value);
      FakeOrgProgramsPartition();
      Outcome(Ok(FakeOrgPrograms()[orgKey.value]), map[])
  }

  /** The `program` property: 404, tracked as `program_not_found`, for an unknown key. */
  function ProgramLookup(programKey: string): (o: Outcome<FakeProgram>)
    ensures o.result == V0.ProgramLookup(programKey)
    ensures o.tracking == if o.result.Err? then Failure("program_not_found") else map[]
  {
    var r := V0.ProgramLookup(programKey);
    Outcome(r, if r.Err? then Failure("program_not_found") else map[])
  }

  /**
   * The `course` property: the program lookup and its tracking, the course-run
   * table entry, then the first matching run, else 404 tracked as
   * `course_not_found`.
   */
  function CourseLookup(courseRuns: map<string, seq<FakeCourseRun>>, programKey: string, courseId: string)
    : (o: Outcome<FakeCourseRun>)
    ensures o.result == V0.CourseLookup(courseRuns, programKey, courseId)
    ensures o.tracking ==
      if programKey !in FakeProgramDict() then Failure("program_not_found")
      else if o.result == Err(V0.NotFound) then Failure("course_not_found")
      else map[]
  {
    var program := ProgramLookup(programKey);
    if program.result.Err? then Outcome(Err(program.result.error), program.tracking)
    else if programKey !in courseRuns then Outcome(Err(V0.MissingCourseRuns), map[])
    else
      match V0.FirstRunWithKey(courseRuns[programKey], courseId)
      case Some(run) => Outcome(Ok(run), map[])
      case None => Outcome(Err(V0.NotFound), Failure("course_not_found"))
  }

  /** `MockProgramRetrieveView.get_object`. */
  function RetrieveProgram(programKey: string): (o: Outcome<FakeProgram>)
    ensures o.result == V0.RetrieveProgram(programKey)
    ensures o.tracking ==
      if o.result == Err(V0.Forbidden) then MissingPermission(CorePermissions.OrganizationReadMetadata)
      else if o.result.Err? then Failure("program_not_found")
      else map[]
  {
    var program := ProgramLookup(programKey);
    if program.result.Err? then program
    else if program.result.value.managingOrganization.metadataReadable then program
    else Outcome(Err(V0.Forbidden), MissingPermission(CorePermissions.OrganizationReadMetadata))
  }

  /** `MockProgramCourseListView.get_queryset`. */
  function ProgramCourses(courseRuns: map<string, seq<FakeCourseRun>>, programKey: string)
    : (o: Outcome<seq<FakeCourseRun>>)
    ensures o.result == V0.ProgramCourses(courseRuns, programKey)
    ensures o.tracking == RetrieveProgram(programKey).tracking
  {
    var program := RetrieveProgram(programKey);
    if program.result.Err? then Outcome(Err(program.result.error), program.tracking)
    else if programKey !in courseRuns then Outcome(Err(V0.MissingCourseRuns), map[])
    else Outcome(Ok(courseRuns[programKey]), map[])
  }

  /** The tracking fields a write reply leaves behind. */
  function WriteTracking(reply: Reply): (t: map<string, TrackValue>)
    ensures FailureKey in t <==>
      reply == ObjectNotFound || reply == ValidationError ||
      (reply.TextReply? && reply.code in {HttpTooLarge, HttpUnprocessable}) ||
      (reply.StatusReply? && reply.code == HttpUnprocessable)
    ensures MissingPermissionsKey in t <==> reply == PermissionDenied
    ensures reply.StatusReply? && reply.code != HttpUnprocessable ==> t == map[]
  {
    match reply
    case ObjectNotFound => Failure("program_not_found")
    case PermissionDenied => MissingPermission(CorePermissions.OrganizationWriteEnrollments)
    case ValidationError => Failure("unprocessable_entity")
    case TextReply(code, _) =>
      if code == HttpTooLarge then Failure("request_entity_too_large")
      else if code == HttpUnprocessable then Failure("unprocessable_entity")
      else map[]
    case StatusReply(code, _) => if code == HttpUnprocessable then Failure("unprocessable_entity") else map[]
    case ServerError => map[]
  }

  /**
   * `EchoStatusesMixin.validate_and_echo_statuses`: the checks and the loop of
   * the v0 writer, except that a record lacking `student_key` is answered
   * with 'invalid enrollment record', and each refusal is tracked.
   */
  method ValidateAndEchoStatuses(view: TrackView, programKey: string, body: Body, choices: set<string>)
    returns (reply: Reply)
    modifies view
    ensures programKey !in FakeProgramDict() ==> reply == ObjectNotFound
    ensures programKey in FakeProgramDict() && !FakeProgramDict()[programKey].managingOrganization.enrollmentsWriteable
      ==> reply == PermissionDenied
    ensures programKey in FakeProgramDict() && FakeProgramDict()[programKey].managingOrganization.enrollmentsWriteable ==>
      && (body.NotList? ==> reply == ValidationError)
      && (body.List? && |body.records| > EnrollmentWriteMaxSize ==> reply == TextReply(HttpTooLarge, LimitText))
      && (body.List? && |body.records| <= EnrollmentWriteMaxSize ==>
            reply == EchoReply(body.records, choices, InvalidRecordText))
    ensures view.extraData == old(view.extraData) + WriteTracking(reply)
    ensures view.sent == old(view.sent) && view.errorsLogged == old(view.errorsLogged)
  {
    var program := ProgramLookup(programKey);
    if program.result.Err? {
      reply := ObjectNotFound;
    } else if !program.result.value.managingOrganization.enrollmentsWriteable {
      reply := PermissionDenied;
    } else if body.NotList? {
      reply := ValidationError;
    } else if |body.records| > 25 {
      reply := TextReply(HttpTooLarge, LimitText);
    } else {
      reply := EchoStatuses(body.records, choices, InvalidRecordText);
    }
    view.AddTrackingData(WriteTracking(reply));
  }

  /** With the v1 text, no record is ever answered with 'student key required'. */
  lemma EchoTextIsInvalidRecord(records: seq<Record>, choices: set<string>)
    ensures EchoReply(records, choices, InvalidRecordText).TextReply? ==>
      EchoReply(records, choices, InvalidRecordText) == TextReply(HttpUnprocessable, InvalidRecordText)
  {
    EchoAbortsIff(records, choices, InvalidRecordText);
    if !EchoAll(records, choices, InvalidRecordText).Echoing? {
      var i := FirstFatalIndex(records, choices);
      FirstFatalAborts(records, choices, InvalidRecordText, i);
    }
  }

  /** `MockCourseEnrollmentView.post/patch`: the course lookup, then the program write. */
  method CourseValidateAndEchoStatuses(
    view: TrackView, courseRuns: map<string, seq<FakeCourseRun>>, programKey: string, courseId: string,
    body: Body, choices: set<string>)
    returns (reply: Reply)
    modifies view
    ensures V0.CourseLookup(courseRuns, programKey, courseId) == Err(V0.MissingCourseRuns) ==>
      reply == ServerError && view.extraData == old(view.extraData)
    ensures V0.CourseLookup(courseRuns, programKey, courseId) == Err(V0.NotFound) ==>
      reply == ObjectNotFound &&
      view.extraData == old(view.extraData) + CourseLookup(courseRuns, programKey, courseId).tracking
    ensures V0.CourseLookup(courseRuns, programKey, courseId).Ok? ==>
      && view.extraData == old(view.extraData) + WriteTracking(reply)
      && programKey in FakeProgramDict()
      && (!FakeProgramDict()[programKey].managingOrganization.enrollmentsWriteable ==> reply == PermissionDenied)
      && (FakeProgramDict()[programKey].managingOrganization.enrollmentsWriteable ==>
            && (body.NotList? ==> reply == ValidationError)
            && (body.List? && |body.records| > EnrollmentWriteMaxSize ==> reply == TextReply(HttpTooLarge, LimitText))
            && (body.List? && |body.records| <= EnrollmentWriteMaxSize ==>
                  reply == EchoReply(body.records, choices, InvalidRecordText)))
    ensures reply.StatusReply? ==>
      V0.CourseLookup(courseRuns, programKey, courseId).Ok? && body.List? &&
      reply == EchoReply(body.records, choices, InvalidRecordText)
  {
    var course := CourseLookup(courseRuns, programKey, courseId);
    if course.result.Err? {
      view.AddTrackingData(course.tracking);
      reply := if course.result.error == V0.MissingCourseRuns then ServerError else ObjectNotFound;
      return;
    }
    reply := ValidateAndEchoStatuses(view, programKey, body, choices);
  }

  /** The permission part of `MockProgramEnrollmentView.get`. */
  function ProgramEnrollmentsReadable(programKey: string): (o: Outcome<FakeProgram>)
    ensures o.result == V0.ProgramEnrollmentsReadable(programKey)
    ensures o.tracking ==
      if o.result == Err(V0.Forbidden) then MissingPermission(CorePermissions.OrganizationReadEnrollments)
      else if o.result.Err? then Failure("program_not_found")
      else map[]
  {
    var program := ProgramLookup(programKey);
    if program.result.Err? then program
    else if program.result.value.managingOrganization.enrollmentsReadable then program
    else Outcome(Err(V0.Forbidden), MissingPermission(CorePermissions.OrganizationReadEnrollments))
  }

  /** The checks of `MockCourseEnrollmentView.get`: read permission first, then the course. */
  function CourseEnrollmentsReadable(courseRuns: map<string, seq<FakeCourseRun>>, programKey: string, courseId: string)
    : (o: Outcome<FakeCourseRun>)
    ensures o.result == V0.CourseEnrollmentsReadable(courseRuns, programKey, courseId)
    ensures ProgramEnrollmentsReadable(programKey).result.Err? ==> o.tracking == ProgramEnrollmentsReadable(programKey).tracking
  {
    var program := ProgramEnrollmentsReadable(programKey);
    if program.result.Err? then Outcome(Err(program.result.error), program.tracking)
    else CourseLookup(courseRuns, programKey, courseId)
  }

  /** A job status as the fake job table reports it. */
  datatype FakeJobStatus = FakeJobStatus(state: string, result: Option<string>)

  /**
   * `MockJobStatusRetrieveView.get_object`, given what the fake job table
   * answered for the id: the status, tracked by its state, or 404 tracked as
   * `job_not_found`.
   */
  function JobStatus(found: Option<FakeJobStatus>): (o: Outcome<FakeJobStatus>)
    ensures o.result.Ok? <==> found.Some?
    ensures o.result.Ok? ==> o.result.value == found.value && o.tracking == map[JobStateKey := Str(found.value.state)]
    ensures o.result.Err? ==> o.result.error == V0.NotFound && o.tracking == Failure("job_not_found")
  {
    match found
    case Some(status) => Outcome(Ok(status), map[JobStateKey := Str(status.state)])
    case None => Outcome(Err(V0.NotFound), Failure("job_not_found"))
  }
}
