/**
 * The v0 mock API views (registrar/apps/api/v0/views.py): program listing,
 * program and course lookup, and the bulk enrollment write, all over the
 * fixed tables of `FakeData`.  The per-program course-run table is not part of
 * those tables and is a parameter here.
 */
module MockV0Views {
  import opened Wrappers
  import opened FakeData
  import opened EnrollmentWrites

  datatype ViewFailure =
    | Forbidden            // PermissionDenied, 403
    | NotFound             // Http404
    | MissingCourseRuns    // KeyError on the course-run table

  datatype FakeCourseRun = FakeCourseRun(key: string, title: string)

  /** The text of the v0 reply to an invalid-status record without `student_key`. */
  const StudentKeyRequired: string := "student key required"

  /** A query or path parameter that is present and truthy (not the empty string). */
  predicate Given(q: Option<string>)
  {
    q.Some? && q.value != ""
  }

  /**
   * `MockProgramListView.get_queryset`: an org filter is required, must name
   * a known organization, and that organization must be metadata-readable;
   * the result is then exactly that organization's programs.
   */
  function ListPrograms(orgKey: Option<string>): (r: Result<seq<FakeProgram>, ViewFailure>)
    ensures !Given(orgKey) ==> r == Err(Forbidden)
    ensures Given(orgKey) && orgKey.value !in FakeOrgDict() ==> r == Err(NotFound)
    ensures Given(orgKey) && orgKey.value in FakeOrgDict() && !FakeOrgDict()[orgKey.value].metadataReadable
      ==> r == Err(Forbidden)
    ensures r.Ok? ==> Given(orgKey) && orgKey.value in FakeOrgDict() && FakeOrgDict()[orgKey.value].metadataReadable
    ensures r.Ok? ==> forall p :: p in r.value <==> p in FakePrograms && p.managingOrganization.key == orgKey.value
  {
    if !Given(orgKey) then Err(Forbidden)
    else if orgKey.value !in FakeOrgDict() then Err(NotFound)
    else
      var org := FakeOrgDict()[orgKey.value];
      if !org.metadataReadable then Err(Forbidden)
      else
        FakeOrgDictKeys(orgKey.value);
        FakeOrgProgramsPartition();
        Ok(FakeOrgPrograms()[org.key])
  }

  /** A known organization key maps to an organization carrying that key. */
  lemma FakeOrgDictKeys(k: string)
    requires k in FakeOrgDict()
    ensures FakeOrgDict()[k] in FakeOrgs && FakeOrgDict()[k].key == k
  {
    FakeOrgDictIndexesOrgs();
    var i :| 0 <= i < |FakeOrgs| && FakeOrgs[i].key == k;
  }

  /** A known program key maps to a fake program carrying that key. */
  lemma FakeProgramDictKeys(k: string)
    requires k in FakeProgramDict()
    ensures FakeProgramDict()[k] in FakePrograms && FakeProgramDict()[k].key == k
  {
    FakeProgramDictIndexesPrograms();
    var i :| 0 <= i < |FakePrograms| && FakePrograms[i].key == k;
  }

  /** The `program` property: the fake program with the key, else 404. */
  function ProgramLookup(programKey: string): (r: Result<FakeProgram, ViewFailure>)
    ensures r.Ok? <==> programKey in FakeProgramDict()
    ensures r.Ok? ==> r.value in FakePrograms && r.value.key == programKey
    ensures r.Err? ==> r.error == NotFound
  {
    if programKey !in FakeProgramDict() then Err(NotFound)
    else
      FakeProgramDictKeys(programKey);
      Ok(FakeProgramDict()[programKey])
  }

  /** `next(filter(lambda run: run.key == course_id, runs), None)`: the first run with the key. */
  function FirstRunWithKey(runs: seq<FakeCourseRun>, courseId: string): (r: Option<FakeCourseRun>)
    ensures r.None? <==> forall i :: 0 <= i < |runs| ==> runs[i].key != courseId
    ensures r.Some? ==> exists i :: (0 <= i < |runs| && runs[i] == r.value && r.value.key == courseId &&
      forall j :: 0 <= j < i ==> runs[j].key != courseId)
  {
    if runs == [] then None
    else if runs[0].key == courseId then Some(runs[0])
    else
      var r := FirstRunWithKey(runs[1..], courseId);
      if r.Some? then
        var i :| 0 <= i < |runs[1..]| && runs[1..][i] == r.value && r.value.key == courseId &&
          forall j :: 0 <= j < i ==> runs[1..][j].key != courseId;
        assert runs[i + 1] == r.value;
        r
      else r
  }

  /**
   * The `course` property: the program must exist (404), its entry in the
   * course-run table must exist (KeyError), and the first run whose key is
   * `course_id` is returned, else 404.
   */
  function CourseLookup(courseRuns: map<string, seq<FakeCourseRun>>, programKey: string, courseId: string)
    : (r: Result<FakeCourseRun, ViewFailure>)
    ensures programKey !in FakeProgramDict() ==> r == Err(NotFound)
    ensures programKey in FakeProgramDict() && programKey !in courseRuns ==> r == Err(MissingCourseRuns)
    ensures r.Ok? ==> programKey in courseRuns && r.value in courseRuns[programKey] && r.value.key == courseId
    ensures programKey in FakeProgramDict() && programKey in courseRuns ==>
      (r.Ok? <==> exists run :: run in courseRuns[programKey] && run.key == courseId)
    ensures r.Err? && programKey in courseRuns ==> r.error == NotFound
  {
    var program := ProgramLookup(programKey);
    if program.Err? then Err(program.error)
    else if program.value.key !in courseRuns then Err(MissingCourseRuns)
    else
      match FirstRunWithKey(courseRuns[program.value.key], courseId)
      case Some(run) => Ok(run)
      case None => Err(NotFound)
  }

  /** `MockProgramRetrieveView.get_object`: the program, if its organization is metadata-readable. */
  function RetrieveProgram(programKey: string): (r: Result<FakeProgram, ViewFailure>)
    ensures r.Ok? <==> programKey in FakeProgramDict() && FakeProgramDict()[programKey].managingOrganization.metadataReadable
    ensures r.Ok? ==> r.value.key == programKey
    ensures r.Err? ==> r.error == (if programKey in FakeProgramDict() then Forbidden else NotFound)
  {
    var program := ProgramLookup(programKey);
    if program.Err? then program
    else if program.value.managingOrganization.metadataReadable then program
    else Err(Forbidden)
  }

  /** `MockProgramCourseListView.get_queryset`: the program's course runs, if metadata-readable. */
  function ProgramCourses(courseRuns: map<string, seq<FakeCourseRun>>, programKey: string)
    : (r: Result<seq<FakeCourseRun>, ViewFailure>)
    ensures r.Ok? <==> RetrieveProgram(programKey).Ok? && programKey in courseRuns
    ensures r.Ok? ==> r.value == courseRuns[programKey]
    ensures RetrieveProgram(programKey).Err? ==> r == Err(RetrieveProgram(programKey).error)
  {
    var program := RetrieveProgram(programKey);
    if program.Err? then Err(program.error)
    else if program.value.key !in courseRuns then Err(MissingCourseRuns)
    else Ok(courseRuns[program.value.key])
  }

  /**
   * `EchoStatusesMixin.validate_and_echo_statuses`: the program must exist;
   * then 403 unless its organization is enrollments-writeable, before the
   * body is looked at; a non-list body is a validation error; more than 25
   * records is 413 before any record is examined; otherwise the loop decides.
   */
  method ValidateAndEchoStatuses(programKey: string, body: Body, choices: set<string>) returns (reply: Reply)
    ensures programKey !in FakeProgramDict() ==> reply == ObjectNotFound
    ensures programKey in FakeProgramDict() && !FakeProgramDict()[programKey].managingOrganization.enrollmentsWriteable
      ==> reply == PermissionDenied
    ensures programKey in FakeProgramDict() && FakeProgramDict()[programKey].managingOrganization.enrollmentsWriteable ==>
      && (body.NotList? ==> reply == ValidationError)
      && (body.List? && |body.records| > EnrollmentWriteMaxSize ==> reply == TextReply(HttpTooLarge, LimitText))
      && (body.List? && |body.records| <= EnrollmentWriteMaxSize ==>
            reply == EchoReply(body.records, choices, StudentKeyRequired))
  {
    var program := ProgramLookup(programKey);
    if program.Err? {
      return ObjectNotFound;
    }
    if !program.value.managingOrganization.enrollmentsWriteable {
      return PermissionDenied;
    }
    if body.NotList? {
      return ValidationError;
    }
    if |body.records| > 25 {
      return TextReply(HttpTooLarge, LimitText);
    }
    reply := EchoStatuses(body.records, choices, StudentKeyRequired);
  }

  /**
   * `MockCourseEnrollmentView.post/patch`: the course is looked up first (404
   * for an unknown program or course, a server error when the program has no
   * course-run entry), then the program write runs.
   */
  method CourseValidateAndEchoStatuses(
    courseRuns: map<string, seq<FakeCourseRun>>, programKey: string, courseId: string,
    body: Body, choices: set<string>)
    returns (reply: Reply)
    ensures CourseLookup(courseRuns, programKey, courseId) == Err(MissingCourseRuns) ==> reply == ServerError
    ensures CourseLookup(courseRuns, programKey, courseId) == Err(ViewFailure.NotFound) ==> reply == ObjectNotFound
    ensures CourseLookup(courseRuns, programKey, courseId).Ok? ==>
      && programKey in FakeProgramDict()
      && (!FakeProgramDict()[programKey].managingOrganization.enrollmentsWriteable ==> reply == PermissionDenied)
      && (FakeProgramDict()[programKey].managingOrganization.enrollmentsWriteable ==>
            && (body.NotList? ==> reply == ValidationError)
            && (body.List? && |body.records| > EnrollmentWriteMaxSize ==> reply == TextReply(HttpTooLarge, LimitText))
            && (body.List? && |body.records| <= EnrollmentWriteMaxSize ==>
                  reply == EchoReply(body.records, choices, StudentKeyRequired)))
    ensures reply.StatusReply? ==>
      CourseLookup(courseRuns, programKey, courseId).Ok? && body.List? &&
      reply == EchoReply(body.records, choices, StudentKeyRequired)
  {
    var course := CourseLookup(courseRuns, programKey, courseId);
    if course.Err? {
      return if course.error == MissingCourseRuns then ServerError else ObjectNotFound;
    }
    reply := ValidateAndEchoStatuses(programKey, body, choices);
  }

  /**
   * The permission part of `MockProgramEnrollmentView.get`: the program must
   * exist and be enrollments-readable; the fake listing job it then starts is
   * not part of this model.
   */
  function ProgramEnrollmentsReadable(programKey: string): (r: Result<FakeProgram, ViewFailure>)
    ensures r.Ok? <==> programKey in FakeProgramDict() && FakeProgramDict()[programKey].managingOrganization.enrollmentsReadable
    ensures r.Ok? ==> r.value.key == programKey
    ensures r.Err? ==> r.error == (if programKey in FakeProgramDict() then Forbidden else ViewFailure.NotFound)
  {
    var program := ProgramLookup(programKey);
    if program.Err? then program
    else if program.value.managingOrganization.enrollmentsReadable then program
    else Err(Forbidden)
  }

  /**
   * The checks of `MockCourseEnrollmentView.get`: read permission on the
   * program first, then the course lookup.
   */
  function CourseEnrollmentsReadable(courseRuns: map<string, seq<FakeCourseRun>>, programKey: string, courseId: string)
    : (r: Result<FakeCourseRun, ViewFailure>)
    ensures ProgramEnrollmentsReadable(programKey).Err? ==> r == Err(ProgramEnrollmentsReadable(programKey).error)
    ensures ProgramEnrollmentsReadable(programKey).Ok? ==> r == CourseLookup(courseRuns, programKey, courseId)
    ensures r.Ok? ==> FakeProgramDict()[programKey].managingOrganization.enrollmentsReadable
  {
    var program := ProgramEnrollmentsReadable(programKey);
    if program.Err? then Err(program.error)
    else CourseLookup(courseRuns, programKey, courseId)
  }
}
