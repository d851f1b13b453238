/**
 * Task helpers that finish jobs: `_get_program` of
 * registrar/apps/common/tasks.py and the grades task of
 * registrar/apps/grades/tasks.py.  Reading grades from the LMS is a
 * parameter (its outcome), and so are the JSON and CSV renderings of the
 * grades, whose formatting is not part of this model.
 */
module JobTasks {
  import opened Wrappers
  import opened Jobs
  import JobStorage
  import Text
  import Utf8

  /** A `Program` row: programs are looked up by their unique key. */
  datatype Program = Program(key: string, discoveryUuid: string)

  function BadProgramKeyMessage(programKey: string): string
  {
    "Bad program key: " + programKey
  }

  /**
   * `_get_program`: the program with the key; for an unknown key the job is
   * failed with "Bad program key: {key}" and None is returned.  An error
   * from posting the failure propagates.
   */
  method GetProgram(ledger: JobLedger, programs: map<string, Program>, jobId: string, programKey: string)
    returns (r: Result<Option<Program>, JobError>)
    modifies ledger
    ensures programKey in programs ==> r == Ok(Some(programs[programKey])) && unchanged(ledger)
    ensures programKey !in programs ==> r.Ok? ==> r.value.None?
    ensures programKey !in programs && r.Ok? ==>
      && jobId in old(ledger.statuses) && old(ledger.statuses)[jobId].state == JobModel.InProgress
      && jobId in ledger.statuses && ledger.statuses[jobId].state == JobModel.Failed
      && ledger.errorsLogged == old(ledger.errorsLogged) + [FailureLogMessage(jobId, BadProgramKeyMessage(programKey))]
    ensures programKey !in programs && r.Err? ==>
      ledger.statuses == old(ledger.statuses) && ledger.errorsLogged == old(ledger.errorsLogged)
    ensures ledger.scheduled == old(ledger.scheduled)
  {
    if programKey in programs {
      return Ok(Some(programs[programKey]));
    }
    var posted := ledger.PostJobFailure(jobId, BadProgramKeyMessage(programKey));
    if posted.Err? {
      return Err(posted.error);
    }
    r := Ok(None);
  }

  /** The members of `GradeReadStatus` the task chooses between. */
  datatype GradeReadStatus = OkStatus | MultiStatus | NoContent | UnprocessableEntity

  /** `str(status.value)`, taking the values to be the HTTP codes of the same names. */
  function StatusText(status: GradeReadStatus): string
  {
    match status
    case OkStatus => "200"
    case MultiStatus => "207"
    case NoContent => "204"
    case UnprocessableEntity => "422"
  }

  /** The read status for a (good, bad) pair of grade flags. */
  function ReadStatus(good: bool, bad: bool): (s: GradeReadStatus)
    ensures s == MultiStatus <==> good && bad
    ensures s == NoContent <==> !good && !bad
    ensures s == OkStatus <==> good && !bad
    ensures s == UnprocessableEntity <==> !good && bad
  {
    if good && bad then MultiStatus
    else if !good && !bad then NoContent
    else if good then OkStatus
    else UnprocessableEntity
  }

  /** Distinct (good, bad) pairs get distinct statuses, and distinct statuses distinct texts. */
  lemma ReadStatusIsBijective()
    ensures forall g1, b1, g2, b2 :: ReadStatus(g1, b1) == ReadStatus(g2, b2) ==> g1 == g2 && b1 == b2
    ensures forall s, t :: StatusText(s) == StatusText(t) ==> s == t
  {
    forall s, t | StatusText(s) == StatusText(t) ensures s == t {
      assert StatusText(s)[1..] == StatusText(t)[1..];
    }
  }

  /** The serialized grades for a file format, or the ValueError for any other format. */
  function Serialize(fileFormat: string, asJson: string, asCsv: string): (r: Result<string, string>)
    ensures r.Ok? <==> fileFormat == "json" || fileFormat == "csv"
    ensures fileFormat == "json" ==> r == Ok(asJson)
    ensures fileFormat == "csv" ==> r == Ok(asCsv)
    ensures r.Err? ==> r.error == "Invalid file_format: " + fileFormat
  {
    if fileFormat == "json" then Ok(asJson)
    else if fileFormat == "csv" then Ok(asCsv)
    else Err("Invalid file_format: " + fileFormat)
  }

  /** What reading the grades from the LMS gave. */
  datatype GradesRead =
    | HttpFailure(statusCode: nat, url: string)   // HTTPError
    | InvalidGradeData(error: string)             // ValidationError
    | GradesLoaded(good: bool, bad: bool, asJson: string, asCsv: string)

  function HttpFailureMessage(statusCode: nat, url: string): string
  {
    "HTTP error " + Text.NatText(statusCode) + " when getting grades at " + url
  }

  function InvalidDataMessage(error: string): string
  {
    "Invalid grade data from LMS: " + error
  }

  datatype TaskError =
    | JobFailed(error: JobError)            // an error posting to the job
    | InvalidFileFormat(message: string)    // ValueError
    | UnexpectedKeyword(keyword: string)    // TypeError from the call itself

  /** What the task is left to post once grades are read and serialized. */
  datatype GradesResult = GradesResult(serialized: string, status: GradeReadStatus)

  /**
   * The task up to its last call: the program is looked up, read failures
   * fail the job, and loaded grades are serialized with their read status.
   * None means the task has already finished the job or returned.
   */
  method ReadAndSerialize(ledger: JobLedger, programs: map<string, Program>, jobId: string,
                          fileFormat: string, programKey: string, read: GradesRead)
    returns (r: Result<Option<GradesResult>, TaskError>)
    modifies ledger
    ensures programKey !in programs ==> r.Ok? ==> r.value.None?
    ensures programKey in programs && read.HttpFailure? ==> r.Ok? ==>
      r.value.None? && ledger.errorsLogged ==
        old(ledger.errorsLogged) + [FailureLogMessage(jobId, HttpFailureMessage(read.statusCode, read.url))]
    ensures programKey in programs && read.InvalidGradeData? ==> r.Ok? ==>
      r.value.None? && ledger.errorsLogged == old(ledger.errorsLogged) + [FailureLogMessage(jobId, InvalidDataMessage(read.error))]
    ensures programKey in programs && read.GradesLoaded? ==>
      && ledger.statuses == old(ledger.statuses) && ledger.errorsLogged == old(ledger.errorsLogged)
      && r == match Serialize(fileFormat, read.asJson, read.asCsv)
              case Err(message) => Err(InvalidFileFormat(message))
              case Ok(text) => Ok(Some(GradesResult(text, ReadStatus(read.good, read.bad))))
    ensures r.Ok? && r.value.None? && programKey in programs ==> jobId in ledger.statuses && ledger.statuses[jobId].state == JobModel.Failed
    ensures ledger.scheduled == old(ledger.scheduled)
  {
    var program := GetProgram(ledger, programs, jobId, programKey);
    if program.Err? {
      return Err(JobFailed(program.error));
    }
    if program.value.None? {
      return Ok(None);
    }
    match read
    case HttpFailure(statusCode, url) =>
      var posted := ledger.PostJobFailure(jobId, HttpFailureMessage(statusCode, url));
      if posted.Err? {
        return Err(JobFailed(posted.error));
      }
      return Ok(None);
    case InvalidGradeData(error) =>
      var posted := ledger.PostJobFailure(jobId, InvalidDataMessage(error));
      if posted.Err? {
        return Err(JobFailed(posted.error));
      }
      return Ok(None);
    case GradesLoaded(good, bad, asJson, asCsv) =>
      var status := ReadStatus(good, bad);
      var serialized := Serialize(fileFormat, asJson, asCsv);
      if serialized.Err? {
        return Err(InvalidFileFormat(serialized.error));
      }
      return Ok(Some(GradesResult(serialized.value, status)));
  }

  /**
   * `get_course_run_grades` as written: its last call passes `text=` to
   * `post_job_success`, which has no such parameter, so once grades are
   * serialized the call raises TypeError before anything is stored, so the
   * job never succeeds.  The task body leaves the ledger as it was; what the
   * task base class's failure handler does with the exception is not part of
   * this model.
   */
  method GetCourseRunGradesAsWritten(ledger: JobLedger, programs: map<string, Program>, jobId: string,
                                     fileFormat: string, programKey: string, read: GradesRead)
    returns (r: Result<(), TaskError>)
    modifies ledger
    ensures programKey in programs && read.GradesLoaded? && (fileFormat == "json" || fileFormat == "csv") ==>
      r == Err(UnexpectedKeyword("text")) && ledger.statuses == old(ledger.statuses)
    ensures ledger.scheduled == old(ledger.scheduled)
  {
    var step := ReadAndSerialize(ledger, programs, jobId, fileFormat, programKey, read);
    if step.Err? {
      return Err(step.error);
    }
    if step.value.None? {
      return Ok(());
    }
    r := Err(UnexpectedKeyword("text"));
  }

  /**
   * `get_course_run_grades` with its last call accepted: the serialized
   * grades are stored with `file_format` as extension, and the job succeeds
   * with the read-status code as its result's text.
   */
  method GetCourseRunGrades(ledger: JobLedger, programs: map<string, Program>, jobId: string,
                            fileFormat: string, programKey: string, read: GradesRead, freshName: string)
    returns (r: Result<(), TaskError>)
    requires freshName !in ledger.results.backend.files
    modifies ledger, ledger.results.backend
    ensures programKey in programs && read.GradesLoaded? && (fileFormat == "json" || fileFormat == "csv") ==>
      var url := JobStorage.GetUrl(ledger.results.kind, JobStorage.ResultPath(jobId, fileFormat));
      var text := StatusText(ReadStatus(read.good, read.bad));
      r.Ok? ==> url.Ok? && jobId in old(ledger.statuses) && ledger.statuses == old(ledger.statuses)[jobId := old(ledger.statuses)[jobId].(
        state := JobModel.Succeeded,
        artifacts := old(ledger.statuses)[jobId].artifacts + [Artifact(ResultArtifactName, url.value, text)])]
    ensures programKey in programs && read.GradesLoaded? && fileFormat != "json" && fileFormat != "csv" ==>
      r == Err(InvalidFileFormat("Invalid file_format: " + fileFormat)) && ledger.statuses == old(ledger.statuses)
    ensures programKey in programs && read.GradesLoaded? && (fileFormat == "json" || fileFormat == "csv") ==>
      var path := JobStorage.ResultPath(jobId, fileFormat);
      ledger.results.backend.files
        == old(ledger.results.backend.files)[old(ledger.results.backend.SavedName(path, freshName))
                                               := Utf8.Encode(Serialize(fileFormat, read.asJson, read.asCsv).value)]
    ensures !(programKey in programs && read.GradesLoaded? && (fileFormat == "json" || fileFormat == "csv")) ==>
      ledger.results.backend.files == old(ledger.results.backend.files)
    ensures ledger.scheduled == old(ledger.scheduled)
  {
    var step := ReadAndSerialize(ledger, programs, jobId, fileFormat, programKey, read);
    if step.Err? {
      return Err(step.error);
    }
    if step.value.None? {
      return Ok(());
    }
    var result := step.value.value;
    var posted := ledger.PostJobSuccess(jobId, result.serialized, fileFormat, StatusText(result.status), freshName);
    if posted.Err? {
      return Err(JobFailed(posted.error));
    }
    r := Ok(());
  }
}
