/**
 * The job API of registrar/apps/core/jobs.py over a ledger of user task
 * statuses.  A job id is a task id; a status records its owner, creation
 * time, state and artifacts.  Celery scheduling is recorded as a scheduled
 * call; the uuid4 draw arrives as a parameter.  Statuses themselves are
 * created by the user-tasks library when a task is published, which is not
 * part of this model.
 */
module Jobs {
  import opened Wrappers
  import JobModel
  import JobStorage
  import Utf8

  const Canceled: string := "Canceled"

  const ResultArtifactName: string := "Job Result"
  const ErrorArtifactName: string := "Error"

  datatype Artifact = Artifact(name: string, url: string, text: string)

  datatype TaskStatus = TaskStatus(
    uuid: string,
    name: string,
    user: int,
    created: int,
    state: string,
    artifacts: seq<Artifact>)

  /** A positional argument of a scheduled task. */
  datatype TaskArg = StrArg(s: string) | IntArg(i: int)

  /** `task_fn.apply_async(args, kwargs, task_id=...)`. */
  datatype ScheduledCall = ScheduledCall(task: string, args: seq<TaskArg>, kwargs: map<string, TaskArg>, taskId: string)

  /** `JobStatus(created, state, result)`. */
  datatype JobStatus = JobStatus(created: int, state: string, result: Option<string>)

  datatype JobError =
    | NoSuchJob(message: string)     // ObjectDoesNotExist
    | PermissionDenied
    | NotInProgress(message: string) // ValueError
    | StoreFailed(message: string)   // the result store raised

  /** The artifacts of a status named 'Job Result', in order. */
  function ResultArtifacts(artifacts: seq<Artifact>): (r: seq<Artifact>)
    ensures |r| <= |artifacts|
    ensures forall a :: a in r <==> a in artifacts && a.name == ResultArtifactName
  {
    if artifacts == [] then []
    else if artifacts[0].name == ResultArtifactName then [artifacts[0]] + ResultArtifacts(artifacts[1..])
    else ResultArtifacts(artifacts[1..])
  }

  /** The index of the first 'Job Result' artifact, or the length when there is none. */
  function FirstResultIndex(artifacts: seq<Artifact>): (i: nat)
    ensures i <= |artifacts|
    ensures i < |artifacts| ==> artifacts[i].name == ResultArtifactName
    ensures forall k :: 0 <= k < i ==> artifacts[k].name != ResultArtifactName
  {
    if artifacts == [] then 0
    else if artifacts[0].name == ResultArtifactName then 0
    else 1 + FirstResultIndex(artifacts[1..])
  }

  /** `_get_result`: the url of the first 'Job Result' artifact, or None. */
  function GetResult(artifacts: seq<Artifact>): (r: Option<string>)
    ensures r.None? <==> forall i :: 0 <= i < |artifacts| ==> artifacts[i].name != ResultArtifactName
    ensures r.Some? ==>
      exists i :: (0 <= i < |artifacts| && artifacts[i].name == ResultArtifactName &&
                   artifacts[i].url == r.value && forall k :: 0 <= k < i ==> artifacts[k].name != ResultArtifactName)
  {
    var i := FirstResultIndex(artifacts);
    if i < |artifacts| then Some(artifacts[i].url) else None
  }

  /** More than one result artifact is what makes `_get_result` log an error. */
  predicate ResultIsAmbiguous(artifacts: seq<Artifact>)
  {
    |ResultArtifacts(artifacts)| > 1
  }

  /** `get_job_status` without its logging: unknown job, then the owner-or-global-read check. */
  function JobStatusOf(statuses: map<string, TaskStatus>, userId: int, hasGlobalRead: bool, jobId: string)
    : (r: Result<JobStatus, JobError>)
    ensures r == Err(NoSuchJob("No such job: " + jobId)) <==> jobId !in statuses
    ensures r == Err(PermissionDenied) <==>
      jobId in statuses && !hasGlobalRead && statuses[jobId].user != userId
    ensures r.Ok? ==>
      var st := statuses[jobId];
      r.value == JobStatus(st.created, st.state, GetResult(st.artifacts))
  {
    if jobId !in statuses then Err(NoSuchJob("No such job: " + jobId))
    else
      var st := statuses[jobId];
      if hasGlobalRead || userId == st.user then Ok(JobStatus(st.created, st.state, GetResult(st.artifacts)))
      else Err(PermissionDenied)
  }

  /** `_affirm_job_in_progress`. */
  function AffirmInProgress(jobId: string, st: TaskStatus): (r: Result<(), JobError>)
    ensures r.Ok? <==> st.state == JobModel.InProgress
    ensures r.Err? ==> r.error == NotInProgress(JobModel.NotInProgressText + "(job_id = " + jobId + ")")
  {
    if st.state != JobModel.InProgress then
      Err(NotInProgress(JobModel.NotInProgressText + "(job_id = " + jobId + ")"))
    else Ok(())
  }

  /** The message `post_job_failure` logs and records. */
  function FailureLogMessage(jobId: string, message: string): string
  {
    "Job " + jobId + " failed. " + message
  }

  /** The error `_get_result` logs when there is more than one result artifact. */
  function AmbiguousResultMessage(jobId: string, statusUuid: string): string
  {
    "Multiple UserTaskArtifacts for job (job_id = " + jobId + ", UserTaskStatus.uuid = " + statusUuid + "). "
      + "First artifact will be returned"
  }

  /** A finished job cannot be finished again: the guard rejects both posts. */
  lemma FinishedJobsStayFinished(jobId: string, st: TaskStatus)
    requires st.state == JobModel.Succeeded || st.state == JobModel.Failed
    ensures AffirmInProgress(jobId, st).Err?
  {
  }

  class JobLedger {
    var statuses: map<string, TaskStatus>
    var scheduled: seq<ScheduledCall>
    var errorsLogged: seq<string>
    const results: JobStorage.JobResultStore

    constructor (results: JobStorage.JobResultStore)
      ensures statuses == map[] && scheduled == [] && errorsLogged == [] && this.results == results
    {
      statuses := map[];
      scheduled := [];
      errorsLogged := [];
      this.results := results;
    }

    predicate IsFresh(jobId: string)
      reads this
    {
      jobId !in statuses && forall i :: 0 <= i < |scheduled| ==> scheduled[i].taskId != jobId
    }

    /** `start_job`: schedule the task with `[job_id, user_id] + args` and task id = job id. */
    method StartJob(userId: int, task: string, args: seq<TaskArg>, kwargs: map<string, TaskArg>, freshId: string)
      returns (jobId: string)
      requires IsFresh(freshId)
      modifies this
      ensures jobId == freshId && old(IsFresh(jobId))
      ensures scheduled == old(scheduled) + [ScheduledCall(task, [StrArg(jobId), IntArg(userId)] + args, kwargs, jobId)]
      ensures statuses == old(statuses) && errorsLogged == old(errorsLogged)
    {
      jobId := freshId;
      scheduled := scheduled + [ScheduledCall(task, [StrArg(jobId), IntArg(userId)] + args, kwargs, jobId)];
    }

    /** `get_job_status`: as `JobStatusOf`, logging one error when the result is ambiguous. */
    method GetJobStatus(userId: int, hasGlobalRead: bool, jobId: string) returns (r: Result<JobStatus, JobError>)
      modifies this
      ensures r == JobStatusOf(statuses, userId, hasGlobalRead, jobId)
      ensures statuses == old(statuses) && scheduled == old(scheduled)
      ensures errorsLogged == old(errorsLogged) +
        (if r.Ok? && ResultIsAmbiguous(statuses[jobId].artifacts) then [AmbiguousResultMessage(jobId, statuses[jobId].uuid)] else [])
    {
      r := JobStatusOf(statuses, userId, hasGlobalRead, jobId);
      if r.Ok? && ResultIsAmbiguous(statuses[jobId].artifacts) {
        errorsLogged := errorsLogged + [AmbiguousResultMessage(jobId, statuses[jobId].uuid)];
      }
    }

    /**
     * `post_job_success`: store the result file first, then look the job up
     * and check it is In Progress; attach one 'Job Result' artifact with the
     * stored url and move the job to Succeeded.  `text` is the artifact's
     * text: empty as the function is written, the status code where the
     * grades task passes one.
     */
    method PostJobSuccess(jobId: string, resultText: string, fileExtension: string, text: string, freshName: string)
      returns (r: Result<(), JobError>)
      requires freshName !in results.backend.files
      modifies this, results.backend
      ensures var url := JobStorage.GetUrl(results.kind, JobStorage.ResultPath(jobId, fileExtension));
        && (url.Err? ==> r == Err(StoreFailed(url.error)) && statuses == old(statuses))
        && (url.Ok? && jobId !in old(statuses) ==> r == Err(NoSuchJob("No such job: " + jobId)))
        && (url.Ok? && jobId in old(statuses) ==>
              r == AffirmInProgress(jobId, old(statuses)[jobId]) &&
              (r.Ok? ==> statuses == old(statuses)[jobId := old(statuses)[jobId].(
                state := JobModel.Succeeded,
                artifacts := old(statuses)[jobId].artifacts + [Artifact(ResultArtifactName, url.value, text)])]))
      ensures r.Err? ==> statuses == old(statuses)
      ensures scheduled == old(scheduled) && errorsLogged == old(errorsLogged)
      ensures results.backend.overwrites || JobStorage.ResultPath(jobId, fileExtension) !in old(results.backend.files) ==>
        results.backend.files
          == old(results.backend.files)[JobStorage.ResultPath(jobId, fileExtension) := Utf8.Encode(resultText)]
      ensures results.backend.files
           == old(results.backend.files)[old(results.backend.SavedName(JobStorage.ResultPath(jobId, fileExtension), freshName))
                                           := Utf8.Encode(resultText)]
      ensures JobStorage.ResultPath(jobId, fileExtension) in results.backend.files
    {
      var url := results.Store(jobId, resultText, fileExtension, freshName);
      if url.Err? {
        return Err(StoreFailed(url.error));
      }
      if jobId !in statuses {
        return Err(NoSuchJob("No such job: " + jobId));
      }
      var st := statuses[jobId];
      r := AffirmInProgress(jobId, st);
      if r.Err? {
        return;
      }
      statuses := statuses[jobId := st.(state := JobModel.Succeeded,
                                        artifacts := st.artifacts + [Artifact(ResultArtifactName, url.value, text)])];
    }

    /**
     * `post_job_failure`: check the job is In Progress, log one error
     * "Job {id} failed. {message}", record it in an 'Error' artifact and move
     * the job to Failed.
     */
    method PostJobFailure(jobId: string, message: string) returns (r: Result<(), JobError>)
      modifies this
      ensures jobId !in old(statuses) ==> r == Err(NoSuchJob("No such job: " + jobId))
      ensures jobId in old(statuses) ==> r == AffirmInProgress(jobId, old(statuses)[jobId])
      ensures r.Ok? ==>
        && statuses == old(statuses)[jobId := old(statuses)[jobId].(
             state := JobModel.Failed,
             artifacts := old(statuses)[jobId].artifacts + [Artifact(ErrorArtifactName, "", FailureLogMessage(jobId, message))])]
        && errorsLogged == old(errorsLogged) + [FailureLogMessage(jobId, message)]
      ensures r.Err? ==> statuses == old(statuses) && errorsLogged == old(errorsLogged)
      ensures scheduled == old(scheduled)
    {
      if jobId !in statuses {
        return Err(NoSuchJob("No such job: " + jobId));
      }
      var st := statuses[jobId];
      r := AffirmInProgress(jobId, st);
      if r.Err? {
        return;
      }
      var logMessage := FailureLogMessage(jobId, message);
      errorsLogged := errorsLogged + [logMessage];
      statuses := statuses[jobId := st.(state := JobModel.Failed,
                                        artifacts := st.artifacts + [Artifact(ErrorArtifactName, "", logMessage)])];
    }
  }

  /** A failed job reports no result, and a succeeded one reports the url its success attached. */
  lemma ResultAfterPosts(artifacts: seq<Artifact>, url: string, text: string, logMessage: string)
    requires forall i :: 0 <= i < |artifacts| ==> artifacts[i].name != ResultArtifactName
    ensures GetResult(artifacts + [Artifact(ErrorArtifactName, "", logMessage)]) == None
    ensures GetResult(artifacts + [Artifact(ResultArtifactName, url, text)]) == Some(url)
  {
    var failed := artifacts + [Artifact(ErrorArtifactName, "", logMessage)];
    assert forall i :: 0 <= i < |failed| ==> failed[i].name != ResultArtifactName;
    var succeeded := artifacts + [Artifact(ResultArtifactName, url, text)];
    var r := GetResult(succeeded);
    assert succeeded[|artifacts|].name == ResultArtifactName;
    var i :| 0 <= i < |succeeded| && succeeded[i].name == ResultArtifactName &&
      succeeded[i].url == r.value && forall k :: 0 <= k < i ==> succeeded[k].name != ResultArtifactName;
    assert i == |artifacts|;
  }
}
