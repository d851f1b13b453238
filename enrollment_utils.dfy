/**
 * The job-naming scheme of registrar/apps/enrollments/utils.py: bulk
 * enrollment jobs are named `program_key:action:task_name`, and a program has
 * a job processing when some pending, running or retrying job's name starts
 * with `program_key:`.  The job query `processing_job_with_prefix_exists` is
 * imported from registrar/apps/core/jobs.py, which does not define it; it is
 * modelled here over the task statuses that module keeps.
 */
module EnrollmentUtils {
  import opened Text
  import JobModel
  import Jobs
  import CoreConstants

  const Separator: char := ':'

  /** `build_enrollment_job_status_name`. */
  function BuildEnrollmentJobStatusName(programKey: string, action: string, taskName: string): (name: string)
    ensures name == programKey + [Separator] + action + [Separator] + taskName
  {
    var parts := [programKey, action, taskName];
    assert parts[1..] == [action, taskName] && parts[1..][1..] == [taskName];
    assert Join(parts[1..], Separator) == action + [Separator] + taskName;
    Join(parts, Separator)
  }

  /** The states in which a job still counts as processing. */
  predicate IsProcessingState(state: string)
  {
    state == JobModel.Pending || state == JobModel.InProgress || state == JobModel.Retrying
  }

  /** `processing_job_with_prefix_exists`: a processing job whose name starts with the prefix. */
  predicate ProcessingJobWithPrefixExists(statuses: map<string, Jobs.TaskStatus>, prefix: string)
  {
    exists id :: id in statuses && IsProcessingState(statuses[id].state) && StartsWith(statuses[id].name, prefix)
  }

  /** `is_enrollment_job_processing`. */
  predicate IsEnrollmentJobProcessing(statuses: map<string, Jobs.TaskStatus>, programKey: string)
  {
    ProcessingJobWithPrefixExists(statuses, programKey + [Separator])
  }

  /** A name built from parts free of ':' splits back into those parts. */
  lemma BuiltNameRoundTrip(programKey: string, action: string, taskName: string)
    requires Separator !in programKey && Separator !in action && Separator !in taskName
    ensures Split(BuildEnrollmentJobStatusName(programKey, action, taskName), Separator) == [programKey, action, taskName]
  {
    var parts := [programKey, action, taskName];
    assert forall i :: 0 <= i < |parts| ==> Separator !in parts[i];
    SplitJoin(parts, Separator);
  }

  /**
   * For a valid program key, a name starts with `program_key:` exactly when
   * it has more than one ':'-separated component and the first is the key.
   */
  lemma PrefixMeansFirstComponent(name: string, programKey: string)
    requires CoreConstants.IsProgramKey(programKey)
    ensures StartsWith(name, programKey + [Separator]) <==>
      |Split(name, Separator)| >= 2 && Split(name, Separator)[0] == programKey
  {
    CoreConstants.ProgramKeyHasNoColonOrSlash(programKey);
    var prefix := programKey + [Separator];
    if StartsWith(name, prefix) {
      var rest := name[|prefix|..];
      assert name == programKey + [Separator] + rest by {
        assert name == name[..|prefix|] + rest;
      }
      SplitAfterPiece(programKey, rest, Separator);
    }
    if |Split(name, Separator)| >= 2 && Split(name, Separator)[0] == programKey {
      JoinSplit(name, Separator);
      JoinStartsWithFirst(Split(name, Separator), Separator);
    }
  }

  /** The first component of a built name is the program key it was built with. */
  lemma BuiltNameFirstComponent(programKey: string, action: string, taskName: string)
    requires Separator !in programKey
    ensures var parts := Split(BuildEnrollmentJobStatusName(programKey, action, taskName), Separator);
      |parts| >= 2 && parts[0] == programKey
  {
    var tail := action + [Separator] + taskName;
    assert BuildEnrollmentJobStatusName(programKey, action, taskName) == programKey + [Separator] + tail;
    SplitAfterPiece(programKey, tail, Separator);
  }

  /**
   * A job named for one program and matched against another: it counts as
   * that program's processing job exactly when the two keys agree, whatever
   * the action and task name, so a key in a later position is not matched.
   */
  lemma BuiltNameMatchesOnlyItsProgram(programKey: string, other: string, action: string, taskName: string)
    requires CoreConstants.IsProgramKey(programKey) && CoreConstants.IsProgramKey(other)
    ensures StartsWith(BuildEnrollmentJobStatusName(other, action, taskName), programKey + [Separator]) <==> other == programKey
  {
    CoreConstants.ProgramKeyHasNoColonOrSlash(other);
    BuiltNameFirstComponent(other, action, taskName);
    PrefixMeansFirstComponent(BuildEnrollmentJobStatusName(other, action, taskName), programKey);
  }

  /**
   * A program has a job processing exactly when some job in a processing
   * state has more than one component and the program key as its first;
   * finished and canceled jobs never count.
   */
  lemma ProcessingMeansOwnProgram(statuses: map<string, Jobs.TaskStatus>, programKey: string)
    requires CoreConstants.IsProgramKey(programKey)
    ensures IsEnrollmentJobProcessing(statuses, programKey) <==>
      exists id :: id in statuses && IsProcessingState(statuses[id].state) &&
        |Split(statuses[id].name, Separator)| >= 2 && Split(statuses[id].name, Separator)[0] == programKey
    ensures !IsProcessingState(JobModel.Succeeded) && !IsProcessingState(JobModel.Failed) && !IsProcessingState(Jobs.Canceled)
  {
    forall id | id in statuses {
      PrefixMeansFirstComponent(statuses[id].name, programKey);
    }
  }
}
