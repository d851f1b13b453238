/**
 * The draft job model of registrar/apps/jobs/models.py with the state names
 * of registrar/apps/jobs/states.py.  A job starts In Progress; `succeed` and
 * `fail` are guarded so that only an In Progress job can finish, and the guard
 * runs before any field is written.
 */
module JobModel {
  import opened Wrappers

  const Pending: string := "Pending"
  const InProgress: string := "In Progress"
  const Succeeded: string := "Succeeded"
  const Failed: string := "Failed"
  const Retrying: string := "Retrying"

  /** `states.ALL`, in declaration order. */
  const AllStates: seq<string> := [Pending, InProgress, Succeeded, Failed, Retrying]

  /** The `max_length` of the `state` column. */
  const StateMaxLength: nat := 11

  const NotInProgressText: string := "Job can only be marked as Succeeded from state In Progress"

  /** `STATE_CHOICES`: every state paired with itself. */
  function StateChoices(): (choices: seq<(string, string)>)
    ensures |choices| == |AllStates|
    ensures forall i :: 0 <= i < |choices| ==> choices[i] == (AllStates[i], AllStates[i])
  {
    seq(|AllStates|, i requires 0 <= i < |AllStates| => (AllStates[i], AllStates[i]))
  }

  /** The choices are the five states, distinct, and each fits the column. */
  lemma StateChoicesExact()
    ensures |StateChoices()| == 5
    ensures forall i :: 0 <= i < 5 ==> StateChoices()[i].0 == StateChoices()[i].1
    ensures forall i, j :: 0 <= i < j < 5 ==> StateChoices()[i].0 != StateChoices()[j].0
    ensures forall i :: 0 <= i < 5 ==> |StateChoices()[i].0| <= StateMaxLength
    ensures StateChoices()[1] == ("In Progress", "In Progress")
  {
    var c := StateChoices();
    assert c[0].0 == Pending && c[1].0 == InProgress && c[2].0 == Succeeded;
    assert c[3].0 == Failed && c[4].0 == Retrying;
    assert Pending[0] == 'P' && InProgress[0] == 'I' && Succeeded[0] == 'S';
    assert Failed[0] == 'F' && Retrying[0] == 'R';
  }

  /** The `(state, result_url)` a finishing call leaves, or the ValueError text of the guard. */
  function Finish(state: string, resultUrl: Option<string>, newState: string, newUrl: Option<string>)
    : (r: Result<(string, Option<string>), string>)
    ensures r.Ok? <==> state == InProgress
    ensures r.Ok? ==> r.value == (newState, newUrl)
    ensures r.Err? ==> r.error == NotInProgressText
  {
    if state != InProgress then Err(NotInProgressText) else Ok((newState, newUrl))
  }

  /** Once Succeeded or Failed, every further `succeed` or `fail` is rejected. */
  lemma TerminalIsFinal(state: string, url: Option<string>, newState: string, newUrl: Option<string>)
    requires state == Succeeded || state == Failed
    ensures Finish(state, url, newState, newUrl) == Err(NotInProgressText)
  {
  }

  class Job {
    var state: string
    var resultUrl: Option<string>

    /** A new job is In Progress with no result url. */
    constructor ()
      ensures state == InProgress && resultUrl == None
    {
      state := InProgress;
      resultUrl := None;
    }

    /** `_assert_in_progress`. */
    method AssertInProgress() returns (r: Result<(), string>)
      ensures r.Ok? <==> state == InProgress
      ensures r.Err? ==> r.error == NotInProgressText
    {
      if state != InProgress {
        return Err(NotInProgressText);
      }
      return Ok(());
    }

    /** `succeed(result_url)`: sets the url and moves to Succeeded; rejected unless In Progress. */
    method Succeed(url: string) returns (r: Result<(), string>)
      modifies this
      ensures r.Ok? <==> old(state) == InProgress
      ensures r.Ok? ==> state == Succeeded && resultUrl == Some(url)
      ensures r.Err? ==> r.error == NotInProgressText && state == old(state) && resultUrl == old(resultUrl)
      ensures var f := Finish(old(state), old(resultUrl), Succeeded, Some(url));
        f.Ok? ==> (state, resultUrl) == f.value
    {
      r := AssertInProgress();
      if r.Err? {
        return;
      }
      resultUrl := Some(url);
      state := Succeeded;
    }

    /** `fail()`: moves to Failed and leaves the url; rejected unless In Progress. */
    method Fail() returns (r: Result<(), string>)
      modifies this
      ensures r.Ok? <==> old(state) == InProgress
      ensures r.Ok? ==> state == Failed && resultUrl == old(resultUrl)
      ensures r.Err? ==> r.error == NotInProgressText && state == old(state) && resultUrl == old(resultUrl)
      ensures var f := Finish(old(state), old(resultUrl), Failed, old(resultUrl));
        f.Ok? ==> (state, resultUrl) == f.value
    {
      r := AssertInProgress();
      if r.Err? {
        return;
      }
      state := Failed;
    }
  }
}
