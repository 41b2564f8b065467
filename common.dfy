/**
 * Shared vocabulary of the pages: an optional value (the pages' `string | null`
 * error and `BookingDetails | null` booking), the two timer callbacks of a
 * submit cycle, and the view phase that the booking and complaint pages derive
 * from their `submitting`, `success` and `error` flags.
 */
module Common {

  datatype Option<+T> = None | Some(value: T)

  /** The callbacks a form submission schedules: the first ends the simulated
      request, the second (scheduled by the first) resets the form. */
  datatype FormTimer = SubmitDone | ResetForm

  /** Which view a booking or complaint page shows. */
  datatype FormPhase = Editing | Submitting | Succeeded | Failed(reason: string)

  /** The view phase as a function of the flags a form page keeps. The success
      banner replaces the form; otherwise the form is shown, busy while
      submitting, with the error alert when an error is set. */
  function PhaseOf(submitting: bool, success: bool, error: Option<string>): (p: FormPhase)
    ensures p.Succeeded? <==> success
    ensures p.Submitting? <==> !success && submitting
    ensures p.Failed? <==> !success && !submitting && error.Some?
    ensures p.Failed? ==> p.reason == error.value
  {
    if success then Succeeded
    else if submitting then Submitting
    else if error.Some? then Failed(error.value)
    else Editing
  }

  /** How the flags of a submit cycle relate to the one outstanding timer:
      `submitting` exactly while the request timer is pending, `success`
      exactly while the reset timer is pending, and no error during either. */
  ghost predicate CycleConsistent(submitting: bool, success: bool, error: Option<string>, pending: Option<FormTimer>)
  {
    && (pending == None <==> !submitting && !success)
    && (pending == Some(SubmitDone) <==> submitting)
    && (pending == Some(ResetForm) <==> success)
    && (submitting || success ==> error == None)
  }

  /** A consistent cycle never shows the busy form and the success banner at
      once, and its phase is decided by the pending timer alone unless the page
      is idle. */
  lemma CyclePhase(submitting: bool, success: bool, error: Option<string>, pending: Option<FormTimer>)
    requires CycleConsistent(submitting, success, error, pending)
    ensures !(submitting && success)
    ensures pending == Some(SubmitDone) ==> PhaseOf(submitting, success, error) == Submitting
    ensures pending == Some(ResetForm) ==> PhaseOf(submitting, success, error) == Succeeded
    ensures pending == None ==> PhaseOf(submitting, success, error) == (if error.Some? then Failed(error.value) else Editing)
  {
  }
}
