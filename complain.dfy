/**
 * The complaint page: five text inputs, all of them required, and the same
 * submit cycle as the booking page (Editing -> Submitting -> Succeeded ->
 * reset to empty inputs).
 */
module Complain {
  import opened Common

  datatype ComplaintForm = ComplaintForm(
    firstName: string,
    lastName: string,
    phone: string,
    complaintType: string,
    complaintText: string)

  const EmptyForm := ComplaintForm("", "", "", "", "")

  /** The names of the form's inputs. */
  datatype Field = FirstName | LastName | Phone | ComplaintType | ComplaintText

  function Get(f: ComplaintForm, fld: Field): string {
    match fld
    case FirstName => f.firstName
    case LastName => f.lastName
    case Phone => f.phone
    case ComplaintType => f.complaintType
    case ComplaintText => f.complaintText
  }

  /** `{...formData, [name]: value}`: the named field takes the new value and
      the other four keep theirs. */
  function Update(f: ComplaintForm, fld: Field, v: string): (r: ComplaintForm)
    ensures Get(r, fld) == v
    ensures forall g :: g != fld ==> Get(r, g) == Get(f, g)
  {
    match fld
    case FirstName => f.(firstName := v)
    case LastName => f.(lastName := v)
    case Phone => f.(phone := v)
    case ComplaintType => f.(complaintType := v)
    case ComplaintText => f.(complaintText := v)
  }

  const MissingFieldsMessage := "Please fill in all required fields"

  /** The submit handler's check: every one of the five fields is non-empty. */
  function IsComplete(f: ComplaintForm): (ok: bool)
    ensures ok <==> forall fld :: Get(f, fld) != ""
  {
    assert Get(f, FirstName) == f.firstName && Get(f, LastName) == f.lastName;
    assert Get(f, Phone) == f.phone && Get(f, ComplaintType) == f.complaintType;
    assert Get(f, ComplaintText) == f.complaintText;
    f.firstName != "" && f.lastName != "" && f.phone != "" && f.complaintType != "" && f.complaintText != ""
  }

  /** Emptying any one field makes a form incomplete, whatever the others
      hold. */
  lemma ClearingAFieldBlocksSubmit(f: ComplaintForm, fld: Field)
    ensures !IsComplete(Update(f, fld, ""))
  {
    assert Get(Update(f, fld, ""), fld) == "";
  }

  /** The reset form is the form the page opens with, and it is incomplete. */
  lemma EmptyFormIncomplete()
    ensures !IsComplete(EmptyForm)
    ensures forall fld :: Get(EmptyForm, fld) == ""
  {
    assert Get(EmptyForm, FirstName) == "";
  }

  /** The page's whole state, for saying what an event leaves unchanged. */
  datatype PageState = PageState(
    formData: ComplaintForm,
    submitting: bool,
    success: bool,
    error: Option<string>,
    pending: Option<FormTimer>)

  class ComplainPage {
    var formData: ComplaintForm
    var submitting: bool
    var success: bool
    var error: Option<string>
    /** The timer callback scheduled and not yet run, if any. */
    var pending: Option<FormTimer>

    /** The flags follow the pending timer, and the only error is the
        missing-fields message. */
    ghost predicate Valid()
      reads this
    {
      && CycleConsistent(submitting, success, error, pending)
      && (error.Some? ==> error.value == MissingFieldsMessage)
    }

    function State(): PageState
      reads this
    {
      PageState(formData, submitting, success, error, pending)
    }

    /** The view the page renders. */
    function Phase(): FormPhase
      reads this
    {
      PhaseOf(submitting, success, error)
    }

    constructor ()
      ensures Valid()
      ensures State() == PageState(EmptyForm, false, false, None, None)
      ensures Phase() == Editing
    {
      formData := EmptyForm;
      submitting := false;
      success := false;
      error := None;
      pending := None;
    }

    /** An input changed (the inputs exist only while the thank-you banner is
        not shown): only that field of the form changes. */
    method HandleChange(fld: Field, v: string)
      requires Valid() && !success
      modifies this
      ensures Valid()
      ensures State() == old(State()).(formData := Update(old(formData), fld, v))
      ensures Phase() == old(Phase())
    {
      formData := Update(formData, fld, v);
    }

    /** The form was submitted (possible only while the form is shown and the
        button is enabled): the error is cleared, then either the missing-fields
        message is shown or the request starts. */
    method HandleSubmit()
      requires Valid() && !success && !submitting
      modifies this
      ensures Valid()
      ensures !IsComplete(formData) ==> State() == old(State()).(error := Some(MissingFieldsMessage))
      ensures IsComplete(formData) ==>
        State() == old(State()).(error := None, submitting := true, pending := Some(SubmitDone))
      ensures Phase() == if IsComplete(formData) then Submitting else Failed(MissingFieldsMessage)
    {
      error := None;
      if !IsComplete(formData) {
        error := Some(MissingFieldsMessage);
        return;
      }
      submitting := true;
      pending := Some(SubmitDone);
    }

    /** The request timer fires: the thank-you banner replaces the form and the
        reset timer is scheduled. */
    method OnSubmitTimer()
      requires Valid() && pending == Some(SubmitDone)
      modifies this
      ensures Valid()
      ensures State() == old(State()).(submitting := false, success := true, pending := Some(ResetForm))
      ensures old(Phase()) == Submitting && Phase() == Succeeded
    {
      submitting := false;
      success := true;
      pending := Some(ResetForm);
    }

    /** The reset timer fires: the banner goes and all five fields are empty
        again, as when the page opened. */
    method OnResetTimer()
      requires Valid() && pending == Some(ResetForm)
      modifies this
      ensures Valid()
      ensures State() == PageState(EmptyForm, false, false, None, None)
      ensures old(Phase()) == Succeeded && Phase() == Editing
    {
      success := false;
      formData := EmptyForm;
      pending := None;
    }
  }
}
