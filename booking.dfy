/**
 * The flight booking page: a twelve-field form, the list of cities its origin
 * and destination selects offer (derived from the travel type), a two-rule
 * validator, and the submit cycle Editing -> Submitting -> Succeeded -> reset.
 */
module Booking {
  import opened Common

  datatype Trip = Local | International
  datatype Cabin = Business | Economy
  datatype Meal = Vegetarian | NonVegetarian

  /** The form's state, one entry per input. */
  datatype BookingForm = BookingForm(
    firstName: string,
    lastName: string,
    phone: string,
    address: string,
    passport: string,
    origin: string,
    destination: string,
    travelType: Trip,
    departureDate: string,
    seatClass: Cabin,
    numSeats: int,
    mealType: Meal)

  /** The form as the page opens, and as it is reset after a booking. */
  const InitialForm := BookingForm("", "", "", "", "", "", "", Local, "", Economy, 1, Vegetarian)

  const LocalCities: seq<string> := ["KOLKATA", "DELHI", "CHENNAI", "GOA", "MUMBAI"]
  const InternationalCities: seq<string> := [
    "LONDON", "BERLIN", "DUBAI", "BANGKOK", "BEIJING",
    "PARIS", "CANBERRA", "TOKYO", "WASHINGTON", "JAPAN", "SINGAPORE"
  ]

  /** The cities the origin and destination selects offer for a travel type:
      the five local cities for a local trip, the eleven international ones
      otherwise. */
  function EligibleCities(t: Trip): (cities: seq<string>)
    ensures t == Local ==> cities == LocalCities && |cities| == 5
    ensures t != Local ==> cities == InternationalCities && |cities| == 11
  {
    if t == Local then LocalCities else InternationalCities
  }

  /** No city is offered for both travel types. */
  lemma CityListsDisjoint()
    ensures forall c :: c in LocalCities ==> c !in InternationalCities
  {
  }

  /** The names of the form's inputs. */
  datatype Field =
    | FirstName | LastName | Phone | Address | Passport | Origin | Destination
    | TravelType | DepartureDate | SeatClass | NumSeats | MealType

  /** A value an input delivers. */
  datatype Value = Text(text: string) | TripValue(trip: Trip) | CabinValue(cabin: Cabin)
                 | Count(count: int) | MealValue(meal: Meal)

  /** The input named `fld` delivers values of this kind: the three selects
      offer only their options and the seat count arrives parsed. */
  predicate Fits(fld: Field, v: Value) {
    match fld
    case TravelType => v.TripValue?
    case SeatClass => v.CabinValue?
    case MealType => v.MealValue?
    case NumSeats => v.Count?
    case _ => v.Text?
  }

  function Get(f: BookingForm, fld: Field): (v: Value)
    ensures Fits(fld, v)
  {
    match fld
    case FirstName => Text(f.firstName)
    case LastName => Text(f.lastName)
    case Phone => Text(f.phone)
    case Address => Text(f.address)
    case Passport => Text(f.passport)
    case Origin => Text(f.origin)
    case Destination => Text(f.destination)
    case TravelType => TripValue(f.travelType)
    case DepartureDate => Text(f.departureDate)
    case SeatClass => CabinValue(f.seatClass)
    case NumSeats => Count(f.numSeats)
    case MealType => MealValue(f.mealType)
  }

  /** The fields a change of `fld` clears besides setting `fld` itself. */
  predicate ClearedBy(fld: Field, g: Field) {
    fld == TravelType && (g == Origin || g == Destination)
  }

  /** The record `handleChange` stores: the named field takes the new value; a
      change of travel type also clears origin and destination; every other
      field keeps its value. */
  function ApplyChange(f: BookingForm, fld: Field, v: Value): (r: BookingForm)
    requires Fits(fld, v)
    ensures Get(r, fld) == v
    ensures forall g :: ClearedBy(fld, g) ==> Get(r, g) == Text("")
    ensures forall g :: g != fld && !ClearedBy(fld, g) ==> Get(r, g) == Get(f, g)
  {
    match fld
    case TravelType => f.(travelType := v.trip, origin := "", destination := "")
    case SeatClass => f.(seatClass := v.cabin)
    case MealType => f.(mealType := v.meal)
    case NumSeats => f.(numSeats := v.count)
    case FirstName => f.(firstName := v.text)
    case LastName => f.(lastName := v.text)
    case Phone => f.(phone := v.text)
    case Address => f.(address := v.text)
    case Passport => f.(passport := v.text)
    case Origin => f.(origin := v.text)
    case Destination => f.(destination := v.text)
    case DepartureDate => f.(departureDate := v.text)
  }

  const SameCityMessage := "Origin and destination cannot be the same"
  const PassportMessage := "Passport number is required for international flights"

  /** The first rule: a chosen origin equal to the destination. It fires only
      when both ends are chosen, and does not depend on which end was chosen
      first. */
  function SameCity(f: BookingForm): (b: bool)
    ensures b ==> f.origin != "" && f.destination != ""
    ensures b <==> f.destination == f.origin && f.destination != ""
  {
    f.origin == f.destination && f.origin != ""
  }

  /** The second rule: an international trip without a passport number. A
      local trip, or any passport number given, never triggers it. */
  function PassportMissing(f: BookingForm): (b: bool)
    ensures f.travelType == Local ==> !b
    ensures f.passport != "" ==> !b
    ensures b ==> Get(f, Passport) == Text("")
  {
    f.travelType == International && f.passport == ""
  }

  /** `validateForm`: the message of the first rule that fails, or None when
      the form may be submitted. */
  function Validate(f: BookingForm): (r: Option<string>)
    ensures r == None <==> !SameCity(f) && !PassportMissing(f)
    ensures SameCity(f) ==> r == Some(SameCityMessage)
    ensures !SameCity(f) && PassportMissing(f) ==> r == Some(PassportMessage)
  {
    if SameCity(f) then Some(SameCityMessage)
    else if PassportMissing(f) then Some(PassportMessage)
    else None
  }

  /** Validation reads only origin, destination, travel type and passport:
      forms that agree on those four fields get the same verdict. */
  lemma ValidateReadsRouteAndPassport(f: BookingForm, g: BookingForm)
    requires Get(f, Origin) == Get(g, Origin) && Get(f, Destination) == Get(g, Destination)
    requires Get(f, TravelType) == Get(g, TravelType) && Get(f, Passport) == Get(g, Passport)
    ensures Validate(f) == Validate(g)
  {
  }

  /** Right after a change of travel type the route is empty, so only the
      passport rule can fail. */
  lemma TravelTypeChangeLeavesPassportRule(f: BookingForm, t: Trip)
    ensures Validate(ApplyChange(f, TravelType, TripValue(t))) ==
      (if t == International && f.passport == "" then Some(PassportMessage) else None)
  {
    var r := ApplyChange(f, TravelType, TripValue(t));
    assert Get(r, Origin) == Text("") && Get(r, Passport) == Get(f, Passport);
  }

  /** The form as it opens passes validation. */
  lemma InitialFormValid()
    ensures Validate(InitialForm) == None
  {
  }

  /** The page's whole state, for saying what an event leaves unchanged. */
  datatype PageState = PageState(
    formData: BookingForm,
    destinations: seq<string>,
    submitting: bool,
    success: bool,
    error: Option<string>,
    pending: Option<FormTimer>)

  class BookingPage {
    var formData: BookingForm
    var destinations: seq<string>
    var submitting: bool
    var success: bool
    var error: Option<string>
    /** The timer callback scheduled and not yet run, if any. */
    var pending: Option<FormTimer>

    /** The offered cities follow the travel type, the flags follow the pending
        timer, and an error is one of the validator's two messages. */
    ghost predicate Valid()
      reads this
    {
      && destinations == EligibleCities(formData.travelType)
      && CycleConsistent(submitting, success, error, pending)
      && (error.Some? ==> error.value == SameCityMessage || error.value == PassportMessage)
    }

    function State(): PageState
      reads this
    {
      PageState(formData, destinations, submitting, success, error, pending)
    }

    /** The view the page renders. */
    function Phase(): FormPhase
      reads this
    {
      PhaseOf(submitting, success, error)
    }

    constructor ()
      ensures Valid()
      ensures State() == PageState(InitialForm, LocalCities, false, false, None, None)
      ensures Phase() == Editing
    {
      formData := InitialForm;
      destinations := LocalCities;
      submitting := false;
      success := false;
      error := None;
      pending := None;
    }

    /** An input changed (the inputs exist only while the success banner is
        not shown): the form takes the change and, when the travel type
        differs afterwards, the effect recomputes the offered cities. */
    method HandleChange(fld: Field, v: Value)
      requires Valid() && !success && Fits(fld, v)
      modifies this
      ensures Valid()
      ensures State() == old(State()).(formData := ApplyChange(old(formData), fld, v),
                                       destinations := EligibleCities(formData.travelType))
      ensures Phase() == old(Phase())
    {
      var before := formData.travelType;
      formData := ApplyChange(formData, fld, v);
      if formData.travelType != before {
        destinations := EligibleCities(formData.travelType);
      }
    }

    /** The form was submitted (possible only while the form is shown and the
        button is enabled): the error is cleared, then either the first failing
        rule's message is shown or the request starts. */
    method HandleSubmit()
      requires Valid() && !success && !submitting
      modifies this
      ensures Valid()
      ensures Validate(formData) != None ==>
        State() == old(State()).(error := Validate(formData))
      ensures Validate(formData) == None ==>
        State() == old(State()).(error := None, submitting := true, pending := Some(SubmitDone))
      ensures Phase() == if Validate(formData) == None then Submitting else Failed(Validate(formData).value)
    {
      error := None;
      var verdict := Validate(formData);
      if verdict.Some? {
        error := verdict;
        return;
      }
      submitting := true;
      pending := Some(SubmitDone);
    }

    /** The request timer fires: the success banner replaces the form and the
        reset timer is scheduled. */
    method OnSubmitTimer()
      requires Valid() && pending == Some(SubmitDone)
      modifies this
      ensures Valid()
      ensures State() == old(State()).(submitting := false, success := true, pending := Some(ResetForm))
      ensures old(Phase()) == Submitting && Phase() == Succeeded
    {
      submitting := false;
      success := true;
      pending := Some(ResetForm);
    }

    /** The reset timer fires: the banner goes and the form is back to exactly
        its initial record, offering the local cities again. */
    method OnResetTimer()
      requires Valid() && pending == Some(ResetForm)
      modifies this
      ensures Valid()
      ensures State() == PageState(InitialForm, LocalCities, false, false, None, None)
      ensures old(Phase()) == Succeeded && Phase() == Editing
    {
      var before := formData.travelType;
      success := false;
      formData := InitialForm;
      if formData.travelType != before {
        destinations := EligibleCities(formData.travelType);
      }
      pending := None;
    }
  }

  /** A valid booking runs the whole cycle: submitted, confirmed by the first
      timer, and reset by the second to the page as it first opened. */
  method SubmitValidBooking(page: BookingPage)
    requires page.Valid() && !page.success && !page.submitting
    requires Validate(page.formData) == None
    modifies page
    ensures page.Valid()
    ensures page.State() == PageState(InitialForm, LocalCities, false, false, None, None)
  {
    page.HandleSubmit();
    page.OnSubmitTimer();
    page.OnResetTimer();
  }
}
