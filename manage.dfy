/**
 * The booking management page: a search form over three optional inputs, a
 * simulated lookup that fabricates a booking from the query, and a cancel
 * flow (request, decline or confirm, cancel in progress, cancelled banner,
 * reset to the search form).
 */
module Manage {
  import opened Common

  /** The search form's state; an empty string means "not given". */
  datatype Query = Query(bookingId: string, lastName: string, phone: string)

  /** The names of the search form's inputs. */
  datatype Field = BookingId | LastName | Phone

  const EmptyQuery := Query("", "", "")

  function Get(q: Query, fld: Field): string {
    match fld
    case BookingId => q.bookingId
    case LastName => q.lastName
    case Phone => q.phone
  }

  /** `{...searchParams, [name]: value}`: the named input takes the new value
      and the other two keep theirs. */
  function Update(q: Query, fld: Field, v: string): (r: Query)
    ensures Get(r, fld) == v
    ensures forall g :: g != fld ==> Get(r, g) == Get(q, g)
  {
    match fld
    case BookingId => q.(bookingId := v)
    case LastName => q.(lastName := v)
    case Phone => q.(phone := v)
  }

  const NoCriteriaMessage := "Please enter at least one search criteria"

  /** The search handler's check: at least one input is non-empty. */
  function HasCriterion(q: Query): (b: bool)
    ensures b <==> exists fld :: Get(q, fld) != ""
  {
    assert Get(q, BookingId) == q.bookingId && Get(q, LastName) == q.lastName && Get(q, Phone) == q.phone;
    q.bookingId != "" || q.lastName != "" || q.phone != ""
  }

  datatype BookingDetails = BookingDetails(
    id: string,
    name: string,
    phone: string,
    address: string,
    passport: string,
    origin: string,
    destination: string,
    departureDate: string,
    departureTime: string,
    flightNumber: string,
    seatClass: string,
    numSeats: int,
    mealType: string,
    totalPrice: int)

  const DefaultBookingId := "HF600"
  const DefaultPhone := "787979900"

  /** JavaScript's `s || fallback` on strings. */
  function OrElse(s: string, fallback: string): (r: string)
    ensures s != "" ==> r == s
    ensures s == "" ==> r == fallback
  {
    if s != "" then s else fallback
  }

  /** The booking every search "finds": the query's booking id and phone when
      given, fixed demo values for everything else. */
  function Fabricate(q: Query): (b: BookingDetails)
    ensures b.id == OrElse(q.bookingId, DefaultBookingId)
    ensures b.phone == OrElse(q.phone, DefaultPhone)
  {
    BookingDetails(
      OrElse(q.bookingId, DefaultBookingId), "KANAK BHASKAR", OrElse(q.phone, DefaultPhone),
      "JAMSHEDPUR, JH", "", "DELHI", "MUMBAI", "30/08/2024", "4:00 PM", "AI101",
      "Business", 2, "Vegetarian", 25202)
  }

  /** Only the id and the phone depend on the query: two fabricated bookings
      agree on every other field, and the last name is never consulted. */
  lemma FabricateIgnoresMostOfQuery(q1: Query, q2: Query)
    ensures Fabricate(q1).(id := "", phone := "") == Fabricate(q2).(id := "", phone := "")
    ensures q1.bookingId == q2.bookingId && q1.phone == q2.phone ==> Fabricate(q1) == Fabricate(q2)
  {
  }

  /** A fabricated booking always shows an id and a phone number. */
  lemma FabricateNeverBlank(q: Query)
    ensures Fabricate(q).id != "" && Fabricate(q).phone != ""
  {
  }

  /** The callbacks the page schedules. The search callback closes over the
      query as it was when the search was submitted. */
  datatype ManageTimer = SearchDone(query: Query) | CancelDone | CancelReset

  /** The steps of the management flow. */
  datatype ManagePhase = SearchForm | Searching | ResultShown | ConfirmingCancel | Cancelling | CancelSucceeded

  /** What the page renders, in the order the render tests its flags. */
  datatype ManageView =
    | CancelledBanner
    | SearchFormView(error: Option<string>, busy: bool)
    | ConfirmPrompt(busy: bool)
    | Details(booking: BookingDetails)
    | Blank

  /** The page's whole state, for saying what an event leaves unchanged. */
  datatype PageState = PageState(
    searchParams: Query,
    showSearchForm: bool,
    loading: bool,
    error: Option<string>,
    booking: Option<BookingDetails>,
    cancelConfirm: bool,
    cancelSuccess: bool,
    pending: Option<ManageTimer>)

  const InitialState := PageState(EmptyQuery, true, false, None, None, false, false, None)

  class ManagePage {
    var searchParams: Query
    var showSearchForm: bool
    var loading: bool
    var error: Option<string>
    var booking: Option<BookingDetails>
    var cancelConfirm: bool
    var cancelSuccess: bool
    /** The timer callback scheduled and not yet run, if any. */
    var pending: Option<ManageTimer>

    /** The flag combinations the flow can reach, one per pending timer. An
        error is only ever the missing-criteria message on an idle search
        form. */
    ghost predicate Valid()
      reads this
    {
      && (error.Some? ==> error.value == NoCriteriaMessage && showSearchForm && pending == None)
      && match pending
         case None =>
           && !loading && !cancelSuccess
           && (if showSearchForm then booking == None && !cancelConfirm else booking != None)
         case Some(SearchDone(_)) =>
           loading && showSearchForm && booking == None && !cancelConfirm && !cancelSuccess
         case Some(CancelDone) =>
           loading && !showSearchForm && booking != None && cancelConfirm && !cancelSuccess
         case Some(CancelReset) =>
           !loading && !showSearchForm && booking != None && !cancelConfirm && cancelSuccess
    }

    function State(): PageState
      reads this
    {
      PageState(searchParams, showSearchForm, loading, error, booking, cancelConfirm, cancelSuccess, pending)
    }

    /** The step of the flow the flags encode. */
    function Phase(): ManagePhase
      reads this
    {
      if cancelSuccess then CancelSucceeded
      else if showSearchForm then (if loading then Searching else SearchForm)
      else if cancelConfirm then (if loading then Cancelling else ConfirmingCancel)
      else ResultShown
    }

    /** The render: the cancelled banner first, then the search form, then the
        booking (as the cancel prompt or as its details), else nothing. On a
        reachable state the last case never happens and the view matches the
        step of the flow. */
    function View(): (v: ManageView)
      reads this
      ensures Valid() ==> v != Blank
      ensures Valid() ==> (v == CancelledBanner <==> Phase() == CancelSucceeded)
      ensures Valid() ==> (v.SearchFormView? <==> Phase() == SearchForm || Phase() == Searching)
      ensures Valid() ==> (v.ConfirmPrompt? <==> Phase() == ConfirmingCancel || Phase() == Cancelling)
      ensures Valid() ==> (v.Details? <==> Phase() == ResultShown)
      ensures v.SearchFormView? ==> v.busy == loading && v.error == error
      ensures v.ConfirmPrompt? ==> v.busy == loading
      ensures v.Details? ==> booking == Some(v.booking)
    {
      if cancelSuccess then CancelledBanner
      else if showSearchForm then SearchFormView(error, loading)
      else if booking.Some? then (if cancelConfirm then ConfirmPrompt(loading) else Details(booking.value))
      else Blank
    }

    constructor ()
      ensures Valid()
      ensures State() == InitialState
      ensures Phase() == SearchForm
    {
      searchParams := EmptyQuery;
      showSearchForm := true;
      loading := false;
      error := None;
      booking := None;
      cancelConfirm := false;
      cancelSuccess := false;
      pending := None;
    }

    /** An input of the search form changed (the inputs exist only while the
        search form is shown): only that search parameter changes. */
    method HandleChange(fld: Field, v: string)
      requires Valid() && View().SearchFormView?
      modifies this
      ensures Valid()
      ensures State() == old(State()).(searchParams := Update(old(searchParams), fld, v))
      ensures Phase() == old(Phase())
    {
      searchParams := Update(searchParams, fld, v);
    }

    /** The search form was submitted (its button is enabled only while not
        loading): without any criterion the error is shown and the form stays;
        otherwise the lookup starts with the current query. */
    method HandleSearch()
      requires Valid() && View().SearchFormView? && !loading
      modifies this
      ensures Valid()
      ensures !HasCriterion(searchParams) ==> State() == old(State()).(error := Some(NoCriteriaMessage))
      ensures HasCriterion(searchParams) ==>
        State() == old(State()).(error := None, loading := true, pending := Some(SearchDone(searchParams)))
      ensures old(Phase()) == SearchForm
      ensures Phase() == if HasCriterion(searchParams) then Searching else SearchForm
    {
      error := None;
      if !HasCriterion(searchParams) {
        error := Some(NoCriteriaMessage);
        return;
      }
      loading := true;
      pending := Some(SearchDone(searchParams));
    }

    /** The lookup timer fires: the booking fabricated from the submitted query
        replaces the search form. */
    method OnSearchTimer()
      requires Valid() && pending.Some? && pending.value.SearchDone?
      modifies this
      ensures Valid()
      ensures State() == old(State()).(loading := false, booking := Some(Fabricate(old(pending).value.query)),
                                       showSearchForm := false, pending := None)
      ensures old(Phase()) == Searching && Phase() == ResultShown
    {
      var query := pending.value.query;
      loading := false;
      booking := Some(Fabricate(query));
      showSearchForm := false;
      pending := None;
    }

    /** "Cancel Booking" on the details: ask for confirmation. */
    method HandleCancelBooking()
      requires Valid() && View().Details?
      modifies this
      ensures Valid()
      ensures State() == old(State()).(cancelConfirm := true)
      ensures old(Phase()) == ResultShown && Phase() == ConfirmingCancel
    {
      cancelConfirm := true;
    }

    /** "No, Keep My Booking" (enabled only while not loading): back to the
        details. */
    method DeclineCancellation()
      requires Valid() && View().ConfirmPrompt? && !loading
      modifies this
      ensures Valid()
      ensures State() == old(State()).(cancelConfirm := false)
      ensures old(Phase()) == ConfirmingCancel && Phase() == ResultShown
    {
      cancelConfirm := false;
    }

    /** "Yes, Cancel Booking" (enabled only while not loading): the
        cancellation starts. */
    method ConfirmCancellation()
      requires Valid() && View().ConfirmPrompt? && !loading
      modifies this
      ensures Valid()
      ensures State() == old(State()).(loading := true, pending := Some(CancelDone))
      ensures old(Phase()) == ConfirmingCancel && Phase() == Cancelling
    {
      loading := true;
      pending := Some(CancelDone);
    }

    /** The cancellation timer fires: the cancelled banner is shown and the
        reset timer is scheduled. */
    method OnCancelTimer()
      requires Valid() && pending == Some(CancelDone)
      modifies this
      ensures Valid()
      ensures State() == old(State()).(loading := false, cancelConfirm := false, cancelSuccess := true,
                                       pending := Some(CancelReset))
      ensures old(Phase()) == Cancelling && Phase() == CancelSucceeded
    {
      loading := false;
      cancelConfirm := false;
      cancelSuccess := true;
      pending := Some(CancelReset);
    }

    /** The reset timer fires: the booking is dropped and an empty search form
        is shown again. */
    method OnCancelResetTimer()
      requires Valid() && pending == Some(CancelReset)
      modifies this
      ensures Valid()
      ensures State() == old(State()).(cancelSuccess := false, booking := None, showSearchForm := true,
                                       searchParams := EmptyQuery, pending := None)
      ensures State() == InitialState.(error := old(error))
      ensures old(Phase()) == CancelSucceeded && Phase() == SearchForm
    {
      cancelSuccess := false;
      booking := None;
      showSearchForm := true;
      searchParams := EmptyQuery;
      pending := None;
    }

    /** "Back to Search" on the details: the booking is dropped and the search
        form returns with the parameters as they were. */
    method BackToSearch()
      requires Valid() && View().Details?
      modifies this
      ensures Valid()
      ensures State() == old(State()).(booking := None, showSearchForm := true)
      ensures old(Phase()) == ResultShown && Phase() == SearchForm
    {
      booking := None;
      showSearchForm := true;
    }
  }

  /** The whole cancel flow from the details view: request, confirm, and the
      two timers bring the page back to an empty search form with no booking. */
  method CancelShownBooking(page: ManagePage)
    requires page.Valid() && page.View().Details?
    modifies page
    ensures page.Valid()
    ensures page.State() == InitialState
  {
    page.HandleCancelBooking();
    page.ConfirmCancellation();
    page.OnCancelTimer();
    page.OnCancelResetTimer();
  }
}
