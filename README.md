# Airline front end: page logic in Dafny

This project models the logic under the markup of a demonstration airline web
front end. There are four pages, each with its own state and nothing shared between them:

- **Booking** (`booking.dfy`, module `Booking`). A twelve-field booking form. Its
  origin/destination selects offer five local or eleven international cities,
  depending on the travel type. A change of travel type clears the chosen
  origin and destination. Two validation rules are checked in order: the same
  city at both ends, then an international trip without a passport. A valid
  submit goes Editing → Submitting → Succeeded, then resets to the initial form.
- **Manage** (`manage.dfy`, module `Manage`). A booking search that needs at
  least one of booking id, last name and phone. The lookup fabricates a demo
  booking from the query. A cancel flow follows: request, then decline or
  confirm, then cancelling, the cancelled banner, and a reset to an empty
  search form. A "back to search" action is also modelled, as is the order in
  which the page picks its view.
- **Flight schedule** (`flight_schedule.dfy`, module `FlightSchedule`). A filter
  over a fixed five-flight catalog. Origin and destination match by upper-cased
  substring, and the date by equality. The criteria are combined with AND, and
  catalog order is kept.
- **Complaint** (`complain.dfy`, module `Complain`). Five required fields and the
  same submit/reset cycle as the booking page.

Shared pieces are `Common` (`common.dfy`: the optional value, the two timer
callbacks of a submit cycle, the form view phase) and `Strings`
(`strings.dfy`: ASCII upper-casing, and `includes` as substring occurrence).

Each stateful page is a class whose fields are the component's state
variables. Each handler is a method. Each `setTimeout` callback is a separate
method that may run only while that callback is pending; the pending callback
is a real field (`pending`), set where the source schedules it. `Valid()` is
the page invariant: the flag combinations the flow can reach. `State()`
snapshots all fields, so each handler's postcondition says what the new state
is and that nothing else changed. Handlers that the page offers only in some
views say so in their precondition: a submit button disabled while busy,
cancel buttons shown only on the booking details, and form inputs that exist
only while their form is shown (not behind a success or cancelled banner, and
on the management page only on the search form).

## Model

| member | source | states |
|---|---|---|
| `Common.PhaseOf` | frontend/src/pages/Booking.tsx:140-147 | The success banner wins. Otherwise the form is shown: busy while submitting, or with the error alert when an error is set. |
| `Common.CyclePhase` | frontend/src/pages/Booking.tsx:100-132 | The submit cycle never has the busy form and the success banner at once. While a timer is pending, the phase follows that timer; when idle, it is the error alert or the plain form. |
| `Booking.EligibleCities` | frontend/src/pages/Booking.tsx:19-49 | The selects offer exactly the 5 local cities for a local trip, and exactly the 11 international cities otherwise (the lists and the effect choosing between them). |
| `Booking.CityListsDisjoint` | frontend/src/pages/Booking.tsx:19-23 | No city appears in both lists. |
| `Booking.Get` | frontend/src/pages/Booking.tsx:4-17 | Reading a field gives a value of that field's kind. |
| `Booking.ApplyChange` | frontend/src/pages/Booking.tsx:51-83 | The named field takes the new value. A travel-type change also sets origin and destination to "". Every other field, including seat class, meal type and seat count, keeps its value. |
| `Booking.SameCity` | frontend/src/pages/Booking.tsx:86 | The first rule fires only when both ends are chosen, and it is symmetric in origin and destination. |
| `Booking.PassportMissing` | frontend/src/pages/Booking.tsx:91 | The second rule never fires for a local trip or when a passport number is given; when it fires, the passport field is "". |
| `Booking.Validate` | frontend/src/pages/Booking.tsx:85-98 | The form is valid iff neither rule fires. If origin equals a non-empty destination, the result is the same-city message, checked first. Otherwise an international trip with an empty passport gives the passport message. |
| `Booking.ValidateReadsRouteAndPassport` | frontend/src/pages/Booking.tsx:85-98 | Two forms that agree on origin, destination, travel type and passport get the same verdict. |
| `Booking.TravelTypeChangeLeavesPassportRule` | frontend/src/pages/Booking.tsx:54-61 | Right after a travel-type change, only the passport rule can fail. |
| `Booking.InitialFormValid` | frontend/src/pages/Booking.tsx:26-39 | The initial form passes validation. |
| `Booking.BookingPage.constructor` | frontend/src/pages/Booking.tsx:26-44 | The initial form, the local cities, no flags, no error and no timer. |
| `Booking.BookingPage.HandleChange` | frontend/src/pages/Booking.tsx:46-83 | The form becomes `ApplyChange` of the old form. The offered cities follow the new travel type (the effect). All flags are unchanged. |
| `Booking.BookingPage.HandleSubmit` | frontend/src/pages/Booking.tsx:100-108 | The error is cleared first. On an invalid form, the first failing rule's message is set and `submitting` stays false. On a valid form, `submitting` becomes true and the request timer is pending. Nothing else changes. |
| `Booking.BookingPage.OnSubmitTimer` | frontend/src/pages/Booking.tsx:111-116 | `submitting` becomes false and `success` true, and the reset timer is scheduled. The form is untouched. |
| `Booking.BookingPage.OnResetTimer` | frontend/src/pages/Booking.tsx:116-132 | `success` becomes false and the form becomes exactly the initial record. The page is back to its opening state. |
| `Booking.SubmitValidBooking` | frontend/src/pages/Booking.tsx:100-133 | A valid submit followed by both timers returns the page to its opening state. |
| `Manage.Update` | frontend/src/pages/Manage.tsx:34-40 | Only the named search parameter changes. |
| `Manage.HasCriterion` | frontend/src/pages/Manage.tsx:47 | The search may proceed iff some parameter is non-empty. |
| `Manage.OrElse` | frontend/src/pages/Manage.tsx:60 | `s \|\| fallback` gives `s` when it is non-empty, else the fallback. |
| `Manage.Fabricate` | frontend/src/pages/Manage.tsx:59-74 | The id is the query's booking id if non-empty, else HF600. The phone is the query's phone if non-empty, else 787979900. |
| `Manage.FabricateIgnoresMostOfQuery` | frontend/src/pages/Manage.tsx:59-74 | All fields other than id and phone are the same for every query. The last name is never used. |
| `Manage.FabricateNeverBlank` | frontend/src/pages/Manage.tsx:60-62 | The fabricated id and phone are never empty. |
| `Manage.ManagePage.View` | frontend/src/pages/Manage.tsx:116-266 | On a reachable state, at most one of the cancelled banner, the search form and the booking (prompt or details) applies, and the view is that one; the empty view never happens. The search form carries the error and the busy flag; the prompt carries the busy flag; the details carry the stored booking. |
| `Manage.ManagePage.constructor` | frontend/src/pages/Manage.tsx:21-32 | Empty parameters and the search form shown, with no loading, error, booking or cancel flags. |
| `Manage.ManagePage.HandleChange` | frontend/src/pages/Manage.tsx:34-40 | Only the named search parameter changes. |
| `Manage.ManagePage.HandleSearch` | frontend/src/pages/Manage.tsx:42-53 | The error is cleared first. With all three parameters empty, the missing-criteria message is set, loading does not start, and the form stays. Otherwise loading becomes true and the lookup timer holds the current query. |
| `Manage.ManagePage.OnSearchTimer` | frontend/src/pages/Manage.tsx:55-77 | `loading` becomes false. The booking becomes the one fabricated from the submitted query, and the search form is hidden. |
| `Manage.ManagePage.HandleCancelBooking` | frontend/src/pages/Manage.tsx:80-82 | `cancelConfirm` becomes true. The booking and loading are untouched. |
| `Manage.ManagePage.DeclineCancellation` | frontend/src/pages/Manage.tsx:192-198 | `cancelConfirm` becomes false. Nothing else changes. |
| `Manage.ManagePage.ConfirmCancellation` | frontend/src/pages/Manage.tsx:84-88 | `loading` becomes true and the cancellation timer is pending. |
| `Manage.ManagePage.OnCancelTimer` | frontend/src/pages/Manage.tsx:88-94 | `loading` and `cancelConfirm` become false and `cancelSuccess` true. The reset timer is scheduled. |
| `Manage.ManagePage.OnCancelResetTimer` | frontend/src/pages/Manage.tsx:94-103 | `cancelSuccess` becomes false and the booking is dropped. The search form is shown and all three parameters are "". |
| `Manage.ManagePage.BackToSearch` | frontend/src/pages/Manage.tsx:107-110 | The booking is dropped and the search form is shown. The search parameters are unchanged. |
| `Manage.CancelShownBooking` | frontend/src/pages/Manage.tsx:80-105 | Request, confirm and both timers take the page from the details back to its opening state. |
| `Strings.UpperChar` | frontend/src/pages/FlightSchedule.tsx:121-122 | No lower-case ASCII letter remains. Other characters are unchanged, and letters map to their capitals. |
| `Strings.Upper` | frontend/src/pages/FlightSchedule.tsx:121-122 | The length is kept, and each character is upper-cased. |
| `Strings.UpperIdempotent` | frontend/src/pages/FlightSchedule.tsx:121-122 | Upper-casing twice is upper-casing once. Only "" upper-cases to "". |
| `Strings.Contains` | frontend/src/pages/FlightSchedule.tsx:121-122 | `includes` never finds a longer string, and finds one of the same length only when the two are equal. |
| `Strings.MissingCharNotContained` | frontend/src/pages/FlightSchedule.tsx:121-122 | A string lacking one of `sub`'s characters does not include `sub`. |
| `Strings.ContainsEmpty` | frontend/src/pages/FlightSchedule.tsx:121-122 | Every string includes "". |
| `FlightSchedule.Update` | frontend/src/pages/FlightSchedule.tsx:101-107 | Only the named criterion changes. |
| `FlightSchedule.NoCriteria` | frontend/src/pages/FlightSchedule.tsx:115 | The early return fires iff all three criteria are "". |
| `FlightSchedule.FilterFlights` | frontend/src/pages/FlightSchedule.tsx:113-125 | The result is never longer than the catalog. |
| `FlightSchedule.Matches` | frontend/src/pages/FlightSchedule.tsx:120-124 | Every flight matches a query without criteria, and a given date is met only by a flight on that date. |
| `FlightSchedule.Keep` | frontend/src/pages/FlightSchedule.tsx:113-124 | The filter callback keeps exactly the flights the AND rule accepts; the all-empty early return changes nothing. |
| `FlightSchedule.EmptyCityCriterionMatches` | frontend/src/pages/FlightSchedule.tsx:121-122 | An empty city query matches every city, even without its guard. |
| `FlightSchedule.FilterSound` | frontend/src/pages/FlightSchedule.tsx:120-124 | Every kept flight is from the catalog. Its origin contains upper(origin query), its destination contains upper(destination query), and its date equals the date query, for each non-empty criterion. |
| `FlightSchedule.FilterComplete` | frontend/src/pages/FlightSchedule.tsx:120-124 | Every catalog flight meeting all non-empty criteria is kept. |
| `FlightSchedule.FilterSubsequence` | frontend/src/pages/FlightSchedule.tsx:113 | The result is a subsequence of the catalog, so catalog order is kept. |
| `FlightSchedule.FilterNoCriteria` | frontend/src/pages/FlightSchedule.tsx:115-117 | With all criteria empty, the result is the whole catalog in order. |
| `FlightSchedule.SearchDelhi` | frontend/src/pages/FlightSchedule.tsx:19-90 | Origin "del" lists exactly flights AI101 and AI303, both from DELHI. |
| `FlightSchedule.SearchParis` | frontend/src/pages/FlightSchedule.tsx:19-90 | Origin "PARIS" lists nothing. |
| `FlightSchedule.SchedulePage.constructor` | frontend/src/pages/FlightSchedule.tsx:93-99 | Empty criteria, and the whole catalog listed, which is what a search with no criteria lists. |
| `FlightSchedule.SchedulePage.HandleChange` | frontend/src/pages/FlightSchedule.tsx:101-107 | Only the named criterion changes. The list stays. |
| `FlightSchedule.SchedulePage.HandleSearch` | frontend/src/pages/FlightSchedule.tsx:109-128 | The list becomes the filter of the full catalog by the current criteria, not of the previous list. It stays a subsequence of the catalog. |
| `Complain.Update` | frontend/src/pages/Complain.tsx:24-30 | Only the named field changes. |
| `Complain.IsComplete` | frontend/src/pages/Complain.tsx:37 | Submission may proceed iff every one of the five fields is non-empty. |
| `Complain.ClearingAFieldBlocksSubmit` | frontend/src/pages/Complain.tsx:37-40 | Emptying any single field makes the form incomplete. |
| `Complain.EmptyFormIncomplete` | frontend/src/pages/Complain.tsx:12-18 | The initial/reset form has all five fields "", so it is incomplete. |
| `Complain.ComplainPage.constructor` | frontend/src/pages/Complain.tsx:12-22 | Empty form, no flags, no error, no timer. |
| `Complain.ComplainPage.HandleChange` | frontend/src/pages/Complain.tsx:24-30 | Only the named field changes. The flags are unchanged. |
| `Complain.ComplainPage.HandleSubmit` | frontend/src/pages/Complain.tsx:32-42 | The error is cleared first. With a field missing, the message is set and submitting does not start. With all five present, `submitting` becomes true and the request timer is pending. |
| `Complain.ComplainPage.OnSubmitTimer` | frontend/src/pages/Complain.tsx:45-50 | `submitting` becomes false and `success` true, and the reset timer is scheduled. |
| `Complain.ComplainPage.OnResetTimer` | frontend/src/pages/Complain.tsx:50-59 | `success` becomes false and all five fields are "", the opening state. |

## Left out

- Rendering: markup, CSS classes and static text. The pages About, Home and Footer, and the router shell in `App.tsx`, have no logic to state.
- Wall-clock time. Each `setTimeout` callback is a discrete event with no 1500/3000 ms semantics. As in the code, there is no guard against a callback that runs after the page has been left.
- `parseInt` for the seat count. The seat-count input delivers an already-parsed integer (`Count`), so NaN is not modelled.
- Booking.Fits: the `as 'local' | 'international'` style casts are unchecked in the source. The model assumes, as a precondition, that each select delivers one of its options.
- Widget constraints enforced by the browser rather than the code: `required`, the seat-count `min`/`max`, and the date `min` taken from the clock.
- Unicode upper-casing. `Strings.Upper` maps only ASCII `a`-`z`.
- React batching and re-render timing. Every event runs to completion, and the `destinations` effect runs right after the change that alters the travel type.
- Handlers offered only in some views require that view. Examples: submit buttons disabled while busy, cancel buttons only on the booking details, and change handlers only while the inputs are rendered (the booking and complaint forms are hidden behind their success banners; the management inputs exist only on the search form). Calls the page cannot make, such as a second submit while one is in flight, are not modelled.
