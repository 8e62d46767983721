# Event management: validators, list logic and page state

This project models the rule-bearing core of an event-management system: a
Frappe backend that stores events, venues and bookings, with a React client
for the public site and the management desk. It covers:

- the backend `validate` hooks of the three document kinds and the
  whitelisted `add_event` / `add_venue` methods;
- the Frappe desk form hooks that check the same documents in the browser;
- the zod schemas and submit sequencing of the two booking dialogs;
- the pure list logic of the pages: the booking status filter, the venue
  maps, the event search, source and error precedence, and the analytics
  counters and rates;
- the state the pages keep (the events modal, the bookings page, the home
  page's fetch state, the dashboard's fallback) and the global UI store.

Network results, SDK hook results, environment variables, the clock, the
answer to `confirm()` and the framework's email check are parameters.
Backend validation outcomes are `Pass`, `Fail(message)` (`frappe.throw`), or
`Raise(DoesNotExist | TypeError)` for exceptions the code does not catch.
Dates are ISO strings ordered by `Text.Less`, which is proved a strict total
order. Record fields are `Option`s, and "truthy" means present and non-empty
(text) or non-zero (numbers), in both Python and JavaScript.

Modules follow the source files: `CustomEvent`, `CustomEventForm`, `Venue`,
`VenueForm`, `EventBooking`, `Zod`, `PublicBookingModal`, `BookingModal`,
`BookingsPage`, `Home`, `Dashboard`, `Analytics`, `EventsPage`, `AppStore`.
The shared modules are `Common` (options, truthiness, verdicts, list filter),
`Text` (trim, lowercase, substring, string order, number formatting) and
`Records`.

Where the code and the design description of the home page disagree, the
model follows the code. The description says the direct fetch is never
retried. In the code a failed direct fetch leaves no result and stops
loading, so the effect is due again on the next render and fetches again
(`Home.FailedDirectFetchIsRetried`).

## Model

| member | source | states |
|---|---|---|
| CustomEvent.Validate | apps/event_management/event_management/event_management/doctype/custom_event/custom_event.py:6-21 | passes iff capacity is absent or positive, set dates are in order (equal dates allowed), a set status is Draft/Approved/Rejected and a venue is given; otherwise the message of the first failing check in that order |
| CustomEvent.SameDayEventOrdered | apps/event_management/event_management/event_management/doctype/custom_event/custom_event.py:12-13 | an event ending on its start date passes the date check |
| CustomEvent.EndBeforeStartRejected | apps/event_management/event_management/event_management/doctype/custom_event/custom_event.py:8-13 | an end date before the start date is refused with the date message when capacity is fine |
| CustomEvent.NewEventDocument | apps/event_management/event_management/event_management/doctype/custom_event/custom_event.py:44-55 | `event_name` is stored as `custom_event_name`, status is forced to Draft, capacity is `capacity or 0`, other fields copied |
| CustomEvent.AddEvent | apps/event_management/event_management/event_management/doctype/custom_event/custom_event.py:44-56 | a call without one of the three positional arguments raises TypeError; otherwise it saves iff capacity > 0, dates are ordered and a venue is given; a missing or zero capacity is always refused with the capacity message |
| CustomEventForm.Validate | apps/event_management/event_management/event_management/doctype/custom_event/custom_event.js:2-9 | passes iff capacity is absent or ≥ 0 (0 is falsy) and set dates are ordered; the capacity message comes first |
| CustomEventForm.ClientRejectionImpliesServerRejection | apps/event_management/event_management/event_management/doctype/custom_event/custom_event.js:3-8 | whatever the form refuses the server refuses, with the same message unless capacity is 0 |
| CustomEventForm.ZeroCapacityPassesOnlyOnClient | apps/event_management/event_management/event_management/doctype/custom_event/custom_event.js:3 | capacity 0 passes the form and fails the server |
| Venue.Validate | apps/event_management/event_management/event_management/doctype/venue/venue.py:6-17 | passes iff capacity is absent or positive, a filled email is valid and a filled phone has 7 to 15 characters; otherwise the first failing message |
| Venue.PhoneLengthBounds | apps/event_management/event_management/event_management/doctype/venue/venue.py:16-17 | 7 and 15 characters pass, 6 and 16 fail |
| Venue.EmptyContactSkipped | apps/event_management/event_management/event_management/doctype/venue/venue.py:12-16 | with empty email and phone only the capacity decides |
| Venue.NewVenueDocument | apps/event_management/event_management/event_management/doctype/venue/venue.py:24-33 | fields are copied; an omitted capacity becomes 0 |
| Venue.AddVenue | apps/event_management/event_management/event_management/doctype/venue/venue.py:24-34 | a missing `venue_name` raises TypeError; with a name, the venue is saved iff a capacity is passed that is absent or positive, a filled email is valid and a filled phone has 7 to 15 characters; an omitted capacity is refused with the capacity message, a bad email with the email message |
| VenueForm.Validate | apps/event_management/event_management/event_management/doctype/venue/venue.js:3-7 | passes iff capacity is absent or ≥ 0; its only failure is the capacity message |
| VenueForm.OnlyCapacityRead | apps/event_management/event_management/event_management/doctype/venue/venue.js:3-7 | two venues with equal capacity get the same answer |
| VenueForm.ClientRejectionImpliesServerRejection | apps/event_management/event_management/event_management/doctype/venue/venue.js:4-5 | whatever the form refuses the server refuses with the same message |
| VenueForm.ZeroCapacityPassesOnlyOnClient | apps/event_management/event_management/event_management/doctype/venue/venue.js:4 | capacity 0 passes the form and fails the server |
| EventBooking.ConfirmedCount | apps/event_management/event_management/event_management/doctype/event_booking/event_booking.py:26 | the count of confirmed records of the event is at most the number stored, and 0 iff none is confirmed for it |
| EventBooking.CountIgnoresTickets | apps/event_management/event_management/event_management/doctype/event_booking/event_booking.py:26 | the count depends only on each booking's event and status |
| EventBooking.ValidateAgainst | apps/event_management/event_management/event_management/doctype/event_booking/event_booking.py:6-32 | passes iff tickets absent or positive, filled email valid, filled phone exactly 10 characters, a linked event exists, is Approved and has room, and a set status is Pending/Confirmed/Cancelled; first failure in source order; a missing event raises DoesNotExist, a missing ticket count or capacity raises TypeError |
| EventBooking.Validate | apps/event_management/event_management/event_management/doctype/event_booking/event_booking.py:19-28 | with a linked event it is the check sequence with the confirmed-record count; the capacity message appears iff that count plus the tickets exceeds capacity; without an event only the field and status checks apply |
| EventBooking.ExactFitAccepted | apps/event_management/event_management/event_management/doctype/event_booking/event_booking.py:27 | filling the capacity exactly is accepted |
| EventBooking.FreshlyAddedEventNotBookable | apps/event_management/event_management/event_management/doctype/event_booking/event_booking.py:22-23 | an event straight from `add_event` (Draft) cannot be booked |
| EventBooking.ConfirmedTickets | apps/event_management/event_management/event_management/doctype/event_booking/event_booking.py:25-27 | the confirmed tickets of an event are non-negative when every stored count is |
| EventBooking.ConfirmedTicketsAppend | apps/event_management/event_management/event_management/doctype/event_booking/event_booking.py:26-27 | storing one booking adds its tickets exactly when it is a confirmed booking of the event |
| EventBooking.RecordCountAllowsOverbooking | apps/event_management/event_management/event_management/doctype/event_booking/event_booking.py:26-28 | with capacity 10 and a confirmed booking of 10, a confirmed booking of 5 passes, giving 15 confirmed tickets |
| EventBooking.ValidateByTickets | apps/event_management/event_management/event_management/doctype/event_booking/event_booking.py:26-28 | the same checks with confirmed tickets in place of confirmed records |
| EventBooking.NoOverbooking | apps/event_management/event_management/event_management/doctype/event_booking/event_booking.py:26-28 | with the ticket-based check a saved confirmed booking never takes the event past capacity |
| Zod.StringMin | frontend/event-frontend/src/interfaces/public/BookingModal.tsx:11 | passes iff the text has at least n characters, else its message |
| Zod.Email | frontend/event-frontend/src/interfaces/public/BookingModal.tsx:12 | passes iff the address check holds, else its message |
| Zod.NumberRange | frontend/event-frontend/src/interfaces/public/BookingModal.tsx:14 | passes iff a number is present and within bounds; NaN, too small and too large each give their own message |
| PublicBookingModal.Check | frontend/event-frontend/src/interfaces/public/BookingModal.tsx:10-15 | name ≥ 2, valid email, phone ≥ 10 characters, tickets in [1, 10], each iff; the name, email and phone messages; an empty ticket input gives zod's NaN message, fewer than 1 the minimum message, more than 10 the maximum message |
| PublicBookingModal.TicketBounds | frontend/event-frontend/src/interfaces/public/BookingModal.tsx:14 | 1 and 10 tickets pass, 0 and 11 fail with the min and max messages |
| PublicBookingModal.DefaultsNotSubmittable | frontend/event-frontend/src/interfaces/public/BookingModal.tsx:36-41 | the defaults satisfy the ticket rule but not the name and phone rules |
| PublicBookingModal.DatePart | frontend/event-frontend/src/interfaces/public/BookingModal.tsx:52 | the date part is a prefix without `T`, ending at the first `T` if there is one |
| PublicBookingModal.DatePartOfTimestamp | frontend/event-frontend/src/interfaces/public/BookingModal.tsx:52 | for an ISO timestamp the booking date is its first ten characters |
| PublicBookingModal.Payload | frontend/event-frontend/src/interfaces/public/BookingModal.tsx:46-54 | the created booking is Confirmed, for the dialog's event, dated with the date part of now, with the form's values |
| PublicBookingModal.AcceptedFormAgainstServer | frontend/event-frontend/src/interfaces/public/BookingModal.tsx:13 | an accepted form passes the server's ticket and status checks, and its phone check iff the phone has exactly 10 characters |
| PublicBookingModal.ElevenDigitPhoneRefusedByServer | frontend/event-frontend/src/interfaces/public/BookingModal.tsx:13 | an 11-character phone passes the form and is refused by `EventBooking.validate` |
| PublicBookingModal.Dialog.constructor | frontend/event-frontend/src/interfaces/public/BookingModal.tsx:26-42 | the form starts from the defaults with no errors |
| PublicBookingModal.Dialog.Edit | frontend/event-frontend/src/interfaces/public/BookingModal.tsx:71-112 | typing changes only the form |
| PublicBookingModal.Dialog.Submit | frontend/event-frontend/src/interfaces/public/BookingModal.tsx:44-62 | a schema failure sends nothing; otherwise one create, then on success alert, close, reset; on failure alert and keep the form |
| PublicBookingModal.Dialog.Close | frontend/event-frontend/src/interfaces/public/BookingModal.tsx:65 | closing keeps the form's values |
| BookingModal.Check | frontend/event-frontend/src/components/BookingModal.tsx:6-10 | name ≥ 2, valid email, tickets in [1, 10], each iff with its message; an empty ticket input gives the NaN message, below 1 and above 10 their own messages; no phone field |
| BookingModal.DefaultsNotSubmittable | frontend/event-frontend/src/components/BookingModal.tsx:22 | the defaults pass the ticket rule and fail the name rule |
| BookingModal.Modal.constructor | frontend/event-frontend/src/components/BookingModal.tsx:19-23 | the form starts at the defaults |
| BookingModal.Modal.Edit | frontend/event-frontend/src/components/BookingModal.tsx:47-64 | typing changes only the form |
| BookingModal.Modal.Submit | frontend/event-frontend/src/components/BookingModal.tsx:25-37 | only while open; a schema failure does nothing; otherwise the handler is called (or the data logged), then reset, then close; a failing handler alerts and neither resets nor closes; after a clean check no field error is shown |
| BookingModal.Modal.Cancel | frontend/event-frontend/src/components/BookingModal.tsx:67 | cancel resets and then closes |
| BookingModal.Modal.Close | frontend/event-frontend/src/components/BookingModal.tsx:40-44 | the close button and backdrop close without resetting |
| BookingsPage.Rows | frontend/event-frontend/src/interfaces/management/Bookings.tsx:32 | anything but a list gives no rows |
| BookingsPage.FilterRows | frontend/event-frontend/src/interfaces/management/Bookings.tsx:33-36 | "All" returns the rows unchanged; another value keeps exactly the rows with that status, in order |
| BookingsPage.FilterRowsIdempotent | frontend/event-frontend/src/interfaces/management/Bookings.tsx:33-36 | filtering the shown rows again changes nothing |
| BookingsPage.OfferedFor | frontend/event-frontend/src/interfaces/management/Bookings.tsx:133-157 | Delete is always offered; Confirm and Cancel iff the status is Pending |
| BookingsPage.OfferedActions | frontend/event-frontend/src/interfaces/management/Bookings.tsx:133-157 | a booking's row shows Delete always, Confirm and Cancel iff it is Pending |
| BookingsPage.TargetStatus | frontend/event-frontend/src/interfaces/management/Bookings.tsx:136-143 | Confirm and Cancel write a status the server accepts, never Pending |
| BookingsPage.Step | frontend/event-frontend/src/interfaces/management/Bookings.tsx:133-157 | one successful click on a shown button: Confirm or Cancel moves a Pending row to that button's status, Delete deletes any present row; a button the row does not show changes nothing; a deleted row stays deleted |
| BookingsPage.Run | frontend/event-frontend/src/interfaces/management/Bookings.tsx:133-157 | after any clicks a row is unchanged, deleted, or Confirmed or Cancelled |
| BookingsPage.OnlyPendingChanges | frontend/event-frontend/src/interfaces/management/Bookings.tsx:133-157 | a booking that is not Pending keeps its status or is deleted, whatever is clicked: Confirmed and Cancelled are terminal |
| BookingsPage.PendingChangesOnce | frontend/event-frontend/src/interfaces/management/Bookings.tsx:133-157 | from Pending the first click decides: the row ends deleted or with the first action's status, which later clicks never change |
| BookingsPage.DeletedStays | frontend/event-frontend/src/interfaces/management/Bookings.tsx:151-157 | a deleted booking stays deleted |
| BookingsPage.StatusPatch | frontend/event-frontend/src/interfaces/management/Bookings.tsx:50 | the update carries the `status` key only |
| BookingsPage.Page.constructor | frontend/event-frontend/src/interfaces/management/Bookings.tsx:30 | the filter starts at "All" |
| BookingsPage.Page.SetFilter | frontend/event-frontend/src/interfaces/management/Bookings.tsx:83 | choosing a filter changes only the filter |
| BookingsPage.Page.UpdateStatus | frontend/event-frontend/src/interfaces/management/Bookings.tsx:48-56 | one status-only update; a refresh after success, an alert and no refresh after failure |
| BookingsPage.Page.HandleDelete | frontend/event-frontend/src/interfaces/management/Bookings.tsx:58-67 | nothing without confirmation; otherwise one delete, then a refresh or an alert |
| BookingsPage.Page.Click | frontend/event-frontend/src/interfaces/management/Bookings.tsx:133-157 | a status button exists only on a Pending row and sends its row's status-only update, then a refresh or the update alert; Delete, once confirmed, sends the row's delete, then a refresh or the delete alert; unconfirmed it sends nothing; the filter is kept |
| Home.VenueMapOf | frontend/event-frontend/src/interfaces/public/Home.tsx:144-150 | keys are exactly the truthy venue names; each maps to `venue_name ?? name` of the last venue with that name |
| Home.LastVenueWins | frontend/event-frontend/src/interfaces/public/Home.tsx:146-148 | a later duplicate overwrites an earlier one |
| Home.Label | frontend/event-frontend/src/interfaces/public/Home.tsx:147 | a venue is labelled by its venue name when set, else by its name |
| Home.BuildVenueMap | frontend/event-frontend/src/interfaces/public/Home.tsx:144-150 | the `forEach` loop builds `VenueMapOf(venues ?? [])` |
| Home.Title | frontend/event-frontend/src/interfaces/public/Home.tsx:158 | `custom_event_name`, else `event_name`, else empty |
| Home.VenueLabel | frontend/event-frontend/src/interfaces/public/Home.tsx:159 | the mapped venue label, else the venue id, else empty |
| Home.Matches | frontend/event-frontend/src/interfaces/public/Home.tsx:156-160 | an empty query matches every event; an event matches its own lowercased title |
| Home.FilteredEvents | frontend/event-frontend/src/interfaces/public/Home.tsx:153-162 | no list gives none; an empty term gives the list; otherwise exactly the events whose lowercased title or venue label contains the lowercased term, in order |
| Home.SearchIgnoresCase | frontend/event-frontend/src/interfaces/public/Home.tsx:156-160 | a term and its lowercase form find the same events |
| Home.LongerTermNarrows | frontend/event-frontend/src/interfaces/public/Home.tsx:156-160 | every event found for a term is found for any non-empty piece of it |
| Home.FoundByTitle | frontend/event-frontend/src/interfaces/public/Home.tsx:158-160 | an event is found by its whole title |
| Home.EventsSource | frontend/event-frontend/src/interfaces/public/Home.tsx:134 | direct fetch, then SDK, then fallback |
| Home.VenuesSource | frontend/event-frontend/src/interfaces/public/Home.tsx:135 | direct fetch, then SDK, then nothing |
| Home.ErrorBanner | frontend/event-frontend/src/interfaces/public/Home.tsx:138-141 | the first of "Fetch: …", "SDK: …", "Fallback: …" whose error is set; none iff no error |
| Home.Authorization | frontend/event-frontend/src/interfaces/public/Home.tsx:63 | `token <token>` iff a token is set |
| Home.Page.constructor | frontend/event-frontend/src/interfaces/public/Home.tsx:9-20 | nothing fetched, nothing loading, no errors |
| Home.Page.DirectFetchDue | frontend/event-frontend/src/interfaces/public/Home.tsx:46-52 | the direct fetch is due only with a base URL, no fetched events and no fetch in flight |
| Home.Page.FallbackDue | frontend/event-frontend/src/interfaces/public/Home.tsx:93-94 | the fallback is due only on an SDK error with no fallback events and no fallback in flight |
| Home.Page.Loading | frontend/event-frontend/src/interfaces/public/Home.tsx:137 | loading iff any of the direct fetch, the SDK or the fallback is loading |
| Home.Page.Shown | frontend/event-frontend/src/interfaces/public/Home.tsx:134-162 | `filteredEvents`: an ordered selection of the chosen source; all of it for an empty search; only fetched events once the direct fetch has a result |
| Home.Page.Error | frontend/event-frontend/src/interfaces/public/Home.tsx:138-141 | no banner iff no error is set; otherwise "Fetch: …", else "SDK: …", else "Fallback: …" with the first error that is set |
| Home.Page.Cards | frontend/event-frontend/src/interfaces/public/Home.tsx:242-244 | the grid renders no card while anything loads or any error is set, and the filtered events otherwise |
| Home.SdkErrorHidesCards | frontend/event-frontend/src/interfaces/public/Home.tsx:140-244 | an SDK error hides every card, even events the direct fetch delivered |
| Home.Page.Search | frontend/event-frontend/src/interfaces/public/Home.tsx:193 | typing changes only the search term |
| Home.Page.StartDirectFetch | frontend/event-frontend/src/interfaces/public/Home.tsx:41-65 | skipped without a base URL, with a result, or while loading; otherwise loading, error cleared, and the events and venues URLs at the base less one trailing `/` |
| Home.Page.SettleDirectFetch | frontend/event-frontend/src/interfaces/public/Home.tsx:66-86 | a rejection or a non-OK events (then venues) response sets the error in its format; OK responses set both lists (empty when `data` is not a list); loading ends |
| Home.Page.StartFallback | frontend/event-frontend/src/interfaces/public/Home.tsx:92-112 | runs only on an SDK error with no fallback result or fetch; a missing base sets the fixed message; otherwise one request |
| Home.Page.SettleFallback | frontend/event-frontend/src/interfaces/public/Home.tsx:113-128 | a failure sets the error, an OK response sets the events, loading ends |
| Home.FailedDirectFetchIsRetried | frontend/event-frontend/src/interfaces/public/Home.tsx:52-87 | after a failed direct fetch the same two requests are issued again |
| Dashboard.VenueMapOf | frontend/event-frontend/src/interfaces/management/Dashboard.tsx:89-97 | keys are the names of venues with both name and venue name truthy, each mapping to the last such venue's name |
| Dashboard.UnnamedVenueNotMapped | frontend/event-frontend/src/interfaces/management/Dashboard.tsx:93 | a venue without a venue name never appears |
| Dashboard.BuildVenueMap | frontend/event-frontend/src/interfaces/management/Dashboard.tsx:89-97 | the loop builds `VenueMapOf` of the list, or the empty map |
| Dashboard.VenueMapOfSnoc | frontend/event-frontend/src/interfaces/management/Dashboard.tsx:92-94 | one more venue sets its name to its venue name when both are truthy and otherwise leaves the map unchanged |
| Dashboard.Rows | frontend/event-frontend/src/interfaces/management/Dashboard.tsx:99 | the SDK list, even empty, wins over the fallback rows |
| Dashboard.VenueCell | frontend/event-frontend/src/interfaces/management/Dashboard.tsx:156 | `venueMap[venue] ?? venue ?? "—"` |
| Dashboard.NameCell | frontend/event-frontend/src/interfaces/management/Dashboard.tsx:153 | `event_name ?? custom_event_name ?? "—"` |
| Dashboard.AuthHeader | frontend/event-frontend/src/interfaces/management/Dashboard.tsx:59-62 | the trimmed token, prefixed with `token ` unless it starts with it in any case |
| Dashboard.AuthHeaderPrefixed | frontend/event-frontend/src/interfaces/management/Dashboard.tsx:60-62 | every header starts with `token ` in some case |
| Dashboard.PrefixSurvivesLower | frontend/event-frontend/src/interfaces/management/Dashboard.tsx:60-62 | text built as `token ` plus anything starts with `token ` after lowercasing |
| Dashboard.PrefixedUnpadded | frontend/event-frontend/src/interfaces/management/Dashboard.tsx:59-62 | a prefixed non-blank trimmed token trims to itself |
| Dashboard.TrimDropsTrailingSpace | frontend/event-frontend/src/interfaces/management/Dashboard.tsx:59 | one trailing white-space character after unpadded text is trimmed off |
| Dashboard.PaddedShortWordPrefixed | frontend/event-frontend/src/interfaces/management/Dashboard.tsx:59-62 | an unpadded word shorter than the prefix, followed by one white-space character, is trimmed and prefixed |
| Dashboard.BarePrefixPrefixedAgain | frontend/event-frontend/src/interfaces/management/Dashboard.tsx:59-62 | the token `token ` becomes the header `token token` |
| Dashboard.AuthHeaderIdempotent | frontend/event-frontend/src/interfaces/management/Dashboard.tsx:59-62 | for a non-blank token normalising twice equals once |
| Dashboard.BlankTokenNotIdempotent | frontend/event-frontend/src/interfaces/management/Dashboard.tsx:59-62 | a whitespace-only token gives `token `, then `token token` |
| Dashboard.Page.constructor | frontend/event-frontend/src/interfaces/management/Dashboard.tsx:20-21 | no error, no fallback rows |
| Dashboard.Page.FallbackEffect | frontend/event-frontend/src/interfaces/management/Dashboard.tsx:41-86 | only on an SDK error; a missing base is reported before a missing token; a non-OK response sets "Fallback fetch failed: status text" and keeps the rows; OK sets `data` or []; a throw sets its message |
| Analytics.Total | frontend/event-frontend/src/interfaces/management/Analytics.tsx:24 | list length, or 0 without a list |
| Analytics.SumTickets | frontend/event-frontend/src/interfaces/management/Analytics.tsx:28 | bookings none of which has a ticket count sum to 0 |
| Analytics.ApprovedCount | frontend/event-frontend/src/interfaces/management/Analytics.tsx:25 | the Approved events, at most the total, equal to it iff all are Approved |
| Analytics.ConfirmedCount | frontend/event-frontend/src/interfaces/management/Analytics.tsx:27 | the Confirmed bookings, at most the total, equal to it iff all are Confirmed |
| Analytics.SumTicketsAppend | frontend/event-frontend/src/interfaces/management/Analytics.tsx:28 | the ticket sum over joined lists adds up |
| Analytics.TicketsAtLeastBookings | frontend/event-frontend/src/interfaces/management/Analytics.tsx:28 | with at least one ticket per booking, tickets ≥ bookings |
| Analytics.TicketsNonNegative | frontend/event-frontend/src/interfaces/management/Analytics.tsx:28 | non-negative counts give a non-negative sum; a missing count adds 0 |
| Analytics.Rate | frontend/event-frontend/src/interfaces/management/Analytics.tsx:62 | 0 for total 0, otherwise the nearest integer to 100·part/total, halves up |
| Analytics.RateBounds | frontend/event-frontend/src/interfaces/management/Analytics.tsx:62-68 | a rate lies in [0, 100]: 0 for no part, 100 for the whole |
| Analytics.RoundingExtremes | frontend/event-frontend/src/interfaces/management/Analytics.tsx:62 | 199 of 200 shows 100%, 1 of 201 shows 0% |
| Analytics.Compute | frontend/event-frontend/src/interfaces/management/Analytics.tsx:20-68 | nothing while any list loads; otherwise the totals, the approved and confirmed counts, the ticket sum and both rates as `Rate` of those counts, counts within totals and rates within 100 |
| EventsPage.FormFor | frontend/event-frontend/src/interfaces/management/Events.tsx:65-75 | name `custom_event_name ?? event_name ?? ""`, other text `?? ""`, capacity `?? 0` |
| EventsPage.TextOrOmitted | frontend/event-frontend/src/interfaces/management/Events.tsx:104 | empty text is omitted, other text sent as is |
| EventsPage.Payload | frontend/event-frontend/src/interfaces/management/Events.tsx:103-110 | every falsy value is omitted; capacity is omitted iff 0 |
| EventsPage.UnchangedFormSendsRow | frontend/event-frontend/src/interfaces/management/Events.tsx:65-110 | an untouched form for a fully-set row sends the row's values back |
| EventsPage.SubmitRequest | frontend/event-frontend/src/interfaces/management/Events.tsx:112-118 | an update iff editing a row with a truthy name, otherwise a create |
| EventsPage.ZeroCapacityCreateRefused | frontend/event-frontend/src/interfaces/management/Events.tsx:108 | a create with capacity 0 never saves: capacity message or TypeError |
| EventsPage.MissingDateCreateRaises | frontend/event-frontend/src/interfaces/management/Events.tsx:105-106 | a create with an empty date raises TypeError in `add_event` |
| EventsPage.Page.constructor | frontend/event-frontend/src/interfaces/management/Events.tsx:54-63 | closed, not editing, empty form |
| EventsPage.Page.OpenModal | frontend/event-frontend/src/interfaces/management/Events.tsx:65-88 | opens; with a row, edits it with its form; without one, clears editing and the form |
| EventsPage.Page.CloseModal | frontend/event-frontend/src/interfaces/management/Events.tsx:90-93 | closes and clears editing; the form is kept |
| EventsPage.Page.Edit | frontend/event-frontend/src/interfaces/management/Events.tsx:240-335 | typing changes only the form |
| EventsPage.Page.HandleSubmit | frontend/event-frontend/src/interfaces/management/Events.tsx:100-126 | one create or update; success refreshes and closes; failure alerts and keeps modal and form |
| EventsPage.Page.HandleDelete | frontend/event-frontend/src/interfaces/management/Events.tsx:128-138 | nothing without a docname or confirmation; otherwise one delete, then a refresh or an alert |
| AppStore.Merge | frontend/event-frontend/src/store/useAppStore.ts:23-26 | supplied keys win, others are kept |
| AppStore.MergeNothing | frontend/event-frontend/src/store/useAppStore.ts:23-26 | an empty partial changes nothing |
| AppStore.MergeIdempotent | frontend/event-frontend/src/store/useAppStore.ts:23-26 | applying a partial twice equals once |
| AppStore.MergeSequence | frontend/event-frontend/src/store/useAppStore.ts:23-26 | two updates equal one update with the later keys winning |
| AppStore.MergeFull | frontend/event-frontend/src/store/useAppStore.ts:23-26 | a partial with every key replaces the preferences |
| AppStore.Store.constructor | frontend/event-frontend/src/store/useAppStore.ts:17-22 | public interface, light theme, English |
| AppStore.Store.SetCurrentInterface | frontend/event-frontend/src/store/useAppStore.ts:18 | only the interface changes; it is public or management by its type |
| AppStore.Store.SetUserPreferences | frontend/event-frontend/src/store/useAppStore.ts:23-26 | the preferences become the shallow merge; the interface is kept |
| Text.Trim | frontend/event-frontend/src/interfaces/management/Dashboard.tsx:59 | no white space at either end, and the result occurs in the input |
| Text.TrimIdempotent | frontend/event-frontend/src/interfaces/management/Dashboard.tsx:59 | trimming twice equals once |
| Text.Lower | frontend/event-frontend/src/interfaces/public/Home.tsx:156-159 | same length, each character lowered |
| Text.ContainsTransitive | frontend/event-frontend/src/interfaces/public/Home.tsx:160 | a piece of a piece of a text is a piece of it |
| Text.ContainsLower | frontend/event-frontend/src/interfaces/public/Home.tsx:156-160 | lowering both sides keeps an occurrence |
| Text.LessIrreflexive | apps/event_management/event_management/event_management/doctype/custom_event/custom_event.py:12 | no date is before itself |
| Text.LessAsymmetric | apps/event_management/event_management/event_management/doctype/custom_event/custom_event.py:12 | two dates are not each before the other |
| Text.LessTransitive | apps/event_management/event_management/event_management/doctype/custom_event/custom_event.py:12 | the date order is transitive |
| Text.LessTotal | apps/event_management/event_management/event_management/doctype/custom_event/custom_event.py:12 | two different dates are ordered |
| Text.NatToString | frontend/event-frontend/src/interfaces/management/Dashboard.tsx:72 | a non-empty string of digits without a leading zero |
| Text.StripTrailingSlash | frontend/event-frontend/src/interfaces/public/Home.tsx:57 | exactly one trailing `/` is removed if present |
| Common.Filter | frontend/event-frontend/src/interfaces/management/Bookings.tsx:36 | the kept elements are exactly those passing the test, in order |
| Common.SubsequenceReflexive | frontend/event-frontend/src/interfaces/public/Home.tsx:155 | a list is an ordered selection of itself |
| Common.FilterAllKept | frontend/event-frontend/src/interfaces/management/Bookings.tsx:36 | a filter every element passes returns the list |
| Common.FilterPartition | frontend/event-frontend/src/interfaces/management/Analytics.tsx:25-27 | a test and its negation keep all elements between them |
| Common.FilterCongruent | frontend/event-frontend/src/interfaces/public/Home.tsx:157-161 | tests agreeing on the list keep the same elements |

## Left out

- Network and SDK I/O (`fetch`, the `useFrappe*` hooks, `frappe.get_doc`, `frappe.db.count`, `insert`, `commit`, `mutate`): their results are parameters.
- The order in which concurrent requests and effects settle, and the race between counting confirmed bookings and saving a new one: every handler runs to completion.
- `localStorage` persistence of the store.
- Date rendering with JavaScript `Date` (`formatDate`, `fmtDate`) and the clock: the current timestamp is a parameter.
- Email address validation (`frappe.utils.validate_email_address`, zod `.email()`): an abstract predicate `validEmail`.
- JSX rendering, styling, routing and config-only files; the management Venues page and the `event_booking.js` desk script are not part of this model.
- Text.Lower: lowercases ASCII letters only, and string lengths count code points rather than UTF-16 units.
- PublicBookingModal.AcceptedFormAgainstServer and PublicBookingModal.ElevenDigitPhoneRefusedByServer: zod counts a phone's length in UTF-16 units and Python's `len` in code points; both are code points here, so the two agree only for phones without characters outside the Basic Multilingual Plane.
- Analytics.Rate: exact rational rounding in place of `Math.round` on a float, so float error near a half is not modelled.
- Fractional and NaN ticket counts and capacities: numbers are integers, and an empty number input is `None`.
- Home.VenueLabel and Dashboard.VenueCell: an event without a venue does not look up the key "undefined" in the venue map, and null entries in venue lists are not modelled.
- EventsPage.Page.HandleSubmit, PublicBookingModal.Dialog.Submit and BookingModal.Modal.Submit: the browser's own form validation is not modelled. The event name is `required`, capacity has `min={0}`, the public email input has `type="email"` and the ticket inputs have `min`/`max`, with no `noValidate`. So the browser stops a submit these attributes refuse before any handler runs. The model lets such a submit reach the handler: the events page then sends a request the browser would block, and the booking dialogs show the zod message where the browser would show its own.
- CustomEvent.AddEvent and Venue.AddVenue: saving is equated with `validate` passing; Frappe's own mandatory-field, link and permission checks on `insert` are not modelled.
- EventsPage.ZeroCapacityCreateRefused and EventsPage.MissingDateCreateRaises: these assume the method path the page posts to (`event_management.custom_event.add_event`, Events.tsx line 46) resolves to `add_event` in `custom_event.py`; the model does not decide how Frappe resolves that dotted path.
- AppStore.Merge: a key passed explicitly as `undefined` (which overwrites with `undefined` in JavaScript) is not modelled.
- BookingModal.Modal.Submit and PublicBookingModal.Dialog.Submit: closing is modelled as the parent hiding the dialog; `isSubmitting` and `loading` button disabling are not modelled.
- Frappe's coercion of field types on save (a None capacity becoming 0 for an Int field) is not modelled: a missing number stays `None`.

## Findings

| source | as written | input that shows it | evidently intended | confidence | as-written member | corrected member |
|---|---|---|---|---|---|---|
| apps/event_management/event_management/event_management/doctype/event_booking/event_booking.py:26-28 | the capacity check adds the requested tickets to the number of confirmed booking records | capacity 10, one confirmed booking of 10 tickets, a new confirmed booking of 5 tickets: it passes and 15 tickets are confirmed | confirmed tickets plus requested tickets must fit the capacity | medium, not executed | EventBooking.RecordCountAllowsOverbooking | EventBooking.NoOverbooking |
