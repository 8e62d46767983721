/** The backend's `Event Booking` document: the checks its `validate` hook
    runs before every save. The two database reads it makes become inputs:
    the stored `Custom Event` documents by docname, and the stored bookings
    that `frappe.db.count` looks through. */
module EventBooking {
  import opened Common
  import opened Records
  import CustomEvent

  const TicketsMessage := "Number of tickets must be greater than 0"
  const EmailMessage := "Please enter a valid email address"
  const PhoneMessage := "Phone number must be exactly 10 digits"
  const NotApprovedMessage := "Cannot book tickets for an event that is not approved"
  const CapacityMessage := "Not enough capacity available for this event"
  const StatusMessage := "Invalid status"

  /** The only phone length the backend accepts. */
  const PhoneLength := 10

  /** The statuses a booking may have. */
  predicate IsBookingStatus(s: string) {
    s == "Pending" || s == "Confirmed" || s == "Cancelled"
  }

  /** A stored booking that `frappe.db.count` counts for `event`. */
  predicate IsConfirmedFor(b: BookingRecord, event: string) {
    b.event == Some(event) && b.status == Some("Confirmed")
  }

  /** `frappe.db.count("Event Booking", {"event": event, "status": "Confirmed"})`:
      the number of confirmed booking records of the event, whatever their
      ticket counts. */
  function ConfirmedCount(stored: seq<BookingRecord>, event: string): (n: nat)
    ensures n <= |stored|
    ensures n == 0 <==> forall i :: 0 <= i < |stored| ==> !IsConfirmedFor(stored[i], event)
  {
    if stored == [] then 0
    else (if IsConfirmedFor(stored[0], event) then 1 else 0) + ConfirmedCount(stored[1..], event)
  }

  /** The count looks at each booking's event and status only: two stores
      that differ in nothing else (ticket counts, attendees) give the same count. */
  lemma {:induction false} CountIgnoresTickets(stored: seq<BookingRecord>, other: seq<BookingRecord>, event: string)
    requires |stored| == |other|
    requires forall i :: 0 <= i < |stored| ==> stored[i].event == other[i].event && stored[i].status == other[i].status
    ensures ConfirmedCount(stored, event) == ConfirmedCount(other, event)
  {
    if stored != [] {
      CountIgnoresTickets(stored[1..], other[1..], event);
    }
  }

  predicate TicketsPositive(d: BookingRecord) {
    d.numberOfTickets.None? || d.numberOfTickets.value > 0
  }

  predicate EmailAcceptable(d: BookingRecord, validEmail: string -> bool) {
    Truthy(d.email) ==> validEmail(d.email.value)
  }

  predicate PhoneAcceptable(d: BookingRecord) {
    Truthy(d.phone) ==> |d.phone.value| == PhoneLength
  }

  predicate StatusAllowed(d: BookingRecord) {
    Truthy(d.status) ==> IsBookingStatus(d.status.value)
  }

  /** The three field checks that come before the event lookup. */
  predicate FieldsAcceptable(d: BookingRecord, validEmail: string -> bool) {
    TicketsPositive(d) && EmailAcceptable(d, validEmail) && PhoneAcceptable(d)
  }

  /** The event check passes: no event is linked, or it exists, is approved,
      and the `booked` quantity plus the requested tickets fit its capacity. */
  predicate EventBookable(d: BookingRecord, events: map<string, EventRecord>, booked: int) {
    Truthy(d.event) ==>
      var e := d.event.value;
      && e in events
      && events[e].status == Some("Approved")
      && d.numberOfTickets.Some? && events[e].capacity.Some?
      && booked + d.numberOfTickets.value <= events[e].capacity.value
  }

  /** The sequence of checks in `EventBooking.validate`, given how much of the
      event is already taken (`booked`). A missing event document raises
      DoesNotExist; adding a missing ticket count or comparing with a missing
      capacity raises TypeError. */
  function ValidateAgainst(d: BookingRecord, validEmail: string -> bool, events: map<string, EventRecord>, booked: int): (r: Verdict)
    ensures r == Pass <==> FieldsAcceptable(d, validEmail) && EventBookable(d, events, booked) && StatusAllowed(d)
    ensures !TicketsPositive(d) ==> r == Fail(TicketsMessage)
    ensures TicketsPositive(d) && !EmailAcceptable(d, validEmail) ==> r == Fail(EmailMessage)
    ensures TicketsPositive(d) && EmailAcceptable(d, validEmail) && !PhoneAcceptable(d) ==> r == Fail(PhoneMessage)
    ensures FieldsAcceptable(d, validEmail) && Truthy(d.event) ==>
      var e := d.event.value;
      && (e !in events ==> r == Raise(DoesNotExist))
      && (e in events && events[e].status != Some("Approved") ==> r == Fail(NotApprovedMessage))
      && (e in events && events[e].status == Some("Approved") && (d.numberOfTickets.None? || events[e].capacity.None?) ==>
            r == Raise(TypeError))
      && (e in events && events[e].status == Some("Approved") && d.numberOfTickets.Some? && events[e].capacity.Some?
          && booked + d.numberOfTickets.value > events[e].capacity.value
          ==> r == Fail(CapacityMessage))
    ensures FieldsAcceptable(d, validEmail) && EventBookable(d, events, booked) && !StatusAllowed(d) ==>
      r == Fail(StatusMessage)
  {
    if d.numberOfTickets.Some? && d.numberOfTickets.value <= 0 then
      Fail(TicketsMessage)
    else if Truthy(d.email) && !validEmail(d.email.value) then
      Fail(EmailMessage)
    else if Truthy(d.phone) && |d.phone.value| != 10 then
      Fail(PhoneMessage)
    else if Truthy(d.event) && d.event.value !in events then
      Raise(DoesNotExist)
    else if Truthy(d.event) && events[d.event.value].status != Some("Approved") then
      Fail(NotApprovedMessage)
    else if Truthy(d.event) && (d.numberOfTickets.None? || events[d.event.value].capacity.None?) then
      Raise(TypeError)
    else if Truthy(d.event) && booked + d.numberOfTickets.value > events[d.event.value].capacity.value then
      Fail(CapacityMessage)
    else if Truthy(d.status) && d.status.value !in ["Pending", "Confirmed", "Cancelled"] then
      Fail(StatusMessage)
    else
      Pass
  }

  /** `EventBooking.validate` as written: what is already taken is the number
      of confirmed booking records of the event. */
  function Validate(d: BookingRecord, validEmail: string -> bool, events: map<string, EventRecord>,
                    stored: seq<BookingRecord>): (r: Verdict)
    ensures Truthy(d.event) ==> r == ValidateAgainst(d, validEmail, events, ConfirmedCount(stored, d.event.value))
    ensures !Truthy(d.event) ==> (r == Pass <==> FieldsAcceptable(d, validEmail) && StatusAllowed(d))
    ensures FieldsAcceptable(d, validEmail) && Truthy(d.event) && d.event.value in events ==>
      var ev := events[d.event.value];
      ev.status == Some("Approved") && d.numberOfTickets.Some? && ev.capacity.Some? ==>
        (r == Fail(CapacityMessage) <==>
         ConfirmedCount(stored, d.event.value) + d.numberOfTickets.value > ev.capacity.value)
  {
    ValidateAgainst(d, validEmail, events, if Truthy(d.event) then ConfirmedCount(stored, d.event.value) else 0)
  }

  /** Filling the event exactly is allowed: when the confirmed records plus the
      requested tickets equal the capacity, the capacity check passes. */
  lemma ExactFitAccepted(d: BookingRecord, validEmail: string -> bool, events: map<string, EventRecord>,
                         stored: seq<BookingRecord>)
    requires FieldsAcceptable(d, validEmail) && StatusAllowed(d) && Truthy(d.event)
    requires d.event.value in events && events[d.event.value].status == Some("Approved")
    requires d.numberOfTickets.Some? && events[d.event.value].capacity.Some?
    requires ConfirmedCount(stored, d.event.value) + d.numberOfTickets.value == events[d.event.value].capacity.value
    ensures Validate(d, validEmail, events, stored) == Pass
  {
  }

  /** An event straight out of `add_event` is a Draft, so no booking for it
      gets past `validate` until someone approves it. */
  lemma FreshlyAddedEventNotBookable(d: BookingRecord, validEmail: string -> bool, events: map<string, EventRecord>,
                                     stored: seq<BookingRecord>, p: EventPayload)
    requires p.eventName.Some? && p.startDate.Some? && p.endDate.Some?
    requires Truthy(d.event) && d.event.value in events && events[d.event.value] == CustomEvent.NewEventDocument(p)
    ensures Validate(d, validEmail, events, stored) != Pass
    ensures FieldsAcceptable(d, validEmail) ==> Validate(d, validEmail, events, stored) == Fail(NotApprovedMessage)
  {
  }

  // ---------------------------------------------------------------------
  // The capacity check counts records, not tickets.
  // ---------------------------------------------------------------------

  /** The tickets held by the confirmed bookings of `event`, a missing count
      taken as 0. */
  function ConfirmedTickets(stored: seq<BookingRecord>, event: string): (n: int)
    ensures (forall i :: 0 <= i < |stored| ==> stored[i].numberOfTickets.GetOr(0) >= 0) ==> n >= 0
  {
    if stored == [] then 0
    else (if IsConfirmedFor(stored[0], event) then stored[0].numberOfTickets.GetOr(0) else 0)
         + ConfirmedTickets(stored[1..], event)
  }

  /** Adding one booking to the store adds its tickets when it is a
      confirmed booking of the event. */
  lemma {:induction false} ConfirmedTicketsAppend(stored: seq<BookingRecord>, b: BookingRecord, event: string)
    ensures ConfirmedTickets(stored + [b], event) ==
            ConfirmedTickets(stored, event) + (if IsConfirmedFor(b, event) then b.numberOfTickets.GetOr(0) else 0)
  {
    if stored != [] {
      assert (stored + [b])[1..] == stored[1..] + [b];
      ConfirmedTicketsAppend(stored[1..], b, event);
    }
  }

  /** As written, the check lets an event be oversold: with capacity 10 and
      one confirmed booking of 10 tickets, a confirmed booking of 5 more
      passes `validate`, leaving 15 tickets confirmed. */
  lemma RecordCountAllowsOverbooking(validEmail: string -> bool)
    ensures
      var ev := EventRecord(Some("EV-1"), Some("Gala"), None, None, None, Some("Hall"), Some(10), None, Some("Approved"));
      var first := BookingRecord(Some("B-1"), Some("EV-1"), Some("Ann"), None, None, Some(10), None, Some("Confirmed"));
      var next := BookingRecord(None, Some("EV-1"), Some("Bob"), None, None, Some(5), None, Some("Confirmed"));
      && Validate(next, validEmail, map["EV-1" := ev], [first]) == Pass
      && ConfirmedTickets([first] + [next], "EV-1") == 15 > ev.capacity.value
  {
    var ev := EventRecord(Some("EV-1"), Some("Gala"), None, None, None, Some("Hall"), Some(10), None, Some("Approved"));
    var first := BookingRecord(Some("B-1"), Some("EV-1"), Some("Ann"), None, None, Some(10), None, Some("Confirmed"));
    var next := BookingRecord(None, Some("EV-1"), Some("Bob"), None, None, Some(5), None, Some("Confirmed"));
    assert ConfirmedCount([first], "EV-1") == 1;
    ConfirmedTicketsAppend([first], next, "EV-1");
  }

  /** The evidently intended check: confirmed tickets, not records, plus the
      requested tickets must fit the capacity. */
  function ValidateByTickets(d: BookingRecord, validEmail: string -> bool, events: map<string, EventRecord>,
                             stored: seq<BookingRecord>): (r: Verdict)
    ensures r == Pass ==> FieldsAcceptable(d, validEmail) && StatusAllowed(d)
    ensures Truthy(d.event) ==> r == ValidateAgainst(d, validEmail, events, ConfirmedTickets(stored, d.event.value))
  {
    ValidateAgainst(d, validEmail, events, if Truthy(d.event) then ConfirmedTickets(stored, d.event.value) else 0)
  }

  /** With the corrected check, saving a confirmed booking never takes the
      event's confirmed tickets past its capacity. */
  lemma NoOverbooking(d: BookingRecord, validEmail: string -> bool, events: map<string, EventRecord>,
                      stored: seq<BookingRecord>)
    requires ValidateByTickets(d, validEmail, events, stored) == Pass
    requires Truthy(d.event) && d.status == Some("Confirmed")
    ensures d.event.value in events && events[d.event.value].capacity.Some?
    ensures ConfirmedTickets(stored + [d], d.event.value) <= events[d.event.value].capacity.value
  {
    ConfirmedTicketsAppend(stored, d, d.event.value);
  }
}
