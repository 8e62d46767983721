/** The backend's `Custom Event` document: the checks its `validate` hook runs
    before every save, and the whitelisted `add_event` method the management
    page calls to create one. */
module CustomEvent {
  import opened Common
  import opened Text
  import opened Records

  const CapacityMessage := "Capacity must be greater than 0"
  const DateOrderMessage := "End Date must be after Start Date"
  const StatusMessage := "Status must be Draft, Approved, or Rejected"
  const VenueMessage := "Please select a Venue"

  /** The statuses an event may have. */
  predicate IsEventStatus(s: string) {
    s == "Draft" || s == "Approved" || s == "Rejected"
  }

  /** A capacity, when one is set, is positive. */
  predicate CapacityPositive(d: EventRecord) {
    d.capacity.None? || d.capacity.value > 0
  }

  /** When both dates are set, the end does not come before the start. */
  predicate DatesOrdered(d: EventRecord) {
    Truthy(d.startDate) && Truthy(d.endDate) ==> !Less(d.endDate.value, d.startDate.value)
  }

  /** A status, when one is set, is one of the three event statuses. */
  predicate StatusAllowed(d: EventRecord) {
    Truthy(d.status) ==> IsEventStatus(d.status.value)
  }

  /** A venue is linked. */
  predicate VenueSelected(d: EventRecord) {
    Truthy(d.venue)
  }

  /** `CustomEvent.validate`: the checks run in the order capacity, dates,
      status, venue, and the first one that fails is reported. */
  function Validate(d: EventRecord): (r: Verdict)
    ensures r == Pass <==> CapacityPositive(d) && DatesOrdered(d) && StatusAllowed(d) && VenueSelected(d)
    ensures !CapacityPositive(d) ==> r == Fail(CapacityMessage)
    ensures CapacityPositive(d) && !DatesOrdered(d) ==> r == Fail(DateOrderMessage)
    ensures CapacityPositive(d) && DatesOrdered(d) && !StatusAllowed(d) ==> r == Fail(StatusMessage)
    ensures CapacityPositive(d) && DatesOrdered(d) && StatusAllowed(d) && !VenueSelected(d) ==> r == Fail(VenueMessage)
  {
    if d.capacity.Some? && d.capacity.value <= 0 then
      Fail(CapacityMessage)
    else if Truthy(d.startDate) && Truthy(d.endDate) && Less(d.endDate.value, d.startDate.value) then
      Fail(DateOrderMessage)
    else if Truthy(d.status) && d.status.value !in ["Draft", "Approved", "Rejected"] then
      Fail(StatusMessage)
    else if !Truthy(d.venue) then
      Fail(VenueMessage)
    else
      Pass
  }

  /** An event that ends on the day it starts passes the date check. */
  lemma SameDayEventOrdered(d: EventRecord)
    requires d.startDate == d.endDate
    ensures DatesOrdered(d)
  {
    if d.startDate.Some? {
      LessIrreflexive(d.startDate.value);
    }
  }

  /** An event that ends before it starts fails the date check, and is
      reported with the date message unless its capacity is already wrong. */
  lemma EndBeforeStartRejected(d: EventRecord, start: string, end: string)
    requires d.startDate == Some(start) && d.endDate == Some(end)
    requires end != "" && Less(end, start)
    requires CapacityPositive(d)
    ensures Validate(d) == Fail(DateOrderMessage)
  {
    assert start != "" by {
      assert !Less(end, "");
    }
  }

  /** The document `add_event` builds: `event_name` is stored as
      `custom_event_name`, the status is always Draft and a missing or zero
      capacity becomes 0 (`capacity or 0`). Requires the three positional
      arguments Python insists on. */
  function NewEventDocument(p: EventPayload): (d: EventRecord)
    requires p.eventName.Some? && p.startDate.Some? && p.endDate.Some?
    ensures d.customEventName == p.eventName && d.eventName.None?
    ensures d.startDate == p.startDate && d.endDate == p.endDate
    ensures d.venue == p.venue && d.description == p.description
    ensures d.status == Some("Draft")
    ensures d.capacity == Some(p.capacity.GetOr(0))
  {
    EventRecord(
      name := None,
      customEventName := p.eventName,
      eventName := None,
      startDate := p.startDate,
      endDate := p.endDate,
      venue := p.venue,
      capacity := Some(if TruthyInt(p.capacity) then p.capacity.value else 0),
      description := p.description,
      status := Some("Draft"))
  }

  /** `add_event` followed by `doc.insert()`, which runs `validate`: a call
      missing one of the positional arguments raises TypeError; otherwise the
      document is saved exactly when its capacity is positive, its dates are
      in order and a venue is given. */
  function AddEvent(p: EventPayload): (r: Verdict)
    ensures p.eventName.None? || p.startDate.None? || p.endDate.None? <==> r == Raise(TypeError)
    ensures r == Pass <==>
      && p.eventName.Some? && p.startDate.Some? && p.endDate.Some?
      && p.capacity.Some? && p.capacity.value > 0
      && DatesOrdered(NewEventDocument(p))
      && Truthy(p.venue)
    ensures p.eventName.Some? && p.startDate.Some? && p.endDate.Some? && !TruthyInt(p.capacity) ==>
      r == Fail(CapacityMessage)
  {
    if p.eventName.None? || p.startDate.None? || p.endDate.None? then
      Raise(TypeError)
    else
      Validate(NewEventDocument(p))
  }
}
