/** The three document kinds the backend stores and the pages display. Every
    field may be missing (`None`): the records arrive as untyped JSON on the
    client and as documents with nullable fields on the server. */
module Records {
  import opened Common

  /** A `Custom Event` document, or a row of an event list. Dates are ISO
      `YYYY-MM-DD` strings. */
  datatype EventRecord = EventRecord(
    name: Option<string>,            // the backend-assigned docname
    customEventName: Option<string>,
    eventName: Option<string>,
    startDate: Option<string>,
    endDate: Option<string>,
    venue: Option<string>,           // docname of a Venue
    capacity: Option<int>,
    description: Option<string>,
    status: Option<string>)

  /** A `Venue` document, or a row of a venue list. */
  datatype VenueRecord = VenueRecord(
    name: Option<string>,
    venueName: Option<string>,
    address: Option<string>,
    capacity: Option<int>,
    email: Option<string>,
    phone: Option<string>)

  /** An `Event Booking` document, or a row of a booking list. */
  datatype BookingRecord = BookingRecord(
    name: Option<string>,
    event: Option<string>,           // docname of a Custom Event
    attendeeName: Option<string>,
    email: Option<string>,
    phone: Option<string>,
    numberOfTickets: Option<int>,
    bookingDate: Option<string>,
    status: Option<string>)

  /** The body the management page sends to create (`add_event`) or update an
      event: a field is `None` when the page leaves it out of the JSON. */
  datatype EventPayload = EventPayload(
    eventName: Option<string>,
    startDate: Option<string>,
    endDate: Option<string>,
    venue: Option<string>,
    capacity: Option<int>,
    description: Option<string>)
}
