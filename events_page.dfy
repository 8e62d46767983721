/** The management page for events: the add/edit modal and its form, the
    payload the form is turned into, the choice between creating and updating,
    and deletion. */
module EventsPage {
  import opened Common
  import opened Records
  import CustomEvent

  const SaveFailedAlert := "Failed to save event. See console for details."
  const DeleteFailedAlert := "Failed to delete event"

  /** The modal's form. A number input gives `Number(value)`, so an emptied
      capacity is 0. */
  datatype EventForm = EventForm(
    customEventName: string,
    startDate: string,
    endDate: string,
    venue: string,
    capacity: int,
    description: string)

  /** The form of a new event: empty text and capacity 0. */
  const EmptyForm := EventForm("", "", "", "", 0, "")

  /** The form `openModal(row)` fills in: the name is
      `custom_event_name ?? event_name ?? ""`, a missing text field is empty
      and a missing capacity is 0. */
  function FormFor(row: EventRecord): (f: EventForm)
    ensures f.customEventName == row.customEventName.OrElse(row.eventName).GetOr("")
    ensures row.startDate.Some? ==> f.startDate == row.startDate.value
    ensures row.startDate.None? ==> f.startDate == ""
    ensures row.endDate.Some? ==> f.endDate == row.endDate.value
    ensures row.endDate.None? ==> f.endDate == ""
    ensures row.venue.Some? ==> f.venue == row.venue.value
    ensures row.venue.None? ==> f.venue == ""
    ensures row.capacity.Some? ==> f.capacity == row.capacity.value
    ensures row.capacity.None? ==> f.capacity == 0
    ensures row.description.Some? ==> f.description == row.description.value
    ensures row.description.None? ==> f.description == ""
  {
    EventForm(
      customEventName := row.customEventName.OrElse(row.eventName).GetOr(""),
      startDate := row.startDate.GetOr(""),
      endDate := row.endDate.GetOr(""),
      venue := row.venue.GetOr(""),
      capacity := row.capacity.GetOr(0),
      description := row.description.GetOr(""))
  }

  /** `value || undefined` on a text field. */
  function TextOrOmitted(s: string): (o: Option<string>)
    ensures o.None? <==> s == ""
    ensures o.Some? ==> o.value == s
  {
    if s == "" then None else Some(s)
  }

  /** The body `handleSubmit` sends: every falsy value (an empty string, a
      capacity of 0) is left out, every other value is sent as it is. */
  function Payload(f: EventForm): (p: EventPayload)
    ensures p.eventName == TextOrOmitted(f.customEventName)
    ensures p.startDate == TextOrOmitted(f.startDate) && p.endDate == TextOrOmitted(f.endDate)
    ensures p.venue == TextOrOmitted(f.venue) && p.description == TextOrOmitted(f.description)
    ensures p.capacity.None? <==> f.capacity == 0
    ensures p.capacity.Some? ==> p.capacity.value == f.capacity
  {
    EventPayload(
      eventName := TextOrOmitted(f.customEventName),
      startDate := TextOrOmitted(f.startDate),
      endDate := TextOrOmitted(f.endDate),
      venue := TextOrOmitted(f.venue),
      capacity := if f.capacity == 0 then None else Some(f.capacity),
      description := TextOrOmitted(f.description))
  }

  /** Editing a row whose fields are all set and truthy and sending the form
      unchanged sends the row's own values back. */
  lemma UnchangedFormSendsRow(row: EventRecord)
    requires Truthy(row.customEventName.OrElse(row.eventName))
    requires Truthy(row.startDate) && Truthy(row.endDate) && Truthy(row.venue) && Truthy(row.description)
    requires TruthyInt(row.capacity)
    ensures Payload(FormFor(row)) == EventPayload(row.customEventName.OrElse(row.eventName), row.startDate, row.endDate,
                                                  row.venue, row.capacity, row.description)
  {
  }

  /** A request the page sends to the backend. */
  datatype Request =
    | Create(payload: EventPayload)                   // the `add_event` method
    | Update(docname: string, payload: EventPayload)  // `updateDoc("Custom Event", ...)`
    | Remove(docname: string)
    | Refresh                                         // `mutate()`

  /** The request `handleSubmit` makes: an update when editing a row with a
      truthy name, otherwise a create. */
  function SubmitRequest(editing: Option<EventRecord>, f: EventForm): (r: Request)
    ensures r.Update? <==> editing.Some? && Truthy(editing.value.name)
    ensures r.Update? ==> r.docname == editing.value.name.value
    ensures r.Create? || r.Update?
    ensures r.payload == Payload(f)
  {
    if editing.Some? && Truthy(editing.value.name) then Update(editing.value.name.value, Payload(f))
    else Create(Payload(f))
  }

  /** A create from a form whose capacity is 0 never saves: `add_event`
      stores capacity 0, which the server's `validate` refuses, unless a
      missing date stops the call first. */
  lemma ZeroCapacityCreateRefused(f: EventForm)
    requires f.capacity == 0
    ensures CustomEvent.AddEvent(Payload(f)) != Pass
    ensures CustomEvent.AddEvent(Payload(f)) == Fail(CustomEvent.CapacityMessage)
         || CustomEvent.AddEvent(Payload(f)) == Raise(TypeError)
  {
  }

  /** A create with an empty date field never reaches `validate`: the
      omitted argument makes `add_event` raise. */
  lemma MissingDateCreateRaises(f: EventForm)
    requires f.startDate == "" || f.endDate == ""
    ensures CustomEvent.AddEvent(Payload(f)) == Raise(TypeError)
  {
  }

  /** The page's state. */
  class Page {
    var isModalOpen: bool
    var editing: Option<EventRecord>
    var form: EventForm
    var requests: seq<Request>
    var alerts: seq<string>

    constructor ()
      ensures !isModalOpen && editing.None? && form == EmptyForm && requests == [] && alerts == []
    {
      isModalOpen := false;
      editing := None;
      form := EmptyForm;
      requests := [];
      alerts := [];
    }

    /** `openModal(row)` edits that row with its values; `openModal()` starts
        a new event from an empty form. Either way the modal opens. */
    method OpenModal(row: Option<EventRecord>)
      modifies this
      ensures isModalOpen && editing == row
      ensures row.Some? ==> form == FormFor(row.value)
      ensures row.None? ==> form == EmptyForm
      ensures requests == old(requests) && alerts == old(alerts)
    {
      if row.Some? {
        editing := row;
        form := FormFor(row.value);
      } else {
        editing := None;
        form := EmptyForm;
      }
      isModalOpen := true;
    }

    /** `closeModal` closes and forgets the row being edited; the form keeps
        its values until the modal is opened again. */
    method CloseModal()
      modifies this
      ensures !isModalOpen && editing.None?
      ensures form == old(form) && requests == old(requests) && alerts == old(alerts)
    {
      isModalOpen := false;
      editing := None;
    }

    /** The user edits the form. */
    method Edit(f: EventForm)
      modifies this
      ensures form == f
      ensures isModalOpen == old(isModalOpen) && editing == old(editing)
      ensures requests == old(requests) && alerts == old(alerts)
    {
      form := f;
    }

    /** `handleSubmit`: one create or update; after a success the list is
        refreshed and the modal closed, after a failure an alert is shown and
        the modal stays as it was, form included. */
    method HandleSubmit(succeeded: bool)
      modifies this
      ensures form == old(form)
      ensures succeeded ==>
        && requests == old(requests) + [SubmitRequest(old(editing), old(form)), Refresh]
        && !isModalOpen && editing.None? && alerts == old(alerts)
      ensures !succeeded ==>
        && requests == old(requests) + [SubmitRequest(old(editing), old(form))]
        && isModalOpen == old(isModalOpen) && editing == old(editing)
        && alerts == old(alerts) + [SaveFailedAlert]
    {
      requests := requests + [SubmitRequest(editing, form)];
      if succeeded {
        requests := requests + [Refresh];
        CloseModal();
      } else {
        alerts := alerts + [SaveFailedAlert];
      }
    }

    /** `handleDelete`: nothing without a docname or without the user's
        confirmation; otherwise one delete, then a refresh or an alert. */
    method HandleDelete(docname: Option<string>, confirmed: bool, succeeded: bool)
      modifies this
      ensures isModalOpen == old(isModalOpen) && editing == old(editing) && form == old(form)
      ensures !Truthy(docname) || !confirmed ==> requests == old(requests) && alerts == old(alerts)
      ensures Truthy(docname) && confirmed && succeeded ==>
        requests == old(requests) + [Remove(docname.value), Refresh] && alerts == old(alerts)
      ensures Truthy(docname) && confirmed && !succeeded ==>
        requests == old(requests) + [Remove(docname.value)] && alerts == old(alerts) + [DeleteFailedAlert]
    {
      if !Truthy(docname) || !confirmed {
        return;
      }
      requests := requests + [Remove(docname.value)];
      if succeeded {
        requests := requests + [Refresh];
      } else {
        alerts := alerts + [DeleteFailedAlert];
      }
    }
  }
}
