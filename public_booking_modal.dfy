/** The public site's booking dialog: its zod schema, its default values, the
    booking it creates, and what a submit does to the dialog. */
module PublicBookingModal {
  import opened Common
  import opened Records
  import Zod
  import EventBooking

  const NameMessage := "Name must be at least 2 characters"
  const EmailMessage := "Invalid email address"
  const PhoneMessage := "Phone number must be at least 10 digits"
  const MinTicketsMessage := "At least 1 ticket required"
  const MaxTicketsMessage := "Maximum 10 tickets allowed"
  const SuccessAlert := "Booking successful!"
  const FailureAlert := "Booking failed. Please try again."

  const MinNameLength := 2
  const MinPhoneLength := 10
  const MinTickets := 1
  const MaxTickets := 10

  /** The form's values; `numberOfTickets` is `None` when the number input
      is empty (NaN). */
  datatype BookingForm = BookingForm(attendeeName: string, email: string, phone: string, numberOfTickets: Option<int>)

  /** The message shown under each field, if any. */
  datatype FormErrors = FormErrors(attendeeName: Option<string>, email: Option<string>, phone: Option<string>,
                                   numberOfTickets: Option<string>)
  {
    predicate IsClean() {
      attendeeName.None? && email.None? && phone.None? && numberOfTickets.None?
    }
  }

  const NoErrors := FormErrors(None, None, None, None)

  /** The form's starting values: empty text and one ticket. */
  const Defaults := BookingForm("", "", "", Some(1))

  /** `bookingSchema`: every field is checked and each failing field gets its
      message. */
  function Check(f: BookingForm, validEmail: string -> bool): (e: FormErrors)
    ensures e.attendeeName.None? <==> |f.attendeeName| >= MinNameLength
    ensures e.email.None? <==> validEmail(f.email)
    ensures e.phone.None? <==> |f.phone| >= MinPhoneLength
    ensures e.numberOfTickets.None? <==> f.numberOfTickets.Some? && MinTickets <= f.numberOfTickets.value <= MaxTickets
    ensures e.attendeeName.Some? ==> e.attendeeName.value == NameMessage
    ensures e.email.Some? ==> e.email.value == EmailMessage
    ensures e.phone.Some? ==> e.phone.value == PhoneMessage
    ensures f.numberOfTickets.None? ==> e.numberOfTickets == Some(Zod.NotANumberMessage)
    ensures f.numberOfTickets.Some? && f.numberOfTickets.value < MinTickets ==> e.numberOfTickets == Some(MinTicketsMessage)
    ensures f.numberOfTickets.Some? && f.numberOfTickets.value > MaxTickets ==> e.numberOfTickets == Some(MaxTicketsMessage)
  {
    FormErrors(
      Zod.StringMin(f.attendeeName, 2, NameMessage),
      Zod.Email(f.email, validEmail, EmailMessage),
      Zod.StringMin(f.phone, 10, PhoneMessage),
      Zod.NumberRange(f.numberOfTickets, 1, 10, MinTicketsMessage, MaxTicketsMessage))
  }

  /** The ticket bounds are inclusive: 1 and 10 pass, 0 and 11 fail with
      their own messages. */
  lemma TicketBounds(f: BookingForm, validEmail: string -> bool)
    ensures f.numberOfTickets == Some(1) || f.numberOfTickets == Some(10) ==> Check(f, validEmail).numberOfTickets.None?
    ensures f.numberOfTickets == Some(0) ==> Check(f, validEmail).numberOfTickets == Some(MinTicketsMessage)
    ensures f.numberOfTickets == Some(11) ==> Check(f, validEmail).numberOfTickets == Some(MaxTicketsMessage)
  {
  }

  /** The defaults satisfy the ticket rule but not the name or phone rules, so
      an untouched form is never submitted. */
  lemma DefaultsNotSubmittable(validEmail: string -> bool)
    ensures Check(Defaults, validEmail).numberOfTickets.None?
    ensures Check(Defaults, validEmail).attendeeName == Some(NameMessage)
    ensures Check(Defaults, validEmail).phone == Some(PhoneMessage)
    ensures !Check(Defaults, validEmail).IsClean()
  {
  }

  /** `new Date().toISOString().split('T')[0]`: the text before the first `T`. */
  function DatePart(iso: string): (r: string)
    ensures r <= iso
    ensures 'T' !in r
    ensures r == iso || iso[|r|] == 'T'
  {
    if iso == [] || iso[0] == 'T' then [] else [iso[0]] + DatePart(iso[1..])
  }

  /** For a timestamp of the form `YYYY-MM-DDTHH:MM:SS.sssZ` the booking date
      is its first ten characters. */
  lemma DatePartOfTimestamp(iso: string)
    requires |iso| > 10 && iso[10] == 'T'
    requires forall i :: 0 <= i < 10 ==> iso[i] != 'T'
    ensures DatePart(iso) == iso[..10]
  {
  }

  /** The document `onSubmit` asks the backend to create: the event is the
      dialog's event, the booking is Confirmed at once, and it is dated with
      the day part of the current timestamp `now`. */
  function Payload(eventDocname: string, f: BookingForm, now: string): (b: BookingRecord)
    requires f.numberOfTickets.Some?
    ensures b.event == Some(eventDocname) && b.status == Some("Confirmed")
    ensures b.bookingDate == Some(DatePart(now))
    ensures b.attendeeName == Some(f.attendeeName) && b.email == Some(f.email) && b.phone == Some(f.phone)
    ensures b.numberOfTickets == f.numberOfTickets && b.name.None?
  {
    BookingRecord(
      name := None,
      event := Some(eventDocname),
      attendeeName := Some(f.attendeeName),
      email := Some(f.email),
      phone := Some(f.phone),
      numberOfTickets := f.numberOfTickets,
      bookingDate := Some(DatePart(now)),
      status := Some("Confirmed"))
  }

  /** A booking the form accepts always passes the server's ticket and status
      checks, but passes its phone check only when the phone has exactly 10
      characters: the form asks for at least 10, the server for exactly 10. */
  lemma AcceptedFormAgainstServer(eventDocname: string, f: BookingForm, now: string, validEmail: string -> bool)
    requires Check(f, validEmail).IsClean()
    ensures f.numberOfTickets.Some?
    ensures EventBooking.TicketsPositive(Payload(eventDocname, f, now))
    ensures EventBooking.StatusAllowed(Payload(eventDocname, f, now))
    ensures EventBooking.PhoneAcceptable(Payload(eventDocname, f, now)) <==> |f.phone| == EventBooking.PhoneLength
  {
  }

  /** An eleven-character phone gets past the form and is refused by the
      server with the phone message. */
  lemma ElevenDigitPhoneRefusedByServer(eventDocname: string, f: BookingForm, now: string, validEmail: string -> bool,
                                        serverEmail: string -> bool, events: map<string, EventRecord>,
                                        stored: seq<BookingRecord>)
    requires Check(f, validEmail).IsClean() && |f.phone| == 11
    requires serverEmail(f.email)
    ensures Check(f, validEmail).phone.None?
    ensures EventBooking.Validate(Payload(eventDocname, f, now), serverEmail, events, stored) == Fail(EventBooking.PhoneMessage)
  {
  }

  /** Something the dialog does, in the order it does it. */
  datatype Effect = Created(booking: BookingRecord) | Alert(message: string) | Closed | Reset

  /** The dialog's state: whether its parent shows it, the form's values, the
      field errors on display and the effects so far. */
  class Dialog {
    var isOpen: bool
    var form: BookingForm
    var errors: FormErrors
    var effects: seq<Effect>

    constructor (isOpen: bool)
      ensures this.isOpen == isOpen && form == Defaults && errors == NoErrors && effects == []
    {
      this.isOpen := isOpen;
      form := Defaults;
      errors := NoErrors;
      effects := [];
    }

    /** The user types into the form. */
    method Edit(f: BookingForm)
      modifies this
      ensures form == f
      ensures isOpen == old(isOpen) && errors == old(errors) && effects == old(effects)
    {
      form := f;
    }

    /** `handleSubmit(onSubmit)`: the schema runs first and a failing field
        stops the submit before any request. Otherwise one booking is created;
        `created` is whether the backend accepted it. On success the dialog
        alerts, closes and then resets the form; on failure it alerts and keeps
        the form as it was. */
    method Submit(eventDocname: string, validEmail: string -> bool, now: string, created: bool)
      modifies this
      ensures errors == (if created && old(Check(form, validEmail)).IsClean() then NoErrors else old(Check(form, validEmail)))
      ensures !old(Check(form, validEmail)).IsClean() ==>
        effects == old(effects) && form == old(form) && isOpen == old(isOpen)
      ensures old(Check(form, validEmail)).IsClean() && created ==>
        && effects == old(effects) + [Created(Payload(eventDocname, old(form), now)), Alert(SuccessAlert), Closed, Reset]
        && form == Defaults && !isOpen
      ensures old(Check(form, validEmail)).IsClean() && !created ==>
        && effects == old(effects) + [Created(Payload(eventDocname, old(form), now)), Alert(FailureAlert)]
        && form == old(form) && isOpen == old(isOpen)
    {
      errors := Check(form, validEmail);
      if !errors.IsClean() {
        return;
      }
      effects := effects + [Created(Payload(eventDocname, form, now))];
      if created {
        effects := effects + [Alert(SuccessAlert), Closed, Reset];
        isOpen := false;
        form := Defaults;
        errors := NoErrors;
      } else {
        effects := effects + [Alert(FailureAlert)];
      }
    }

    /** Cancel, the close button and the overlay all call `onClose`; the form
        keeps its values. */
    method Close()
      modifies this
      ensures !isOpen && form == old(form) && errors == old(errors) && effects == old(effects) + [Closed]
    {
      isOpen := false;
      effects := effects + [Closed];
    }
  }
}
