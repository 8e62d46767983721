/** The reusable booking modal component: a schema without a phone field, an
    optional `onSubmit` callback supplied by the parent, and a Cancel button.
    The component renders nothing while `isOpen` is false, so its handlers can
    only run while it is open. */
module BookingModal {
  import opened Common
  import Zod

  const NameMessage := "Name must be at least 2 characters"
  const EmailMessage := "Invalid email address"
  const MinTicketsMessage := "At least 1 ticket"
  const MaxTicketsMessage := "Max 10 tickets"
  const FailureAlert := "Booking failed. See console."

  /** The form's values; `tickets` is `None` when the number input is empty. */
  datatype BookingForm = BookingForm(attendeeName: string, email: string, tickets: Option<int>)

  datatype FormErrors = FormErrors(attendeeName: Option<string>, email: Option<string>, tickets: Option<string>)
  {
    predicate IsClean() {
      attendeeName.None? && email.None? && tickets.None?
    }
  }

  const NoErrors := FormErrors(None, None, None)

  /** The form's starting values: an empty name and email, one ticket. */
  const Defaults := BookingForm("", "", Some(1))

  /** `bookingSchema`: a name of at least 2 characters, a valid email and 1 to
      10 tickets; there is no phone. */
  function Check(f: BookingForm, validEmail: string -> bool): (e: FormErrors)
    ensures e.IsClean() <==> |f.attendeeName| >= 2 && validEmail(f.email) && f.tickets.Some? && 1 <= f.tickets.value <= 10
    ensures e.attendeeName.None? <==> |f.attendeeName| >= 2
    ensures e.email.None? <==> validEmail(f.email)
    ensures e.tickets.None? <==> f.tickets.Some? && 1 <= f.tickets.value <= 10
    ensures e.attendeeName.Some? ==> e.attendeeName.value == NameMessage
    ensures e.email.Some? ==> e.email.value == EmailMessage
    ensures f.tickets.None? ==> e.tickets == Some(Zod.NotANumberMessage)
    ensures f.tickets.Some? && f.tickets.value < 1 ==> e.tickets == Some(MinTicketsMessage)
    ensures f.tickets.Some? && f.tickets.value > 10 ==> e.tickets == Some(MaxTicketsMessage)
  {
    FormErrors(
      Zod.StringMin(f.attendeeName, 2, NameMessage),
      Zod.Email(f.email, validEmail, EmailMessage),
      Zod.NumberRange(f.tickets, 1, 10, MinTicketsMessage, MaxTicketsMessage))
  }

  /** The defaults pass the ticket rule and fail the name rule. */
  lemma DefaultsNotSubmittable(validEmail: string -> bool)
    ensures Check(Defaults, validEmail).tickets.None?
    ensures Check(Defaults, validEmail).attendeeName == Some(NameMessage)
  {
  }

  /** Something the component does, in order. */
  datatype Effect =
    | Submitted(data: BookingForm)   // the parent's onSubmit is called
    | Logged(data: BookingForm)      // no onSubmit: the data is only logged
    | Reset
    | Closed                         // the parent's onClose is called
    | Alert(message: string)

  class Modal {
    var isOpen: bool
    var form: BookingForm
    var errors: FormErrors
    var effects: seq<Effect>

    constructor (isOpen: bool)
      ensures this.isOpen == isOpen && form == Defaults && errors == NoErrors && effects == []
    {
      this.isOpen := isOpen;
      form := Defaults;
      errors := NoErrors;
      effects := [];
    }

    method Edit(f: BookingForm)
      requires isOpen
      modifies this
      ensures form == f && isOpen && errors == old(errors) && effects == old(effects)
    {
      form := f;
    }

    /** `handleSubmit(submitHandler)`. A form failing the schema goes no
        further. Otherwise the parent's handler runs when there is one
        (`hasHandler`; `handlerSucceeds` is whether it resolves); on success
        the form is reset and then the modal closed, on failure an alert is
        shown and the form stays as it is, still open. */
    method Submit(validEmail: string -> bool, hasHandler: bool, handlerSucceeds: bool)
      requires isOpen
      modifies this
      ensures !old(Check(form, validEmail)).IsClean() ==>
        errors == old(Check(form, validEmail)) && form == old(form) && isOpen && effects == old(effects)
      ensures old(Check(form, validEmail)).IsClean() && hasHandler && !handlerSucceeds ==>
        form == old(form) && errors == NoErrors && isOpen && effects == old(effects) + [Submitted(old(form)), Alert(FailureAlert)]
      ensures old(Check(form, validEmail)).IsClean() && hasHandler && handlerSucceeds ==>
        form == Defaults && errors == NoErrors && !isOpen && effects == old(effects) + [Submitted(old(form)), Reset, Closed]
      ensures old(Check(form, validEmail)).IsClean() && !hasHandler ==>
        form == Defaults && errors == NoErrors && !isOpen && effects == old(effects) + [Logged(old(form)), Reset, Closed]
    {
      errors := Check(form, validEmail);
      if !errors.IsClean() {
        return;
      }
      if hasHandler {
        effects := effects + [Submitted(form)];
        if !handlerSucceeds {
          effects := effects + [Alert(FailureAlert)];
          return;
        }
      } else {
        effects := effects + [Logged(form)];
      }
      form := Defaults;
      errors := NoErrors;
      effects := effects + [Reset];
      isOpen := false;
      effects := effects + [Closed];
    }

    /** Cancel resets the form and then closes, whatever was typed. */
    method Cancel()
      requires isOpen
      modifies this
      ensures form == Defaults && errors == NoErrors && !isOpen && effects == old(effects) + [Reset, Closed]
    {
      form := Defaults;
      errors := NoErrors;
      effects := effects + [Reset];
      isOpen := false;
      effects := effects + [Closed];
    }

    /** The close button and a click on the backdrop only close. */
    method Close()
      requires isOpen
      modifies this
      ensures form == old(form) && errors == old(errors) && !isOpen && effects == old(effects) + [Closed]
    {
      isOpen := false;
      effects := effects + [Closed];
    }
  }
}
