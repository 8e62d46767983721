/** The desk form hook for `Custom Event`: the client-side `validate` that
    runs before the form is sent, and how it relates to the server's hook. */
module CustomEventForm {
  import opened Common
  import opened Text
  import opened Records
  import CustomEvent

  /** The form's `validate`: a truthy capacity that is not positive throws,
      then two set dates with the end before the start throw. A capacity of 0
      is falsy, so it passes. */
  function Validate(d: EventRecord): (r: Verdict)
    ensures r == Pass <==> (d.capacity.None? || d.capacity.value >= 0) && CustomEvent.DatesOrdered(d)
    ensures d.capacity.Some? && d.capacity.value < 0 ==> r == Fail(CustomEvent.CapacityMessage)
    ensures (d.capacity.None? || d.capacity.value >= 0) && !CustomEvent.DatesOrdered(d) ==>
      r == Fail(CustomEvent.DateOrderMessage)
  {
    if TruthyInt(d.capacity) && d.capacity.value <= 0 then
      Fail(CustomEvent.CapacityMessage)
    else if Truthy(d.startDate) && Truthy(d.endDate) && Less(d.endDate.value, d.startDate.value) then
      Fail(CustomEvent.DateOrderMessage)
    else
      Pass
  }

  /** The client check is weaker than the server's: whatever the form
      rejects, the server rejects too, and with the same message unless the
      capacity is 0. */
  lemma ClientRejectionImpliesServerRejection(d: EventRecord)
    requires Validate(d).Fail?
    ensures CustomEvent.Validate(d).Fail?
    ensures d.capacity != Some(0) ==> CustomEvent.Validate(d) == Validate(d)
  {
  }

  /** A capacity of 0 is where the two disagree: the form lets it through and
      the server refuses it. */
  lemma ZeroCapacityPassesOnlyOnClient(d: EventRecord)
    requires d.capacity == Some(0) && CustomEvent.DatesOrdered(d)
    ensures Validate(d) == Pass
    ensures CustomEvent.Validate(d) == Fail(CustomEvent.CapacityMessage)
  {
  }
}
