/** The desk form hook for `Venue`: its client-side `validate` only looks at
    the capacity. */
module VenueForm {
  import opened Common
  import opened Records
  import Venue

  /** The form's `validate`: a truthy capacity that is not positive throws.
      0 and a missing capacity are falsy and pass; no other field is read. */
  function Validate(d: VenueRecord): (r: Verdict)
    ensures r == Pass <==> d.capacity.None? || d.capacity.value >= 0
    ensures r != Pass ==> r == Fail(Venue.CapacityMessage)
  {
    if TruthyInt(d.capacity) && d.capacity.value <= 0 then Fail(Venue.CapacityMessage) else Pass
  }

  /** Only the capacity matters to the form: two venues with the same
      capacity get the same answer. */
  lemma OnlyCapacityRead(d: VenueRecord, e: VenueRecord)
    requires d.capacity == e.capacity
    ensures Validate(d) == Validate(e)
  {
  }

  /** Whatever the form rejects, the server rejects with the same message;
      the converse fails for capacity 0. */
  lemma ClientRejectionImpliesServerRejection(d: VenueRecord, validEmail: string -> bool)
    requires Validate(d).Fail?
    ensures Venue.Validate(d, validEmail) == Validate(d)
  {
  }

  /** A venue with capacity 0 passes the form and fails on the server. */
  lemma ZeroCapacityPassesOnlyOnClient(d: VenueRecord, validEmail: string -> bool)
    requires d.capacity == Some(0)
    ensures Validate(d) == Pass
    ensures Venue.Validate(d, validEmail) == Fail(Venue.CapacityMessage)
  {
  }
}
