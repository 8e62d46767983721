/** The backend's `Venue` document: its `validate` hook and the whitelisted
    `add_venue` method. */
module Venue {
  import opened Common
  import opened Records

  const CapacityMessage := "Capacity must be greater than 0"
  const EmailMessage := "Please enter a valid email address"
  const PhoneMessage := "Please enter a valid phone number"

  /** The shortest and longest phone number the backend accepts. */
  const MinPhoneLength := 7
  const MaxPhoneLength := 15

  predicate CapacityPositive(d: VenueRecord) {
    d.capacity.None? || d.capacity.value > 0
  }

  /** An email, when filled in, satisfies the framework's address check. */
  predicate EmailAcceptable(d: VenueRecord, validEmail: string -> bool) {
    Truthy(d.email) ==> validEmail(d.email.value)
  }

  /** A phone, when filled in, has between 7 and 15 characters. */
  predicate PhoneAcceptable(d: VenueRecord) {
    Truthy(d.phone) ==> MinPhoneLength <= |d.phone.value| <= MaxPhoneLength
  }

  /** `Venue.validate`: capacity, then email, then phone; the first failure is
      reported. `validEmail` stands for `frappe.utils.validate_email_address`. */
  function Validate(d: VenueRecord, validEmail: string -> bool): (r: Verdict)
    ensures r == Pass <==> CapacityPositive(d) && EmailAcceptable(d, validEmail) && PhoneAcceptable(d)
    ensures !CapacityPositive(d) ==> r == Fail(CapacityMessage)
    ensures CapacityPositive(d) && !EmailAcceptable(d, validEmail) ==> r == Fail(EmailMessage)
    ensures CapacityPositive(d) && EmailAcceptable(d, validEmail) && !PhoneAcceptable(d) ==> r == Fail(PhoneMessage)
  {
    if d.capacity.Some? && d.capacity.value <= 0 then
      Fail(CapacityMessage)
    else if Truthy(d.email) && !validEmail(d.email.value) then
      Fail(EmailMessage)
    else if Truthy(d.phone) && (|d.phone.value| < 7 || |d.phone.value| > 15) then
      Fail(PhoneMessage)
    else
      Pass
  }

  /** The phone bounds are inclusive: 7 and 15 characters pass, 6 and 16 fail. */
  lemma PhoneLengthBounds(d: VenueRecord)
    requires d.phone.Some?
    ensures |d.phone.value| == 7 || |d.phone.value| == 15 ==> PhoneAcceptable(d)
    ensures |d.phone.value| == 6 || |d.phone.value| == 16 ==> !PhoneAcceptable(d)
  {
  }

  /** Empty email and phone fields are not checked at all. */
  lemma EmptyContactSkipped(d: VenueRecord, validEmail: string -> bool)
    requires !Truthy(d.email) && !Truthy(d.phone)
    ensures Validate(d, validEmail) == Pass <==> CapacityPositive(d)
  {
  }

  /** The document `add_venue` builds from a request that passes the
      required `venue_name`; the capacity argument defaults to 0 when it is
      left out of the request. */
  function NewVenueDocument(venueName: Option<string>, address: Option<string>, capacity: Argument<Option<int>>,
                            email: Option<string>, phone: Option<string>): (d: VenueRecord)
    ensures d.venueName == venueName && d.address == address && d.email == email && d.phone == phone
    ensures capacity.Omitted? ==> d.capacity == Some(0)
    ensures capacity.Passed? ==> d.capacity == capacity.value
  {
    VenueRecord(
      name := None,
      venueName := venueName,
      address := address,
      capacity := if capacity.Omitted? then Some(0) else capacity.value,
      email := email,
      phone := phone)
  }

  /** `add_venue` followed by `doc.insert()`: a request without `venue_name`
      raises TypeError, and one that leaves out the capacity is always
      refused by `validate`. */
  function AddVenue(venueName: Argument<Option<string>>, address: Option<string>, capacity: Argument<Option<int>>,
                    email: Option<string>, phone: Option<string>, validEmail: string -> bool): (r: Verdict)
    ensures r == Raise(TypeError) <==> venueName.Omitted?
    ensures venueName.Passed? && capacity.Omitted? ==> r == Fail(CapacityMessage)
    ensures r == Pass ==> venueName.Passed? && capacity.Passed? && (capacity.value.None? || capacity.value.value > 0)
    ensures venueName.Passed? ==>
      (r == Pass <==> && capacity.Passed? && (capacity.value.None? || capacity.value.value > 0)
                      && (Truthy(email) ==> validEmail(email.value))
                      && (Truthy(phone) ==> MinPhoneLength <= |phone.value| <= MaxPhoneLength))
    ensures (&& venueName.Passed? && capacity.Passed? && (capacity.value.None? || capacity.value.value > 0)
             && Truthy(email) && !validEmail(email.value)) ==> r == Fail(EmailMessage)
  {
    if venueName.Omitted? then Raise(TypeError)
    else Validate(NewVenueDocument(venueName.value, address, capacity, email, phone), validEmail)
  }
}
