/** The analytics page: six counters over the event, booking and venue lists
    and two rounded percentages. */
module Analytics {
  import opened Common
  import opened Records

  datatype Metrics = Metrics(
    totalEvents: nat,
    approvedEvents: nat,
    totalBookings: nat,
    confirmedBookings: nat,
    totalTickets: int,
    totalVenues: nat,
    approvalRate: nat,
    confirmationRate: nat)

  /** `list?.length ?? 0`. */
  function Total<T>(list: Option<seq<T>>): (n: nat)
    ensures list.None? ==> n == 0
    ensures list.Some? ==> n == |list.value|
  {
    if list.Some? then |list.value| else 0
  }

  predicate IsApproved(e: EventRecord) {
    e.status == Some("Approved")
  }

  predicate IsConfirmed(b: BookingRecord) {
    b.status == Some("Confirmed")
  }

  /** `events?.filter(e => e.status === "Approved").length ?? 0`. */
  function ApprovedCount(events: Option<seq<EventRecord>>): (n: nat)
    ensures n <= Total(events)
    ensures events.Some? ==> n == |Filter(events.value, IsApproved)|
    ensures n == Total(events) <==> events.None? || forall e :: e in events.value ==> IsApproved(e)
  {
    if events.None? then 0
    else
      var kept := Filter(events.value, IsApproved);
      if forall e :: e in events.value ==> IsApproved(e) then
        FilterAllKept(events.value, IsApproved);
        |kept|
      else
        FilterPartition(events.value, IsApproved);
        var e :| e in events.value && !IsApproved(e);
        assert e in Filter(events.value, x => !IsApproved(x));
        |kept|
  }

  /** `bookings?.filter(b => b.status === "Confirmed").length ?? 0`. */
  function ConfirmedCount(bookings: Option<seq<BookingRecord>>): (n: nat)
    ensures n <= Total(bookings)
    ensures bookings.Some? ==> n == |Filter(bookings.value, IsConfirmed)|
    ensures n == Total(bookings) <==> bookings.None? || forall b :: b in bookings.value ==> IsConfirmed(b)
  {
    if bookings.None? then 0
    else
      var kept := Filter(bookings.value, IsConfirmed);
      if forall b :: b in bookings.value ==> IsConfirmed(b) then
        FilterAllKept(bookings.value, IsConfirmed);
        |kept|
      else
        FilterPartition(bookings.value, IsConfirmed);
        var b :| b in bookings.value && !IsConfirmed(b);
        assert b in Filter(bookings.value, x => !IsConfirmed(x));
        |kept|
  }

  /** `reduce((s, b) => s + (b.number_of_tickets ?? 0), 0)`, left to right. */
  function SumTickets(bookings: seq<BookingRecord>): (n: int)
    ensures (forall b :: b in bookings ==> b.numberOfTickets.None?) ==> n == 0
    decreases |bookings|
  {
    if bookings == [] then 0
    else SumTickets(bookings[..|bookings| - 1]) + bookings[|bookings| - 1].numberOfTickets.GetOr(0)
  }

  /** The sum over two lists joined is the sum of their sums. */
  lemma {:induction false} SumTicketsAppend(a: seq<BookingRecord>, b: seq<BookingRecord>)
    ensures SumTickets(a + b) == SumTickets(a) + SumTickets(b)
    decreases |b|
  {
    if b == [] {
      assert a + b == a;
    } else {
      assert (a + b)[..|a + b| - 1] == a + b[..|b| - 1];
      assert (a + b)[|a + b| - 1] == b[|b| - 1];
      SumTicketsAppend(a, b[..|b| - 1]);
    }
  }

  /** When every booking has at least one ticket, there are at least as many
      tickets as bookings; a missing count adds nothing. */
  lemma {:induction false} TicketsAtLeastBookings(bookings: seq<BookingRecord>)
    requires forall b :: b in bookings ==> b.numberOfTickets.Some? && b.numberOfTickets.value >= 1
    ensures SumTickets(bookings) >= |bookings|
    decreases |bookings|
  {
    if bookings != [] {
      assert forall b :: b in bookings[..|bookings| - 1] ==> b in bookings;
      TicketsAtLeastBookings(bookings[..|bookings| - 1]);
    }
  }

  /** Sums of counts that are never negative are never negative. */
  lemma {:induction false} TicketsNonNegative(bookings: seq<BookingRecord>)
    requires forall b :: b in bookings && b.numberOfTickets.Some? ==> b.numberOfTickets.value >= 0
    ensures SumTickets(bookings) >= 0
    decreases |bookings|
  {
    if bookings != [] {
      assert forall b :: b in bookings[..|bookings| - 1] ==> b in bookings;
      TicketsNonNegative(bookings[..|bookings| - 1]);
    }
  }

  /** `total > 0 ? Math.round(part / total * 100) : 0`, computed exactly:
      the percentage rounded to the nearest integer, halves rounding up. */
  function Rate(part: nat, total: nat): (r: nat)
    ensures total == 0 ==> r == 0
    ensures total > 0 ==> 2 * total * r <= 200 * part + total < 2 * total * (r + 1)
  {
    if total == 0 then 0
    else
      var n := 200 * part + total;
      var d := 2 * total;
      assert d * (n / d) + n % d == n;
      n / d
  }

  /** A positive factor can be cancelled from both sides of `<`. */
  lemma MultiplyCancel(c: int, a: int, b: int)
    requires c > 0 && c * a < c * b
    ensures a < b
  {
  }

  /** A rate of a part no larger than its total lies between 0 and 100, is 0
      for no part and 100 for the whole. */
  lemma RateBounds(part: nat, total: nat)
    requires part <= total
    ensures Rate(part, total) <= 100
    ensures part == 0 ==> Rate(part, total) == 0
    ensures part == total && total > 0 ==> Rate(part, total) == 100
  {
    var r := Rate(part, total);
    if total > 0 {
      assert 2 * total * r < 2 * total * 101 by {
        assert 2 * total * r <= 200 * part + total;
        assert 200 * part <= 200 * total;
      }
      MultiplyCancel(2 * total, r, 101);
      if part == 0 {
        MultiplyCancel(2 * total, r, 1);
      }
      if part == total {
        assert 2 * total * 100 < 2 * total * (r + 1);
        MultiplyCancel(2 * total, 100, r + 1);
      }
    }
  }

  /** Rounding shows 199 approved events out of 200 as 100%, and 1 out of
      201 as 0%. */
  lemma RoundingExtremes()
    ensures Rate(199, 200) == 100
    ensures Rate(1, 201) == 0
  {
  }

  /** The page's numbers, or `None` while any list is loading. */
  function Compute(events: Option<seq<EventRecord>>, eventsLoading: bool,
                   bookings: Option<seq<BookingRecord>>, bookingsLoading: bool,
                   venues: Option<seq<VenueRecord>>, venuesLoading: bool): (m: Option<Metrics>)
    ensures m.None? <==> eventsLoading || bookingsLoading || venuesLoading
    ensures m.Some? ==>
      && m.value.totalEvents == Total(events) && m.value.totalBookings == Total(bookings)
      && m.value.totalVenues == Total(venues)
      && m.value.approvedEvents == ApprovedCount(events) <= m.value.totalEvents
      && m.value.confirmedBookings == ConfirmedCount(bookings) <= m.value.totalBookings
      && m.value.approvalRate == Rate(ApprovedCount(events), Total(events)) <= 100
      && m.value.confirmationRate == Rate(ConfirmedCount(bookings), Total(bookings)) <= 100
      && (bookings.None? ==> m.value.totalTickets == 0)
      && (bookings.Some? ==> m.value.totalTickets == SumTickets(bookings.value))
  {
    if eventsLoading || bookingsLoading || venuesLoading then None
    else
      var approved := ApprovedCount(events);
      var confirmed := ConfirmedCount(bookings);
      RateBounds(approved, Total(events));
      RateBounds(confirmed, Total(bookings));
      Some(Metrics(
        totalEvents := Total(events),
        approvedEvents := approved,
        totalBookings := Total(bookings),
        confirmedBookings := confirmed,
        totalTickets := if bookings.Some? then SumTickets(bookings.value) else 0,
        totalVenues := Total(venues),
        approvalRate := Rate(approved, Total(events)),
        confirmationRate := Rate(confirmed, Total(bookings))))
  }
}
