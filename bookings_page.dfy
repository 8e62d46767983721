/** The management page for bookings: the status filter over the fetched rows,
    the actions each row offers, the status workflow those actions allow, and
    the requests and alerts the page's handlers produce. */
module BookingsPage {
  import opened Common
  import opened Records
  import EventBooking

  const AllStatuses := "All"
  const UpdateFailedAlert := "Failed to update status"
  const DeleteFailedAlert := "Failed to delete booking"

  /** `Array.isArray(data) ? data : []`: anything but a list (`None`) shows
      no rows. */
  function Rows(data: Option<seq<BookingRecord>>): (rows: seq<BookingRecord>)
    ensures data.None? ==> rows == []
    ensures data.Some? ==> rows == data.value
  {
    data.GetOr([])
  }

  /** `filteredRows`: "All" shows every row; any other choice shows exactly
      the rows with that status, in the order the backend sent them. */
  function FilterRows(data: Option<seq<BookingRecord>>, filter: string): (r: seq<BookingRecord>)
    ensures filter == AllStatuses ==> r == Rows(data)
    ensures filter != AllStatuses ==> forall b :: b in r <==> b in Rows(data) && b.status == Some(filter)
    ensures filter != AllStatuses ==> IsSubsequence(r, Rows(data))
  {
    if filter == AllStatuses then Rows(data)
    else Filter(Rows(data), (b: BookingRecord) => b.status == Some(filter))
  }

  /** Filtering the shown rows again by the same choice changes nothing. */
  lemma FilterRowsIdempotent(data: Option<seq<BookingRecord>>, filter: string)
    ensures FilterRows(Some(FilterRows(data, filter)), filter) == FilterRows(data, filter)
  {
    if filter != AllStatuses {
      FilterAllKept(FilterRows(data, filter), (b: BookingRecord) => b.status == Some(filter));
    }
  }

  /** What a row's Actions cell offers. */
  datatype Action = Confirm | Cancel | Delete

  /** Confirm and Cancel are rendered only for a Pending row; Delete always. */
  function OfferedFor(status: Option<string>): (acts: seq<Action>)
    ensures Delete in acts
    ensures Confirm in acts <==> status == Some("Pending")
    ensures Cancel in acts <==> status == Some("Pending")
  {
    if status == Some("Pending") then [Confirm, Cancel, Delete] else [Delete]
  }

  /** The buttons a booking's row shows. */
  function OfferedActions(b: BookingRecord): (acts: seq<Action>)
    ensures Delete in acts
    ensures Confirm in acts <==> b.status == Some("Pending")
    ensures Cancel in acts <==> b.status == Some("Pending")
  {
    OfferedFor(b.status)
  }

  /** The status Confirm and Cancel write. */
  function TargetStatus(a: Action): (s: Option<string>)
    ensures s.Some? <==> a != Delete
    ensures s.Some? ==> EventBooking.IsBookingStatus(s.value) && s.value != "Pending"
  {
    match a
    case Confirm => Some("Confirmed")
    case Cancel => Some("Cancelled")
    case Delete => None
  }

  /** A booking as the page sees it across successful actions. */
  datatype Row = Present(status: Option<string>) | Deleted

  /** One click that succeeds; a button the row does not show cannot be
      clicked and changes nothing. */
  function Step(row: Row, a: Action): (next: Row)
    ensures row.Deleted? ==> next == Deleted
    ensures next == row || next == Deleted || (row == Present(Some("Pending")) && next == Present(TargetStatus(a)))
    ensures a == Delete && row.Present? ==> next == Deleted
    ensures row == Present(Some("Pending")) && a != Delete ==> next == Present(TargetStatus(a))
    ensures row.Present? && a !in OfferedFor(row.status) ==> next == row
  {
    match row
    case Deleted => Deleted
    case Present(s) =>
      if a !in OfferedFor(s) then row
      else if a == Delete then Deleted
      else Present(TargetStatus(a))
  }

  /** Successive clicks. From any row the result is the row itself, a
      deletion, or a row settled as Confirmed or Cancelled. */
  function Run(row: Row, acts: seq<Action>): (r: Row)
    ensures r == row || r == Deleted || (r.Present? && IsTerminal(r.status))
    decreases |acts|
  {
    if acts == [] then row else Run(Step(row, acts[0]), acts[1..])
  }

  predicate IsTerminal(s: Option<string>) {
    s == Some("Confirmed") || s == Some("Cancelled")
  }

  /** A row that is not Pending is never given a new status by the page, so
      Confirmed and Cancelled are terminal: whatever is clicked afterwards, the
      row keeps its status or is deleted. */
  lemma {:induction false} OnlyPendingChanges(s: Option<string>, acts: seq<Action>)
    requires s != Some("Pending")
    ensures Run(Present(s), acts) == Present(s) || Run(Present(s), acts) == Deleted
  {
    if acts != [] {
      if acts[0] == Delete {
        DeletedStays(acts[1..]);
      } else {
        assert acts[0] !in OfferedFor(s);
        OnlyPendingChanges(s, acts[1..]);
      }
    }
  }

  /** From Pending the first click decides: the row is deleted or settles on
      the clicked status, which is then final (up to a later Delete). */
  lemma PendingChangesOnce(acts: seq<Action>)
    ensures var r := Run(Present(Some("Pending")), acts);
      r == Present(Some("Pending")) || r == Deleted || (r.Present? && IsTerminal(r.status))
    ensures acts != [] && acts[0] != Delete ==>
      Run(Present(Some("Pending")), acts) == Present(TargetStatus(acts[0])) || Run(Present(Some("Pending")), acts) == Deleted
  {
    if acts != [] {
      var next := Step(Present(Some("Pending")), acts[0]);
      if next == Deleted {
        DeletedStays(acts[1..]);
      } else {
        OnlyPendingChanges(next.status, acts[1..]);
      }
    }
  }

  lemma {:induction false} DeletedStays(acts: seq<Action>)
    ensures Run(Deleted, acts) == Deleted
  {
    if acts != [] {
      DeletedStays(acts[1..]);
    }
  }

  /** The fields `updateStatus` sends: the status and nothing else. */
  function StatusPatch(newStatus: string): (m: map<string, string>)
    ensures m.Keys == {"status"} && m["status"] == newStatus
  {
    map["status" := newStatus]
  }

  /** A request the page sends to the backend. */
  datatype Request =
    | Update(docname: string, fields: map<string, string>)
    | Remove(docname: string)
    | Refresh   // `mutate()`: the list is fetched again

  /** The page's state: the chosen filter, the requests sent and the alerts
      shown, in order. */
  class Page {
    var statusFilter: string
    var requests: seq<Request>
    var alerts: seq<string>

    constructor ()
      ensures statusFilter == AllStatuses && requests == [] && alerts == []
    {
      statusFilter := AllStatuses;
      requests := [];
      alerts := [];
    }

    method SetFilter(filter: string)
      modifies this
      ensures statusFilter == filter && requests == old(requests) && alerts == old(alerts)
    {
      statusFilter := filter;
    }

    /** `updateStatus`: one update carrying only the status; the list is
        refreshed after a success, and a failure alerts instead. */
    method UpdateStatus(docname: string, newStatus: string, succeeded: bool)
      modifies this
      ensures statusFilter == old(statusFilter)
      ensures succeeded ==>
        requests == old(requests) + [Update(docname, StatusPatch(newStatus)), Refresh] && alerts == old(alerts)
      ensures !succeeded ==>
        requests == old(requests) + [Update(docname, StatusPatch(newStatus))] && alerts == old(alerts) + [UpdateFailedAlert]
    {
      requests := requests + [Update(docname, StatusPatch(newStatus))];
      if succeeded {
        requests := requests + [Refresh];
      } else {
        alerts := alerts + [UpdateFailedAlert];
      }
    }

    /** `handleDelete`: nothing happens unless the user confirms; then one
        delete, followed by a refresh or by an alert. */
    method HandleDelete(docname: string, confirmed: bool, succeeded: bool)
      modifies this
      ensures statusFilter == old(statusFilter)
      ensures !confirmed ==> requests == old(requests) && alerts == old(alerts)
      ensures confirmed && succeeded ==> requests == old(requests) + [Remove(docname), Refresh] && alerts == old(alerts)
      ensures confirmed && !succeeded ==>
        requests == old(requests) + [Remove(docname)] && alerts == old(alerts) + [DeleteFailedAlert]
    {
      if !confirmed {
        return;
      }
      requests := requests + [Remove(docname)];
      if succeeded {
        requests := requests + [Refresh];
      } else {
        alerts := alerts + [DeleteFailedAlert];
      }
    }

    /** A click on one of the buttons a row shows. The list query selects
        `name`, so every row has one. */
    method Click(row: BookingRecord, a: Action, confirmed: bool, succeeded: bool)
      requires a in OfferedActions(row) && row.name.Some?
      modifies this
      ensures statusFilter == old(statusFilter)
      ensures a != Delete ==> row.status == Some("Pending")
      ensures a != Delete ==>
        && requests == old(requests) + [Update(row.name.value, StatusPatch(TargetStatus(a).value))]
                       + (if succeeded then [Refresh] else [])
        && alerts == old(alerts) + (if succeeded then [] else [UpdateFailedAlert])
      ensures a == Delete && confirmed ==>
        && requests == old(requests) + [Remove(row.name.value)] + (if succeeded then [Refresh] else [])
        && alerts == old(alerts) + (if succeeded then [] else [DeleteFailedAlert])
      ensures a == Delete && !confirmed ==> requests == old(requests) && alerts == old(alerts)
    {
      match a
      case Confirm => UpdateStatus(row.name.value, "Confirmed", succeeded);
      case Cancel => UpdateStatus(row.name.value, "Cancelled", succeeded);
      case Delete => HandleDelete(row.name.value, confirmed, succeeded);
    }
  }
}
