/** The public home page: where its event and venue lists come from (a direct
    fetch, the SDK hooks, a fallback fetch), the venue-name map, the search
    filter, the loading flag and the error banner. */
module Home {
  import opened Common
  import opened Records
  import Text

  // ---------------------------------------------------------------------
  // The venue map
  // ---------------------------------------------------------------------

  /** The name a venue is shown by: `venue_name ?? name`. */
  function Label(v: VenueRecord): (l: string)
    requires v.name.Some?
    ensures v.venueName.Some? ==> l == v.venueName.value
    ensures v.venueName.None? ==> l == v.name.value
  {
    v.venueName.GetOr(v.name.value)
  }

  /** The last venue of `vs` whose name is `k` is the one at `j`. */
  predicate LastNamed(vs: seq<VenueRecord>, k: string, j: int) {
    0 <= j < |vs| && vs[j].name == Some(k) && forall l :: j < l < |vs| ==> vs[l].name != Some(k)
  }

  /** `venueMap`: every venue with a truthy name maps it to its label, a later
      venue with the same name overwriting an earlier one. */
  function VenueMapOf(vs: seq<VenueRecord>): (m: map<string, string>)
    ensures forall k :: k in m ==> k != "" && exists j :: LastNamed(vs, k, j) && m[k] == Label(vs[j])
    ensures forall j :: 0 <= j < |vs| && Truthy(vs[j].name) ==> vs[j].name.value in m
    decreases |vs|
  {
    if vs == [] then map[]
    else
      var init := vs[..|vs| - 1];
      var v := vs[|vs| - 1];
      var m := VenueMapOf(init);
      assert forall j :: 0 <= j < |init| ==> init[j] == vs[j];
      if Truthy(v.name) then
        assert LastNamed(vs, v.name.value, |vs| - 1);
        assert forall k, j :: k != v.name.value && LastNamed(init, k, j) ==> LastNamed(vs, k, j);
        m[v.name.value := Label(v)]
      else
        assert forall k, j :: LastNamed(init, k, j) && k != "" ==> LastNamed(vs, k, j);
        m
  }

  /** The last venue named `k` decides what `k` is shown as. */
  lemma LastVenueWins(vs: seq<VenueRecord>, k: string, j: int)
    requires k != "" && LastNamed(vs, k, j)
    ensures k in VenueMapOf(vs) && VenueMapOf(vs)[k] == Label(vs[j])
  {
    var m := VenueMapOf(vs);
    var j' :| LastNamed(vs, k, j') && m[k] == Label(vs[j']);
  }

  /** The `forEach` that fills `venueMap`, over `venues ?? []`. */
  method BuildVenueMap(venues: Option<seq<VenueRecord>>) returns (m: map<string, string>)
    ensures m == VenueMapOf(venues.GetOr([]))
  {
    var vs := venues.GetOr([]);
    m := map[];
    var i := 0;
    while i < |vs|
      invariant 0 <= i <= |vs|
      invariant m == VenueMapOf(vs[..i])
    {
      var v := vs[i];
      assert vs[..i + 1][..i] == vs[..i];
      if Truthy(v.name) {
        m := m[v.name.value := v.venueName.GetOr(v.name.value)];
      }
      i := i + 1;
    }
    assert vs[..|vs|] == vs;
  }

  // ---------------------------------------------------------------------
  // The search filter
  // ---------------------------------------------------------------------

  /** What the search looks at as an event's title:
      `custom_event_name ?? event_name ?? ""`. */
  function Title(ev: EventRecord): (t: string)
    ensures ev.customEventName.Some? ==> t == ev.customEventName.value
    ensures ev.customEventName.None? && ev.eventName.Some? ==> t == ev.eventName.value
    ensures ev.customEventName.None? && ev.eventName.None? ==> t == ""
  {
    ev.customEventName.OrElse(ev.eventName).GetOr("")
  }

  /** What the search looks at as an event's venue:
      `venueMap[venue] ?? venue ?? ""`. */
  function VenueLabel(ev: EventRecord, venueMap: map<string, string>): (l: string)
    ensures ev.venue.Some? && ev.venue.value in venueMap ==> l == venueMap[ev.venue.value]
    ensures ev.venue.Some? && ev.venue.value !in venueMap ==> l == ev.venue.value
    ensures ev.venue.None? ==> l == ""
  {
    var mapped := if ev.venue.Some? && ev.venue.value in venueMap then Some(venueMap[ev.venue.value]) else None;
    mapped.OrElse(ev.venue).GetOr("")
  }

  /** An event matches the lowercased query `q` when `q` occurs in its
      lowercased title or venue label. */
  predicate Matches(ev: EventRecord, venueMap: map<string, string>, q: string)
    ensures q == "" ==> Matches(ev, venueMap, q)
    ensures Text.Lower(Title(ev)) == q ==> Matches(ev, venueMap, q)
  {
    Text.ContainsEmpty(Text.Lower(Title(ev)));
    Text.ContainsSelf(q);
    Text.Contains(Text.Lower(Title(ev)), q) || Text.Contains(Text.Lower(VenueLabel(ev, venueMap)), q)
  }

  /** `filteredEvents`: no list gives no events, an empty search gives the
      list unchanged, and otherwise the matching events stay, in order. */
  function FilteredEvents(events: Option<seq<EventRecord>>, term: string, venueMap: map<string, string>): (r: seq<EventRecord>)
    ensures events.None? ==> r == []
    ensures events.Some? && term == "" ==> r == events.value
    ensures events.Some? && term != "" ==>
      && (forall ev :: ev in r <==> ev in events.value && Matches(ev, venueMap, Text.Lower(term)))
      && IsSubsequence(r, events.value)
  {
    if events.None? then []
    else if term == "" then events.value
    else Filter(events.value, (ev: EventRecord) => Matches(ev, venueMap, Text.Lower(term)))
  }

  /** The search ignores case: a term and its lowercase form find the same
      events. */
  lemma SearchIgnoresCase(events: Option<seq<EventRecord>>, term: string, venueMap: map<string, string>)
    ensures FilteredEvents(events, Text.Lower(term), venueMap) == FilteredEvents(events, term, venueMap)
  {
    if events.Some? && term != "" {
      Text.LowerIdempotent(term);
      FilterCongruent(events.value, (ev: EventRecord) => Matches(ev, venueMap, Text.Lower(Text.Lower(term))),
                      (ev: EventRecord) => Matches(ev, venueMap, Text.Lower(term)));
    }
  }

  /** Typing more narrows the results: every event found for a term is found
      for any non-empty piece of it. */
  lemma LongerTermNarrows(events: Option<seq<EventRecord>>, term: string, piece: string, venueMap: map<string, string>)
    requires piece != "" && Text.Contains(term, piece)
    ensures forall ev :: ev in FilteredEvents(events, term, venueMap) ==> ev in FilteredEvents(events, piece, venueMap)
  {
    Text.ContainsLower(term, piece);
    forall ev | ev in FilteredEvents(events, term, venueMap)
      ensures ev in FilteredEvents(events, piece, venueMap)
    {
      if Text.Contains(Text.Lower(Title(ev)), Text.Lower(term)) {
        Text.ContainsTransitive(Text.Lower(Title(ev)), Text.Lower(term), Text.Lower(piece));
      } else {
        Text.ContainsTransitive(Text.Lower(VenueLabel(ev, venueMap)), Text.Lower(term), Text.Lower(piece));
      }
    }
  }

  /** An event is found by its whole title. */
  lemma FoundByTitle(events: seq<EventRecord>, ev: EventRecord, venueMap: map<string, string>)
    requires ev in events && Title(ev) != ""
    ensures ev in FilteredEvents(Some(events), Title(ev), venueMap)
  {
    Text.ContainsSelf(Text.Lower(Title(ev)));
  }

  // ---------------------------------------------------------------------
  // Sources, loading and the error banner
  // ---------------------------------------------------------------------

  /** `fetchedEvents ?? sdkEvents ?? fallbackEvents`. */
  function EventsSource(fetched: Option<seq<EventRecord>>, sdk: Option<seq<EventRecord>>,
                        fallback: Option<seq<EventRecord>>): (r: Option<seq<EventRecord>>)
    ensures fetched.Some? ==> r == fetched
    ensures fetched.None? && sdk.Some? ==> r == sdk
    ensures fetched.None? && sdk.None? ==> r == fallback
  {
    fetched.OrElse(sdk).OrElse(fallback)
  }

  /** `fetchedVenues ?? sdkVenues ?? null`: venues have no fallback. */
  function VenuesSource(fetched: Option<seq<VenueRecord>>, sdk: Option<seq<VenueRecord>>): (r: Option<seq<VenueRecord>>)
    ensures fetched.Some? ==> r == fetched
    ensures fetched.None? ==> r == sdk
  {
    fetched.OrElse(sdk).OrElse(None)
  }

  const FetchPrefix := "Fetch: "
  const SdkPrefix := "SDK: "
  const FallbackPrefix := "Fallback: "

  /** `error`: the first of the direct-fetch error, the SDK error (its
      `String(...)` form) and the fallback error that is set. An empty message
      is falsy and skipped; an SDK error object is always truthy. */
  function ErrorBanner(fetchError: Option<string>, sdkError: Option<string>, fallbackError: Option<string>): (r: Option<string>)
    ensures r.None? <==> !Truthy(fetchError) && sdkError.None? && !Truthy(fallbackError)
    ensures Truthy(fetchError) ==> r == Some(FetchPrefix + fetchError.value)
    ensures !Truthy(fetchError) && sdkError.Some? ==> r == Some(SdkPrefix + sdkError.value)
    ensures !Truthy(fetchError) && sdkError.None? && Truthy(fallbackError) ==> r == Some(FallbackPrefix + fallbackError.value)
  {
    if Truthy(fetchError) then Some(FetchPrefix + fetchError.value)
    else if sdkError.Some? then Some(SdkPrefix + sdkError.value)
    else if Truthy(fallbackError) then Some(FallbackPrefix + fallbackError.value)
    else None
  }

  // ---------------------------------------------------------------------
  // The two fetch effects
  // ---------------------------------------------------------------------

  const EventFields := "[\"name\",\"event_name\",\"venue\",\"start_date\",\"end_date\",\"description\"]"
  const EventsPath := "/api/resource/Custom%20Event?limit_page_length=200&fields=" + EventFields + "&order_by=start_date%20desc"
  const VenuesPath := "/api/resource/Venue?limit_page_length=500&fields=[\"name\",\"venue_name\"]"
  const FallbackPath := "/api/resource/Custom%20Event?limit_page_length=200&fields=" + EventFields
  const MissingBaseMessage := "Missing VITE_FRAPPE_BASE_URL in environment."

  /** A GET the page issues, with its `Authorization` header if any. */
  datatype FetchRequest = FetchRequest(url: string, authorization: Option<string>)

  /** The header both effects send: `token <token>` when a token is set. */
  function Authorization(token: Option<string>): (h: Option<string>)
    ensures h.Some? <==> Truthy(token)
    ensures h.Some? ==> h.value == "token " + token.value
  {
    if Truthy(token) then Some("token " + token.value) else None
  }

  /** How an HTTP exchange ended: a response that is not OK, or an OK
      response whose JSON `data` is a list (`Some`) or is not (`None`). */
  datatype Response<T> = NotOk(status: nat, statusText: string, body: string) | Ok(data: Option<seq<T>>)

  /** `${status} ${statusText} ${text}`. */
  function StatusLine(status: nat, statusText: string, body: string): string {
    Text.NatToString(status) + " " + statusText + " " + body
  }

  /** What the SDK hooks report at a render. */
  datatype Sdk = Sdk(events: Option<seq<EventRecord>>, venues: Option<seq<VenueRecord>>,
                     loading: bool, error: Option<string>)

  /** The page's state. `requests` records the fetches issued, in order. */
  class Page {
    var searchTerm: string
    var fetchedEvents: Option<seq<EventRecord>>
    var fetchedVenues: Option<seq<VenueRecord>>
    var fetchLoading: bool
    var fetchError: Option<string>
    var fallbackEvents: Option<seq<EventRecord>>
    var fallbackLoading: bool
    var fallbackError: Option<string>
    var requests: seq<FetchRequest>

    constructor ()
      ensures searchTerm == "" && fetchedEvents.None? && fetchedVenues.None? && !fetchLoading && fetchError.None?
      ensures fallbackEvents.None? && !fallbackLoading && fallbackError.None? && requests == []
    {
      searchTerm := "";
      fetchedEvents := None;
      fetchedVenues := None;
      fetchLoading := false;
      fetchError := None;
      fallbackEvents := None;
      fallbackLoading := false;
      fallbackError := None;
      requests := [];
    }

    /** Whether the direct-fetch effect goes ahead: a base URL is set and no
        result or fetch exists yet. */
    predicate DirectFetchDue(base: Option<string>)
      reads this
      ensures DirectFetchDue(base) ==> Truthy(base) && fetchedEvents.None? && !fetchLoading
      ensures !Truthy(base) || fetchedEvents.Some? || fetchLoading ==> !DirectFetchDue(base)
    {
      Truthy(base) && fetchedEvents.None? && !fetchLoading
    }

    /** `loading`: any of the three sources is loading. */
    function Loading(sdk: Sdk): (b: bool)
      reads this
      ensures fetchLoading ==> b
      ensures sdk.loading ==> b
      ensures fallbackLoading ==> b
      ensures !fetchLoading && !sdk.loading && !fallbackLoading ==> !b
    {
      fetchLoading || sdk.loading || fallbackLoading
    }

    /** `filteredEvents`: the filtered events of the chosen source, looked up
        against the chosen venues. */
    function Shown(sdk: Sdk): (shown: seq<EventRecord>)
      reads this
      ensures IsSubsequence(shown, EventsSource(fetchedEvents, sdk.events, fallbackEvents).GetOr([]))
      ensures searchTerm == "" ==> shown == EventsSource(fetchedEvents, sdk.events, fallbackEvents).GetOr([])
      ensures fetchedEvents.Some? ==> forall ev :: ev in shown ==> ev in fetchedEvents.value
    {
      SubsequenceReflexive(EventsSource(fetchedEvents, sdk.events, fallbackEvents).GetOr([]));
      FilteredEvents(EventsSource(fetchedEvents, sdk.events, fallbackEvents), searchTerm,
                     VenueMapOf(VenuesSource(fetchedVenues, sdk.venues).GetOr([])))
    }

    /** The cards the grid renders: none while anything loads or any error
        is set, otherwise the filtered events. */
    function Cards(sdk: Sdk): (cards: seq<EventRecord>)
      reads this
      ensures Loading(sdk) || Error(sdk).Some? ==> cards == []
      ensures !Loading(sdk) && Error(sdk).None? ==> cards == Shown(sdk)
    {
      if Loading(sdk) || Error(sdk).Some? then [] else Shown(sdk)
    }

    /** The banner the page shows. */
    function Error(sdk: Sdk): (e: Option<string>)
      reads this
      ensures e.None? <==> !Truthy(fetchError) && sdk.error.None? && !Truthy(fallbackError)
      ensures Truthy(fetchError) ==> e == Some(FetchPrefix + fetchError.value)
      ensures !Truthy(fetchError) && sdk.error.Some? ==> e == Some(SdkPrefix + sdk.error.value)
      ensures !Truthy(fetchError) && sdk.error.None? && Truthy(fallbackError) ==> e == Some(FallbackPrefix + fallbackError.value)
    {
      ErrorBanner(fetchError, sdk.error, fallbackError)
    }

    method Search(term: string)
      modifies this
      ensures searchTerm == term
      ensures fetchedEvents == old(fetchedEvents) && fetchedVenues == old(fetchedVenues)
      ensures fetchLoading == old(fetchLoading) && fetchError == old(fetchError)
      ensures fallbackEvents == old(fallbackEvents) && fallbackLoading == old(fallbackLoading)
      ensures fallbackError == old(fallbackError) && requests == old(requests)
    {
      searchTerm := term;
    }

    /** The direct-fetch effect: skipped without a base URL, after a result
        and while a fetch is in flight; otherwise it marks the fetch as
        loading, clears its error and asks for the events and the venues at
        the base URL less one trailing `/`. */
    method StartDirectFetch(base: Option<string>, token: Option<string>)
      modifies this
      ensures !old(DirectFetchDue(base)) ==>
        fetchLoading == old(fetchLoading) && fetchError == old(fetchError) && requests == old(requests)
      ensures old(DirectFetchDue(base)) ==>
        && fetchLoading && fetchError.None?
        && requests == old(requests) + [
             FetchRequest(Text.StripTrailingSlash(base.value) + EventsPath, Authorization(token)),
             FetchRequest(Text.StripTrailingSlash(base.value) + VenuesPath, Authorization(token))]
      ensures fetchedEvents == old(fetchedEvents) && fetchedVenues == old(fetchedVenues)
      ensures fallbackEvents == old(fallbackEvents) && fallbackLoading == old(fallbackLoading)
      ensures fallbackError == old(fallbackError) && searchTerm == old(searchTerm)
    {
      if !Truthy(base) {
        return;
      }
      if fetchedEvents.Some? || fetchLoading {
        return;
      }
      fetchLoading := true;
      fetchError := None;
      var trimmed := Text.StripTrailingSlash(base.value);
      var header := Authorization(token);
      requests := requests + [FetchRequest(trimmed + EventsPath, header), FetchRequest(trimmed + VenuesPath, header)];
    }

    /** The direct fetch settles. `rejected` is the message of a failed
        request; otherwise the events response is looked at before the venues
        response, and a list missing from an OK response counts as empty.
        Either way the fetch stops loading. */
    method SettleDirectFetch(rejected: Option<string>, events: Response<EventRecord>, venues: Response<VenueRecord>)
      modifies this
      ensures !fetchLoading
      ensures rejected.Some? ==>
        fetchError == rejected && fetchedEvents == old(fetchedEvents) && fetchedVenues == old(fetchedVenues)
      ensures rejected.None? && events.NotOk? ==>
        && fetchError == Some("Events fetch failed: " + StatusLine(events.status, events.statusText, events.body))
        && fetchedEvents == old(fetchedEvents) && fetchedVenues == old(fetchedVenues)
      ensures rejected.None? && events.Ok? && venues.NotOk? ==>
        && fetchError == Some("Venues fetch failed: " + StatusLine(venues.status, venues.statusText, venues.body))
        && fetchedEvents == old(fetchedEvents) && fetchedVenues == old(fetchedVenues)
      ensures rejected.None? && events.Ok? && venues.Ok? ==>
        && fetchedEvents == Some(events.data.GetOr([])) && fetchedVenues == Some(venues.data.GetOr([]))
        && fetchError == old(fetchError)
      ensures fallbackEvents == old(fallbackEvents) && fallbackLoading == old(fallbackLoading)
      ensures fallbackError == old(fallbackError) && searchTerm == old(searchTerm) && requests == old(requests)
    {
      if rejected.Some? {
        fetchError := rejected;
      } else if events.NotOk? {
        fetchError := Some("Events fetch failed: " + StatusLine(events.status, events.statusText, events.body));
      } else if venues.NotOk? {
        fetchError := Some("Venues fetch failed: " + StatusLine(venues.status, venues.statusText, venues.body));
      } else {
        fetchedEvents := Some(events.data.GetOr([]));
        fetchedVenues := Some(venues.data.GetOr([]));
      }
      fetchLoading := false;
    }

    /** Whether the fallback effect goes ahead: the SDK reports an error and
        no fallback result or fetch exists yet. */
    predicate FallbackDue(sdkError: Option<string>)
      reads this
      ensures FallbackDue(sdkError) ==> sdkError.Some? && fallbackEvents.None? && !fallbackLoading
      ensures sdkError.None? || fallbackEvents.Some? || fallbackLoading ==> !FallbackDue(sdkError)
    {
      sdkError.Some? && fallbackEvents.None? && !fallbackLoading
    }

    /** The fallback effect: it does nothing unless it is due; without a base
        URL it only sets its fixed error; otherwise it marks the fallback as
        loading, clears its error and asks for the events. */
    method StartFallback(sdkError: Option<string>, base: Option<string>, token: Option<string>)
      modifies this
      ensures !old(FallbackDue(sdkError)) ==>
        fallbackLoading == old(fallbackLoading) && fallbackError == old(fallbackError) && requests == old(requests)
      ensures old(FallbackDue(sdkError)) && !Truthy(base) ==>
        fallbackError == Some(MissingBaseMessage) && !fallbackLoading && requests == old(requests)
      ensures old(FallbackDue(sdkError)) && Truthy(base) ==>
        && fallbackLoading && fallbackError.None?
        && requests == old(requests) + [FetchRequest(Text.StripTrailingSlash(base.value) + FallbackPath, Authorization(token))]
      ensures fallbackEvents == old(fallbackEvents) && fetchedEvents == old(fetchedEvents)
      ensures fetchedVenues == old(fetchedVenues) && fetchLoading == old(fetchLoading)
      ensures fetchError == old(fetchError) && searchTerm == old(searchTerm)
    {
      if sdkError.None? {
        return;
      }
      if fallbackEvents.Some? || fallbackLoading {
        return;
      }
      if !Truthy(base) {
        fallbackError := Some(MissingBaseMessage);
        return;
      }
      fallbackLoading := true;
      fallbackError := None;
      requests := requests + [FetchRequest(Text.StripTrailingSlash(base.value) + FallbackPath, Authorization(token))];
    }

    /** The fallback fetch settles: a failed request or a response that is
        not OK sets the error, an OK response sets the events (empty when its
        `data` is not a list), and the fallback stops loading. */
    method SettleFallback(rejected: Option<string>, response: Response<EventRecord>)
      modifies this
      ensures !fallbackLoading
      ensures rejected.Some? ==> fallbackError == rejected && fallbackEvents == old(fallbackEvents)
      ensures rejected.None? && response.NotOk? ==>
        && fallbackError == Some(StatusLine(response.status, response.statusText, response.body))
        && fallbackEvents == old(fallbackEvents)
      ensures rejected.None? && response.Ok? ==>
        fallbackEvents == Some(response.data.GetOr([])) && fallbackError == old(fallbackError)
      ensures fetchedEvents == old(fetchedEvents) && fetchedVenues == old(fetchedVenues)
      ensures fetchLoading == old(fetchLoading) && fetchError == old(fetchError)
      ensures searchTerm == old(searchTerm) && requests == old(requests)
    {
      if rejected.Some? {
        fallbackError := rejected;
      } else if response.NotOk? {
        fallbackError := Some(StatusLine(response.status, response.statusText, response.body));
      } else {
        fallbackEvents := Some(response.data.GetOr([]));
      }
      fallbackLoading := false;
    }
  }

  /** An SDK error hides every card, even when the direct fetch has
      delivered events. */
  lemma SdkErrorHidesCards(page: Page, sdk: Sdk)
    requires sdk.error.Some?
    ensures page.Cards(sdk) == []
  {
  }

  /** A direct fetch that fails leaves no result behind, so once it has
      settled the effect is due again: the page fetches again on its next
      render, for as long as the fetch keeps failing. */
  method FailedDirectFetchIsRetried(base: string, token: Option<string>, message: string) returns (page: Page)
    requires base != ""
    ensures |page.requests| == 4 && page.requests[..2] == page.requests[2..]
    ensures page.fetchLoading && page.fetchedEvents.None? && page.fetchError.None?
  {
    page := new Page();
    page.StartDirectFetch(Some(base), token);
    assert |page.requests| == 2;
    page.SettleDirectFetch(Some(message), Ok(None), Ok(None));
    assert page.DirectFetchDue(Some(base));
    page.StartDirectFetch(Some(base), token);
    assert |page.requests| == 4;
  }
}
