/** The management dashboard: its venue-name map, the rows it lists, the
    cells it shows, and the diagnostic fallback fetch it makes when the SDK
    hook fails, with its normalised `Authorization` header. */
module Dashboard {
  import opened Common
  import opened Records
  import Text

  // ---------------------------------------------------------------------
  // The venue map
  // ---------------------------------------------------------------------

  /** A venue enters the dashboard's map only when both its name and its
      venue name are truthy. */
  predicate Listed(v: VenueRecord) {
    Truthy(v.name) && Truthy(v.venueName)
  }

  /** The listed venue at `j` is the last listed venue named `k`. */
  predicate LastListed(vs: seq<VenueRecord>, k: string, j: int) {
    0 <= j < |vs| && Listed(vs[j]) && vs[j].name == Some(k)
    && forall l :: j < l < |vs| ==> !(Listed(vs[l]) && vs[l].name == Some(k))
  }

  /** `venueMap`: each listed venue maps its name to its venue name, a later
      listed venue overwriting an earlier one; a venue with an empty venue
      name overwrites nothing. */
  function VenueMapOf(vs: seq<VenueRecord>): (m: map<string, string>)
    ensures forall k :: k in m ==> exists j :: LastListed(vs, k, j) && m[k] == vs[j].venueName.value
    ensures forall j :: 0 <= j < |vs| && Listed(vs[j]) ==> vs[j].name.value in m
    decreases |vs|
  {
    if vs == [] then map[]
    else
      var init := vs[..|vs| - 1];
      var v := vs[|vs| - 1];
      var m := VenueMapOf(init);
      assert forall j :: 0 <= j < |init| ==> init[j] == vs[j];
      if Listed(v) then
        assert LastListed(vs, v.name.value, |vs| - 1);
        assert forall k, j :: k != v.name.value && LastListed(init, k, j) ==> LastListed(vs, k, j);
        m[v.name.value := v.venueName.value]
      else
        assert forall k, j :: LastListed(init, k, j) ==> LastListed(vs, k, j);
        m
  }

  /** A venue without a venue name never appears, not even under its id. */
  lemma UnnamedVenueNotMapped(vs: seq<VenueRecord>, k: string)
    requires forall j :: 0 <= j < |vs| && vs[j].name == Some(k) ==> !Truthy(vs[j].venueName)
    ensures k !in VenueMapOf(vs)
  {
  }

  /** One more venue extends the map of the ones before it. */
  lemma VenueMapOfSnoc(vs: seq<VenueRecord>, i: int)
    requires 0 <= i < |vs|
    ensures Listed(vs[i]) ==> VenueMapOf(vs[..i + 1]) == VenueMapOf(vs[..i])[vs[i].name.value := vs[i].venueName.value]
    ensures !Listed(vs[i]) ==> VenueMapOf(vs[..i + 1]) == VenueMapOf(vs[..i])
  {
    var p := vs[..i + 1];
    assert p[..|p| - 1] == vs[..i];
    assert p[|p| - 1] == vs[i];
  }

  /** The `forEach` that fills `venueMap`; anything but a list adds nothing. */
  method BuildVenueMap(venues: Option<seq<VenueRecord>>) returns (m: map<string, string>)
    ensures m == VenueMapOf(venues.GetOr([]))
  {
    m := map[];
    if venues.None? {
      return;
    }
    var vs := venues.value;
    var i := 0;
    while i < |vs|
      invariant 0 <= i <= |vs|
      invariant m == VenueMapOf(vs[..i])
    {
      var v := vs[i];
      VenueMapOfSnoc(vs, i);
      if Truthy(v.name) && Truthy(v.venueName) {
        m := m[v.name.value := v.venueName.value];
      }
      i := i + 1;
    }
    assert vs[..|vs|] == vs;
  }

  // ---------------------------------------------------------------------
  // Rows and cells
  // ---------------------------------------------------------------------

  /** `events || fallbackData`: a list from the SDK, even an empty one, is
      truthy and wins; the fallback rows are shown only when the SDK has no
      list. */
  function Rows(events: Option<seq<EventRecord>>, fallbackData: seq<EventRecord>): (rows: seq<EventRecord>)
    ensures events.Some? ==> rows == events.value
    ensures events.None? ==> rows == fallbackData
  {
    if events.Some? then events.value else fallbackData
  }

  const Dash := "—"

  /** The Venue cell: `venueMap[venue] ?? venue ?? "—"`. */
  function VenueCell(ev: EventRecord, venueMap: map<string, string>): (c: string)
    ensures ev.venue.Some? && ev.venue.value in venueMap ==> c == venueMap[ev.venue.value]
    ensures ev.venue.Some? && ev.venue.value !in venueMap ==> c == ev.venue.value
    ensures ev.venue.None? ==> c == Dash
  {
    if ev.venue.Some? && ev.venue.value in venueMap then venueMap[ev.venue.value]
    else ev.venue.GetOr(Dash)
  }

  /** The Event Name cell: `event_name ?? custom_event_name ?? "—"`, the
      opposite precedence to the public home page's title. */
  function NameCell(ev: EventRecord): (c: string)
    ensures ev.eventName.Some? ==> c == ev.eventName.value
    ensures ev.eventName.None? && ev.customEventName.Some? ==> c == ev.customEventName.value
    ensures ev.eventName.None? && ev.customEventName.None? ==> c == Dash
  {
    ev.eventName.OrElse(ev.customEventName).GetOr(Dash)
  }

  // ---------------------------------------------------------------------
  // The Authorization header
  // ---------------------------------------------------------------------

  const TokenPrefix := "token "

  /** The trimmed token, prefixed with `token ` unless it already starts with
      it in any letter case. */
  function AuthHeader(token: string): (h: string)
    ensures Text.StartsWith(Text.Lower(Text.Trim(token)), TokenPrefix) ==> h == Text.Trim(token)
    ensures !Text.StartsWith(Text.Lower(Text.Trim(token)), TokenPrefix) ==> h == TokenPrefix + Text.Trim(token)
  {
    var t := Text.Trim(token);
    if Text.StartsWith(Text.Lower(t), TokenPrefix) then t else TokenPrefix + t
  }

  /** `token ` followed by anything lowercases to something starting with `token `. */
  lemma PrefixSurvivesLower(t: string)
    ensures Text.StartsWith(Text.Lower(TokenPrefix + t), TokenPrefix)
  {
    Text.LowerAppend(TokenPrefix, t);
    assert Text.Lower(TokenPrefix) == TokenPrefix;
    assert Text.Lower(TokenPrefix + t) == TokenPrefix + Text.Lower(t);
  }

  /** Whatever the token, the header starts with `token ` in some letter case. */
  lemma AuthHeaderPrefixed(token: string)
    ensures Text.StartsWith(Text.Lower(AuthHeader(token)), TokenPrefix)
  {
    PrefixSurvivesLower(Text.Trim(token));
  }

  /** Prefixing a non-blank trimmed token gives text that trims to itself. */
  lemma PrefixedUnpadded(t: string)
    requires t != [] && !Text.IsSpace(t[|t| - 1])
    ensures Text.Trim(TokenPrefix + t) == TokenPrefix + t
  {
    var h := TokenPrefix + t;
    assert h[|h| - 1] == t[|t| - 1];
    assert h[0] == 't';
    Text.TrimUnpadded(h);
  }

  /** For a token that is not blank, normalising twice is normalising once. */
  lemma AuthHeaderIdempotent(token: string)
    requires Text.Trim(token) != ""
    ensures AuthHeader(AuthHeader(token)) == AuthHeader(token)
  {
    var t := Text.Trim(token);
    Text.TrimIdempotent(token);
    if !Text.StartsWith(Text.Lower(t), TokenPrefix) {
      PrefixedUnpadded(t);
      PrefixSurvivesLower(t);
    }
  }

  /** One trailing white-space character after unpadded text is trimmed off. */
  lemma TrimDropsTrailingSpace(t: string, c: char)
    requires t != [] && !Text.IsSpace(t[0]) && !Text.IsSpace(t[|t| - 1]) && Text.IsSpace(c)
    ensures Text.Trim(t + [c]) == t
  {
    var s := t + [c];
    assert s[0] == t[0];
    assert Text.TrimStart(s) == s;
    assert s[..|s| - 1] == t;
    assert Text.TrimEnd(t) == t;
    assert Text.TrimEnd(s) == t;
  }

  /** A short unpadded word followed by one white-space character is trimmed
      to the word and then prefixed. */
  lemma PaddedShortWordPrefixed(w: string, c: char)
    requires w != [] && !Text.IsSpace(w[0]) && !Text.IsSpace(w[|w| - 1]) && Text.IsSpace(c)
    requires |w| < |TokenPrefix|
    ensures AuthHeader(w + [c]) == TokenPrefix + w
  {
    TrimDropsTrailingSpace(w, c);
    assert !Text.StartsWith(Text.Lower(w), TokenPrefix);
  }

  /** The bare prefix trims to `token` and is prefixed again. */
  lemma BarePrefixPrefixedAgain()
    ensures AuthHeader(TokenPrefix) == "token token"
  {
    var word := "token";
    assert TokenPrefix == word + [' '];
    PaddedShortWordPrefixed(word, ' ');
  }

  /** A blank token breaks idempotence: it becomes `token `, which is then
      normalised to `token token`. */
  lemma BlankTokenNotIdempotent(token: string)
    requires forall i :: 0 <= i < |token| ==> Text.IsSpace(token[i])
    ensures AuthHeader(token) == TokenPrefix
    ensures AuthHeader(AuthHeader(token)) == "token token"
  {
    assert Text.Trim(token) == "";
    assert Text.Lower("") == "";
    assert AuthHeader(token) == TokenPrefix + "";
    BarePrefixPrefixedAgain();
  }

  // ---------------------------------------------------------------------
  // The fallback fetch
  // ---------------------------------------------------------------------

  const NoBaseMessage := "No VITE_FRAPPE_BASE_URL set."
  const NoTokenMessage := "No VITE_FRAPPE_API_TOKEN set."
  const FailedPrefix := "Fallback fetch failed: "
  const ThrewPrefix := "Fallback fetch threw error: "
  const FallbackPath := "/api/resource/Custom%20Event?limit_page_length=10&fields=[\"name\",\"event_name\",\"start_date\",\"end_date\",\"status\",\"venue\"]"

  /** The GET the fallback sends, with its `Authorization` header. */
  datatype FetchRequest = FetchRequest(url: string, authorization: string)

  /** How the fallback fetch ended: the request or the JSON parsing threw,
      the response was not OK, or it was OK with a `data` field (`None` when
      missing). */
  datatype Outcome = Threw(message: string) | NotOk(status: nat, statusText: string) | Ok(data: Option<seq<EventRecord>>)

  /** The dashboard's state: the fallback's error and rows, and the requests
      it sent. */
  class Page {
    var fallbackError: Option<string>
    var fallbackData: seq<EventRecord>
    var requests: seq<FetchRequest>

    constructor ()
      ensures fallbackError.None? && fallbackData == [] && requests == []
    {
      fallbackError := None;
      fallbackData := [];
      requests := [];
    }

    /** The effect that runs when the SDK hook's error changes. It does
        nothing unless the hook reports an error; then a missing base URL is
        reported before a missing token, and either stops it. Otherwise one
        request is sent; a response that is not OK sets an error with its
        status and keeps the rows; an OK one replaces the rows (an empty list
        when `data` is missing) and leaves any earlier error in place. */
    method FallbackEffect(sdkError: bool, base: Option<string>, token: Option<string>, outcome: Outcome)
      modifies this
      ensures !sdkError ==> fallbackError == old(fallbackError) && fallbackData == old(fallbackData) && requests == old(requests)
      ensures sdkError && !Truthy(base) ==>
        fallbackError == Some(NoBaseMessage) && fallbackData == old(fallbackData) && requests == old(requests)
      ensures sdkError && Truthy(base) && !Truthy(token) ==>
        fallbackError == Some(NoTokenMessage) && fallbackData == old(fallbackData) && requests == old(requests)
      ensures sdkError && Truthy(base) && Truthy(token) ==>
        requests == old(requests) + [FetchRequest(Text.StripTrailingSlash(base.value) + FallbackPath, AuthHeader(token.value))]
      ensures sdkError && Truthy(base) && Truthy(token) && outcome.NotOk? ==>
        && fallbackError == Some(FailedPrefix + Text.NatToString(outcome.status) + " " + outcome.statusText)
        && fallbackData == old(fallbackData)
      ensures sdkError && Truthy(base) && Truthy(token) && outcome.Threw? ==>
        fallbackError == Some(ThrewPrefix + outcome.message) && fallbackData == old(fallbackData)
      ensures sdkError && Truthy(base) && Truthy(token) && outcome.Ok? ==>
        fallbackData == outcome.data.GetOr([]) && fallbackError == old(fallbackError)
    {
      if !sdkError {
        return;
      }
      if !Truthy(base) {
        fallbackError := Some(NoBaseMessage);
        return;
      }
      if !Truthy(token) {
        fallbackError := Some(NoTokenMessage);
        return;
      }
      var url := Text.StripTrailingSlash(base.value) + FallbackPath;
      requests := requests + [FetchRequest(url, AuthHeader(token.value))];
      match outcome
      case Threw(message) =>
        fallbackError := Some(ThrewPrefix + message);
      case NotOk(status, statusText) =>
        fallbackError := Some(FailedPrefix + Text.NatToString(status) + " " + statusText);
      case Ok(data) =>
        fallbackData := data.GetOr([]);
    }
  }
}
