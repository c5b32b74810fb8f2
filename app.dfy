/**
 * The query session of the browser client: the four state cells `selectedLocation`,
 * `weatherData`, `isLoading` and `error`, moved by `handleLocationSelect` (select, then success
 * or failure once the request settles), by the map's click handler that guards it, and by the
 * banner's dismiss button.
 *
 * The transitions are first given as functions on a `Snapshot` of the cells; the class
 * `QuerySession` then performs them step by step and is proved to agree. A snapshot also records
 * `pending`, the point requests issued and not yet settled; it belongs to the environment, not
 * to the page, and is what lets "at most one request in flight" be stated.
 */
module App {
  import opened Wrappers
  import opened Geo
  import opened Sample
  import WeatherMap

  /** The body of an error response, as the client reads it from `err.response.data`. */
  datatype ErrorBody = ErrorBody(message: Option<string>, error: Option<string>)

  /**
   * How a point request settles: with the response data, or rejected. A rejection carries the
   * error response's body, or None when there was no response at all (network error, timeout).
   */
  datatype Outcome = Success(data: PointResponse) | Failure(body: Option<ErrorBody>)

  const CONNECTION_ERROR := "Unable to fetch weather data. Please check your connection."

  /** `err.response?.data?.message || CONNECTION_ERROR` */
  function FailureMessage(body: Option<ErrorBody>): (m: string)
    ensures m != ""
    ensures body.Some? && body.value.message.Some? && body.value.message.value != "" ==> m == body.value.message.value
    ensures body.None? || body.value.message.None? || body.value.message.value == "" ==> m == CONNECTION_ERROR
  {
    match body
    case Some(ErrorBody(Some(msg), _)) => if msg != "" then msg else CONNECTION_ERROR
    case _ => CONNECTION_ERROR
  }

  /** An `error` field in the body is never read: only `message` is. */
  lemma ErrorFieldIsIgnored(e: Option<string>, m: Option<string>)
    ensures FailureMessage(Some(ErrorBody(m, e))) == FailureMessage(Some(ErrorBody(m, None)))
    ensures FailureMessage(Some(ErrorBody(None, e))) == CONNECTION_ERROR
  {}

  datatype Snapshot = Snapshot(
    selected: Option<LatLon>,
    data: Option<PointResponse>,
    loading: bool,
    error: Option<string>,
    pending: seq<LatLon>)

  /** `useState(null)`, `useState(null)`, `useState(false)`, `useState(null)`; nothing requested. */
  const Initial := Snapshot(None, None, false, None, [])

  /** `handleLocationSelect(lat, lon)` up to its `await`: loading on, error cleared, location set, request issued. */
  function AfterSelect(s: Snapshot, lat: real, lon: real): (r: Snapshot)
    ensures r.selected == Some(LatLon(lat, lon)) && r.loading && r.error == None
    ensures r.data == s.data
    ensures r.pending == s.pending + [LatLon(lat, lon)]
  {
    Snapshot(Some(LatLon(lat, lon)), s.data, true, None, s.pending + [LatLon(lat, lon)])
  }

  /** A click on the map: it selects only when the gate lets it through, and changes nothing otherwise. */
  function AfterClick(s: Snapshot, lat: real, lon: real): (r: Snapshot)
    ensures s.loading ==> r == s
    ensures !WeatherMap.AcceptsClick(s.loading, lat, lon) ==> r == s
    ensures WeatherMap.AcceptsClick(s.loading, lat, lon) ==> r == AfterSelect(s, lat, lon)
  {
    if WeatherMap.AcceptsClick(s.loading, lat, lon) then AfterSelect(s, lat, lon) else s
  }

  /**
   * Request number `i` of `pending` settles. The rest of `handleLocationSelect` runs with no
   * check of which selection the request was for: data (or error and no data), then loading off.
   */
  function AfterComplete(s: Snapshot, i: nat, o: Outcome): (r: Snapshot)
    ensures i >= |s.pending| ==> r == s
    ensures i < |s.pending| ==> !r.loading && r.selected == s.selected && |r.pending| == |s.pending| - 1
    ensures i < |s.pending| && o.Success? ==> r.data == Some(o.data) && r.error == s.error
    ensures i < |s.pending| && o.Failure? ==> r.data == None && r.error == Some(FailureMessage(o.body))
  {
    if i >= |s.pending| then s
    else
      var rest := s.pending[..i] + s.pending[i + 1..];
      match o
      case Success(d) => Snapshot(s.selected, Some(d), false, s.error, rest)
      case Failure(b) => Snapshot(s.selected, None, false, Some(FailureMessage(b)), rest)
  }

  /** The banner's close button: `setError(null)`; nothing else changes. */
  function AfterDismiss(s: Snapshot): (r: Snapshot)
    ensures r.error == None
    ensures r.(error := s.error) == s
    ensures s.error == None ==> r == s
  {
    s.(error := None)
  }

  datatype Event = Click(lat: real, lon: real) | Settle(i: nat, outcome: Outcome) | Dismiss

  function Step(s: Snapshot, e: Event): Snapshot {
    match e
    case Click(lat, lon) => AfterClick(s, lat, lon)
    case Settle(i, o) => AfterComplete(s, i, o)
    case Dismiss => AfterDismiss(s)
  }

  function Run(s: Snapshot, events: seq<Event>): Snapshot
    decreases |events|
  {
    if |events| == 0 then s else Run(Step(s, events[0]), events[1..])
  }

  /**
   * The session invariant: loading means no error, one request is in flight exactly while
   * loading and it is for the selected point, and an error is never an empty string.
   */
  predicate Inv(s: Snapshot) {
    && (s.loading ==> s.error == None)
    && |s.pending| <= 1
    && (s.loading <==> |s.pending| == 1)
    && (s.loading ==> s.selected == Some(s.pending[0]))
    && (s.error.Some? ==> s.error.value != "")
  }

  lemma InitialInv()
    ensures Inv(Initial)
    ensures Initial.selected == None && Initial.data == None && !Initial.loading && Initial.error == None
  {}

  /** Every transition reachable through the gated click handler keeps the invariant. */
  lemma StepKeepsInv(s: Snapshot, e: Event)
    requires Inv(s)
    ensures Inv(Step(s, e))
  {
    match e
    case Click(lat, lon) =>
    case Settle(i, o) =>
    case Dismiss =>
  }

  lemma {:induction false} RunKeepsInv(s: Snapshot, events: seq<Event>)
    requires Inv(s)
    ensures Inv(Run(s, events))
    decreases |events|
  {
    if |events| > 0 {
      StepKeepsInv(s, events[0]);
      RunKeepsInv(Step(s, events[0]), events[1..]);
    }
  }

  /** From page load, whatever the user and the network do, at most one request is ever in flight. */
  lemma AtMostOneRequestInFlight(events: seq<Event>)
    ensures |Run(Initial, events).pending| <= 1
    ensures Run(Initial, events).loading ==> Run(Initial, events).error == None
  {
    RunKeepsInv(Initial, events);
  }

  /**
   * With the gate, the request that settles is always the one for the selected point, so the data
   * shown after a success answers the location the marker is on.
   */
  lemma SettledRequestIsForSelection(s: Snapshot, i: nat, o: Outcome)
    requires Inv(s) && i < |s.pending|
    ensures s.selected == Some(s.pending[i])
    ensures AfterComplete(s, i, o).selected == Some(s.pending[i])
    ensures AfterComplete(s, i, o).pending == []
  {}

  /** Once a location has been selected, no sequence of events clears it. */
  lemma {:induction false} SelectionIsNeverCleared(s: Snapshot, events: seq<Event>)
    requires s.selected.Some?
    ensures Run(s, events).selected.Some?
    decreases |events|
  {
    if |events| > 0 {
      SelectionIsNeverCleared(Step(s, events[0]), events[1..]);
    }
  }

  /**
   * The session itself has no stale-response guard: without the gate, two overlapping selections
   * let the first response land while the marker is on the second point, with loading already
   * off although a request is still in flight.
   */
  lemma UngatedSelectionsOverlap(a: LatLon, b: LatLon, d: PointResponse)
    requires a != b
    ensures var s := AfterSelect(AfterSelect(Initial, a.latitude, a.longitude), b.latitude, b.longitude);
            var r := AfterComplete(s, 0, Success(d));
            && s.pending == [a, b]
            && r.data == Some(d) && r.selected == Some(b) && r.pending == [b]
            && !r.loading && !Inv(r)
  {
    var s := AfterSelect(AfterSelect(Initial, a.latitude, a.longitude), b.latitude, b.longitude);
    assert s.pending == [a, b];
    assert s.pending[..0] + s.pending[1..] == [b];
  }

  /** `{error && ...}`: the banner shows when `error` is truthy (a non-empty string). */
  predicate BannerShown(s: Snapshot) {
    s.error.Some? && s.error.value != ""
  }

  /** Under the invariant the banner is shown exactly when there is an error, and never while loading. */
  lemma BannerMatchesError(s: Snapshot)
    requires Inv(s)
    ensures BannerShown(s) <==> s.error.Some?
    ensures s.loading ==> !BannerShown(s)
  {}

  /** After the first selection the map's "click to select" hint never comes back. */
  lemma {:induction false} HintGoneAfterSelection(s: Snapshot, events: seq<Event>)
    requires s.selected.Some?
    ensures !WeatherMap.Render(Run(s, events).selected, Run(s, events).data, Run(s, events).loading).hint
  {
    SelectionIsNeverCleared(s, events);
  }

  /** The state cells of `App`. */
  class QuerySession {
    var selectedLocation: Option<LatLon>
    var weatherData: Option<PointResponse>
    var isLoading: bool
    var error: Option<string>
    ghost var pending: seq<LatLon>

    ghost function State(): Snapshot
      reads this
    {
      Snapshot(selectedLocation, weatherData, isLoading, error, pending)
    }

    constructor()
      ensures State() == Initial
      ensures selectedLocation == None && weatherData == None && !isLoading && error == None
    {
      selectedLocation := None;
      weatherData := None;
      isLoading := false;
      error := None;
      pending := [];
    }

    /** `handleLocationSelect(lat, lon)` until its request is sent. */
    method HandleLocationSelect(lat: real, lon: real)
      modifies this
      ensures State() == AfterSelect(old(State()), lat, lon)
    {
      isLoading := true;
      error := None;
      selectedLocation := Some(LatLon(lat, lon));
      pending := pending + [LatLon(lat, lon)];
    }

    /** The map's click handler: returns whether `onLocationSelect` was called. */
    method Click(lat: real, lon: real) returns (accepted: bool)
      modifies this
      ensures accepted == WeatherMap.AcceptsClick(old(isLoading), lat, lon)
      ensures State() == AfterClick(old(State()), lat, lon)
    {
      if isLoading {
        return false;
      }
      if 6.0 <= lat <= 35.5 && 68.1 <= lon <= 97.4 {
        HandleLocationSelect(lat, lon);
        accepted := true;
      } else {
        accepted := false;
      }
    }

    /** The rest of `handleLocationSelect` when request `i` settles: try/catch, then finally. */
    method Settle(i: nat, outcome: Outcome)
      requires i < |pending|
      modifies this
      ensures State() == AfterComplete(old(State()), i, outcome)
    {
      match outcome {
        case Success(d) =>
          weatherData := Some(d);
        case Failure(body) =>
          error := Some(FailureMessage(body));
          weatherData := None;
      }
      isLoading := false;
      pending := pending[..i] + pending[i + 1..];
    }

    /** The banner's dismiss button. */
    method DismissError()
      modifies this
      ensures State() == AfterDismiss(old(State()))
    {
      error := None;
    }
  }
}
