/**
 * The HTTP layer of the backend: the allowed CORS origins, the health, point, grid and dataset
 * endpoints with their status codes, and the log of point queries kept in the database.
 *
 * Query parameters arrive already converted: `request.args.get(name, type=float)` yields None
 * both when the parameter is missing and when it does not parse, and that is the `Option` the
 * handlers receive. Whether the database commit succeeds is a parameter of the point handler.
 */
module FlaskApp {
  import opened Wrappers
  import opened Geo
  import opened Sample
  import opened Seqs
  import opened PyStrings
  import opened WeatherService
  import App
  import Header

  /* ---------- CORS ---------- */

  const DEFAULT_FRONTEND := "http://localhost:5173"
  const FIXED_ORIGINS: seq<string> := [
    "http://localhost:5173", "http://localhost:5174", "http://localhost:3000",
    "https://era5-visualizer.vercel.app"]

  /**
   * `FRONTEND_URL` split at commas, then the fixed origins, with duplicates removed. The order
   * of `list(set(...))` is unspecified; this keeps first occurrences.
   */
  function CorsOrigins(frontendUrl: Option<string>): (origins: seq<string>)
    ensures NoDuplicates(origins)
    ensures forall o :: o in origins <==> o in Split(frontendUrl.GetOr(DEFAULT_FRONTEND), ',') || o in FIXED_ORIGINS
  {
    Dedup(Split(frontendUrl.GetOr(DEFAULT_FRONTEND), ',') + FIXED_ORIGINS)
  }

  /** A deployment naming its own frontend keeps every listed URL and every fixed origin, each once. */
  lemma CorsKeepsDeploymentOrigins(frontendUrl: string, o: string)
    requires o in Split(frontendUrl, ',') || o in FIXED_ORIGINS
    ensures o in CorsOrigins(Some(frontendUrl))
    ensures |set x | x in CorsOrigins(Some(frontendUrl)) && x == o| == 1
  {
    var origins := CorsOrigins(Some(frontendUrl));
    assert (set x | x in origins && x == o) == {o};
  }

  /* ---------- responses ---------- */

  datatype Body =
    | Error(error: string)
    | Point(point: PointResponse)
    | Grid(grid: GridResult)
    | DatasetBody(info: DatasetInfo)
    | Health(status: string, serviceAvailable: bool, bounds: Option<Box>)
    | StatsBody(totalQueries: nat)

  datatype Response = Response(code: int, body: Body)

  const MISSING_COORDINATES := "Missing lat or lon parameter"
  const UNAVAILABLE := "Weather service unavailable"
  const POINT_FAILED := "Failed to get weather data"
  const GRID_FAILED := "Failed to get grid data"

  /**
   * `get_weather`'s ladder: a missing or unparsable coordinate is a 400 before the service is
   * consulted, an unavailable service a 503, no data a 500, and otherwise the data with 200.
   */
  function PointReply(lat: Option<real>, lon: Option<real>, available: bool, data: Option<PointResponse>): (r: Response)
    ensures r.code == 400 <==> lat.None? || lon.None?
    ensures r.code == 503 <==> lat.Some? && lon.Some? && !available
    ensures r.code == 500 <==> lat.Some? && lon.Some? && available && data.None?
    ensures r.code == 200 <==> lat.Some? && lon.Some? && available && data.Some?
    ensures r.code == 200 ==> r.body == Point(data.value)
    ensures r.code != 200 ==> r.body.Error?
  {
    if lat.None? || lon.None? then Response(400, Error(MISSING_COORDINATES))
    else if !available then Response(503, Error(UNAVAILABLE))
    else if data.None? then Response(500, Error(POINT_FAILED))
    else Response(200, Point(data.value))
  }

  /** What the browser client reads from an error response: the backend fills `error`, never `message`. */
  function ClientErrorBody(r: Response): (b: Option<App.ErrorBody>)
    requires r.body.Error?
    ensures b.Some? && b.value.message.None? && b.value.error == Some(r.body.error)
  {
    Some(App.ErrorBody(None, Some(r.body.error)))
  }

  /** Whatever goes wrong on the backend, the page shows its fixed connection message. */
  lemma BackendErrorsShowFallback(lat: Option<real>, lon: Option<real>, available: bool, data: Option<PointResponse>)
    requires PointReply(lat, lon, available, data).code != 200
    ensures App.FailureMessage(ClientErrorBody(PointReply(lat, lon, available, data))) == App.CONNECTION_ERROR
  {
    App.ErrorFieldIsIgnored(Some(PointReply(lat, lon, available, data).body.error), None);
  }

  /** `(lo, hi) if lo and hi else None`: both bounds must be present and non-zero. */
  function RangeOf(lo: Option<real>, hi: Option<real>): (r: Option<(real, real)>)
    ensures r.Some? <==> lo.Some? && hi.Some? && lo.value != 0.0 && hi.value != 0.0
    ensures r.Some? ==> r.value == (lo.value, hi.value)
  {
    if lo.Some? && hi.Some? && lo.value != 0.0 && hi.value != 0.0 then Some((lo.value, hi.value)) else None
  }

  /** A range with a bound at zero (the equator, the prime meridian) is dropped and the whole axis is served. */
  lemma ZeroBoundDropsRange(lo: Option<real>, hi: Option<real>)
    requires lo == Some(0.0) || hi == Some(0.0)
    ensures RangeOf(lo, hi).None?
  {
  }

  /** The grid request's parameters as parsed; None where absent or not convertible. */
  datatype GridArgs = GridArgs(
    variable: Option<string>,
    latMin: Option<real>, latMax: Option<real>,
    lonMin: Option<real>, lonMax: Option<real>,
    downsample: Option<int>)

  /** The variable requested, `t2m` when absent. */
  function VariableOf(args: GridArgs): (v: string)
    ensures args.variable.None? ==> v == "t2m"
    ensures args.variable.Some? ==> v == args.variable.value
  {
    args.variable.GetOr("t2m")
  }

  /** The thinning step requested, 4 when absent or not an integer. */
  function DownsampleOf(args: GridArgs): (k: int)
    ensures args.downsample.None? ==> k == 4
    ensures args.downsample.Some? ==> k == args.downsample.value
  {
    args.downsample.GetOr(4)
  }

  /** A grid request with no parameters asks for 2 m temperature over the whole grid, every 4th point. */
  lemma GridDefaults()
    ensures var args := GridArgs(None, None, None, None, None, None);
            VariableOf(args) == "t2m" && DownsampleOf(args) == 4 &&
            RangeOf(args.latMin, args.latMax).None? && RangeOf(args.lonMin, args.lonMax).None?
  {
  }

  /**
   * A bare grid request for a file holding 2 m temperature is served: it gets the whole grid of
   * that variable, thinned to every 4th point.
   */
  lemma BareGridRequestServed(ds: Dataset)
    requires WellFormed(ds) && "t2m" in ds.fields
    ensures var args := GridArgs(None, None, None, None, None, None);
            GridQuery(ds, args) == GridAnswer(ds, "t2m", None, None, 4) && GridQuery(ds, args).Some?
  {
    WholeGridServed(ds, "t2m", 4);
  }

  /* ---------- the query log ---------- */

  /** A row of `weather_queries`; the response is kept as the value that `str(data)` renders. */
  datatype WeatherQuery = WeatherQuery(latitude: real, longitude: real, responseData: PointResponse)

  /** The database session over the query table: rows committed and rows added since the last commit. */
  class QueryLog {
    var rows: seq<WeatherQuery>
    var pending: seq<WeatherQuery>

    constructor()
      ensures rows == [] && pending == []
    {
      rows := [];
      pending := [];
    }

    /** `db.session.add(q)` */
    method Add(q: WeatherQuery)
      modifies this
      ensures pending == old(pending) + [q] && rows == old(rows)
    {
      pending := pending + [q];
    }

    /** `db.session.commit()`; `succeeds` says whether the database accepts it. A failed commit stores nothing. */
    method Commit(succeeds: bool) returns (ok: bool)
      modifies this
      ensures ok <==> succeeds
      ensures ok ==> rows == old(rows) + old(pending) && pending == []
      ensures !ok ==> rows == old(rows) && pending == old(pending)
    {
      ok := succeeds;
      if ok {
        rows := rows + pending;
        pending := [];
      }
    }

    /** `db.session.rollback()` */
    method Rollback()
      modifies this
      ensures rows == old(rows) && pending == []
    {
      pending := [];
    }

    /** `get_stats`: the number of stored queries. */
    method Stats() returns (r: Response)
      ensures r == Response(200, StatsBody(|rows|))
    {
      r := Response(200, StatsBody(|rows|));
    }
  }

  /* ---------- the endpoints ---------- */

  /** `health_check`: always healthy; bounds only when the service is available. */
  function HealthReply(available: bool, bounds: Option<Box>): (r: Response)
    ensures r.code == 200 && r.body.Health? && r.body.status == "healthy"
    ensures r.body.serviceAvailable == available
    ensures !available ==> r.body.bounds.None?
    ensures available ==> r.body.bounds == bounds
  {
    Response(200, Health("healthy", available, if available then bounds else None))
  }

  /** A page whose health check reaches a backend without data shows it offline, whatever the dataset reply. */
  lemma UnavailableBackendShowsOffline(s: Header.HeaderSnapshot, bounds: Option<Box>, info: Header.InfoReply)
    ensures var r := HealthReply(false, bounds);
            Header.AfterCheck(s, Header.Health(r.body.serviceAvailable), info).status == Header.Offline
  {
  }

  method HealthCheck(service: WeatherService) returns (r: Response)
    requires service.Valid()
    ensures r == HealthReply(service.IsAvailable(), if service.IsAvailable() then Some(Bounds(service.dataset.value)) else None)
  {
    var available := service.IsAvailable();
    var bounds := None;
    if available {
      bounds := service.GetBounds();
    }
    r := HealthReply(available, bounds);
  }

  /**
   * `get_weather`: the ladder of `PointReply`, and for a successful answer one query row
   * logged. A failed commit is rolled back: nothing is stored and the answer is unchanged.
   */
  method GetWeather(lat: Option<real>, lon: Option<real>, service: WeatherService, num: Numerics,
                    log: QueryLog, commitSucceeds: bool) returns (r: Response)
    requires service.Valid()
    modifies log
    ensures var available := service.IsAvailable();
            r == PointReply(lat, lon, available,
                            if lat.Some? && lon.Some? && available then Some(PointAt(service.dataset.value, lat.value, lon.value, num)) else None)
    ensures r.code == 200 && commitSucceeds ==>
              log.rows == old(log.rows) + old(log.pending) + [WeatherQuery(lat.value, lon.value, r.body.point)] && log.pending == []
    ensures r.code == 200 && !commitSucceeds ==> log.rows == old(log.rows) && log.pending == []
    ensures r.code != 200 ==> log.rows == old(log.rows) && log.pending == old(log.pending)
  {
    if lat.None? || lon.None? {
      return PointReply(lat, lon, service.IsAvailable(), None);
    }
    if !service.IsAvailable() {
      return PointReply(lat, lon, false, None);
    }
    var data := service.GetWeatherAtPoint(lat.value, lon.value, num);
    r := PointReply(lat, lon, true, data);
    if data.None? {
      return;
    }
    log.Add(WeatherQuery(lat.value, lon.value, data.value));
    var ok := log.Commit(commitSucceeds);
    if !ok {
      log.Rollback();
    }
  }

  /** What the grid endpoint asks the service for: the requested (or default) variable, ranges and step. */
  function GridQuery(ds: Dataset, args: GridArgs): (r: Option<GridResult>)
    requires WellFormed(ds)
    ensures r == GridAnswer(ds, VariableOf(args), RangeOf(args.latMin, args.latMax),
                            RangeOf(args.lonMin, args.lonMax), DownsampleOf(args))
  {
    GridAnswer(ds, VariableOf(args), RangeOf(args.latMin, args.latMax), RangeOf(args.lonMin, args.lonMax), DownsampleOf(args))
  }

  /**
   * `get_grid_data`: 503 when the service has no data, 500 when the service answers None (an
   * unknown variable, or nothing left after the cut), otherwise the grid with 200.
   */
  method GetGridData(args: GridArgs, service: WeatherService) returns (r: Response)
    requires service.Valid()
    ensures !service.IsAvailable() <==> r == Response(503, Error(UNAVAILABLE))
    ensures service.IsAvailable() ==>
              var answer := GridQuery(service.dataset.value, args);
              && (answer.Some? ==> r == Response(200, Grid(answer.value)))
              && (answer.None? ==> r == Response(500, Error(GRID_FAILED)))
    ensures service.IsAvailable() && VariableOf(args) !in service.dataset.value.fields ==> r == Response(500, Error(GRID_FAILED))
    ensures r.code == 200 || r.code == 500 || r.code == 503
    ensures r.code == 200 ==> r.body.Grid? && r.body.grid.variable == VariableOf(args)
    ensures r.code == 200 ==>
              var latRange := RangeOf(args.latMin, args.latMax);
              forall i :: 0 <= i < |r.body.grid.latitude| ==>
                r.body.grid.latitude[i] in service.dataset.value.latitudes &&
                (latRange.Some? ==> InRange(r.body.grid.latitude[i], latRange.value))
    ensures r.code == 200 ==>
              var lonRange := RangeOf(args.lonMin, args.lonMax);
              forall j :: 0 <= j < |r.body.grid.longitude| ==>
                r.body.grid.longitude[j] in service.dataset.value.longitudes &&
                (lonRange.Some? ==> InRange(r.body.grid.longitude[j], lonRange.value))
  {
    if !service.IsAvailable() {
      return Response(503, Error(UNAVAILABLE));
    }
    var latRange := RangeOf(args.latMin, args.latMax);
    var lonRange := RangeOf(args.lonMin, args.lonMax);
    var data := service.GetGridData(VariableOf(args), latRange, lonRange, DownsampleOf(args));
    if data.None? {
      return Response(500, Error(GRID_FAILED));
    }
    r := Response(200, Grid(data.value));
  }

  /** `get_dataset_info`: 503 when the service has no data, otherwise the file name, variables and bounds. */
  method GetDatasetInfo(service: WeatherService) returns (r: Response)
    requires service.Valid()
    ensures !service.IsAvailable() ==> r == Response(503, Error(UNAVAILABLE))
    ensures service.IsAvailable() ==>
              r == Response(200, DatasetBody(DatasetInfo(Basename(service.netcdfPath), service.dataset.value.fields.Keys,
                                                     Some(Bounds(service.dataset.value)))))
  {
    if !service.IsAvailable() {
      return Response(503, Error(UNAVAILABLE));
    }
    var info := service.GetDatasetInfo();
    r := Response(200, DatasetBody(info.value));
  }
}
