/**
 * The archive download: a fetcher that is usable only when the client library is installed
 * and its client could be created, and that requests one time step of the five variables over
 * the configured region into a file of the output directory.
 * The remote service is the `CdsClient` object, which records the requests it receives; whether
 * a request raises is a parameter.
 */
module DataFetcher {
  import opened Wrappers
  import opened PyStrings
  import Config

  const VARIABLES: seq<string> := [
    "2m_temperature", "total_precipitation", "surface_pressure",
    "10m_u_component_of_wind", "10m_v_component_of_wind"]

  /** `INDIA_BOUNDS` of the fetcher, ordered North, West, South, East. */
  const INDIA_BOUNDS: seq<real> := [35.5, 68.1, 6.0, 97.4]

  const DATASET := "reanalysis-era5-single-levels"
  const DEFAULT_TIME := "12:00"

  /** The request body sent for one time step. */
  datatype Request = Request(
    productType: string, format: string, variables: seq<string>,
    year: string, month: string, day: string, time: string, area: seq<real>)

  /** One call of `retrieve`: the dataset, the request and the target path. */
  datatype Retrieval = Retrieval(dataset: string, request: Request, target: string)

  /** The fetcher asks for the same variables and region the configuration declares. */
  lemma FetcherAgreesWithConfig()
    ensures VARIABLES == Config.ERA5_VARIABLES && INDIA_BOUNDS == Config.INDIA_BOUNDS
  {
  }

  function RequestFor(year: string, month: string, day: string, time: string): (req: Request)
    ensures req.variables == VARIABLES && req.area == INDIA_BOUNDS
    ensures req.year == year && req.month == month && req.day == day && req.time == time
    ensures req.format == "netcdf" && req.productType == "reanalysis"
  {
    Request("reanalysis", "netcdf", VARIABLES, year, month, day, time, INDIA_BOUNDS)
  }

  /** `india_era5_{year}{month}{day}_{time without ':'}.nc` */
  function DefaultFilename(year: string, month: string, day: string, time: string): (name: string)
    ensures StartsWith(name, "india_era5_")
    ensures |name| >= 3 && name[|name| - 3..] == ".nc"
    ensures ':' !in year + month + day ==> ':' !in name
    ensures '/' !in year + month + day + time ==> '/' !in name
  {
    var stamp := RemoveChar(time, ':');
    var name := "india_era5_" + year + month + day + "_" + stamp + ".nc";
    assert name[..|"india_era5_"|] == "india_era5_";
    assert name[|name| - 3..] == ".nc";
    assert forall c :: c in name <==> c in "india_era5_" || c in year + month + day || c == '_' || c in stamp || c in ".nc";
    name
  }

  /** With the default time, the file name carries the time as `1200`. */
  lemma DefaultTimeStamp(year: string, month: string, day: string)
    ensures DefaultFilename(year, month, day, DEFAULT_TIME) == "india_era5_" + year + month + day + "_1200.nc"
  {
    assert DEFAULT_TIME[1..] == "2:00" && DEFAULT_TIME[1..][1..] == ":00" && DEFAULT_TIME[1..][1..][1..] == "00";
    assert RemoveChar(":00", ':') == "00";
    assert RemoveChar(DEFAULT_TIME, ':') == "1200";
  }

  /** An explicit file name is used verbatim, even an empty one; only an absent one is derived. */
  function Filename(outputFilename: Option<string>, year: string, month: string, day: string, time: string): (name: string)
    ensures outputFilename.Some? ==> name == outputFilename.value
    ensures outputFilename.None? ==> name == DefaultFilename(year, month, day, time)
  {
    outputFilename.GetOr(DefaultFilename(year, month, day, time))
  }

  /** A derived file name lands in the output directory under exactly that name. */
  lemma DownloadKeepsName(outputDir: string, year: string, month: string, day: string, time: string)
    requires '/' !in year + month + day + time
    ensures Basename(PathJoin(outputDir, Filename(None, year, month, day, time))) == DefaultFilename(year, month, day, time)
  {
    BasenameOfJoin(outputDir, DefaultFilename(year, month, day, time));
  }

  /** The client of the remote data store; it records every request it is given. */
  class CdsClient {
    var calls: seq<Retrieval>

    constructor()
      ensures calls == []
    {
      calls := [];
    }

    /** `retrieve(dataset, request, target)`; `fails` says whether the download raises. */
    method Retrieve(dataset: string, request: Request, target: string, fails: bool) returns (ok: bool)
      modifies this
      ensures calls == old(calls) + [Retrieval(dataset, request, target)]
      ensures ok <==> !fails
    {
      calls := calls + [Retrieval(dataset, request, target)];
      ok := !fails;
    }
  }

  class ERA5DataFetcher {
    var outputDir: string
    var client: CdsClient?
    var available: bool

    /** The fetcher has a client exactly when it is available. */
    ghost predicate Valid()
      reads this
    {
      available <==> client != null
    }

    /**
     * `ERA5DataFetcher(output_dir)`: an absent or empty directory falls back to the data directory.
     * `installed` says whether the client library imports, `clientStarts` whether its client
     * can be constructed.
     */
    constructor(dir: Option<string>, dataDir: string, installed: bool, clientStarts: bool)
      ensures Valid()
      ensures outputDir == (if dir.Some? && dir.value != "" then dir.value else dataDir)
      ensures available <==> installed && clientStarts
      ensures available ==> fresh(client) && client.calls == []
    {
      outputDir := if dir.Some? && dir.value != "" then dir.value else dataDir;
      if installed && clientStarts {
        client := new CdsClient();
        available := true;
      } else {
        client := null;
        available := false;
      }
    }

    /**
     * `fetch_single_time`: an unavailable fetcher answers None and sends nothing; otherwise the
     * request goes to `output_dir` joined with the file name, and that path is returned unless
     * the download raises.
     */
    method FetchSingleTime(year: string, month: string, day: string, time: string,
                           outputFilename: Option<string>, fails: bool) returns (path: Option<string>)
      requires Valid()
      modifies client
      ensures Valid() && client == old(client) && available == old(available)
      ensures !available ==> path.None?
      ensures available ==>
                var target := PathJoin(outputDir, Filename(outputFilename, year, month, day, time));
                && client.calls == old(client.calls) + [Retrieval(DATASET, RequestFor(year, month, day, time), target)]
                && path == (if fails then None else Some(target))
    {
      if !available {
        return None;
      }
      var name := Filename(outputFilename, year, month, day, time);
      var target := PathJoin(outputDir, name);
      var ok := client.Retrieve(DATASET, RequestFor(year, month, day, time), target, fails);
      if ok {
        path := Some(target);
      } else {
        path := None;
      }
    }
  }
}
