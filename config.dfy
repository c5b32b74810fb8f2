/**
 * The backend configuration: the database URL (a SQLite file under the data directory unless
 * `DATABASE_URL` is set, with the `postgres://` scheme rewritten for SQLAlchemy), the data
 * files, the region requested from the archive and the per-environment overrides.
 * The environment is a parameter: `None` where a variable is unset.
 */
module Config {
  import opened Wrappers
  import opened Geo
  import opened PyStrings
  import WeatherMap

  const LEGACY_SCHEME := "postgres://"
  const SQLALCHEMY_SCHEME := "postgresql://"

  /** `_DB_DIR`: the `data` directory beside the configuration module. */
  function DbDir(moduleDir: string): string {
    PathJoin(moduleDir, "data")
  }

  /** The database URL when `DATABASE_URL` is unset: a SQLite file `era5.db` in the data directory. */
  function DefaultDatabaseUrl(dbDir: string): (url: string)
    ensures StartsWith(url, "sqlite:///")
    ensures !StartsWith(url, LEGACY_SCHEME)
  {
    var url := "sqlite:///" + PathJoin(dbDir, "era5.db");
    assert url[..|"sqlite:///"|] == "sqlite:///";
    assert url[6] != LEGACY_SCHEME[6];
    url
  }

  /**
   * A URL with the `postgres://` scheme gets `postgresql://` in its place (first occurrence
   * only); any other URL is kept as it is.
   */
  function FixDatabaseUrl(url: string): (r: string)
    ensures StartsWith(url, LEGACY_SCHEME) ==> r == SQLALCHEMY_SCHEME + url[|LEGACY_SCHEME|..]
    ensures !StartsWith(url, LEGACY_SCHEME) ==> r == url
    ensures !StartsWith(r, LEGACY_SCHEME)
  {
    if StartsWith(url, LEGACY_SCHEME) then
      var r := ReplaceFirst(url, LEGACY_SCHEME, SQLALCHEMY_SCHEME);
      assert r[8] != LEGACY_SCHEME[8];
      r
    else url
  }

  /** Rewriting a URL that was already rewritten changes nothing. */
  lemma FixIdempotent(url: string)
    ensures FixDatabaseUrl(FixDatabaseUrl(url)) == FixDatabaseUrl(url)
  {
  }

  /** The rewrite keeps everything after the scheme: host, credentials and database name survive. */
  lemma FixKeepsRest(rest: string)
    ensures FixDatabaseUrl(LEGACY_SCHEME + rest) == SQLALCHEMY_SCHEME + rest
  {
    var url := LEGACY_SCHEME + rest;
    assert url[..|LEGACY_SCHEME|] == LEGACY_SCHEME;
    assert url[|LEGACY_SCHEME|..] == rest;
  }

  /** `_DATABASE_URL` as seen by SQLAlchemy, from `DATABASE_URL` and the data directory. */
  function DatabaseUrl(env: Option<string>, dbDir: string): (url: string)
    ensures env.None? ==> url == DefaultDatabaseUrl(dbDir)
    ensures env.Some? && !StartsWith(env.value, LEGACY_SCHEME) ==> url == env.value
    ensures !StartsWith(url, LEGACY_SCHEME)
  {
    FixDatabaseUrl(env.GetOr(DefaultDatabaseUrl(dbDir)))
  }

  const NETCDF_NAME := "india_era5.nc"

  /** `DATA_DIR` is the database directory and `NETCDF_FILE` is `india_era5.nc` inside it. */
  function NetcdfFile(dataDir: string): (path: string)
    ensures Basename(path) == NETCDF_NAME
  {
    NetcdfNameIsPlain();
    BasenameOfJoin(dataDir, NETCDF_NAME);
    PathJoin(dataDir, NETCDF_NAME)
  }

  lemma NetcdfNameIsPlain()
    ensures '/' !in NETCDF_NAME
  {
  }

  /** `INDIA_BOUNDS`, ordered North, West, South, East. */
  const INDIA_BOUNDS: seq<real> := [35.5, 68.1, 6.0, 97.4]

  /** The archive's area order read as a box. */
  function AreaBox(area: seq<real>): (b: Box)
    requires |area| == 4
    ensures b.north == area[0] && b.west == area[1] && b.south == area[2] && b.east == area[3]
  {
    Box(area[0], area[2], area[1], area[3])
  }

  /** The configured region is a proper box and is the region the map lets a user click in. */
  lemma IndiaBoundsOrdered()
    ensures INDIA_BOUNDS[0] > INDIA_BOUNDS[2] && INDIA_BOUNDS[3] > INDIA_BOUNDS[1]
    ensures AreaBox(INDIA_BOUNDS) == WeatherMap.IndiaBounds()
  {
  }

  const ERA5_VARIABLES: seq<string> := [
    "2m_temperature", "total_precipitation", "surface_pressure",
    "10m_u_component_of_wind", "10m_v_component_of_wind"]

  /** The entries of the `config` table. */
  datatype Profile = Development | Production | Testing

  /** What a profile sets: `DEBUG` and `FLASK_ENV` (unset on the base class), `TESTING` and the database URI. */
  datatype Settings = Settings(debug: Option<bool>, flaskEnv: Option<string>, testing: bool, databaseUri: string)

  /** `config[name]`: `'default'` is the development profile; an unknown name has no entry. */
  function ProfileNamed(name: string): (p: Option<Profile>)
    ensures p.Some? <==> name in {"development", "production", "testing", "default"}
    ensures name == "default" ==> p == Some(Development)
  {
    if name == "development" || name == "default" then Some(Development)
    else if name == "production" then Some(Production)
    else if name == "testing" then Some(Testing)
    else None
  }

  /** The settings of a profile; only the testing profile replaces the database with an in-memory one. */
  function SettingsOf(p: Profile, env: Option<string>, dbDir: string): (s: Settings)
    ensures s.testing <==> p == Testing
    ensures p == Testing ==> s.databaseUri == "sqlite:///:memory:" && s.debug.None? && s.flaskEnv.None?
    ensures p != Testing ==> s.databaseUri == DatabaseUrl(env, dbDir) && s.debug == Some(p == Development)
    ensures p == Development ==> s.flaskEnv == Some("development")
    ensures p == Production ==> s.flaskEnv == Some("production")
  {
    match p
    case Development => Settings(Some(true), Some("development"), false, DatabaseUrl(env, dbDir))
    case Production => Settings(Some(false), Some("production"), false, DatabaseUrl(env, dbDir))
    case Testing => Settings(None, None, true, "sqlite:///:memory:")
  }

  /** No profile ends up with a URL SQLAlchemy 2 would refuse for its legacy scheme. */
  lemma NoLegacySchemeReachesSqlAlchemy(p: Profile, env: Option<string>, dbDir: string)
    ensures !StartsWith(SettingsOf(p, env, dbDir).databaseUri, LEGACY_SCHEME)
  {
    if p == Testing {
      assert SettingsOf(p, env, dbDir).databaseUri[6] != LEGACY_SCHEME[6];
    }
  }
}
