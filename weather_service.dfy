/**
 * The backend's dataset service. It holds the opened ERA5 dataset (or none), answers the point
 * query by picking the nearest grid cell and deriving display units, cuts rectangular grid
 * extracts, reports the coordinate bounds and describes the file. One instance is shared by all
 * requests.
 */
module WeatherService {
  import opened Wrappers
  import opened Geo
  import opened Sample
  import opened Seqs
  import opened PyStrings
  import opened UnitConverter

  /** One grid cell of a variable; `value` is None where the file holds NaN. */
  datatype Cell = Cell(longitude: real, value: Option<real>)

  /** One latitude row of a variable at the first time step, cells in longitude order. */
  datatype Row = Row(latitude: real, cells: seq<Cell>)

  type Grid = seq<Row>

  /** An opened dataset: its coordinate arrays and its data variables by name. */
  datatype Dataset = Dataset(latitudes: seq<real>, longitudes: seq<real>, fields: map<string, Grid>)

  function Latitudes(g: Grid): (r: seq<real>)
    ensures |r| == |g| && forall i :: 0 <= i < |g| ==> r[i] == g[i].latitude
  {
    seq(|g|, i requires 0 <= i < |g| => g[i].latitude)
  }

  function Longitudes(cells: seq<Cell>): (r: seq<real>)
    ensures |r| == |cells| && forall i :: 0 <= i < |cells| ==> r[i] == cells[i].longitude
  {
    seq(|cells|, i requires 0 <= i < |cells| => cells[i].longitude)
  }

  /** Every variable is laid out on the dataset's own coordinate arrays, which are non-empty. */
  predicate WellFormed(ds: Dataset) {
    && |ds.latitudes| > 0 && |ds.longitudes| > 0
    && forall v :: v in ds.fields ==>
         && Latitudes(ds.fields[v]) == ds.latitudes
         && forall row <- ds.fields[v] :: Longitudes(row.cells) == ds.longitudes
  }

  /* ---------- bounds ---------- */

  /** The extent of the coordinate arrays. */
  function Bounds(ds: Dataset): (b: Box)
    requires WellFormed(ds)
    ensures b.north >= b.south && b.east >= b.west
    ensures b.north in ds.latitudes && b.south in ds.latitudes
    ensures b.east in ds.longitudes && b.west in ds.longitudes
    ensures forall x <- ds.latitudes :: b.south <= x <= b.north
    ensures forall x <- ds.longitudes :: b.west <= x <= b.east
  {
    Box(SeqMax(ds.latitudes), SeqMin(ds.latitudes), SeqMin(ds.longitudes), SeqMax(ds.longitudes))
  }

  /* ---------- point query ---------- */

  /** Index of the coordinate nearest to `x`; of equally near ones, the first. */
  function Nearest(coords: seq<real>, x: real): (i: nat)
    requires |coords| > 0
    ensures i < |coords|
    ensures forall j :: 0 <= j < |coords| ==> Abs(coords[i] - x) <= Abs(coords[j] - x)
    decreases |coords|
  {
    if |coords| == 1 then 0
    else
      var k := Nearest(coords[1..], x) + 1;
      if Abs(coords[0] - x) <= Abs(coords[k] - x) then 0 else k
  }

  /** The five raw values read at one cell: 2 m temperature (K), total precipitation (m), surface pressure (Pa), 10 m wind components (m/s). */
  datatype Raw = Raw(t2m: Option<real>, tp: Option<real>, sp: Option<real>, u10: Option<real>, v10: Option<real>)

  /** The floating-point library functions the derivation calls, taken as given. */
  datatype Numerics = Numerics(sqrt: real -> real, atan2: (real, real) -> real, degrees: real -> real)

  /** Python truthiness of an optional float: None and 0.0 are false. */
  predicate Truthy(o: Option<real>) {
    o.Some? && o.value != 0.0
  }

  /** `x if x else None`. */
  function KeepTruthy(o: Option<real>): (r: Option<real>)
    ensures r.Some? <==> Truthy(o)
    ensures r.Some? ==> r == o
  {
    if Truthy(o) then o else None
  }

  /** Python's float `x % 360`: the remainder with the sign of the divisor. */
  function FloorMod360(x: real): (r: real)
    ensures 0.0 <= r < 360.0
    ensures 0.0 <= x < 360.0 ==> r == x
  {
    x - 360.0 * ((x / 360.0).Floor as real)
  }

  /** A full turn does not change the remainder. */
  lemma FloorMod360Periodic(x: real)
    ensures FloorMod360(x + 360.0) == FloorMod360(x)
  {
    assert (x + 360.0) / 360.0 == x / 360.0 + 1.0;
  }

  /** `sqrt(u**2 + v**2)`. */
  function Speed(u: real, v: real, num: Numerics): real {
    num.sqrt(u * u + v * v)
  }

  /**
   * The unit derivation of `get_weather_at_point`, before rounding. Every raw or derived value is
   * tested for truthiness, so a 0 reads as missing. Wind speed and direction are computed only
   * when both components are present.
   */
  function Derive(lat: real, lon: real, actual: LatLon, raw: Raw, num: Numerics): (r: PointResponse)
    ensures r.requested == LatLon(lat, lon) && r.actual == actual
    ensures r.temperature.kelvin == KeepTruthy(raw.t2m)
    ensures r.temperature.celsius.Some? <==> Truthy(raw.t2m) && raw.t2m.value != 273.15
    ensures r.temperature.celsius.Some? ==> r.temperature.celsius.value + 273.15 == raw.t2m.value
    ensures r.temperature.fahrenheit.Some? <==> r.temperature.celsius.Some?
    ensures r.temperature.fahrenheit.Some? ==>
              r.temperature.fahrenheit.value == r.temperature.celsius.value * 9.0 / 5.0 + 32.0
    ensures r.precipitation.meters == KeepTruthy(raw.tp)
    ensures r.precipitation.millimeters.Some? <==> Truthy(raw.tp)
    ensures r.precipitation.millimeters.Some? ==> r.precipitation.millimeters.value == raw.tp.value * 1000.0
    ensures r.pressure.pascal == KeepTruthy(raw.sp)
    ensures r.pressure.hectopascal.Some? <==> Truthy(raw.sp)
    ensures r.pressure.hectopascal.Some? ==> r.pressure.hectopascal.value * 100.0 == raw.sp.value
    ensures r.wind.uComponent == KeepTruthy(raw.u10) && r.wind.vComponent == KeepTruthy(raw.v10)
    ensures r.wind.speed.Some? || r.wind.direction.Some? ==> raw.u10.Some? && raw.v10.Some?
    ensures r.wind.direction.Some? ==> 0.0 < r.wind.direction.value < 360.0
    ensures raw.u10.Some? && raw.v10.Some? ==>
              var u, v := raw.u10.value, raw.v10.value;
              (r.wind.speed.Some? <==> Speed(u, v, num) != 0.0) &&
              (r.wind.speed.Some? ==> r.wind.speed.value == Speed(u, v, num))
    ensures raw.u10.Some? && raw.v10.Some? ==>
              var d := FloorMod360(270.0 - num.degrees(num.atan2(raw.v10.value, raw.u10.value)));
              (r.wind.direction.Some? <==> d != 0.0) &&
              (r.wind.direction.Some? ==> r.wind.direction.value == d)
  {
    var tempC := if Truthy(raw.t2m) then Some(raw.t2m.value - 273.15) else None;
    var precipMm := if Truthy(raw.tp) then Some(raw.tp.value * 1000.0) else None;
    var pressureHpa := if Truthy(raw.sp) then Some(raw.sp.value / 100.0) else None;
    var both := raw.u10.Some? && raw.v10.Some?;
    var speed := if both then Some(Speed(raw.u10.value, raw.v10.value, num)) else None;
    var direction :=
      if both then Some(FloorMod360(270.0 - num.degrees(num.atan2(raw.v10.value, raw.u10.value)))) else None;
    PointResponse(
      LatLon(lat, lon),
      actual,
      Temperature(
        KeepTruthy(raw.t2m),
        KeepTruthy(tempC),
        if Truthy(tempC) then Some(tempC.value * 9.0 / 5.0 + 32.0) else None),
      Precipitation(KeepTruthy(raw.tp), KeepTruthy(precipMm)),
      Pressure(KeepTruthy(raw.sp), KeepTruthy(pressureHpa)),
      Wind(KeepTruthy(raw.u10), KeepTruthy(raw.v10), KeepTruthy(speed), KeepTruthy(direction)))
  }

  /** Where Fahrenheit is reported it is the Kelvin reading converted directly. */
  lemma FahrenheitFromKelvin(lat: real, lon: real, actual: LatLon, raw: Raw, num: Numerics)
    ensures var r := Derive(lat, lon, actual, raw, num);
            r.temperature.fahrenheit.Some? ==>
              r.temperature.kelvin.Some? &&
              r.temperature.fahrenheit.value == r.temperature.kelvin.value * 9.0 / 5.0 - 459.67
  {}

  /** A reading of exactly 273.15 K keeps its Kelvin value but reports no Celsius or Fahrenheit. */
  lemma FreezingPointReadsAsMissing(lat: real, lon: real, actual: LatLon, raw: Raw, num: Numerics)
    requires raw.t2m == Some(273.15)
    ensures var r := Derive(lat, lon, actual, raw, num);
            r.temperature.kelvin == Some(273.15) &&
            r.temperature.celsius == None && r.temperature.fahrenheit == None
  {}

  /** A raw 0 is reported as missing, together with everything derived from it. */
  lemma ZeroReadsAsMissing(lat: real, lon: real, actual: LatLon, raw: Raw, num: Numerics)
    ensures var r := Derive(lat, lon, actual, raw, num);
            (raw.tp == Some(0.0) ==> r.precipitation == Precipitation(None, None)) &&
            (raw.sp == Some(0.0) ==> r.pressure == Pressure(None, None)) &&
            (raw.t2m == Some(0.0) ==> r.temperature == Temperature(None, None, None)) &&
            (raw.u10 == Some(0.0) ==> r.wind.uComponent == None)
  {}

  /**
   * Wind blowing from due north (atan2 giving -90 degrees) has direction 360 % 360 = 0, which the
   * truthiness test drops, while its speed is still reported.
   */
  lemma NortherlyDirectionReadsAsMissing(lat: real, lon: real, actual: LatLon, raw: Raw, num: Numerics)
    requires raw.u10.Some? && raw.v10.Some?
    requires num.degrees(num.atan2(raw.v10.value, raw.u10.value)) == -90.0
    ensures Derive(lat, lon, actual, raw, num).wind.direction == None
  {
    assert FloorMod360(360.0) == 0.0 by { FloorMod360Periodic(0.0); }
  }

  /** The value of a variable at a cell; None when the variable is absent or the cell is NaN. */
  function ValueAt(ds: Dataset, name: string, i: nat, j: nat): Option<real>
    requires WellFormed(ds) && i < |ds.latitudes| && j < |ds.longitudes|
  {
    if name in ds.fields then
      assert |ds.fields[name]| == |ds.latitudes|;
      var row := ds.fields[name][i];
      assert row in ds.fields[name];
      assert |row.cells| == |Longitudes(row.cells)|;
      row.cells[j].value
    else None
  }

  /** The five raw values at cell `(i, j)`. */
  function RawAt(ds: Dataset, i: nat, j: nat): Raw
    requires WellFormed(ds) && i < |ds.latitudes| && j < |ds.longitudes|
  {
    Raw(ValueAt(ds, "t2m", i, j), ValueAt(ds, "tp", i, j), ValueAt(ds, "sp", i, j),
        ValueAt(ds, "u10", i, j), ValueAt(ds, "v10", i, j))
  }

  /**
   * The point query against an opened dataset: the answer is the unit derivation of the raw
   * values at the nearest latitude and the nearest longitude.
   */
  function PointAt(ds: Dataset, lat: real, lon: real, num: Numerics): (r: PointResponse)
    requires WellFormed(ds)
    ensures r.requested == LatLon(lat, lon)
    ensures r.actual.latitude in ds.latitudes && r.actual.longitude in ds.longitudes
    ensures forall x <- ds.latitudes :: Abs(r.actual.latitude - lat) <= Abs(x - lat)
    ensures forall x <- ds.longitudes :: Abs(r.actual.longitude - lon) <= Abs(x - lon)
    ensures r.actual == LatLon(ds.latitudes[Nearest(ds.latitudes, lat)], ds.longitudes[Nearest(ds.longitudes, lon)])
    ensures r == Derive(lat, lon, r.actual, RawAt(ds, Nearest(ds.latitudes, lat), Nearest(ds.longitudes, lon)), num)
  {
    var i := Nearest(ds.latitudes, lat);
    var j := Nearest(ds.longitudes, lon);
    Derive(lat, lon, LatLon(ds.latitudes[i], ds.longitudes[j]), RawAt(ds, i, j), num)
  }

  /* ---------- grid extracts ---------- */

  /** Python `min(r) <= x <= max(r)` for a (low, high) pair given in either order. */
  predicate InRange(x: real, r: (real, real)) {
    Min(r.0, r.1) <= x <= Max(r.0, r.1)
  }

  function KeepLatitude(r: (real, real)): Row -> bool {
    (row: Row) => InRange(row.latitude, r)
  }

  function KeepLongitude(r: (real, real)): Cell -> bool {
    (c: Cell) => InRange(c.longitude, r)
  }

  /**
   * Label slicing on the (descending) latitude axis: the rows whose latitude is in range. A single
   * row is kept or dropped by its latitude; with SelectLatitudesAppend this fixes the order and
   * number of the kept rows.
   */
  function SelectLatitudes(g: Grid, r: (real, real)): (s: Grid)
    ensures forall row :: row in s <==> row in g && InRange(row.latitude, r)
    ensures |g| == 1 ==> s == (if InRange(g[0].latitude, r) then g else [])
  {
    Filter(g, KeepLatitude(r))
  }

  /** Cutting the rows of two stacked grids is cutting each and stacking the results. */
  lemma SelectLatitudesAppend(a: Grid, b: Grid, r: (real, real))
    ensures SelectLatitudes(a + b, r) == SelectLatitudes(a, r) + SelectLatitudes(b, r)
  {
    FilterAppend(a, b, KeepLatitude(r));
  }

  /** The cells of one row whose longitude is in range, in their original order. */
  function CutCells(cells: seq<Cell>, r: (real, real)): (s: seq<Cell>)
    ensures forall c :: c in s <==> c in cells && InRange(c.longitude, r)
    ensures |cells| == 1 ==> s == (if InRange(cells[0].longitude, r) then cells else [])
  {
    Filter(cells, KeepLongitude(r))
  }

  /** Cutting the cells of two adjoining pieces of a row is cutting each and joining the results. */
  lemma CutCellsAppend(a: seq<Cell>, b: seq<Cell>, r: (real, real))
    ensures CutCells(a + b, r) == CutCells(a, r) + CutCells(b, r)
  {
    FilterAppend(a, b, KeepLongitude(r));
  }

  /** Label slicing on the (ascending) longitude axis: every row kept, each cut to the longitude range. */
  function SelectLongitudes(g: Grid, r: (real, real)): (s: Grid)
    ensures |s| == |g|
    ensures forall i :: 0 <= i < |g| ==> s[i].latitude == g[i].latitude
    ensures forall i :: 0 <= i < |g| ==>
              forall c :: c in s[i].cells <==> c in g[i].cells && InRange(c.longitude, r)
    ensures forall i :: 0 <= i < |g| ==> s[i] == Row(g[i].latitude, CutCells(g[i].cells, r))
  {
    seq(|g|, i requires 0 <= i < |g| => Row(g[i].latitude, CutCells(g[i].cells, r)))
  }

  /**
   * Every `k`-th row, and in each of them every `k`-th cell: row `i` of the result is row `i * k`
   * of the input with its cells thinned the same way.
   */
  function Downsample(g: Grid, k: nat): (s: Grid)
    requires k >= 1
    ensures |s| == StrideLen(|g|, k)
    ensures forall i :: 0 <= i < |s| ==> i * k < |g| && s[i] == Row(g[i * k].latitude, Stride(g[i * k].cells, k))
  {
    var rows := Stride(g, k);
    StrideAtAll(g, k);
    seq(|rows|, i requires 0 <= i < |rows| => Row(rows[i].latitude, Stride(rows[i].cells, k)))
  }

  lemma StrideMember<T>(s: seq<T>, k: nat, x: T)
    requires k >= 1 && x in Stride(s, k)
    ensures x in s
  {
    var i :| 0 <= i < |Stride(s, k)| && Stride(s, k)[i] == x;
    StrideAt(s, k, i);
  }

  /** Every row and cell of the downsampled grid comes from the same row and cell of the original. */
  lemma DownsampleFrom(g: Grid, k: nat)
    requires k >= 1
    ensures forall row <- Downsample(g, k) ::
              exists orig <- g :: orig.latitude == row.latitude && forall c <- row.cells :: c in orig.cells
  {
    var rows := Stride(g, k);
    forall row <- Downsample(g, k)
      ensures exists orig <- g :: orig.latitude == row.latitude && forall c <- row.cells :: c in orig.cells
    {
      var i :| 0 <= i < |rows| && row == Row(rows[i].latitude, Stride(rows[i].cells, k));
      StrideMember(g, k, rows[i]);
      forall c <- row.cells ensures c in rows[i].cells {
        StrideMember(rows[i].cells, k, c);
      }
    }
  }

  /** The non-NaN values of a grid, row by row. */
  function Present(g: Grid): seq<real>
    decreases |g|
  {
    if |g| == 0 then [] else PresentCells(g[0].cells) + Present(g[1..])
  }

  function PresentCells(cells: seq<Cell>): seq<real>
    decreases |cells|
  {
    if |cells| == 0 then []
    else (if cells[0].value.Some? then [cells[0].value.value] else []) + PresentCells(cells[1..])
  }

  lemma {:induction false} PresentCellsHas(cells: seq<Cell>, c: Cell)
    requires c in cells && c.value.Some?
    ensures c.value.value in PresentCells(cells)
    decreases |cells|
  {
    if cells[0] != c {
      PresentCellsHas(cells[1..], c);
    }
  }

  /** Every non-NaN cell value is among the values the summary statistics range over. */
  lemma {:induction false} PresentHas(g: Grid, row: Row, c: Cell)
    requires row in g && c in row.cells && c.value.Some?
    ensures c.value.value in Present(g)
    decreases |g|
  {
    if g[0] == row {
      PresentCellsHas(row.cells, c);
    } else {
      PresentHas(g[1..], row, c);
    }
  }

  function CellCount(g: Grid): nat
    decreases |g|
  {
    if |g| == 0 then 0 else |g[0].cells| + CellCount(g[1..])
  }

  /** The JSON document of a grid extract; `min`, `max` and `mean` are None (NaN) when every cell is NaN. */
  datatype GridResult = GridResult(
    variable: string,
    values: seq<seq<Option<real>>>,
    latitude: seq<real>,
    longitude: seq<real>,
    shape: seq<nat>,
    min: Option<real>,
    max: Option<real>,
    mean: Option<real>)

  function CellValues(cells: seq<Cell>): (r: seq<Option<real>>)
    ensures |r| == |cells| && forall j :: 0 <= j < |cells| ==> r[j] == cells[j].value
  {
    seq(|cells|, j requires 0 <= j < |cells| => cells[j].value)
  }

  /**
   * The document built from a selected grid. An empty selection makes numpy's `nanmin` raise,
   * which the service turns into None.
   */
  function Summarize(variable: string, g: Grid): (r: Option<GridResult>)
    ensures r.None? <==> CellCount(g) == 0
    ensures r.Some? ==>
              && r.value.variable == variable
              && r.value.latitude == Latitudes(g)
              && r.value.longitude == Longitudes(g[0].cells)
              && |r.value.values| == |g|
              && r.value.shape == [|g|, |g[0].cells|]
    ensures r.Some? ==> forall i :: 0 <= i < |g| ==> r.value.values[i] == CellValues(g[i].cells)
    ensures r.Some? ==> (r.value.min.Some? <==> |Present(g)| > 0)
    ensures r.Some? && r.value.min.Some? ==>
              && r.value.max.Some? && r.value.mean.Some?
              && r.value.min.value <= r.value.mean.value <= r.value.max.value
              && forall row <- g, c <- row.cells :: c.value.Some? ==>
                   r.value.min.value <= c.value.value <= r.value.max.value
    ensures r.Some? && r.value.min.Some? ==>
              && r.value.min.value in Present(g) && r.value.max.value in Present(g)
              && IsAverageOf(r.value.mean.value, Present(g))
  {
    if CellCount(g) == 0 then None
    else
      assert |g| > 0;
      var vals := Present(g);
      var values := seq(|g|, i requires 0 <= i < |g| => CellValues(g[i].cells));
      var stats :=
        if |vals| == 0 then (None, None, None)
        else
          assert forall row <- g, c <- row.cells :: c.value.Some? ==> c.value.value in vals by {
            forall row <- g, c <- row.cells | c.value.Some? ensures c.value.value in vals {
              PresentHas(g, row, c);
            }
          }
          assert IsAverageOf(Mean(vals), vals) by { MeanIsAverage(vals); }
          (Some(SeqMin(vals)), Some(SeqMax(vals)), Some(Mean(vals)));
      Some(GridResult(variable, values, Latitudes(g), Longitudes(g[0].cells), [|g|, |g[0].cells|],
                      stats.0, stats.1, stats.2))
  }

  /** A grid whose rows and cells all lie on the dataset's coordinates and within the requested ranges. */
  predicate Within(g: Grid, ds: Dataset, latRange: Option<(real, real)>, lonRange: Option<(real, real)>) {
    forall row <- g ::
      && row.latitude in ds.latitudes
      && (latRange.Some? ==> InRange(row.latitude, latRange.value))
      && forall c <- row.cells ::
           && c.longitude in ds.longitudes
           && (lonRange.Some? ==> InRange(c.longitude, lonRange.value))
  }

  /** A stored variable lies on the dataset's coordinates. */
  lemma FieldWithin(ds: Dataset, name: string)
    requires WellFormed(ds) && name in ds.fields
    ensures Within(ds.fields[name], ds, None, None)
  {
    var g := ds.fields[name];
    forall row <- g ensures row.latitude in ds.latitudes {
      var i :| 0 <= i < |g| && g[i] == row;
      assert Latitudes(g)[i] == row.latitude;
    }
    forall row <- g, c <- row.cells ensures c.longitude in ds.longitudes {
      var j :| 0 <= j < |row.cells| && row.cells[j] == c;
      assert Longitudes(row.cells)[j] == c.longitude;
    }
  }

  lemma SelectLatitudesWithin(g: Grid, ds: Dataset, r: (real, real))
    requires Within(g, ds, None, None)
    ensures Within(SelectLatitudes(g, r), ds, Some(r), None)
  {}

  lemma SelectLongitudesWithin(g: Grid, ds: Dataset, latRange: Option<(real, real)>, r: (real, real))
    requires Within(g, ds, latRange, None)
    ensures Within(SelectLongitudes(g, r), ds, latRange, Some(r))
  {
    var s := SelectLongitudes(g, r);
    forall row <- s
      ensures row.latitude in ds.latitudes && (latRange.Some? ==> InRange(row.latitude, latRange.value))
      ensures forall c <- row.cells :: c.longitude in ds.longitudes && InRange(c.longitude, r)
    {
      var i :| 0 <= i < |s| && s[i] == row;
      assert g[i] in g;
    }
  }

  lemma DownsampleWithin(g: Grid, ds: Dataset, latRange: Option<(real, real)>, lonRange: Option<(real, real)>, k: nat)
    requires k >= 1 && Within(g, ds, latRange, lonRange)
    ensures Within(Downsample(g, k), ds, latRange, lonRange)
  {
    DownsampleFrom(g, k);
  }

  /** The coordinates a summary reports are those of the rows and cells it was built from. */
  lemma SummaryWithin(variable: string, g: Grid, ds: Dataset, latRange: Option<(real, real)>, lonRange: Option<(real, real)>)
    requires Within(g, ds, latRange, lonRange)
    ensures var r := Summarize(variable, g);
            r.Some? ==>
              && (forall i :: 0 <= i < |r.value.latitude| ==>
                    r.value.latitude[i] in ds.latitudes &&
                    (latRange.Some? ==> InRange(r.value.latitude[i], latRange.value)))
              && (forall j :: 0 <= j < |r.value.longitude| ==>
                    r.value.longitude[j] in ds.longitudes &&
                    (lonRange.Some? ==> InRange(r.value.longitude[j], lonRange.value)))
  {
    var r := Summarize(variable, g);
    if r.Some? {
      forall i | 0 <= i < |r.value.latitude|
        ensures r.value.latitude[i] in ds.latitudes && (latRange.Some? ==> InRange(r.value.latitude[i], latRange.value))
      {
        assert g[i] in g;
      }
      assert g[0] in g;
      forall j | 0 <= j < |r.value.longitude|
        ensures r.value.longitude[j] in ds.longitudes && (lonRange.Some? ==> InRange(r.value.longitude[j], lonRange.value))
      {
        assert g[0].cells[j] in g[0].cells;
      }
    }
  }

  /** Cutting longitudes keeps every row, so the latitudes are unchanged. */
  lemma LatitudesKept(g: Grid, r: (real, real))
    ensures Latitudes(SelectLongitudes(g, r)) == Latitudes(g)
  {}

  /** Cutting latitudes keeps whole rows, so each kept row still spans the dataset's longitudes. */
  lemma LongitudesKept(ds: Dataset, name: string, r: (real, real))
    requires WellFormed(ds) && name in ds.fields
    ensures forall row <- SelectLatitudes(ds.fields[name], r) :: Longitudes(row.cells) == ds.longitudes
  {}

  /**
   * The grid `get_grid_data` summarises: the variable at the first time step, cut to the latitude
   * range, then to the longitude range, then thinned to every `downsample`-th row and column when
   * that exceeds 1.
   */
  function Extract(ds: Dataset, variable: string, latRange: Option<(real, real)>, lonRange: Option<(real, real)>,
                   downsample: int): Grid
    requires WellFormed(ds) && variable in ds.fields
  {
    var g := ds.fields[variable];
    var g1 := if latRange.Some? then SelectLatitudes(g, latRange.value) else g;
    var g2 := if lonRange.Some? then SelectLongitudes(g1, lonRange.value) else g1;
    if downsample > 1 then Downsample(g2, downsample) else g2
  }

  /** The extract lies on the dataset's coordinates and within the requested ranges. */
  lemma ExtractWithin(ds: Dataset, variable: string, latRange: Option<(real, real)>, lonRange: Option<(real, real)>,
                      downsample: int)
    requires WellFormed(ds) && variable in ds.fields
    ensures Within(Extract(ds, variable, latRange, lonRange, downsample), ds, latRange, lonRange)
  {
    var g := ds.fields[variable];
    FieldWithin(ds, variable);
    var g1 := if latRange.Some? then SelectLatitudes(g, latRange.value) else g;
    if latRange.Some? {
      SelectLatitudesWithin(g, ds, latRange.value);
    }
    var g2 := if lonRange.Some? then SelectLongitudes(g1, lonRange.value) else g1;
    if lonRange.Some? {
      SelectLongitudesWithin(g1, ds, latRange, lonRange.value);
    }
    if downsample > 1 {
      DownsampleWithin(g2, ds, latRange, lonRange, downsample);
    }
  }

  /**
   * What `get_grid_data` answers on an opened dataset: None for an unknown variable or an empty
   * extract (numpy's `nanmin` raises), otherwise the summary of the extract, whose coordinates lie
   * in the file and in the requested ranges and which spans a whole axis that was neither cut nor
   * thinned.
   */
  function GridAnswer(ds: Dataset, variable: string, latRange: Option<(real, real)>, lonRange: Option<(real, real)>,
                      downsample: int): (r: Option<GridResult>)
    requires WellFormed(ds)
    ensures variable !in ds.fields ==> r.None?
    ensures variable in ds.fields ==> r == Summarize(variable, Extract(ds, variable, latRange, lonRange, downsample))
    ensures r.Some? ==> r.value.variable == variable
    ensures r.Some? ==>
              forall i :: 0 <= i < |r.value.latitude| ==>
                r.value.latitude[i] in ds.latitudes &&
                (latRange.Some? ==> InRange(r.value.latitude[i], latRange.value))
    ensures r.Some? ==>
              forall j :: 0 <= j < |r.value.longitude| ==>
                r.value.longitude[j] in ds.longitudes &&
                (lonRange.Some? ==> InRange(r.value.longitude[j], lonRange.value))
    ensures r.Some? && latRange.None? && downsample <= 1 ==> r.value.latitude == ds.latitudes
    ensures r.Some? && lonRange.None? && downsample <= 1 ==> r.value.longitude == ds.longitudes
  {
    if variable !in ds.fields then None
    else
      var g := Extract(ds, variable, latRange, lonRange, downsample);
      ExtractWithin(ds, variable, latRange, lonRange, downsample);
      SummaryWithin(variable, g, ds, latRange, lonRange);
      ExtractSpansAxes(ds, variable, latRange, lonRange, downsample);
      Summarize(variable, g)
  }

  /** Without thinning, an axis that was not cut is reported whole. */
  lemma ExtractSpansAxes(ds: Dataset, variable: string, latRange: Option<(real, real)>, lonRange: Option<(real, real)>,
                         downsample: int)
    requires WellFormed(ds) && variable in ds.fields
    ensures var g := Extract(ds, variable, latRange, lonRange, downsample);
            downsample <= 1 && |g| > 0 ==>
              && (latRange.None? ==> Latitudes(g) == ds.latitudes)
              && (lonRange.None? ==> Longitudes(g[0].cells) == ds.longitudes)
  {
    var g := Extract(ds, variable, latRange, lonRange, downsample);
    if downsample <= 1 && |g| > 0 {
      assert g[0] in g;
      if latRange.None? && lonRange.Some? {
        LatitudesKept(ds.fields[variable], lonRange.value);
      }
      if lonRange.None? && latRange.Some? {
        LongitudesKept(ds, variable, latRange.value);
      }
    }
  }

  /** A request for a stored variable without ranges always yields a grid, whatever the thinning step. */
  lemma WholeGridServed(ds: Dataset, variable: string, downsample: int)
    requires WellFormed(ds) && variable in ds.fields
    ensures GridAnswer(ds, variable, None, None, downsample).Some?
  {
    UncutExtractHasCells(ds, variable, downsample);
  }

  /** Without a cut the extract keeps the first row and its first cell. */
  lemma UncutExtractHasCells(ds: Dataset, variable: string, downsample: int)
    requires WellFormed(ds) && variable in ds.fields
    ensures CellCount(Extract(ds, variable, None, None, downsample)) > 0
  {
    var g := ds.fields[variable];
    assert |g| == |Latitudes(g)| > 0;
    assert g[0] in g;
    assert |g[0].cells| == |Longitudes(g[0].cells)| > 0;
    var e := Extract(ds, variable, None, None, downsample);
    if downsample > 1 {
      assert |Stride(g, downsample)| > 0;
      assert e[0].cells == Stride(g[0].cells, downsample);
    }
    assert |e| > 0 && |e[0].cells| > 0;
    assert CellCount(e) == |e[0].cells| + CellCount(e[1..]);
  }

  /* ---------- the service object ---------- */

  class WeatherService {
    var netcdfPath: string
    var dataset: Option<Dataset>

    ghost predicate Valid()
      reads this
    {
      dataset.Some? ==> WellFormed(dataset.value)
    }

    /**
     * `WeatherService(netcdf_path)`: an absent or empty path falls back to the configured file.
     * `loaded` is what loading that file yields: None when xarray is missing or opening fails.
     */
    constructor(path: Option<string>, defaultPath: string, loaded: Option<Dataset>)
      requires loaded.Some? ==> WellFormed(loaded.value)
      ensures Valid()
      ensures netcdfPath == (if path.Some? && path.value != "" then path.value else defaultPath)
      ensures dataset == loaded
    {
      netcdfPath := if path.Some? && path.value != "" then path.value else defaultPath;
      dataset := loaded;
    }

    /** `reload_dataset`: closes the current dataset and loads the file again. */
    method ReloadDataset(loaded: Option<Dataset>)
      requires loaded.Some? ==> WellFormed(loaded.value)
      modifies this
      ensures Valid()
      ensures dataset == loaded && netcdfPath == old(netcdfPath)
    {
      dataset := loaded;
    }

    predicate IsAvailable()
      reads this
    {
      dataset.Some?
    }

    method GetBounds() returns (b: Option<Box>)
      requires Valid()
      ensures b.None? <==> !IsAvailable()
      ensures b.Some? ==> b.value.north >= b.value.south && b.value.east >= b.value.west
      ensures b.Some? ==> b.value == Bounds(dataset.value)
    {
      if !IsAvailable() {
        return None;
      }
      b := Some(Bounds(dataset.value));
    }

    /** `get_weather_at_point(lat, lon)` at the first time step. */
    method GetWeatherAtPoint(lat: real, lon: real, num: Numerics) returns (r: Option<PointResponse>)
      requires Valid()
      ensures r.None? <==> !IsAvailable()
      ensures r.Some? ==> r.value == PointAt(dataset.value, lat, lon, num)
    {
      if !IsAvailable() {
        return None;
      }
      r := Some(PointAt(dataset.value, lat, lon, num));
    }

    /**
     * `get_grid_data`: the variable at the first time step, cut to the requested latitude and
     * longitude ranges, then thinned to every `downsample`-th row and column when that exceeds 1.
     */
    method GetGridData(variable: string, latRange: Option<(real, real)>, lonRange: Option<(real, real)>, downsample: int)
      returns (r: Option<GridResult>)
      requires Valid()
      ensures !IsAvailable() ==> r.None?
      ensures IsAvailable() ==> r == GridAnswer(dataset.value, variable, latRange, lonRange, downsample)
    {
      if !IsAvailable() {
        return None;
      }
      var ds := dataset.value;
      if variable !in ds.fields {
        return None;
      }
      var data := ds.fields[variable];
      if latRange.Some? {
        data := SelectLatitudes(data, latRange.value);
      }
      if lonRange.Some? {
        data := SelectLongitudes(data, lonRange.value);
      }
      if downsample > 1 {
        data := Downsample(data, downsample);
      }
      r := Summarize(variable, data);
    }

    /** `get_dataset_info`: the file's base name, the variable names and the bounds. */
    method GetDatasetInfo() returns (info: Option<DatasetInfo>)
      requires Valid()
      ensures info.None? <==> !IsAvailable()
      ensures info.Some? ==>
                && info.value.file == Basename(netcdfPath)
                && info.value.variables == dataset.value.fields.Keys
                && info.value.bounds == Some(Bounds(dataset.value))
    {
      if !IsAvailable() {
        return None;
      }
      info := Some(DatasetInfo(Basename(netcdfPath), dataset.value.fields.Keys, Some(Bounds(dataset.value))));
    }
  }

  /** The module-level instance behind `get_weather_service`. */
  class Registry {
    var instance: WeatherService?

    constructor()
      ensures instance == null
    {
      instance := null;
    }

    /** Creates the service on the first call and returns that same object on every call after it. */
    method GetWeatherService(defaultPath: string, loaded: Option<Dataset>) returns (s: WeatherService)
      requires loaded.Some? ==> WellFormed(loaded.value)
      modifies this
      ensures old(instance) != null ==> s == old(instance)
      ensures old(instance) == null ==> fresh(s) && s.dataset == loaded && s.netcdfPath == defaultPath
      ensures instance == s
    {
      if instance == null {
        instance := new WeatherService(None, defaultPath, loaded);
      }
      s := instance;
    }
  }
}
