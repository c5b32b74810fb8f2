# ERA5 visualizer — a Dafny model

The ERA5 visualizer shows ERA5 reanalysis weather over the Indian subcontinent. A React page
shows a map of the region. A click inside the region asks a Flask backend for the weather at the
nearest grid point. The answer is shown in four views:

- a metric bar;
- weather cards;
- an analysis panel with charts;
- a header with the backend's status and the name of the data file.

The backend reads a NetCDF file. It serves:

- single points, with their units derived;
- grid extracts, with their min/max/mean;
- the dataset's description;
- a health check.

Every point query is logged in a database. Two offline tools go with it:

- a downloader for the ERA5 archive;
- an ingest script that copies a thinned grid of every new time step into the database.

The model follows the program's structure. There is one module per source file, plus a few
shared modules:

- `Wrappers`: Option;
- `Geo`: points and boxes;
- `Sample`: the point-response shape;
- `UnitConverter`: JavaScript `||0`, `Math.round`, `%`, and the gauge segments;
- `Format`: `toFixed`, kept abstract;
- `PyStrings`: Python `str` and `os.path` operations;
- `Seqs`: strides, min/max/mean, de-duplication and filtering.

The code is modelled in the form it takes in the source:

- **Views are pure functions.** Each view is a function from the data to a view value. Its
  contract states what is shown when there is no data, when a request is loading, and when there
  is data.
- **State that changes in place becomes a class.** These are:
  - the page's four state cells (`App.QuerySession`);
  - the header's status (`Header.HeaderState`);
  - the Leaflet map object (`WeatherMap.LeafletMap`);
  - the weather service and its module-level instance;
  - the database session that logs queries (`FlaskApp.QueryLog`);
  - the downloader and its remote client;
  - the ingest tables.

  Each method is proved against a specification function of the old state. The properties are
  proved about that function, as lemmas.

Three behaviours of the code are modelled as written:

- The page has no guard against stale responses. `handleLocationSelect` stores whatever response
  settles. Only the map's click gate stops a second request from starting while one is loading.
  `App.UngatedSelectionsOverlap` shows what happens without the gate.
- The backend reports errors in an `error` field. The page reads `message`. So every backend
  error shows the fixed connection message (`FlaskApp.BackendErrorsShowFallback`).
- Python truthiness decides which values are reported as missing. A temperature of exactly
  273.15 K reads as missing, because it gives 0 °C. So do zero precipitation, a zero wind
  component and a wind direction of exactly 0°. `WeatherService.Derive` and its lemmas state
  these cases as they are written.

## Model

| member | source | states |
|---|---|---|
| Format.ToFixed | frontend/src/components/WeatherMap.jsx:134-146 | `v?.toFixed(d)` is a formatted value with `d` decimals exactly when the field is present; a missing field renders as nothing, never as dashes |
| UnitConverter.Round | frontend/src/components/AnalysisPanel.jsx:174 | `Math.round(x)` is the integer `n` with `n - 0.5 <= x < n + 0.5`; exactly one integer meets this (`RoundIsUnique`), so halves go up |
| UnitConverter.RoundIsUnique | frontend/src/components/AnalysisPanel.jsx:174 | any integer within half a unit of `x`, counting the lower half only, is `Math.round(x)` |
| UnitConverter.RoundHalfUp | frontend/src/components/AnalysisPanel.jsx:174 | `k + 0.5` rounds to `k + 1` and `-k - 0.5` to `-k`: halves go towards +infinity on both sides of zero |
| UnitConverter.Rem | frontend/src/components/AnalysisPanel.jsx:174 | JavaScript `%`: the mathematical remainder for a non-negative dividend; for a negative one, 0 on a multiple of `n`, otherwise the Euclidean remainder minus `n`, so the sign follows the dividend |
| UnitConverter.GaugeSegments | frontend/src/components/AnalysisPanel.jsx:154 | the filled segment never exceeds the scale; for a non-negative speed the two segments fill the scale exactly; the gauge saturates at the scale |
| Seqs.Stride | backend/weather_service.py:176-179 | `s[::k]` has `StrideLen(|s|, k)` elements and starts with `s[0]` |
| Seqs.StrideAt | backend/ingest_local.py:79-80 | element `i` of `s[::k]` is `s[i*k]` |
| Seqs.StrideLenIsCeiling | backend/weather_service.py:176-179 | the thinned length is the ceiling of `n / k` |
| Seqs.Dedup | backend/app.py:26 | the de-duplicated list has exactly the members of the original and no repeats |
| Seqs.SeqMax | backend/weather_service.py:192 | the maximum is an element and bounds every element from above |
| Seqs.SeqMin | backend/weather_service.py:191 | the minimum is an element and bounds every element from below |
| Seqs.Filter | backend/weather_service.py:171 | the kept elements are exactly the elements satisfying the test; a one-element list is kept or dropped by the test |
| Seqs.FilterAppend | backend/weather_service.py:171 | filtering distributes over concatenation, so the kept elements keep their order and multiplicity |
| Seqs.SumBounds | backend/weather_service.py:193 | a sum of values within `[lo, hi]` lies within `n*lo` and `n*hi` |
| Seqs.Mean | backend/weather_service.py:193 | the mean of a non-empty list lies between its minimum and its maximum |
| Seqs.MeanIsAverage | backend/weather_service.py:193 | the mean is the arithmetic mean: `n` times it equals the sum of the `n` values |
| PyStrings.ReplaceFirst | backend/config.py:28 | `s.replace(p, r, 1)` on a string that starts with `p` gives `r` followed by the rest of `s` |
| PyStrings.Split | backend/app.py:19 | `split(',')` gives at least one part and no part contains the separator |
| PyStrings.JoinSplit | backend/app.py:19 | joining the parts of a split with the separator gives back the original string |
| PyStrings.RemoveChar | backend/data_fetcher.py:72 | `replace(':', '')` leaves no `':'`, adds no characters and leaves a string without `':'` unchanged |
| PyStrings.RemoveCharAppend | backend/data_fetcher.py:72 | removing a character distributes over concatenation |
| PyStrings.RemoveCharLength | backend/data_fetcher.py:72 | the result is shorter than the input by exactly the number of occurrences removed |
| PyStrings.PathJoin | backend/data_fetcher.py:74 | `os.path.join(a, b)` ends with `b`, and is `b` itself when `b` is absolute |
| PyStrings.Basename | backend/weather_service.py:205 | the base name is a suffix of the path without `'/'`, and is preceded by `'/'` when shorter than the path |
| PyStrings.BasenameOfJoin | backend/weather_service.py:205 | the base name of `join(dir, name)` is `name` for a name without `'/'` |
| WeatherMap.IndiaBounds | frontend/src/components/WeatherMap.jsx:48-53 | the selectable region is 6.0–35.5 N by 68.1–97.4 E, a proper box |
| WeatherMap.AcceptsClick | frontend/src/components/WeatherMap.jsx:59-70 | a click selects a point exactly when nothing is loading and the point is inside the region, borders included |
| WeatherMap.GateIsClosedBox | frontend/src/components/WeatherMap.jsx:63-68 | the four corners are selectable and any point past a border is not |
| WeatherMap.MaxBounds | frontend/src/components/WeatherMap.jsx:80-83 | the pan limit is the region padded by 2 degrees on every side and strictly contains it |
| WeatherMap.ViewportContainsRegion | frontend/src/components/WeatherMap.jsx:76-87 | every selectable point and the opening centre lie inside the pan limit |
| WeatherMap.LeafletMap.constructor | frontend/src/components/WeatherMap.jsx:106-108 | the map opens at the given centre and zoom with no limits set |
| WeatherMap.LeafletMap.SetMaxBounds | frontend/src/components/WeatherMap.jsx:84 | sets the pan limit and nothing else |
| WeatherMap.LeafletMap.SetMinZoom | frontend/src/components/WeatherMap.jsx:85 | sets the minimum zoom and nothing else |
| WeatherMap.LeafletMap.SetMaxZoom | frontend/src/components/WeatherMap.jsx:86 | sets the maximum zoom and nothing else |
| WeatherMap.EnforceBounds | frontend/src/components/WeatherMap.jsx:76-87 | after the effect the map's pan limit is the padded region and its zoom range 4..10 brackets the opening zoom; centre and zoom are untouched |
| WeatherMap.Render | frontend/src/components/WeatherMap.jsx:95-167 | spinner exactly while loading; a marker exactly at the selection, labelled with its latitude and longitude to 4 decimals; popup lines exactly when there is data, showing °C to 1, mm to 2, hPa to 0 and wind speed to 1 decimal; the hint exactly before any selection while idle |
| App.FailureMessage | frontend/src/App.jsx:25-28 | the banner text is the body's non-empty `message`, and otherwise the fixed connection message; never empty |
| App.ErrorFieldIsIgnored | frontend/src/App.jsx:26 | an `error` field in the body has no effect on the message |
| App.AfterSelect | frontend/src/App.jsx:15-18 | selecting sets loading, clears the error, records the location and issues one request, keeping the old data |
| App.AfterClick | frontend/src/components/WeatherMap.jsx:59-70 | a click while loading or outside the region changes nothing; otherwise it is a selection |
| App.AfterComplete | frontend/src/App.jsx:20-32 | when a request settles: loading off, selection kept, one fewer request pending; data on success, no data and the failure message on failure |
| App.AfterDismiss | frontend/src/App.jsx:51 | dismissing clears the error and nothing else |
| App.InitialInv | frontend/src/App.jsx:10-13 | the page starts with no selection, no data, not loading, no error, and in the session invariant |
| App.StepKeepsInv | frontend/src/App.jsx:15-33 | every gated click, settlement or dismissal keeps the session invariant: one request in flight exactly while loading, for the selected point, and no error while loading |
| App.RunKeepsInv | frontend/src/App.jsx:15-33 | any sequence of events keeps the invariant |
| App.AtMostOneRequestInFlight | frontend/src/App.jsx:15-33 | from page load, at most one point request is ever pending and no error shows while loading |
| App.SettledRequestIsForSelection | frontend/src/App.jsx:18-22 | the request that settles is the one for the selected point, and nothing is pending afterwards |
| App.SelectionIsNeverCleared | frontend/src/App.jsx:18 | once a location is selected no event clears it |
| App.UngatedSelectionsOverlap | frontend/src/App.jsx:15-32 | without the gate, a first response can land while the marker is on a second point, with loading off and a request still in flight |
| App.BannerMatchesError | frontend/src/App.jsx:41 | the error banner shows exactly when there is an error, and never while loading |
| App.HintGoneAfterSelection | frontend/src/components/WeatherMap.jsx:156 | after the first selection the map's hint never reappears |
| App.QuerySession.constructor | frontend/src/App.jsx:10-13 | the four cells start empty, as the initial snapshot |
| App.QuerySession.HandleLocationSelect | frontend/src/App.jsx:16-18 | the cells move as `AfterSelect` says |
| App.QuerySession.Click | frontend/src/components/WeatherMap.jsx:59-70 | the handler calls `onLocationSelect` exactly when the gate accepts, and the cells move as `AfterClick` says |
| App.QuerySession.Settle | frontend/src/App.jsx:20-32 | the cells move as `AfterComplete` says |
| App.QuerySession.DismissError | frontend/src/App.jsx:51 | the cells move as `AfterDismiss` says |
| Header.AfterCheck | frontend/src/components/Header.jsx:78-91 | a check always leaves the header online or offline; online exactly when the service is available and the dataset request succeeds; the dataset description changes only when it goes online |
| Header.LiveIffSourceShown | frontend/src/components/Header.jsx:80-86 | after the mount-time check the header is Live exactly when it shows a data source |
| Header.HeaderState.constructor | frontend/src/components/Header.jsx:71-72 | the header starts checking, with no dataset description |
| Header.HeaderState.CheckHealth | frontend/src/components/Header.jsx:78-91 | the state moves as `AfterCheck` says, and the dataset is requested exactly when the service reports itself available |
| Header.StatusLabel | frontend/src/components/Header.jsx:128-130 | the badge reads Live, Offline or Connecting, each exactly for its status |
| Header.StatusLabelInjective | frontend/src/components/Header.jsx:128-130 | different statuses never share a badge text |
| Header.SourceLabel | frontend/src/components/Header.jsx:117 | the source text is the data file's name, or `ERA5` when that name is empty; never empty |
| MetricBar.ValueText | frontend/src/components/MetricBar.jsx:90 | dashes exactly without data; a formatted reading exactly when the data holds that reading |
| MetricBar.MetricItem | frontend/src/components/MetricBar.jsx:88-110 | a tile keeps its caption, is a skeleton exactly while loading, and otherwise shows the metric's unit and value |
| MetricBar.Render | frontend/src/components/MetricBar.jsx:123-148 | the prompt exactly when idle without data; otherwise four tiles in table order, tile `i` being `MetricItem` of metric `i` (its caption, skeleton while loading, the reading to that metric's decimals and its unit), never dashes, each formatted exactly when its reading is present |
| WeatherCards.WeatherCard | frontend/src/components/WeatherCards.jsx:59-96 | no value while loading; dashes exactly when idle without data; the badge exactly with data; dimmed exactly while loading |
| WeatherCards.Render | frontend/src/components/WeatherCards.jsx:99-110 | five cards in table order, card `i` being `WeatherCard` of entry `i`: caption and unit, the placeholder exactly while loading, dashes exactly when idle without data, the reading to the card's decimals otherwise, a badge exactly when there is data |
| WeatherCards.CardsAgreeWithMetricBar | frontend/src/components/WeatherCards.jsx:1-57 | the first four cards show the same values as the metric bar; units agree except the temperature unit, which the metric bar spells differently |
| AnalysisPanel.VariablesSeries | frontend/src/components/AnalysisPanel.jsx:84-91 | the bars Temp, Precip, Wind U, Wind V in that order: the temperature, ten times the millimetres, the U component and the V component, each missing value plotting 0 |
| AnalysisPanel.Cardinal | frontend/src/components/AnalysisPanel.jsx:172-175 | every direction from -22.5° upwards has a compass label |
| AnalysisPanel.CardinalSector | frontend/src/components/AnalysisPanel.jsx:172-175 | a direction within 22.5° of sector `k`'s centre gets that sector's label, 360° wrapping to N |
| AnalysisPanel.CardinalUndefinedBelowNorth | frontend/src/components/AnalysisPanel.jsx:174 | negative directions below -22.5° index outside the table and show no label |
| AnalysisPanel.CardinalExamples | frontend/src/components/AnalysisPanel.jsx:173-174 | 0°→N, 44°→NE, 45°→NE, 135°→SE, 359°→N, and the 22.5° boundary rounds up to NE |
| AnalysisPanel.ComponentWidth | frontend/src/components/AnalysisPanel.jsx:214 | a component bar's width is a percentage, full from 15 m/s, proportional below |
| AnalysisPanel.ComponentWidthSymmetric | frontend/src/components/AnalysisPanel.jsx:214 | opposite components draw bars of the same width |
| AnalysisPanel.Render | frontend/src/components/AnalysisPanel.jsx:302-320 | loading wins over data; without data the empty state; content exactly when idle with data: the variables series, the wind gauge (speed to 1 decimal, compass label of the direction), the U and V bar widths of the components, and the location card, missing values read as 0 |
| AnalysisPanel.MissingWindShowsCalmNorth | frontend/src/components/AnalysisPanel.jsx:148-149 | with no wind data the gauge shows 0.0 m/s from N at 0° and an empty scale |
| AnalysisPanel.GaugeFillsScale | frontend/src/components/AnalysisPanel.jsx:154 | for a non-negative speed the gauge's segments fill the 20 m/s scale, the first capped at the speed |
| WeatherCharts.BarSeries | frontend/src/components/WeatherCharts.jsx:86-92 | the five bars in label order: the temperature, precipitation times ten, pressure divided by ten, the U component and the V component, each missing value read as 0 |
| WeatherCharts.VariablesAreBarsWithoutPressure | frontend/src/components/WeatherCharts.jsx:86-92 | the analysis panel's series is the bar series with the pressure bar removed |
| WeatherCharts.NormalizeTemp | frontend/src/components/WeatherCharts.jsx:160 | the radar temperature is clamped to 0..100, linear between -20 °C and 40 °C |
| WeatherCharts.NormalizeTempMonotone | frontend/src/components/WeatherCharts.jsx:160 | a warmer temperature never plots lower |
| WeatherCharts.NormalizePrecip | frontend/src/components/WeatherCharts.jsx:161 | capped at 100 from 10 mm, proportional below, negative for negative input (no lower clamp) |
| WeatherCharts.NormalizePressure | frontend/src/components/WeatherCharts.jsx:162 | capped at 100 from 1050 hPa, linear from 900 hPa, negative below 900 (no lower clamp) |
| WeatherCharts.MissingPressurePlotsNegative | frontend/src/components/WeatherCharts.jsx:173 | a missing pressure reads as 0 and plots at -600 |
| WeatherCharts.NormalizeWind | frontend/src/components/WeatherCharts.jsx:163 | wind components plot within 0..100, full from 20 m/s, five per m/s below |
| WeatherCharts.NormalizeWindSymmetric | frontend/src/components/WeatherCharts.jsx:163 | opposite components plot alike |
| WeatherCharts.RadarSeries | frontend/src/components/WeatherCharts.jsx:170-176 | the five radar axes in label order, each fed by its own normalisation: temperature, precipitation, pressure, U through the wind scale, V through the wind scale, missing values read as 0 |
| WeatherCharts.ComponentWidth | frontend/src/components/WeatherCharts.jsx:350 | a component bar's width is a percentage, full from 20 m/s |
| WeatherCharts.ComponentBarMatchesRadar | frontend/src/components/WeatherCharts.jsx:350 | the component bar's width equals the component's radar value |
| WeatherCharts.Render | frontend/src/components/WeatherCharts.jsx:294-370 | the empty state exactly without data; otherwise the nearest point's coordinates to 4 decimals, the bar and radar series of the response, the doughnut as the gauge segments of the speed, the speed to 1 and the direction to 0 decimals (missing as 0), the U and V texts to 2 decimals when present, component bar widths equal to the radar's wind axes |
| WeatherCharts.DoughnutMatchesGauge | frontend/src/components/WeatherCharts.jsx:236-243 | the charts' doughnut and speed are the analysis panel's gauge |
| WeatherService.Latitudes | backend/weather_service.py:182 | the latitude column of a grid, row for row |
| WeatherService.Longitudes | backend/weather_service.py:183 | the longitude row of a grid, cell for cell |
| WeatherService.Bounds | backend/weather_service.py:58-63 | north/south and east/west are coordinates of the file and enclose every coordinate |
| WeatherService.Nearest | backend/weather_service.py:75-79 | the selected coordinate is at least as close to the request as any other |
| WeatherService.KeepTruthy | backend/weather_service.py:119 | `x if x else None` keeps exactly the present non-zero values |
| WeatherService.FloorMod360 | backend/weather_service.py:104 | Python's `% 360` on floats lands in [0, 360) and leaves that interval unchanged |
| WeatherService.FloorMod360Periodic | backend/weather_service.py:104 | adding a full turn does not change the direction |
| WeatherService.Derive | backend/weather_service.py:96-141 | the point response: Kelvin, °C, °F, m, mm, Pa, hPa and the wind components are present exactly when their source value is truthy, and related by the unit conversions; speed and direction only with both components; the direction is `(270 - degrees(atan2(v, u))) % 360`, reported exactly when non-zero |
| WeatherService.FahrenheitFromKelvin | backend/weather_service.py:121 | a reported Fahrenheit value equals `K * 9/5 - 459.67` |
| WeatherService.FreezingPointReadsAsMissing | backend/weather_service.py:96-121 | exactly 273.15 K is reported in Kelvin but not in Celsius or Fahrenheit |
| WeatherService.ZeroReadsAsMissing | backend/weather_service.py:96-138 | a zero precipitation, pressure, temperature or wind component is reported as missing |
| WeatherService.NortherlyDirectionReadsAsMissing | backend/weather_service.py:138 | a wind from due north (direction 0°) is reported without a direction |
| WeatherService.PointAt | backend/weather_service.py:75-143 | the answer echoes the request, its actual point is the file's nearest latitude and longitude (the coordinates at the `Nearest` indices), and it is the unit derivation of the raw values at that same cell |
| WeatherService.SelectLatitudes | backend/weather_service.py:170-171 | the rows kept are exactly those whose latitude lies between the range's ends, in either order; a single row is kept or dropped by its latitude |
| WeatherService.SelectLatitudesAppend | backend/weather_service.py:170-171 | cutting stacked grids is cutting each, so the kept rows keep their file order and number |
| WeatherService.SelectLongitudes | backend/weather_service.py:172-173 | every row is kept with its latitude, its cells being exactly `CutCells` of its original cells |
| WeatherService.CutCells | backend/weather_service.py:172-173 | the cells kept from a row are exactly those whose longitude lies in the range; a single cell is kept or dropped by its longitude |
| WeatherService.CutCellsAppend | backend/weather_service.py:172-173 | cutting adjoining pieces of a row is cutting each, so the kept cells keep their order |
| WeatherService.Downsample | backend/weather_service.py:175-179 | thinning keeps the ceiling of `n / k` rows; row `i` of the result is row `i*k` of the input, its cells thinned to every `k`-th |
| WeatherService.DownsampleFrom | backend/weather_service.py:175-179 | every thinned row comes from an original row at the same latitude, and its cells from that row |
| WeatherService.Summarize | backend/weather_service.py:181-194 | None exactly for an empty extract; otherwise variable, coordinates and shape of the extract, `values` row `i` being the values of row `i`'s cells; min and max are present values bounding every present value, and the mean is their arithmetic mean; no statistics when every value is missing |
| WeatherService.FieldWithin | backend/weather_service.py:165 | a stored variable lies on the file's coordinates |
| WeatherService.SelectLatitudesWithin | backend/weather_service.py:171 | after the latitude cut every row is in the requested range |
| WeatherService.SelectLongitudesWithin | backend/weather_service.py:173 | after the longitude cut every cell is in the requested range, and the latitude cut still holds |
| WeatherService.DownsampleWithin | backend/weather_service.py:175-179 | thinning keeps both cuts |
| WeatherService.SummaryWithin | backend/weather_service.py:182-183 | the returned coordinate lists lie in the file and in the requested ranges |
| WeatherService.LatitudesKept | backend/weather_service.py:172-173 | the longitude cut keeps the latitude column |
| WeatherService.LongitudesKept | backend/weather_service.py:170-171 | the latitude cut keeps each row's longitudes |
| WeatherService.WeatherService.constructor | backend/weather_service.py:21-24 | an absent or empty path means the configured file; the dataset is what loading yields |
| WeatherService.WeatherService.ReloadDataset | backend/weather_service.py:46-49 | the dataset is replaced by the reloaded one and the path kept |
| WeatherService.WeatherService.GetBounds | backend/weather_service.py:54-63 | None exactly when unavailable; otherwise the file's bounds |
| WeatherService.WeatherService.GetWeatherAtPoint | backend/weather_service.py:65-82 | None exactly when unavailable; otherwise the point answer at the first time step |
| WeatherService.ExtractWithin | backend/weather_service.py:165-179 | the cut and thinned grid lies on the file's coordinates and within the requested ranges |
| WeatherService.GridAnswer | backend/weather_service.py:157-194 | None for an unknown variable or an empty extract; otherwise `Summarize` of the extract (cut by latitude, then longitude, then thinned), with coordinates in the file and in the ranges, and a whole axis where it was neither cut nor thinned |
| WeatherService.ExtractSpansAxes | backend/weather_service.py:170-179 | without thinning, an axis that was not cut is reported whole |
| WeatherService.WholeGridServed | backend/weather_service.py:157-194 | a stored variable requested without ranges always yields a grid, at any thinning step |
| WeatherService.WeatherService.GetGridData | backend/weather_service.py:149-198 | None when unavailable; otherwise exactly `GridAnswer` for the variable, ranges and step given |
| WeatherService.WeatherService.GetDatasetInfo | backend/weather_service.py:200-211 | None exactly when unavailable; otherwise the file's base name, the variables and the bounds |
| WeatherService.Registry.constructor | backend/weather_service.py:214 | no instance at start |
| WeatherService.Registry.GetWeatherService | backend/weather_service.py:217-221 | the first call creates the service on the configured file; every later call returns that same object |
| Ingest.FieldAt | backend/ingest_local.py:150-154 | a variable absent at that time step gives None; a present one gives cell `(i, j)` of its `[::k, ::k]` thinning, which is cell `(i*k, j*k)` of the full field |
| Ingest.ThinnedCell | backend/ingest_local.py:117-120 | cell `(i, j)` of the thinned array is cell `(i*k, j*k)` of the full one |
| Ingest.MakeRecord | backend/ingest_local.py:146-155 | a row references the timestamp row, carries the thinned coordinates, and stores the five variables' values at that thinned cell |
| Ingest.RowRecords | backend/ingest_local.py:145-156 | one row per thinned longitude |
| Ingest.StepRecordsReference | backend/ingest_local.py:147 | every row of a time step references that step's timestamp row |
| Ingest.IngestStep | backend/ingest_local.py:99-160 | a stored timestamp changes nothing; a new one receives the next id |
| Ingest.NewTimestampAppends | backend/ingest_local.py:108-158 | for a new timestamp, existing rows are kept and every appended row references the new id |
| Ingest.ThinnedCoordinates | backend/ingest_local.py:144-149 | a row's coordinates are the full grid's coordinates at `(i*k, j*k)` |
| Ingest.StepRecordsCount | backend/ingest_local.py:143-156 | a step inserts as many rows as thinned cells |
| Ingest.RowAt | backend/ingest_local.py:143-156 | the row for cell `(i, j)` sits after the rows of the earlier latitudes |
| Ingest.RowMajor | backend/ingest_local.py:144-145 | the rows are in latitude-major order: cell `(i, j)` at position `i * columns + j` |
| Ingest.IngestStepCount | backend/ingest_local.py:99-160 | a step adds its timestamp to the stored ones and adds a full grid of rows exactly when the timestamp was new |
| Ingest.IngestedKeys | backend/ingest_local.py:90-113 | after a run the stored timestamps are the old ones plus every timestamp of the file |
| Ingest.NewCountIsNewTimes | backend/ingest_local.py:99-103 | the steps processed as new are as many as the file's timestamps that were not stored before |
| Ingest.IngestedCount | backend/ingest_local.py:90-160 | after a run the rows grew by one grid per new time step |
| Ingest.RecordsInserted | backend/ingest_local.py:158-160 | the rows inserted are the new timestamps times the thinned latitudes times the thinned longitudes |
| Ingest.ExistingTimestampSkipped | backend/ingest_local.py:99-103 | a time step whose timestamp is already stored leaves the table unchanged |
| Ingest.MissingFieldIsNone | backend/ingest_local.py:151 | without precipitation data every row's precipitation is None |
| Ingest.Table.constructor | backend/ingest_local.py:40-48 | the tables hold the given timestamps, next id and rows |
| Ingest.BuildRecords | backend/ingest_local.py:143-156 | the nested loops build exactly the step's rows in order |
| Ingest.MergeAndIngest | backend/ingest_local.py:51-168 | a file without time steps fails before touching the tables (`times[0]` raises); otherwise the tables end as the run over all time steps says, and the returned total is the number of rows inserted |
| Config.DefaultDatabaseUrl | backend/config.py:22-25 | without `DATABASE_URL` the URL is a SQLite URL, never a legacy postgres one |
| Config.FixDatabaseUrl | backend/config.py:27-28 | a `postgres://` URL gets `postgresql://` in place of its scheme, with the rest kept; any other URL is unchanged; the result never has the legacy scheme |
| Config.FixIdempotent | backend/config.py:27-28 | rewriting twice is rewriting once |
| Config.FixKeepsRest | backend/config.py:28 | host, credentials and database name survive the rewrite |
| Config.DatabaseUrl | backend/config.py:22-30 | the default when unset; a set URL without the legacy scheme is used as is; SQLAlchemy never sees the legacy scheme |
| Config.NetcdfFile | backend/config.py:37-38 | the data file's base name is `india_era5.nc` |
| Config.AreaBox | backend/config.py:41 | the North, West, South, East list read as a box |
| Config.IndiaBoundsOrdered | backend/config.py:41 | north above south, east of west, and the same region as the map's click gate |
| Config.ProfileNamed | backend/config.py:71-76 | the four table entries exist and `default` is development |
| Config.SettingsOf | backend/config.py:53-68 | only testing sets `TESTING` and uses an in-memory database and leaves `DEBUG` and `FLASK_ENV` unset; development sets `DEBUG` on and `FLASK_ENV` to `development`, production `DEBUG` off and `FLASK_ENV` to `production`, both on the configured database URL |
| Config.NoLegacySchemeReachesSqlAlchemy | backend/config.py:22-30 | no profile's database URI has the legacy scheme |
| DataFetcher.FetcherAgreesWithConfig | backend/data_fetcher.py:29-38 | the fetcher's variables and region are the configuration's |
| DataFetcher.RequestFor | backend/data_fetcher.py:79-91 | the request names the date and time given, the five variables and the region, in NetCDF |
| DataFetcher.DefaultFilename | backend/data_fetcher.py:71-72 | the default name starts `india_era5_`, ends `.nc`, and has no `':'` or `'/'` unless the date parts bring one |
| DataFetcher.DefaultTimeStamp | backend/data_fetcher.py:63-72 | the default time 12:00 appears in the name as `1200` |
| DataFetcher.Filename | backend/data_fetcher.py:71-72 | an explicit name is used verbatim, even when empty; only an absent one is derived |
| DataFetcher.DownloadKeepsName | backend/data_fetcher.py:72-74 | the downloaded file's base name is the derived name |
| DataFetcher.CdsClient.constructor | backend/data_fetcher.py:47 | a new client has made no requests |
| DataFetcher.CdsClient.Retrieve | backend/data_fetcher.py:79-92 | the request is recorded, and succeeds unless the download raises |
| DataFetcher.ERA5DataFetcher.constructor | backend/data_fetcher.py:40-56 | available exactly when the library is installed and the client starts; it has a client exactly then; an absent or empty directory means the data directory |
| DataFetcher.ERA5DataFetcher.FetchSingleTime | backend/data_fetcher.py:58-99 | unavailable: None and no request; otherwise exactly one request to the joined path, and that path unless the download raises |
| FlaskApp.CorsOrigins | backend/app.py:19-26 | the origins are the `FRONTEND_URL` parts and the fixed origins, each exactly once |
| FlaskApp.CorsKeepsDeploymentOrigins | backend/app.py:19-26 | every listed and every fixed origin is allowed, and appears once |
| FlaskApp.PointReply | backend/app.py:54-84 | 400 exactly for a missing or unparsable coordinate, 503 exactly for an unavailable service, 500 exactly for no data, 200 with the data otherwise; every non-200 carries an error body |
| FlaskApp.ClientErrorBody | backend/app.py:58-69 | the backend's error bodies fill `error` and leave `message` absent |
| FlaskApp.BackendErrorsShowFallback | backend/app.py:57-69 | every failed point request shows the page's fixed connection message |
| FlaskApp.RangeOf | backend/app.py:106-107 | a range exactly when both bounds are present and non-zero, in the order given |
| FlaskApp.ZeroBoundDropsRange | backend/app.py:106-107 | a bound at 0.0 drops the whole range |
| FlaskApp.VariableOf | backend/app.py:94 | the variable is `t2m` when absent |
| FlaskApp.DownsampleOf | backend/app.py:99 | the thinning step is 4 when absent or not an integer |
| FlaskApp.GridDefaults | backend/app.py:94-107 | a bare grid request asks for `t2m` over the whole grid, every 4th point |
| FlaskApp.QueryLog.constructor | backend/app.py:29 | an empty session over an empty table |
| FlaskApp.QueryLog.Add | backend/app.py:78 | the query is staged and nothing is stored yet |
| FlaskApp.QueryLog.Commit | backend/app.py:79 | a successful commit stores the staged rows; a failed one stores nothing |
| FlaskApp.QueryLog.Rollback | backend/app.py:82 | staged rows are discarded and stored ones kept |
| FlaskApp.QueryLog.Stats | backend/app.py:141-147 | the statistics report the number of stored queries |
| FlaskApp.HealthReply | backend/app.py:40-48 | always 200 and healthy; availability reported as is; bounds only when available |
| FlaskApp.UnavailableBackendShowsOffline | backend/app.py:46 | a backend without data sends the header offline whatever the dataset reply |
| FlaskApp.HealthCheck | backend/app.py:40-48 | the reply carries the service's availability and, when available, its bounds |
| FlaskApp.GetWeather | backend/app.py:51-88 | the reply follows the status ladder with the nearest-point answer; a 200 logs one query row when the commit succeeds and none when it fails (rolled back), without changing the reply; other replies log nothing |
| FlaskApp.GridQuery | backend/app.py:94-114 | the service is asked for the requested (or default) variable, the ranges built from the parameters and the requested (or default) thinning step |
| FlaskApp.BareGridRequestServed | backend/app.py:94-119 | a request without parameters, on a file holding 2 m temperature, is answered with the whole `t2m` grid thinned to every 4th point |
| FlaskApp.GetGridData | backend/app.py:91-119 | 503 exactly when unavailable; otherwise 200 with the service's grid for `GridQuery` when there is one, 500 when there is none; a 200 carries the requested variable with coordinates in the file and within the ranges |
| FlaskApp.GetDatasetInfo | backend/app.py:122-130 | 503 when unavailable; otherwise 200 with the file name, variables and bounds |

## Left out

- Rendering is out: markup, styles, icons, chart options, animations and the marker icon. The
  views are modelled as the values they display.
- `toFixed`, `toLocaleString` and the timestamps (`new Date(...)`, `datetime.utcnow()`) are left
  out. Formatted numbers are abstract `Format.Text` values, and timestamps are not part of the
  point response.
- Python `round(x, n)` in the point response is taken as the identity. The values are stated
  before rounding.
- `numpy.sqrt`, `arctan2` and `degrees` are passed in as the `Numerics` parameter. Floating
  point is modelled as `real`: IEEE rounding and NaN arithmetic are not modelled.
- NaN in the file is modelled as a missing value (`None`). A NaN read at a point is therefore not
  propagated.
- WeatherService.Nearest: ties go to the first coordinate. xarray's tie-breaking is not modelled.
- WeatherService.PointAt: always reads the first time step (`time_idx` = 0), as every caller does.
- WeatherService.GridAnswer: always reads the first time step (`time_idx` = 0), as the grid
  endpoint does. A dataset holds one grid per variable, so other time steps are not modelled.
- WeatherService.WeatherService.constructor: the loading steps of `_load_dataset` are folded into
  the `loaded` parameter. These are the xarray import check, creating sample data for a missing
  file, and opening the file.
- WeatherService.SelectLatitudes: models xarray's label slice as an inclusive range filter. This
  matches the ERA5 layout, where latitudes descend. Slices on an ascending latitude axis are not
  modelled.
- WeatherService.SelectLongitudes: models `slice(min, max)` as an inclusive range filter. This
  assumes an ascending longitude axis, as in ERA5 files. On a descending axis the slice selects
  nothing; that case is not modelled.
- WeatherService.Summarize: an extract whose values are all missing has no min/max/mean, where
  numpy would give NaN.
- The `except Exception` branches that turn unexpected failures into None or a 500 are not
  modelled, because nothing in the model raises. The one failure the model does capture is the
  empty grid extract, where `nanmin` raises and the service answers None. The download's exception is the `fails`
  parameter.
- `get_queries` is left out. It orders the log by wall-clock timestamp, which the model does not
  keep.
- `dimensions`, `coordinates` and `attributes` in the dataset description are left out.
- FlaskApp.CorsOrigins: keeps first occurrences in order. `list(set(...))` has no specified
  order, so only the set of origins and their uniqueness are stated.
- FlaskApp.PointReply: `request.args.get(..., type=float)` and `type=int` are modelled by their
  outcome. They yield None when the parameter is missing or does not convert.
- The `str(data)` rendering of a logged response is not modelled; the log keeps the response value.
- `SECRET_KEY`, the CDS API settings and the `os.makedirs` calls are left out: environment
  defaults and I/O.
- The directory of the configuration module is a parameter (`Config.DbDir`).
- `create_sample_data` is left out. It generates random synthetic data.
- Ingest: the timestamp conversion (`pd.Timestamp` / `fromisoformat`) is left out. Timestamps
  are integers.
- Ingest: the `source_file` column of the timestamp table is left out.
- Ingest: precipitation from the accumulated file is taken as already merged into each time step.
  The nearest-time selection is left out.
- Ingest.MergeAndIngest: requires `downsample >= 1`. Python rejects a zero slice step.
- Ingest.MergeAndIngest: negative steps are not modelled.
- Ingest.MergeAndIngest: each time step's commit is modelled as succeeding.
- Ingest.MergeAndIngest: timestamps within one file are taken as distinct. A timestamp repeated in
  the file makes the selection keep its time dimension, and the NaN test on the cell then raises;
  the model instead skips the second copy as already stored.
- Logging is left out: the `logger` calls of the backend and the progress `print`s of the ingest
  script write text only and change no state.
- The browser's HTTP client module and the page footer are left out: transport and static text.
  The backend's table definitions are reflected only in the record shapes.
