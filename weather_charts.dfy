/**
 * The charts view: a five-bar chart, a radar chart of normalised values, the wind-speed doughnut
 * with its readout, and the two wind-component bars. Without data it shows an empty state.
 */
module WeatherCharts {
  import opened Wrappers
  import opened Sample
  import opened Format
  import opened UnitConverter
  import AnalysisPanel

  const BAR_LABELS := ["Temperature (°C)", "Precipitation (mm×10)", "Pressure (hPa/10)", "Wind U (m/s)", "Wind V (m/s)"]
  const RADAR_LABELS := ["Temperature", "Precipitation", "Pressure", "Wind U", "Wind V"]

  /** The doughnut's full scale, in m/s. */
  const MAX_SPEED := 20.0

  /**
   * WeatherBarChart's data, each missing value read as 0: temperature, precipitation ×10,
   * pressure ÷10 and the two wind components.
   */
  function BarSeries(d: PointResponse): (r: seq<real>)
    ensures |r| == |BAR_LABELS|
    ensures r[1] / 10.0 == OrZero(d.precipitation.millimeters)
    ensures r[0] == OrZero(d.temperature.celsius)
    ensures r[2] * 10.0 == OrZero(d.pressure.hectopascal)
    ensures r[3] == OrZero(d.wind.uComponent) && r[4] == OrZero(d.wind.vComponent)
    ensures d.temperature.celsius == None ==> r[0] == 0.0
  {
    [
      OrZero(d.temperature.celsius),
      OrZero(d.precipitation.millimeters) * 10.0,
      OrZero(d.pressure.hectopascal) / 10.0,
      OrZero(d.wind.uComponent),
      OrZero(d.wind.vComponent)
    ]
  }

  /** The analysis panel's variables chart is this bar chart without its pressure bar. */
  lemma VariablesAreBarsWithoutPressure(d: PointResponse)
    ensures AnalysisPanel.VariablesSeries(d) == BarSeries(d)[..2] + BarSeries(d)[3..]
  {}

  /** Temperature on the radar axis: -20 °C maps to 0, 40 °C to 100, linear between, clamped outside. */
  function NormalizeTemp(t: real): (r: real)
    ensures 0.0 <= r <= 100.0
    ensures t <= -20.0 ==> r == 0.0
    ensures t >= 40.0 ==> r == 100.0
    ensures -20.0 <= t <= 40.0 ==> r * 60.0 == (t + 20.0) * 100.0
  {
    Min(100.0, Max(0.0, ((t + 20.0) / 60.0) * 100.0))
  }

  /** Warmer never plots lower. */
  lemma NormalizeTempMonotone(a: real, b: real)
    requires a <= b
    ensures NormalizeTemp(a) <= NormalizeTemp(b)
  {}

  /**
   * Precipitation on the radar axis: 10 mm or more is 100. There is no lower clamp, so a
   * negative amount plots below the centre.
   */
  function NormalizePrecip(p: real): (r: real)
    ensures r <= 100.0
    ensures p >= 10.0 ==> r == 100.0
    ensures p <= 10.0 ==> r == p * 10.0
    ensures p < 0.0 ==> r < 0.0
  {
    Min(100.0, (p / 10.0) * 100.0)
  }

  /**
   * Pressure on the radar axis: 900 hPa is 0, 1050 hPa and above is 100. There is no lower clamp,
   * so pressures below 900 hPa, and a missing pressure read as 0, plot below the centre.
   */
  function NormalizePressure(p: real): (r: real)
    ensures r <= 100.0
    ensures p >= 1050.0 ==> r == 100.0
    ensures p <= 1050.0 ==> r * 150.0 == (p - 900.0) * 100.0
    ensures p < 900.0 ==> r < 0.0
  {
    Min(100.0, ((p - 900.0) / 150.0) * 100.0)
  }

  /** A missing pressure plots at -600 on the radar. */
  lemma MissingPressurePlotsNegative()
    ensures NormalizePressure(OrZero(None)) == -600.0
  {}

  /** A wind component on the radar axis: its magnitude against 20 m/s, clamped to [0, 100]. */
  function NormalizeWind(w: real): (r: real)
    ensures 0.0 <= r <= 100.0
    ensures Abs(w) >= 20.0 ==> r == 100.0
    ensures Abs(w) <= 20.0 ==> r == Abs(w) * 5.0
  {
    Min(100.0, Max(0.0, (Abs(w) / 20.0) * 100.0))
  }

  /** The radar's wind axes do not distinguish a component from its opposite. */
  lemma NormalizeWindSymmetric(w: real)
    ensures NormalizeWind(-w) == NormalizeWind(w)
  {}

  /** WeatherRadarChart's data: each variable on its own axis, through that axis's normalisation. */
  function RadarSeries(d: PointResponse): (r: seq<real>)
    ensures |r| == |RADAR_LABELS|
    ensures r[0] == NormalizeTemp(OrZero(d.temperature.celsius))
    ensures r[1] == NormalizePrecip(OrZero(d.precipitation.millimeters))
    ensures r[2] == NormalizePressure(OrZero(d.pressure.hectopascal))
    ensures r[3] == NormalizeWind(OrZero(d.wind.uComponent))
    ensures r[4] == NormalizeWind(OrZero(d.wind.vComponent))
    ensures forall i :: 0 <= i < |r| ==> r[i] <= 100.0
    ensures 0.0 <= r[0] && 0.0 <= r[3] && 0.0 <= r[4]
  {
    [
      NormalizeTemp(OrZero(d.temperature.celsius)),
      NormalizePrecip(OrZero(d.precipitation.millimeters)),
      NormalizePressure(OrZero(d.pressure.hectopascal)),
      NormalizeWind(OrZero(d.wind.uComponent)),
      NormalizeWind(OrZero(d.wind.vComponent))
    ]
  }

  /** A component bar's width: `Math.min(100, |c| * 5)` percent. */
  function ComponentWidth(c: real): (w: real)
    ensures 0.0 <= w <= 100.0
    ensures Abs(c) >= 20.0 ==> w == 100.0
  {
    Min(100.0, Abs(c) * 5.0)
  }

  /** The component bars are as long as the radar's wind axes. */
  lemma ComponentBarMatchesRadar(c: real)
    ensures ComponentWidth(c) == NormalizeWind(c)
  {}

  datatype View =
    | Empty
    | Charts(
        latitude: Text, longitude: Text,
        bars: seq<real>, radar: seq<real>,
        doughnut: seq<real>, speed: Text, bearing: Text,
        uText: Text, uWidth: real, vText: Text, vWidth: real)

  /** WeatherCharts: the empty state without data, otherwise every chart built from the same response. */
  function Render(data: Option<PointResponse>): (v: View)
    ensures v.Empty? <==> data.None?
    ensures v.Charts? ==> v.bars == BarSeries(data.value) && v.radar == RadarSeries(data.value)
    ensures v.Charts? ==> |v.bars| == 5 && |v.radar| == 5 && |v.doughnut| == 2
    ensures v.Charts? ==> (v.uText.Fixed? <==> data.value.wind.uComponent.Some?)
    ensures v.Charts? ==> (v.vText.Fixed? <==> data.value.wind.vComponent.Some?)
    ensures v.Charts? ==> v.uWidth == v.radar[3] && v.vWidth == v.radar[4]
    ensures v.Charts? ==>
              v.latitude == ToFixed(Some(data.value.actual.latitude), 4) &&
              v.longitude == ToFixed(Some(data.value.actual.longitude), 4)
    ensures v.Charts? ==> v.uText == ToFixed(data.value.wind.uComponent, 2) && v.vText == ToFixed(data.value.wind.vComponent, 2)
    ensures v.Charts? ==> v.bearing == Fixed(OrZero(data.value.wind.direction), 0)
    ensures v.Charts? ==> v.speed == Fixed(OrZero(data.value.wind.speed), 1)
    ensures v.Charts? ==> v.doughnut == GaugeSegments(OrZero(data.value.wind.speed), MAX_SPEED)
  {
    match data
    case None => Empty
    case Some(d) =>
      var speed := OrZero(d.wind.speed);
      ComponentBarMatchesRadar(OrZero(d.wind.uComponent));
      ComponentBarMatchesRadar(OrZero(d.wind.vComponent));
      Charts(
        ToFixed(Some(d.actual.latitude), 4), ToFixed(Some(d.actual.longitude), 4),
        BarSeries(d), RadarSeries(d),
        GaugeSegments(speed, MAX_SPEED), Fixed(speed, 1), Fixed(OrZero(d.wind.direction), 0),
        ToFixed(d.wind.uComponent, 2), ComponentWidth(OrZero(d.wind.uComponent)),
        ToFixed(d.wind.vComponent, 2), ComponentWidth(OrZero(d.wind.vComponent)))
  }

  /** The doughnut and the analysis panel's gauge show the same wind. */
  lemma DoughnutMatchesGauge(d: PointResponse)
    ensures Render(Some(d)).doughnut == AnalysisPanel.WindGauge(d).segments
    ensures Render(Some(d)).speed == AnalysisPanel.WindGauge(d).speed
  {}
}
