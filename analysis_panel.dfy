/**
 * The analysis panel: which of loading / empty / content it shows, and what its content is built
 * from: the four-bar variables chart, the wind gauge with its compass label, the two
 * wind-component bars, and the location details.
 */
module AnalysisPanel {
  import opened Wrappers
  import opened Sample
  import opened Format
  import opened UnitConverter

  datatype Compass = N | NE | E | SE | S | SW | W | NW

  /** The compass list `getCardinal` indexes into, clockwise from north. */
  const DIRECTIONS: seq<Compass> := [N, NE, E, SE, S, SW, W, NW]

  const VARIABLE_LABELS := ["Temp", "Precip", "Wind U", "Wind V"]

  /** WindGauge's full scale, in m/s. */
  const MAX_SPEED := 20.0

  /** WindDetail's full scale for a wind component, in m/s. */
  const MAX_COMPONENT := 15.0

  /**
   * VariablesChart's data: temperature, precipitation scaled by 10, and the two wind components,
   * each missing value read as 0. There is no pressure bar.
   */
  function VariablesSeries(d: PointResponse): (r: seq<real>)
    ensures |r| == |VARIABLE_LABELS|
    ensures r[0] == OrZero(d.temperature.celsius)
    ensures r[1] / 10.0 == OrZero(d.precipitation.millimeters)
    ensures r[2] == OrZero(d.wind.uComponent) && r[3] == OrZero(d.wind.vComponent)
    ensures d.temperature.celsius == None ==> r[0] == 0.0
    ensures d.wind.uComponent == None ==> r[2] == 0.0
    ensures d.wind.vComponent == None ==> r[3] == 0.0
  {
    [
      OrZero(d.temperature.celsius),
      OrZero(d.precipitation.millimeters) * 10.0,
      OrZero(d.wind.uComponent),
      OrZero(d.wind.vComponent)
    ]
  }

  /**
   * `getCardinal(deg)`: `directions[Math.round(deg / 45) % 8]`. JavaScript's `%` keeps the sign,
   * so a negative index reads `undefined` (None here).
   */
  function Cardinal(deg: real): (c: Option<Compass>)
    ensures deg >= -22.5 ==> c.Some?
  {
    var k := Rem(Round(deg / 45.0), 8);
    if 0 <= k < 8 then Some(DIRECTIONS[k]) else None
  }

  /**
   * For a non-negative bearing the label is that of the 45-degree sector centred on the nearest
   * multiple of 45 degrees, boundaries going to the clockwise sector; k = 8 is north again.
   */
  lemma CardinalSector(deg: real, k: nat)
    requires 0 <= k <= 8
    requires 45.0 * k as real - 22.5 <= deg < 45.0 * k as real + 22.5
    ensures Cardinal(deg) == Some(DIRECTIONS[k % 8])
  {
    assert Round(deg / 45.0) == k;
  }

  /** Bearings that round to a negative multiple of 45 degrees, other than multiples of 360, have no label. */
  lemma CardinalUndefinedBelowNorth(deg: real)
    requires -337.5 <= deg < -22.5
    ensures Cardinal(deg) == None
  {
    var n := Round(deg / 45.0);
    assert -7 <= n <= -1;
  }

  /** 0 is N, 44 and 45 are NE, 135 is SE, 359 is N, 22.5 rounds up to NE. */
  lemma CardinalExamples()
    ensures Cardinal(0.0) == Some(N) && Cardinal(44.0) == Some(NE) && Cardinal(45.0) == Some(NE)
    ensures Cardinal(135.0) == Some(SE) && Cardinal(359.0) == Some(N) && Cardinal(22.5) == Some(NE)
    ensures Cardinal(22.4) == Some(N)
  {
    CardinalSector(0.0, 0);
    CardinalSector(44.0, 1);
    CardinalSector(45.0, 1);
    CardinalSector(135.0, 3);
    CardinalSector(359.0, 8);
    CardinalSector(22.5, 1);
    CardinalSector(22.4, 0);
  }

  /** WindDetail's bar width: `Math.min(100, |c| / 15 * 100)` percent. */
  function ComponentWidth(c: real): (w: real)
    ensures 0.0 <= w <= 100.0
    ensures Abs(c) >= MAX_COMPONENT ==> w == 100.0
    ensures Abs(c) <= MAX_COMPONENT ==> w * MAX_COMPONENT == Abs(c) * 100.0
  {
    Min(100.0, (Abs(c) / MAX_COMPONENT) * 100.0)
  }

  /** A component and its opposite draw the same bar. */
  lemma ComponentWidthSymmetric(c: real)
    ensures ComponentWidth(-c) == ComponentWidth(c)
  {}

  /** The wind gauge: doughnut data, speed, and compass label with bearing. */
  datatype Gauge = Gauge(segments: seq<real>, speed: Text, cardinal: Option<Compass>, bearing: Text)

  /** The location details card. */
  datatype Location = Location(latitude: Text, longitude: Text, fahrenheit: Text, kelvin: Text)

  datatype View =
    | Loading
    | Empty
    | Content(variables: seq<real>, gauge: Gauge, uWidth: real, vWidth: real, location: Location)

  function WindGauge(d: PointResponse): Gauge {
    var speed := OrZero(d.wind.speed);
    var direction := OrZero(d.wind.direction);
    Gauge(GaugeSegments(speed, MAX_SPEED), Fixed(speed, 1), Cardinal(direction), Fixed(direction, 0))
  }

  function LocationInfo(d: PointResponse): Location {
    Location(
      ToFixed(Some(d.actual.latitude), 4), ToFixed(Some(d.actual.longitude), 4),
      ToFixed(d.temperature.fahrenheit, 1), ToFixed(d.temperature.kelvin, 1))
  }

  /** AnalysisPanel: loading wins over data; without data the empty state; otherwise the content. */
  function Render(data: Option<PointResponse>, isLoading: bool): (v: View)
    ensures isLoading ==> v == Loading
    ensures !isLoading && data.None? ==> v == Empty
    ensures v.Content? <==> !isLoading && data.Some?
    ensures v.Content? ==> |v.variables| == 4 && 0.0 <= v.uWidth <= 100.0 && 0.0 <= v.vWidth <= 100.0
    ensures v.Content? ==> v.variables == VariablesSeries(data.value) && v.gauge == WindGauge(data.value)
    ensures v.Content? ==> v.uWidth == ComponentWidth(OrZero(data.value.wind.uComponent))
    ensures v.Content? ==> v.vWidth == ComponentWidth(OrZero(data.value.wind.vComponent))
    ensures v.Content? ==> v.location == LocationInfo(data.value)
    ensures v.Content? ==> v.gauge.speed == Fixed(OrZero(data.value.wind.speed), 1)
    ensures v.Content? ==> v.gauge.cardinal == Cardinal(OrZero(data.value.wind.direction))
  {
    if isLoading then Loading
    else match data
      case None => Empty
      case Some(d) =>
        Content(VariablesSeries(d), WindGauge(d),
                ComponentWidth(OrZero(d.wind.uComponent)), ComponentWidth(OrZero(d.wind.vComponent)),
                LocationInfo(d))
  }

  /** Missing wind speed and direction show as 0 m/s, an empty gauge and north. */
  lemma MissingWindShowsCalmNorth(d: PointResponse)
    requires d.wind.speed == None && d.wind.direction == None
    ensures WindGauge(d) == Gauge([0.0, MAX_SPEED], Fixed(0.0, 1), Some(N), Fixed(0.0, 0))
  {
    CardinalSector(0.0, 0);
  }

  /** For a speed the backend can produce (non-negative) the gauge segments are non-negative and fill the full scale. */
  lemma GaugeFillsScale(d: PointResponse)
    requires OrZero(d.wind.speed) >= 0.0
    ensures var g := WindGauge(d).segments;
            g[0] >= 0.0 && g[1] >= 0.0 && g[0] + g[1] == MAX_SPEED && g[0] == Min(OrZero(d.wind.speed), MAX_SPEED)
  {}
}
