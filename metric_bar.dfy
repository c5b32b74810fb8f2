/**
 * The metric bar: four tiles (temperature, precipitation, pressure, wind speed), each a label with
 * either a loading skeleton or a formatted reading and its unit; with neither data nor a request
 * in flight, a single prompt instead.
 */
module MetricBar {
  import opened Wrappers
  import opened Sample
  import opened Format

  /** The quantities of a point response that a tile or a card can display. */
  datatype Quantity = Celsius | Millimeters | Hectopascal | WindSpeed | WindDirection

  /** The value a getter reads from a response; absent when the backend left it out. */
  function Reading(q: Quantity, d: PointResponse): Option<real> {
    match q
    case Celsius => d.temperature.celsius
    case Millimeters => d.precipitation.millimeters
    case Hectopascal => d.pressure.hectopascal
    case WindSpeed => d.wind.speed
    case WindDirection => d.wind.direction
  }

  /** One entry of the metric table: what to read, how to caption it, its decimals and its unit. */
  datatype Metric = Metric(quantity: Quantity, caption: string, digits: nat, unit: string)

  /** The table of metrics, in display order. The temperature unit is spelled as in the component. */
  const METRICS: seq<Metric> := [
    Metric(Celsius, "Temperature", 1, "Â°C"),
    Metric(Millimeters, "Precipitation", 2, "mm"),
    Metric(Hectopascal, "Pressure", 0, "hPa"),
    Metric(WindSpeed, "Wind Speed", 1, "m/s")
  ]

  datatype Tile = Skeleton(caption: string) | Shown(caption: string, value: Text, unit: string)

  /** The text a getter produces: dashes without data, otherwise the reading to the metric's decimals. */
  function ValueText(quantity: Quantity, digits: nat, data: Option<PointResponse>): (t: Text)
    ensures t == Dashes <==> data.None?
    ensures t.Fixed? <==> data.Some? && Reading(quantity, data.value).Some?
    ensures t.Fixed? ==> t == Fixed(Reading(quantity, data.value).value, digits)
  {
    match data
    case None => Dashes
    case Some(d) => ToFixed(Reading(quantity, d), digits)
  }

  function MetricItem(m: Metric, data: Option<PointResponse>, isLoading: bool): (t: Tile)
    ensures t.caption == m.caption
    ensures t.Skeleton? <==> isLoading
    ensures t.Shown? ==> t.unit == m.unit && t.value == ValueText(m.quantity, m.digits, data)
  {
    if isLoading then Skeleton(m.caption) else Shown(m.caption, ValueText(m.quantity, m.digits, data), m.unit)
  }

  datatype View = Prompt | Tiles(tiles: seq<Tile>)

  /**
   * MetricBar: the prompt exactly when there is no data and nothing is loading; otherwise one tile
   * per metric, in table order, all skeletons while loading. A tile never shows the dashes.
   */
  function Render(data: Option<PointResponse>, isLoading: bool): (v: View)
    ensures v.Prompt? <==> data.None? && !isLoading
    ensures v.Tiles? ==> |v.tiles| == |METRICS|
    ensures v.Tiles? ==> forall i :: 0 <= i < |v.tiles| ==> v.tiles[i] == MetricItem(METRICS[i], data, isLoading)
    ensures v.Tiles? ==> forall i :: 0 <= i < |v.tiles| ==> v.tiles[i].caption == METRICS[i].caption
    ensures v.Tiles? ==> forall i :: 0 <= i < |v.tiles| ==> (v.tiles[i].Skeleton? <==> isLoading)
    ensures v.Tiles? ==> forall i :: 0 <= i < |v.tiles| ==> v.tiles[i].Shown? ==> v.tiles[i].value != Dashes
    ensures v.Tiles? && !isLoading ==> forall i :: 0 <= i < |v.tiles| ==>
              (v.tiles[i].value.Fixed? <==> Reading(METRICS[i].quantity, data.value).Some?)
  {
    if data.None? && !isLoading then Prompt
    else Tiles(seq(|METRICS|, i requires 0 <= i < |METRICS| => MetricItem(METRICS[i], data, isLoading)))
  }
}
