/**
 * The five weather cards: temperature, precipitation, pressure, wind speed and wind direction.
 * Each always shows its caption and unit; its value is a pulsing placeholder while loading and
 * dashes without data; a source badge appears once data is present.
 */
module WeatherCards {
  import opened Wrappers
  import opened Sample
  import opened Format
  import MetricBar

  datatype Card = Card(quantity: MetricBar.Quantity, caption: string, unit: string, digits: nat, description: string)

  const WEATHER_CARDS: seq<Card> := [
    Card(MetricBar.Celsius, "Temperature", "°C", 1, "2m air temperature"),
    Card(MetricBar.Millimeters, "Precipitation", "mm", 2, "Total precipitation"),
    Card(MetricBar.Hectopascal, "Pressure", "hPa", 0, "Surface pressure"),
    Card(MetricBar.WindSpeed, "Wind Speed", "m/s", 1, "Combined wind speed"),
    Card(MetricBar.WindDirection, "Wind Direction", "°", 0, "Wind direction")
  ]

  /** What a card displays; `value` is None where the pulsing placeholder stands. */
  datatype CardView = CardView(caption: string, value: Option<Text>, unit: string, badge: bool, dimmed: bool)

  function WeatherCard(c: Card, data: Option<PointResponse>, isLoading: bool): (v: CardView)
    ensures v.caption == c.caption && v.unit == c.unit
    ensures v.value.None? <==> isLoading
    ensures v.value == Some(Dashes) <==> !isLoading && data.None?
    ensures v.badge <==> data.Some?
    ensures v.dimmed <==> isLoading
    ensures v.value.Some? ==> v.value.value == MetricBar.ValueText(c.quantity, c.digits, data)
  {
    var value := MetricBar.ValueText(c.quantity, c.digits, data);
    CardView(c.caption, if isLoading then None else Some(value), c.unit, data.Some?, isLoading)
  }

  /** One card per entry of the table, in order. */
  function Render(data: Option<PointResponse>, isLoading: bool): (r: seq<CardView>)
    ensures |r| == |WEATHER_CARDS|
    ensures forall i :: 0 <= i < |r| ==> r[i].caption == WEATHER_CARDS[i].caption && r[i].unit == WEATHER_CARDS[i].unit
    ensures forall i :: 0 <= i < |r| ==> (r[i].badge <==> data.Some?)
    ensures forall i :: 0 <= i < |r| ==> r[i] == WeatherCard(WEATHER_CARDS[i], data, isLoading)
    ensures forall i :: 0 <= i < |r| ==> (r[i].value.None? <==> isLoading)
    ensures forall i :: 0 <= i < |r| ==> (r[i].value == Some(Dashes) <==> !isLoading && data.None?)
  {
    seq(|WEATHER_CARDS|, i requires 0 <= i < |WEATHER_CARDS| => WeatherCard(WEATHER_CARDS[i], data, isLoading))
  }

  /**
   * The first four cards read the same quantities to the same decimals as the metric bar's tiles,
   * so with data present and nothing loading they show the same values; only the temperature unit
   * is spelled differently ("°C" here, "Â°C" in the metric table).
   */
  lemma CardsAgreeWithMetricBar(d: PointResponse)
    ensures var cards := Render(Some(d), false);
            var bar := MetricBar.Render(Some(d), false);
            bar.Tiles? && |bar.tiles| == 4 &&
            forall i :: 0 <= i < 4 ==> Some(bar.tiles[i].value) == cards[i].value
    ensures forall i :: 1 <= i < 4 ==> WEATHER_CARDS[i].unit == MetricBar.METRICS[i].unit
    ensures WEATHER_CARDS[0].unit != MetricBar.METRICS[0].unit
  {
    var cards := Render(Some(d), false);
    var bar := MetricBar.Render(Some(d), false);
    forall i | 0 <= i < 4
      ensures Some(bar.tiles[i].value) == cards[i].value
    {
      assert WEATHER_CARDS[i].quantity == MetricBar.METRICS[i].quantity;
      assert WEATHER_CARDS[i].digits == MetricBar.METRICS[i].digits;
    }
    assert WEATHER_CARDS[0].unit[0] != MetricBar.METRICS[0].unit[0];
  }
}
