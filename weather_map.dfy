/**
 * The map view: the fixed selectable region, the click gate, the viewport limits that
 * `BoundsEnforcer` sets on the map object, and which overlays are drawn.
 */
module WeatherMap {
  import opened Wrappers
  import opened Geo
  import opened Sample
  import opened Format

  /** INDIA_BOUNDS: the region in which a click may select a point. */
  function IndiaBounds(): (b: Box)
    ensures b.north > b.south && b.east > b.west
    ensures b.north == 35.5 && b.south == 6.0 && b.west == 68.1 && b.east == 97.4
  {
    Box(35.5, 6.0, 68.1, 97.4)
  }

  /** Where the map opens, and at which zoom. */
  const INDIA_CENTER := LatLon(22.5, 82.5)
  const INITIAL_ZOOM := 5

  /** Margin, in degrees, by which the viewport may extend past the region. */
  const PADDING := 2.0
  const MIN_ZOOM := 4
  const MAX_ZOOM := 10

  /**
   * MapClickHandler: a click reaches `onLocationSelect` only when no query is loading and the
   * point lies in the region, borders included.
   */
  function AcceptsClick(isLoading: bool, lat: real, lng: real): (ok: bool)
    ensures isLoading ==> !ok
    ensures ok <==> !isLoading && 6.0 <= lat <= 35.5 && 68.1 <= lng <= 97.4
  {
    !isLoading && InBox(IndiaBounds(), lat, lng)
  }

  /** The gate is closed: the four corners are selectable, anything past a border is not. */
  lemma GateIsClosedBox(lat: real, lng: real, eps: real)
    requires eps > 0.0
    ensures AcceptsClick(false, 6.0, 68.1) && AcceptsClick(false, 6.0, 97.4)
    ensures AcceptsClick(false, 35.5, 68.1) && AcceptsClick(false, 35.5, 97.4)
    ensures !AcceptsClick(false, 35.5 + eps, lng) && !AcceptsClick(false, 6.0 - eps, lng)
    ensures !AcceptsClick(false, lat, 68.1 - eps) && !AcceptsClick(false, lat, 97.4 + eps)
  {}

  /** The viewport limit: the region padded by PADDING degrees on every side. */
  function MaxBounds(region: Box): (p: Box)
    ensures p.south == region.south - PADDING && p.north == region.north + PADDING
    ensures p.west == region.west - PADDING && p.east == region.east + PADDING
    ensures StrictlyContains(p, region)
  {
    Box(region.north + PADDING, region.south - PADDING, region.west - PADDING, region.east + PADDING)
  }

  /** Every point a click can select, and the opening centre, lie strictly inside the viewport limit. */
  lemma ViewportContainsRegion(lat: real, lng: real)
    requires AcceptsClick(false, lat, lng)
    ensures InBox(MaxBounds(IndiaBounds()), lat, lng)
    ensures MaxBounds(IndiaBounds()).south < lat < MaxBounds(IndiaBounds()).north
    ensures AcceptsClick(false, INDIA_CENTER.latitude, INDIA_CENTER.longitude)
  {}

  /** The parts of the Leaflet map object that `BoundsEnforcer` writes. */
  class LeafletMap {
    var center: LatLon
    var zoom: int
    var maxBounds: Option<Box>
    var minZoom: Option<int>
    var maxZoom: Option<int>

    /** `<MapContainer center={INDIA_CENTER} zoom={5}>`: no limits are set yet (None: the library's default). */
    constructor(center: LatLon, zoom: int)
      ensures this.center == center && this.zoom == zoom
      ensures maxBounds == None && minZoom == None && maxZoom == None
    {
      this.center := center;
      this.zoom := zoom;
      maxBounds := None;
      minZoom := None;
      maxZoom := None;
    }

    method SetMaxBounds(b: Box)
      modifies this
      ensures maxBounds == Some(b)
      ensures center == old(center) && zoom == old(zoom) && minZoom == old(minZoom) && maxZoom == old(maxZoom)
    {
      maxBounds := Some(b);
    }

    method SetMinZoom(z: int)
      modifies this
      ensures minZoom == Some(z)
      ensures center == old(center) && zoom == old(zoom) && maxBounds == old(maxBounds) && maxZoom == old(maxZoom)
    {
      minZoom := Some(z);
    }

    method SetMaxZoom(z: int)
      modifies this
      ensures maxZoom == Some(z)
      ensures center == old(center) && zoom == old(zoom) && maxBounds == old(maxBounds) && minZoom == old(minZoom)
    {
      maxZoom := Some(z);
    }
  }

  /** BoundsEnforcer's effect: the padded region as the pan limit and zoom fixed to MIN_ZOOM..MAX_ZOOM. */
  method EnforceBounds(m: LeafletMap)
    modifies m
    ensures m.maxBounds == Some(MaxBounds(IndiaBounds()))
    ensures m.minZoom == Some(MIN_ZOOM) && m.maxZoom == Some(MAX_ZOOM) && MIN_ZOOM < INITIAL_ZOOM < MAX_ZOOM
    ensures m.center == old(m.center) && m.zoom == old(m.zoom)
  {
    var region := IndiaBounds();
    m.SetMaxBounds(Box(region.north + 2.0, region.south - 2.0, region.west - 2.0, region.east + 2.0));
    m.SetMinZoom(4);
    m.SetMaxZoom(10);
  }

  /** The weather lines of the marker popup. */
  datatype PopupRows = PopupRows(temperature: Text, rain: Text, pressure: Text, wind: Text)

  datatype Marker = Marker(position: LatLon, latitude: Text, longitude: Text, rows: Option<PopupRows>)

  /** What the map draws over the tiles. */
  datatype MapView = MapView(loadingOverlay: bool, marker: Option<Marker>, hint: bool)

  function Popup(d: PointResponse): PopupRows {
    PopupRows(
      ToFixed(d.temperature.celsius, 1),
      ToFixed(d.precipitation.millimeters, 2),
      ToFixed(d.pressure.hectopascal, 0),
      ToFixed(d.wind.speed, 1))
  }

  /**
   * WeatherMap's overlays: the spinner while loading, the marker at the selection, its weather
   * lines once there is data, and the "click to select" hint before any selection.
   */
  function Render(selected: Option<LatLon>, data: Option<PointResponse>, isLoading: bool): (v: MapView)
    ensures v.loadingOverlay <==> isLoading
    ensures v.marker.Some? <==> selected.Some?
    ensures v.marker.Some? ==> v.marker.value.position == selected.value
    ensures v.marker.Some? ==> (v.marker.value.rows.Some? <==> data.Some?)
    ensures v.marker.Some? ==>
              v.marker.value.latitude == Fixed(selected.value.latitude, 4) &&
              v.marker.value.longitude == Fixed(selected.value.longitude, 4)
    ensures v.marker.Some? && data.Some? ==>
              v.marker.value.rows == Some(PopupRows(
                ToFixed(data.value.temperature.celsius, 1), ToFixed(data.value.precipitation.millimeters, 2),
                ToFixed(data.value.pressure.hectopascal, 0), ToFixed(data.value.wind.speed, 1)))
    ensures v.hint <==> selected.None? && !isLoading
  {
    var marker :=
      match selected
      case None => None
      case Some(p) =>
        Some(Marker(p, Fixed(p.latitude, 4), Fixed(p.longitude, 4),
                    match data case None => None case Some(d) => Some(Popup(d))));
    MapView(isLoading, marker, selected.None? && !isLoading)
  }
}
