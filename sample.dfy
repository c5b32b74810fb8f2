/**
 * The JSON document the point query returns (`/api/weather`), as the backend builds it and as
 * the browser client reads it. Every measured field may be null. The `timestamp` field (the
 * server's clock) and the constant unit strings are not part of this model.
 */
module Sample {
  import opened Wrappers
  import opened Geo

  datatype Temperature = Temperature(kelvin: Option<real>, celsius: Option<real>, fahrenheit: Option<real>)

  datatype Precipitation = Precipitation(meters: Option<real>, millimeters: Option<real>)

  datatype Pressure = Pressure(pascal: Option<real>, hectopascal: Option<real>)

  datatype Wind = Wind(uComponent: Option<real>, vComponent: Option<real>, speed: Option<real>, direction: Option<real>)

  datatype PointResponse = PointResponse(
    requested: LatLon,
    actual: LatLon,
    temperature: Temperature,
    precipitation: Precipitation,
    pressure: Pressure,
    wind: Wind)

  /** The document `/api/dataset` returns; only the fields the client reads are kept. */
  datatype DatasetInfo = DatasetInfo(file: string, variables: set<string>, bounds: Option<Box>)
}
