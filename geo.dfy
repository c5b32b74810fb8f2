/** Geographic values shared by the map, the session and the backend. */
module Geo {

  /** A point; `latitude` and `longitude` in degrees. */
  datatype LatLon = LatLon(latitude: real, longitude: real)

  /** A latitude/longitude rectangle. */
  datatype Box = Box(north: real, south: real, west: real, east: real)

  /** The bounds are inclusive on all four sides. */
  predicate InBox(b: Box, lat: real, lng: real) {
    b.south <= lat <= b.north && b.west <= lng <= b.east
  }

  /** `outer` contains `inner` with a positive margin on every side. */
  predicate StrictlyContains(outer: Box, inner: Box) {
    outer.south < inner.south && inner.north < outer.north &&
    outer.west < inner.west && inner.east < outer.east
  }
}
