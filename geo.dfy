/** Geolocation as the controllers store and check it: a GeoJSON point whose coordinates are
    `[longitude, latitude]`, and the two range tests the controllers use. */
module Geo {

  /** `{ type: 'Point', coordinates: [...] }`; the type tag is always 'Point' and is not kept. */
  datatype GeoPoint = GeoPoint(coordinates: seq<real>)

  /** The point the controllers build from a request's latitude and longitude. */
  function PointOf(latitude: real, longitude: real): GeoPoint
  {
    GeoPoint([longitude, latitude])
  }

  /** Different requests never share a stored location: the point determines both coordinates,
      in the order `[longitude, latitude]`. */
  lemma PointOfInjective(lat1: real, lng1: real, lat2: real, lng2: real)
    ensures PointOf(lat1, lng1) == PointOf(lat2, lng2) <==> lat1 == lat2 && lng1 == lng2
  {
  }

  predicate LatitudeOutOfRange(latitude: real)
  {
    latitude < -90.0 || latitude > 90.0
  }

  predicate LongitudeOutOfRange(longitude: real)
  {
    longitude < -180.0 || longitude > 180.0
  }

  /** The test of the task and user controllers: rejects when either coordinate is out of range. */
  predicate OutOfRange(latitude: real, longitude: real)
  {
    LatitudeOutOfRange(latitude) || LongitudeOutOfRange(longitude)
  }

  /** The test of the helper controller: rejects only when both coordinates are out of range. */
  predicate HelperOutOfRange(latitude: real, longitude: real)
  {
    LatitudeOutOfRange(latitude) && LongitudeOutOfRange(longitude)
  }

  /** `OutOfRange` accepts exactly the points inside [-90,90] x [-180,180]. */
  lemma OutOfRangeIffOutsideBox(latitude: real, longitude: real)
    ensures !OutOfRange(latitude, longitude)
        <==> -90.0 <= latitude <= 90.0 && -180.0 <= longitude <= 180.0
  {
  }

  /** Everything the helper test rejects the user test rejects too, and the helper test
      accepts a point whose latitude alone (or longitude alone) is out of range. */
  lemma HelperTestIsWeaker(latitude: real, longitude: real)
    ensures HelperOutOfRange(latitude, longitude) ==> OutOfRange(latitude, longitude)
    ensures LatitudeOutOfRange(latitude) && !LongitudeOutOfRange(longitude)
        ==> OutOfRange(latitude, longitude) && !HelperOutOfRange(latitude, longitude)
    ensures !LatitudeOutOfRange(latitude) && LongitudeOutOfRange(longitude)
        ==> OutOfRange(latitude, longitude) && !HelperOutOfRange(latitude, longitude)
  {
  }

  /** Latitude 100 with longitude 50 passes the helper test and fails the user test. */
  lemma HelperAcceptsLatitude100()
    ensures !HelperOutOfRange(100.0, 50.0) && OutOfRange(100.0, 50.0)
  {
  }
}
