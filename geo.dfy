/** Geographic values of the map: a coordinate, a span and the region a map
    view shows, with the validity guard applied before a region is used. */
module Geo {

  /** A latitude/longitude pair in degrees. */
  datatype Coordinate = Coordinate(latitude: real, longitude: real)
  {
    /** Latitude in [-90, 90] and longitude in [-180, 180]. */
    predicate OnGlobe()
    {
      -90.0 <= latitude <= 90.0 && -180.0 <= longitude <= 180.0
    }
  }

  /** The angular extent of a region: its full height and full width in degrees. */
  datatype Span = Span(latitudeDelta: real, longitudeDelta: real)

  /** A viewport: a centre and a span around it. */
  datatype Region = Region(center: Coordinate, span: Span)
  {
    /** The coordinate lies strictly inside the rectangle the region shows:
        within half a span of the centre in each direction. */
    predicate Shows(c: Coordinate)
    {
      && center.latitude - span.latitudeDelta / 2.0 < c.latitude < center.latitude + span.latitudeDelta / 2.0
      && center.longitude - span.longitudeDelta / 2.0 < c.longitude < center.longitude + span.longitudeDelta / 2.0
    }
  }

  /** The guard the map view applies before it sets a region: the centre must
      lie on the globe and both deltas must be strictly positive. */
  predicate IsValid(region: Region)
  {
    && -90.0 <= region.center.latitude <= 90.0
    && -180.0 <= region.center.longitude <= 180.0
    && region.span.latitudeDelta > 0.0
    && region.span.longitudeDelta > 0.0
  }

  /** A region is valid exactly when its centre is on the globe and it has a
      positive area; then, and only then, it shows its own centre. */
  lemma ValidIffCentredAndPositive(region: Region)
    ensures IsValid(region) <==>
              region.center.OnGlobe() && region.span.latitudeDelta > 0.0 && region.span.longitudeDelta > 0.0
    ensures region.center.OnGlobe() ==> (IsValid(region) <==> region.Shows(region.center))
  {
  }

  /** Each condition alone is enough for rejection. */
  lemma InvalidWhenAnyConditionFails(region: Region)
    requires || region.center.latitude < -90.0 || region.center.latitude > 90.0
             || region.center.longitude < -180.0 || region.center.longitude > 180.0
             || region.span.latitudeDelta <= 0.0 || region.span.longitudeDelta <= 0.0
    ensures !IsValid(region)
  {
  }
}
