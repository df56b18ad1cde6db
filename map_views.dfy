/** The map view as abstract state, and the refresh that runs whenever the
    fetched locations change (the same on touch and desktop platforms). */
module MapViews {
  import opened Geo
  import opened Annotations
  import opened RegionFit

  /** The part of a map view the refresh touches: the pins it shows and the
      region it displays. */
  class MapView {
    var annotations: seq<ProjectAnnotation>
    var region: Region

    constructor (initial: Region)
      ensures annotations == [] && region == initial
    {
      annotations := [];
      region := initial;
    }

    /** Removes every annotation currently on the map. */
    method RemoveAllAnnotations()
      modifies this
      ensures annotations == [] && region == old(region)
    {
      annotations := [];
    }

    method AddAnnotation(a: ProjectAnnotation)
      modifies this
      ensures annotations == old(annotations) + [a] && region == old(region)
    {
      annotations := annotations + [a];
    }

    method SetRegion(r: Region)
      modifies this
      ensures region == r && annotations == old(annotations)
    {
      region := r;
    }
  }

  /** One refresh: clear the pins, pin every location that has a project
      while widening the box around it, fit a region to the box and apply it
      only if the guard accepts it. With nothing plotted the old region stays
      and no pin is shown; with on-globe locations and something plotted the
      fitted region is shown, and for linked records every pin is inside it. */
  method UpdateMapView(view: MapView, locations: seq<Location>)
    modifies view
    ensures view.annotations == AnnotationsFor(locations)
    ensures view.region == if IsValid(FitRegion(locations)) then FitRegion(locations) else old(view.region)
    ensures !AnyPlotted(locations) ==> view.region == old(view.region) && view.annotations == []
    ensures AllOnGlobe(locations) && AnyPlotted(locations) ==> view.region == FitRegion(locations)
    ensures AllOnGlobe(locations) && (forall l :: l in locations ==> l.LinkedBack()) ==>
              forall a :: a in view.annotations ==> view.region.Shows(a.Coordinate())
  {
    view.RemoveAllAnnotations();

    var minLatitude := 90.0;
    var maxLatitude := -90.0;
    var minLongitude := 180.0;
    var maxLongitude := -180.0;

    for i := 0 to |locations|
      invariant view.annotations == AnnotationsFor(locations[..i])
      invariant Bounds(minLatitude, maxLatitude, minLongitude, maxLongitude) == FoldBounds(locations[..i])
      invariant view.region == old(view.region)
    {
      assert locations[..i + 1][..i] == locations[..i];
      var location := locations[i];
      if location.project.None? {
        continue;
      }
      var annotation := ProjectAnnotation(location.project.value);
      view.AddAnnotation(annotation);

      var latitude := location.latitude;
      var longitude := location.longitude;

      minLatitude := Min(minLatitude, latitude);
      maxLatitude := Max(maxLatitude, latitude);
      minLongitude := Min(minLongitude, longitude);
      maxLongitude := Max(maxLongitude, longitude);
    }
    assert locations[..|locations|] == locations;

    var centerLatitude := (minLatitude + maxLatitude) / 2.0;
    var centerLongitude := (minLongitude + maxLongitude) / 2.0;
    var centerCoordinate := Coordinate(centerLatitude, centerLongitude);

    var latitudeDelta := maxLatitude - minLatitude + Padding;
    var longitudeDelta := maxLongitude - minLongitude + Padding;

    var region := Region(centerCoordinate, Span(latitudeDelta, longitudeDelta));

    if IsValid(region) {
      view.SetRegion(region);
    }
    // otherwise only a diagnostic is emitted and the region stays as it was

    if !AnyPlotted(locations) {
      EmptyFitRejected(locations);
      NothingPlotted(locations);
    }
    if AllOnGlobe(locations) {
      FitValidIffAnyPlotted(locations);
      if forall l :: l in locations ==> l.LinkedBack() {
        FitShowsEveryAnnotation(locations);
      }
    }
  }
}
