# Mapr: fitting the project map to its pins

Mapr tracks field projects on a map. Each time the fetched project locations
change, the all-projects map view refreshes itself. It removes every pin and
places one pin per location that belongs to a project. It also keeps a
running bounding box of the coordinates of those locations, starting from
sentinel values. It then fits a region to the box: the box's midpoint is the
centre and each extent plus 0.05 degrees is the span. The region is applied
only if a validity guard accepts it. A pin stands at its project's location,
or at (0, 0) when the project has none. That is not necessarily the stored
location the box was built from. When each location and its project point
at each other (`Location.LinkedBack`), every pin is inside the fitted region
(`FitShowsEveryAnnotation`); otherwise a pin can fall outside it. Each pin also has a marker colour: yellow
when its project is finished, red otherwise. Only the desktop variant's
delegate applies this colour as the marker tint. The touch variant never
reads it and shows the platform's default marker.

The Dafny model has four modules:

- `Geo` (`geo.dfy`): coordinates, spans, regions, and the `IsValid` guard.
- `Annotations` (`annotations.dfy`): projects, stored locations, and the pin
  (`ProjectAnnotation`) with its coordinate and colour.
- `RegionFit` (`region_fit.dfy`): what a refresh must produce, as
  functions. `FoldBounds` is the running box, `FitRegion` the fitted region,
  `AnnotationsFor` the pins. The module also holds the lemmas about them.
- `MapViews` (`map_views.dfy`): the map view as a class with an annotation
  list and a current region. `UpdateMapView` is the refresh loop, proved
  against `RegionFit`.

The touch and desktop variants of the refresh are textually identical, so
they are modelled once. Coordinates are Dafny `real`s.

Two facts about the code shape the lemmas:

- With nothing plotted the box stays at the sentinels, the spans are
  -179.95 and -359.95, and the guard rejects the region (`EmptyFitRejected`).
- The code does not check that a location is on the globe. Because the box
  starts at the sentinels, no bound passes its own sentinel: the minimum
  latitude stays at or below 90 and the maximum at or above -90, and likewise
  180 / -180 for longitude (`BoundsAttained`). When every plotted location is
  on the globe, the box is the tightest one around those locations
  (`TightBounds`). An off-globe location can leave a bound at its sentinel: a
  single plotted location at latitude 100 gives minimum latitude 90 and
  centre latitude 95 (`OffGlobePointKeepsSentinel`).

## Model

The functions that compute (`Geo.IsValid`; `RegionFit.FoldBounds` with
`Min`, `Max` and `Bounds.Extend`; `RegionFit.RegionOf` and `FitRegion`;
`RegionFit.AnnotationsFor`) carry no contract of their own. The lemma rows
below stand for them: each states what one of these functions promises about
the cited lines.

| member | source | states |
|---|---|---|
| `Geo.ValidIffCentredAndPositive` | Mapr/Map/AllProjectMapView.swift:4-16 | the guard accepts a region exactly when its centre latitude is in [-90, 90], its centre longitude in [-180, 180] and both deltas are positive; for an on-globe centre, exactly when the region shows its own centre |
| `Geo.InvalidWhenAnyConditionFails` | Mapr/Map/AllProjectMapView.swift:10-15 | any one failed condition (latitude or longitude off the globe, a delta not positive) makes the guard reject |
| `Annotations.ProjectAnnotation.Coordinate` | Mapr/Map/AllProjectMapView.swift:179-181 | a pin stands at its project's location, and at latitude 0 / longitude 0 when the project has none |
| `Annotations.ProjectAnnotation.Color` | Mapr/Map/AllProjectMapView.swift:188-194 | the marker colour is yellow exactly when the project is finished and red exactly when it is not; only the desktop delegate applies it as the tint |
| `RegionFit.BoundsContain` | Mapr/Map/AllProjectMapView.swift:40-57 | the loop invariant of the running min/max: every location with a project lies inside the box |
| `RegionFit.BoundsAttained` | Mapr/Map/AllProjectMapView.swift:40-57 | no bound passes its sentinel, and each bound is either still its sentinel or the coordinate of some plotted location |
| `RegionFit.TightBounds` | Mapr/Map/AllProjectMapView.swift:40-57 | with something plotted and every plotted location on the globe, each bound is attained: the box is the smallest one around the plotted locations and, for linked records (`Location.LinkedBack`), around the pins too |
| `RegionFit.InvertedIffNothingPlotted` | Mapr/Map/AllProjectMapView.swift:40-57 | the box ends inverted (min latitude above max latitude) exactly when no location has a project, and it is then the sentinel box |
| `RegionFit.NothingPlotted` | Mapr/Map/AllProjectMapView.swift:40-48 | with no location that has a project, the refresh places no pin and the box stays at the sentinels 90 / -90 / 180 / -180 |
| `RegionFit.SameCoordinatesSameBounds` | Mapr/Map/AllProjectMapView.swift:45-57 | the box depends only on the set of plotted latitudes and longitudes, not on order, repetition or skipped locations |
| `RegionFit.FetchOrderIrrelevant` | Mapr/Map/AllProjectMapView.swift:45-64 | any reordering of the fetched locations gives the same fitted region |
| `RegionFit.AnnotationsConcat` | Mapr/Map/AllProjectMapView.swift:45-48 | pins are added in fetch order: the pins for `a + b` are the pins for `a` followed by those for `b` |
| `RegionFit.AnnotationsAreProjects` | Mapr/Map/AllProjectMapView.swift:45-48 | there is a pin for a project exactly when some fetched location has that project, and there are never more pins than locations |
| `RegionFit.AnnotationCountIffAllPlotted` | Mapr/Map/AllProjectMapView.swift:45-48 | every location gets its own pin exactly when every location has a project |
| `RegionFit.SkippedLocationIgnored` | Mapr/Map/AllProjectMapView.swift:46 | a location without a project, anywhere in the input, changes neither the pins nor the box |
| `RegionFit.FitCentredInBounds` | Mapr/Map/AllProjectMapView.swift:59-64 | with something plotted, the centre lies between the min and max of each axis and both spans are at least 0.05 |
| `RegionFit.FitShowsEveryPlotted` | Mapr/Map/AllProjectMapView.swift:59-64 | every plotted location lies strictly inside the rectangle the fitted region shows |
| `RegionFit.FitShowsEveryAnnotation` | Mapr/Map/AllProjectMapView.swift:45-64 | when locations and projects point at each other, every pin of the refresh stands inside the fitted region |
| `RegionFit.FitValidOnGlobe` | Mapr/Map/AllProjectMapView.swift:40-70 | with something plotted and every plotted location on the globe, the fitted region passes the guard |
| `RegionFit.EmptyFitRejected` | Mapr/Map/AllProjectMapView.swift:40-69 | with nothing plotted the region is centred at (0, 0) with spans -179.95 and -359.95, and the guard rejects it |
| `RegionFit.FitValidIffAnyPlotted` | Mapr/Map/AllProjectMapView.swift:40-69 | for on-globe locations, the guard accepts the fitted region exactly when at least one location has a project |
| `RegionFit.SinglePointFit` | Mapr/Map/AllProjectMapView.swift:59-64 | a single on-globe point becomes the centre, and both spans are 0.05 |
| `RegionFit.OffGlobePointKeepsSentinel` | Mapr/Map/AllProjectMapView.swift:40-69 | a single plotted location at latitude 100 leaves the minimum latitude at its sentinel 90, so the centre latitude is 95 and the guard rejects the region |
| `RegionFit.TwoPointFit` | Mapr/Map/AllProjectMapView.swift:59-64 | the points (0, 0) and (10, 10) give centre (5, 5) and spans 10.05 |
| `MapViews.MapView.constructor` | Mapr/Map/AllProjectMapView.swift:30 | a new map view shows no pins and the given region |
| `MapViews.MapView.RemoveAllAnnotations` | Mapr/Map/AllProjectMapView.swift:36 | all pins are removed and the region is untouched |
| `MapViews.MapView.AddAnnotation` | Mapr/Map/AllProjectMapView.swift:48 | the pin is appended after the existing ones and the region is untouched |
| `MapViews.MapView.SetRegion` | Mapr/Map/AllProjectMapView.swift:70 | the region is replaced and the pins are untouched |
| `MapViews.UpdateMapView` | Mapr/Map/AllProjectMapView.swift:35-74 | after a refresh the pins are exactly those of `AnnotationsFor`, in fetch order. The region is the fitted one if the guard accepts it, otherwise the previous region. With nothing plotted the old region stays and no pins are shown. With on-globe locations and something plotted the fitted region is shown. For on-globe, mutually linked records every pin is inside the displayed region |

## Left out

- The coordinator and its delegate wiring, and annotation-view dequeue, reuse and tinting (AllProjectMapView.swift:25-27, 31, 75-83, 95-97, 101, 146-171). These are calls into the platform map framework. The map view is modelled only as its pins and its region. Only the desktop delegate tints markers with the pin's colour (AllProjectMapView.swift:166); the touch coordinator implements no delegate method. The constructor models only the state of a new view: no pins and an initial region.
- The `region` field holds the region last passed to `setRegion`. The platform may adjust a requested region to the view's aspect ratio, and the model does not capture that adjustment.
- The fetch request and its sort by name (AllProjectMapView.swift:20-23, 90-93). This is the persistence layer. The refresh takes the fetched locations as a sequence. `FetchOrderIrrelevant` shows that their order does not matter to the region.
- `removeAnnotations(uiView.annotations)` is modelled as `RemoveAllAnnotations`, because the code always passes the map's own full pin list.
- Diagnostics printed to the console, and `animated: true` on `setRegion`. These are I/O and presentation only.
- IEEE-754 `Double` rounding, infinities and NaN. Coordinates are exact reals, so the spans and midpoints carry no rounding error. A NaN coordinate cannot occur in the model. In the code, Swift's `min(x, y)` is `y < x ? y : x` and `max(x, y)` is `y >= x ? y : x`, and the running value is always the first argument and never NaN. So a NaN coordinate would be ignored by the box in every order, while its location still got a pin.
- The pin's title (the location's name, AllProjectMapView.swift:183-185). It is a plain projection shown in the callout and has no logic.
- A project's location is modelled as its coordinates (`Option<Coordinate>`), not as a second reference to a stored location record. This avoids a cyclic datatype. `Location.LinkedBack` states when the two sides of the relationship agree.
- Mapr/AppDelegate.swift is not part of this model. It sets up the app scene and loads the persistent store, and it has no domain logic.
