/** What one refresh of the map computes from the fetched locations: the
    annotations it places, the bounding box of the plotted locations and the
    region fitted to that box. The refresh loop itself is in MapViews; the
    functions here are its specification. */
module RegionFit {
  import opened Geo
  import opened Annotations

  /** Extra degrees added to each extent so that a single point still gets a
      visible span. */
  const Padding: real := 0.05

  function Min(x: real, y: real): real
  {
    if y < x then y else x
  }

  function Max(x: real, y: real): real
  {
    if y >= x then y else x
  }

  /** The four running extrema of the refresh loop. */
  datatype Bounds = Bounds(minLatitude: real, maxLatitude: real, minLongitude: real, maxLongitude: real)
  {
    /** The box widened to take in one more point. */
    function Extend(latitude: real, longitude: real): Bounds
    {
      Bounds(Min(minLatitude, latitude), Max(maxLatitude, latitude),
             Min(minLongitude, longitude), Max(maxLongitude, longitude))
    }
  }

  /** The starting values: each bound sits at the opposite edge of the globe,
      so the box starts inverted. */
  const Sentinel: Bounds := Bounds(90.0, -90.0, 180.0, -180.0)

  /** The bounds after the loop has visited every location of `locs`, in
      order, skipping those without a project. */
  function FoldBounds(locs: seq<Location>): Bounds
  {
    if locs == [] then Sentinel
    else
      var b := FoldBounds(locs[..|locs| - 1]);
      var l := locs[|locs| - 1];
      if !l.HasProject() then b else b.Extend(l.latitude, l.longitude)
  }

  /** The region fitted to a box: its midpoint as centre and each extent plus
      the padding as span. */
  function RegionOf(b: Bounds): Region
  {
    Region(Coordinate((b.minLatitude + b.maxLatitude) / 2.0, (b.minLongitude + b.maxLongitude) / 2.0),
           Span(b.maxLatitude - b.minLatitude + Padding, b.maxLongitude - b.minLongitude + Padding))
  }

  function FitRegion(locs: seq<Location>): Region
  {
    RegionOf(FoldBounds(locs))
  }

  /** The annotations one refresh places, in fetch order: one per location
      that has a project. */
  function AnnotationsFor(locs: seq<Location>): seq<ProjectAnnotation>
  {
    if locs == [] then []
    else
      var l := locs[|locs| - 1];
      AnnotationsFor(locs[..|locs| - 1]) + if l.HasProject() then [ProjectAnnotation(l.project.value)] else []
  }

  /** The latitudes and longitudes of the locations that are plotted. */
  ghost function Latitudes(locs: seq<Location>): set<real>
  {
    set l | l in locs && l.HasProject() :: l.latitude
  }

  ghost function Longitudes(locs: seq<Location>): set<real>
  {
    set l | l in locs && l.HasProject() :: l.longitude
  }

  ghost predicate AnyPlotted(locs: seq<Location>)
  {
    exists l :: l in locs && l.HasProject()
  }

  ghost predicate AllOnGlobe(locs: seq<Location>)
  {
    forall l :: l in locs && l.HasProject() ==> l.Point().OnGlobe()
  }

  /** Splitting off the last location, as the recursive definitions do. */
  lemma SplitLast(locs: seq<Location>)
    requires locs != []
    ensures locs == locs[..|locs| - 1] + [locs[|locs| - 1]]
    ensures forall l :: l in locs <==> l in locs[..|locs| - 1] || l == locs[|locs| - 1]
  {
    assert locs == locs[..|locs| - 1] + [locs[|locs| - 1]];
  }

  // ---------------------------------------------------------------------
  // The bounding box

  /** Loop invariant of the fold: every plotted location lies inside the box. */
  lemma {:induction false} BoundsContain(locs: seq<Location>)
    ensures var b := FoldBounds(locs);
      forall l :: l in locs && l.HasProject() ==>
        b.minLatitude <= l.latitude <= b.maxLatitude && b.minLongitude <= l.longitude <= b.maxLongitude
  {
    if locs != [] {
      BoundsContain(locs[..|locs| - 1]);
      SplitLast(locs);
    }
  }

  /** Each bound never passes its sentinel and, unless it still equals the
      sentinel, is the coordinate of some plotted location. */
  lemma {:induction false} BoundsAttained(locs: seq<Location>)
    ensures var b := FoldBounds(locs);
      && b.minLatitude <= 90.0 && (b.minLatitude == 90.0 || b.minLatitude in Latitudes(locs))
      && b.maxLatitude >= -90.0 && (b.maxLatitude == -90.0 || b.maxLatitude in Latitudes(locs))
      && b.minLongitude <= 180.0 && (b.minLongitude == 180.0 || b.minLongitude in Longitudes(locs))
      && b.maxLongitude >= -180.0 && (b.maxLongitude == -180.0 || b.maxLongitude in Longitudes(locs))
  {
    if locs != [] {
      var init, l := locs[..|locs| - 1], locs[|locs| - 1];
      BoundsAttained(init);
      SplitLast(locs);
      assert Latitudes(init) <= Latitudes(locs);
      assert Longitudes(init) <= Longitudes(locs);
      if l.HasProject() {
        assert l.latitude in Latitudes(locs);
        assert l.longitude in Longitudes(locs);
      }
    }
  }

  /** With every plotted location on the globe and at least one plotted, the
      box is the tightest one: each bound is attained. */
  lemma TightBounds(locs: seq<Location>)
    requires AllOnGlobe(locs) && AnyPlotted(locs)
    ensures var b := FoldBounds(locs);
      && b.minLatitude in Latitudes(locs) && b.maxLatitude in Latitudes(locs)
      && b.minLongitude in Longitudes(locs) && b.maxLongitude in Longitudes(locs)
  {
    BoundsContain(locs);
    BoundsAttained(locs);
    var b := FoldBounds(locs);
    var w :| w in locs && w.HasProject();
    assert w.Point().OnGlobe();
    assert w.latitude in Latitudes(locs) && w.longitude in Longitudes(locs);
    if b.minLatitude == 90.0 { assert w.latitude == 90.0; }
    if b.maxLatitude == -90.0 { assert w.latitude == -90.0; }
    if b.minLongitude == 180.0 { assert w.longitude == 180.0; }
    if b.maxLongitude == -180.0 { assert w.longitude == -180.0; }
  }

  /** The box is inverted exactly when nothing is plotted; it is then the
      sentinel box itself. */
  lemma {:induction false} InvertedIffNothingPlotted(locs: seq<Location>)
    ensures var b := FoldBounds(locs);
      (b.minLatitude > b.maxLatitude) <==> !AnyPlotted(locs)
    ensures !AnyPlotted(locs) ==> FoldBounds(locs) == Sentinel
  {
    BoundsContain(locs);
    if !AnyPlotted(locs) {
      NothingPlotted(locs);
    }
  }

  /** With nothing plotted a refresh places no pin and keeps the sentinel box. */
  lemma {:induction false} NothingPlotted(locs: seq<Location>)
    requires !AnyPlotted(locs)
    ensures FoldBounds(locs) == Sentinel
    ensures AnnotationsFor(locs) == []
  {
    if locs != [] {
      SplitLast(locs);
      NothingPlotted(locs[..|locs| - 1]);
    }
  }

  /** The box depends only on which latitudes and longitudes are plotted: not
      on fetch order, repetitions or skipped locations. */
  lemma SameCoordinatesSameBounds(a: seq<Location>, b: seq<Location>)
    requires Latitudes(a) == Latitudes(b) && Longitudes(a) == Longitudes(b)
    ensures FoldBounds(a) == FoldBounds(b)
  {
    BoundsContain(a); BoundsAttained(a);
    BoundsContain(b); BoundsAttained(b);
    var ba, bb := FoldBounds(a), FoldBounds(b);
    LowerBoundUnique(Latitudes(a), 90.0, ba.minLatitude, bb.minLatitude);
    UpperBoundUnique(Latitudes(a), -90.0, ba.maxLatitude, bb.maxLatitude);
    LowerBoundUnique(Longitudes(a), 180.0, ba.minLongitude, bb.minLongitude);
    UpperBoundUnique(Longitudes(a), -180.0, ba.maxLongitude, bb.maxLongitude);
  }

  lemma LowerBoundUnique(s: set<real>, cap: real, m1: real, m2: real)
    requires m1 <= cap && (m1 == cap || m1 in s) && forall x :: x in s ==> m1 <= x
    requires m2 <= cap && (m2 == cap || m2 in s) && forall x :: x in s ==> m2 <= x
    ensures m1 == m2
  {
  }

  lemma UpperBoundUnique(s: set<real>, cap: real, m1: real, m2: real)
    requires m1 >= cap && (m1 == cap || m1 in s) && forall x :: x in s ==> m1 >= x
    requires m2 >= cap && (m2 == cap || m2 in s) && forall x :: x in s ==> m2 >= x
    ensures m1 == m2
  {
  }

  /** Reordering the fetched locations does not move the region. */
  lemma FetchOrderIrrelevant(a: seq<Location>, b: seq<Location>)
    requires multiset(a) == multiset(b)
    ensures FitRegion(a) == FitRegion(b)
  {
    forall l ensures l in a <==> l in b {
      assert l in a <==> l in multiset(a);
      assert l in b <==> l in multiset(b);
    }
    SameCoordinatesSameBounds(a, b);
  }

  // ---------------------------------------------------------------------
  // The annotations

  /** Annotations are placed in fetch order: the refresh of a concatenation
      is the concatenation of the refreshes. */
  lemma {:induction false} AnnotationsConcat(a: seq<Location>, b: seq<Location>)
    ensures AnnotationsFor(a + b) == AnnotationsFor(a) + AnnotationsFor(b)
  {
    if b == [] {
      assert a + b == a;
    } else {
      var init := b[..|b| - 1];
      assert (a + b)[..|a + b| - 1] == a + init;
      AnnotationsConcat(a, init);
    }
  }

  /** One annotation per location that has a project, showing that project,
      and no other annotations. */
  lemma {:induction false} AnnotationsAreProjects(locs: seq<Location>)
    ensures |AnnotationsFor(locs)| <= |locs|
    ensures forall p :: ProjectAnnotation(p) in AnnotationsFor(locs) <==> exists l :: l in locs && l.project == Some(p)
  {
    if locs != [] {
      AnnotationsAreProjects(locs[..|locs| - 1]);
      SplitLast(locs);
    }
  }

  /** Every location has its annotation exactly when every location has a project. */
  lemma {:induction false} AnnotationCountIffAllPlotted(locs: seq<Location>)
    ensures |AnnotationsFor(locs)| == |locs| <==> forall l :: l in locs ==> l.HasProject()
  {
    if locs != [] {
      var init := locs[..|locs| - 1];
      AnnotationCountIffAllPlotted(init);
      AnnotationsAreProjects(init);
      SplitLast(locs);
    }
  }

  /** A location without a project changes neither the annotations nor the box. */
  lemma SkippedLocationIgnored(a: seq<Location>, l: Location, b: seq<Location>)
    requires !l.HasProject()
    ensures AnnotationsFor(a + [l] + b) == AnnotationsFor(a + b)
    ensures FoldBounds(a + [l] + b) == FoldBounds(a + b)
  {
    AnnotationsConcat(a + [l], b);
    AnnotationsConcat(a, [l]);
    AnnotationsConcat(a, b);
    assert [l][..0] == [];
    forall x ensures x in a + [l] + b <==> x in a + b || x == l { }
    assert Latitudes(a + [l] + b) == Latitudes(a + b);
    assert Longitudes(a + [l] + b) == Longitudes(a + b);
    SameCoordinatesSameBounds(a + [l] + b, a + b);
  }

  // ---------------------------------------------------------------------
  // The fitted region

  /** With something plotted, the centre lies inside the box and both spans
      are at least the padding. */
  lemma {:induction false} FitCentredInBounds(locs: seq<Location>)
    requires AnyPlotted(locs)
    ensures var b, r := FoldBounds(locs), FitRegion(locs);
      && b.minLatitude <= r.center.latitude <= b.maxLatitude
      && b.minLongitude <= r.center.longitude <= b.maxLongitude
      && r.span.latitudeDelta >= Padding && r.span.longitudeDelta >= Padding
  {
    BoundsContain(locs);
  }

  /** Every plotted location is shown by the fitted region, with at least
      half the padding to spare on each side. */
  lemma FitShowsEveryPlotted(locs: seq<Location>)
    ensures forall l :: l in locs && l.HasProject() ==> FitRegion(locs).Shows(l.Point())
  {
    BoundsContain(locs);
  }

  /** Every annotation of a refresh over linked records stands inside the
      fitted region. */
  lemma FitShowsEveryAnnotation(locs: seq<Location>)
    requires forall l :: l in locs ==> l.LinkedBack()
    ensures forall a :: a in AnnotationsFor(locs) ==> FitRegion(locs).Shows(a.Coordinate())
  {
    AnnotationsAreProjects(locs);
    FitShowsEveryPlotted(locs);
    forall a | a in AnnotationsFor(locs) ensures FitRegion(locs).Shows(a.Coordinate()) {
      assert ProjectAnnotation(a.project) == a;
      var l :| l in locs && l.project == Some(a.project);
      assert l.LinkedBack();
    }
  }

  /** Plotted locations on the globe always give a region that passes the
      guard. */
  lemma FitValidOnGlobe(locs: seq<Location>)
    requires AllOnGlobe(locs) && AnyPlotted(locs)
    ensures IsValid(FitRegion(locs))
  {
    TightBounds(locs);
    PlottedCoordinatesOnGlobe(locs);
    FitCentredInBounds(locs);
    var b, r := FoldBounds(locs), FitRegion(locs);
    assert -90.0 <= b.minLatitude && b.maxLatitude <= 90.0;
    assert -180.0 <= b.minLongitude && b.maxLongitude <= 180.0;
    assert r.center.OnGlobe() && r.span.latitudeDelta > 0.0 && r.span.longitudeDelta > 0.0;
    ValidIffCentredAndPositive(r);
  }

  lemma PlottedCoordinatesOnGlobe(locs: seq<Location>)
    requires AllOnGlobe(locs)
    ensures forall x :: x in Latitudes(locs) ==> -90.0 <= x <= 90.0
    ensures forall x :: x in Longitudes(locs) ==> -180.0 <= x <= 180.0
  {
    forall x | x in Latitudes(locs) ensures -90.0 <= x <= 90.0 {
      var l :| l in locs && l.HasProject() && l.latitude == x;
      assert l.Point().OnGlobe();
    }
    forall x | x in Longitudes(locs) ensures -180.0 <= x <= 180.0 {
      var l :| l in locs && l.HasProject() && l.longitude == x;
      assert l.Point().OnGlobe();
    }
  }

  /** With nothing plotted the sentinels make both spans negative: the region
      is rejected. */
  lemma EmptyFitRejected(locs: seq<Location>)
    requires !AnyPlotted(locs)
    ensures FitRegion(locs) == Region(Coordinate(0.0, 0.0), Span(-179.95, -359.95))
    ensures !IsValid(FitRegion(locs))
  {
    NothingPlotted(locs);
  }

  /** For locations on the globe the guard accepts the fitted region exactly
      when something is plotted. */
  lemma FitValidIffAnyPlotted(locs: seq<Location>)
    requires AllOnGlobe(locs)
    ensures IsValid(FitRegion(locs)) <==> AnyPlotted(locs)
  {
    if AnyPlotted(locs) {
      FitValidOnGlobe(locs);
    } else {
      EmptyFitRejected(locs);
    }
  }

  /** A single plotted point on the globe is the centre, with the padding as
      both spans. */
  lemma SinglePointFit(l: Location)
    requires l.HasProject() && l.Point().OnGlobe()
    ensures FitRegion([l]) == Region(l.Point(), Span(Padding, Padding))
  {
    assert [l][..0] == [];
    assert FoldBounds([l]) == Sentinel.Extend(l.latitude, l.longitude);
  }

  /** Off the globe a bound can stay at its sentinel: a single pin at
      latitude 100 leaves the minimum latitude at 90, so the centre latitude
      is 95 and the guard rejects the region. */
  lemma OffGlobePointKeepsSentinel(p: Project)
    ensures FoldBounds([Location("a", 100.0, 0.0, Some(p))]) == Bounds(90.0, 100.0, 0.0, 0.0)
    ensures FitRegion([Location("a", 100.0, 0.0, Some(p))]).center.latitude == 95.0
    ensures !IsValid(FitRegion([Location("a", 100.0, 0.0, Some(p))]))
  {
    var locs := [Location("a", 100.0, 0.0, Some(p))];
    assert locs[..0] == [];
  }

  /** Two points (0, 0) and (10, 10) give centre (5, 5) and spans 10.05. */
  lemma TwoPointFit(p: Project)
    ensures FitRegion([Location("a", 0.0, 0.0, Some(p)), Location("b", 10.0, 10.0, Some(p))])
         == Region(Coordinate(5.0, 5.0), Span(10.05, 10.05))
  {
    var locs := [Location("a", 0.0, 0.0, Some(p)), Location("b", 10.0, 10.0, Some(p))];
    assert locs[..1] == [locs[0]];
    assert locs[..1][..0] == [];
    assert FoldBounds(locs[..1]) == Bounds(0.0, 0.0, 0.0, 0.0);
    assert FoldBounds(locs) == Bounds(0.0, 10.0, 0.0, 10.0);
  }
}
