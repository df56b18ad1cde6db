/** The stored records the map plots and the annotation it places for each. */
module Annotations {
  import opened Geo

  datatype Option<+T> = None | Some(value: T)

  /** A project: where it is, if anywhere, and whether it is finished. */
  datatype Project = Project(location: Option<Coordinate>, isFinished: bool)

  /** A stored location: its coordinates and the project it belongs to, if any. */
  datatype Location = Location(name: string, latitude: real, longitude: real, project: Option<Project>)
  {
    /** Locations without a project are skipped by the map. */
    predicate HasProject()
    {
      project.Some?
    }

    function Point(): Coordinate
    {
      Coordinate(latitude, longitude)
    }

    /** The location and its project point at each other, as the two sides
        of one stored relationship do. */
    predicate LinkedBack()
    {
      project.Some? ==> project.value.location == Some(Point())
    }
  }

  /** The two marker colours. */
  datatype MarkerColor = Yellow | Red

  /** The pin placed on the map for one project. */
  datatype ProjectAnnotation = ProjectAnnotation(project: Project)
  {
    /** Where the pin stands: the project's location, or (0, 0) when it has none. */
    function Coordinate(): (c: Geo.Coordinate)
      ensures project.location.Some? ==> c == project.location.value
      ensures project.location.None? ==> c.latitude == 0.0 && c.longitude == 0.0
    {
      match project.location
      case Some(p) => p
      case None => Geo.Coordinate(0.0, 0.0)
    }

    /** Finished projects are marked yellow, all others red. */
    function Color(): (c: MarkerColor)
      ensures c == Yellow <==> project.isFinished
      ensures c == Red <==> !project.isFinished
    {
      if project.isFinished then Yellow else Red
    }
  }
}
