/**
 * The backend's stand-in geolocation: a fixed table from building name to
 * coordinates, with a default position for every other name.
 */
module Geolocation {
  import opened Coordinates
  import BuildingTables

  /** Coordinates of the buildings the lookup knows, keyed by name. */
  const BuildingCoordinates: map<string, Coord> := map[
    "Library" := Coord(31.481559857421292, 74.30378519760922),
    "NB" := Coord(31.4805443557776, 74.30417136303642),
    "CS" := Coord(31.481178398975324, 74.30288072461302),
    "Civil" := Coord(31.481982241525063, 74.30366007617641),
    "EnM" := Coord(31.48107824241253, 74.30332310850635),
    "Admin_Block" := Coord(31.481067391919904, 74.3030048329072)
  ]

  /** The position reported for a name the table does not hold. */
  const DefaultCoord: Coord := Coord(40.0, -73.0)

  /** The coordinates of `name`, or the default position for an unknown name. */
  function GetLatLon(name: string): (c: Coord)
    ensures name in BuildingCoordinates ==> c == BuildingCoordinates[name]
    ensures c == DefaultCoord <==> name !in BuildingCoordinates
  {
    if name in BuildingCoordinates then BuildingCoordinates[name] else DefaultCoord
  }

  /**
   * Of the classifier's labels, exactly "CS_Building" and "New_Building"
   * have no entry (the table spells them "CS" and "NB"), so those two
   * classes are reported at the default position.
   */
  lemma LabelsWithoutCoordinates(i: BuildingTables.ClassIndex)
    ensures GetLatLon(BuildingTables.IdxToLabel[i]) == DefaultCoord
            <==> BuildingTables.IdxToLabel[i] in {"CS_Building", "New_Building"}
  {
  }
}
