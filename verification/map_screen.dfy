/**
 * The map screen's state rules: where the user is taken to be, which pin
 * colour each campus landmark gets, and how the distance is captioned.
 */
module MapScreen {
  import opened Wrappers
  import opened Coordinates
  import BuildingTables

  /** Where the user is taken to be until a position fix replaces it. */
  const FallbackUserLocation: Coord := Coord(31.481370524750606, 74.30352902161547)

  /** The outcome of the foreground location-permission request. */
  datatype PermissionStatus = Granted | Denied | Undetermined

  /**
   * The location effect: the user location is replaced by the position fix
   * only when permission was granted and the fix succeeded (`fix` is
   * `None` when acquiring it failed); otherwise it is left as it was.
   */
  function UpdateUserLocation(current: Coord, status: PermissionStatus, fix: Option<Coord>): (next: Coord)
    ensures next == current || (status == Granted && fix == Some(next))
    ensures status == Granted && fix.Some? ==> next == fix.value
  {
    if status != Granted then current
    else
      match fix
      case Some(c) => c
      case None => current
  }

  /** The user location after the screen's one location effect has run. */
  lemma UserLocationAfterEffect(status: PermissionStatus, fix: Option<Coord>)
    ensures var loc := UpdateUserLocation(FallbackUserLocation, status, fix);
            (status == Granted && fix.Some? ==> loc == fix.value)
            && (status != Granted || fix.None? ==> loc == FallbackUserLocation)
  {
  }

  /**
   * Running the location effect again with the same permission and fix
   * changes nothing: the location it settles on does not depend on how
   * often the effect runs.
   */
  lemma UpdateUserLocationIdempotent(current: Coord, status: PermissionStatus, fix: Option<Coord>)
    ensures var once := UpdateUserLocation(current, status, fix);
            UpdateUserLocation(once, status, fix) == once
  {
  }

  /** A fixed campus landmark shown on the map. */
  datatype Landmark = Landmark(name: string, position: Coord)

  const CampusLandmarks: seq<Landmark> := [
    Landmark("Directors Office", Coord(31.48222964940498, 74.3035499304804)),
    Landmark("EnM", Coord(31.48107824241253, 74.30332310850635)),
    Landmark("Admin Block", Coord(31.481067391919904, 74.3030048329072)),
    Landmark("Fast Love Garden", Coord(31.481850562126183, 74.30293071206277)),
    Landmark("CS New Building", Coord(31.4805443557776, 74.30417136303642)),
    Landmark("CS Old Building", Coord(31.481178398975324, 74.30288072461302)),
    Landmark("Fast Cricket Ground", Coord(31.480388855092567, 74.30309787666373)),
    Landmark("Fast Library", Coord(31.481559857421292, 74.30378519760922)),
    Landmark("Civil", Coord(31.481982241525063, 74.30366007617641))
  ]

  datatype PinColor = Blue | Yellow | Red

  /** A landmark's pin is blue when it is the detected building, yellow otherwise. */
  function LandmarkPin(l: Landmark, building: string): (c: PinColor)
    ensures c == Blue <==> l.name == building
    ensures c == Yellow <==> l.name != building
  {
    if l.name == building then Blue else Yellow
  }

  /**
   * A pin on the map: its position, title, colour and, for the detected
   * building, a description that is the distance caption followed by
   * " meters away".
   */
  datatype Marker = Marker(position: Coord, title: string, description: Option<DistanceCaption>, color: PinColor)

  /** The landmark pins, in landmark order. */
  function LandmarkMarkers(landmarks: seq<Landmark>, building: string): (ms: seq<Marker>)
    ensures |ms| == |landmarks|
    ensures forall i :: 0 <= i < |ms| ==>
              ms[i].position == landmarks[i].position && ms[i].title == landmarks[i].name
              && ms[i].description.None?
              && (ms[i].color == Blue <==> landmarks[i].name == building)
              && ms[i].color != Red
  {
    if landmarks == [] then []
    else
      var l := landmarks[|landmarks| - 1];
      LandmarkMarkers(landmarks[..|landmarks| - 1], building) + [Marker(l.position, l.name, None, LandmarkPin(l, building))]
  }

  /**
   * Every pin on the screen: the landmarks, then the detected building in
   * blue at the reported coordinates and described by its distance
   * caption, then the user in red.
   */
  function ScreenMarkers(building: string, distance: Option<real>, target: Coord, user: Coord): (ms: seq<Marker>)
    ensures |ms| == |CampusLandmarks| + 2
    ensures ms[..|CampusLandmarks|] == LandmarkMarkers(CampusLandmarks, building)
    ensures ms[|CampusLandmarks|] == Marker(target, "Detected: " + building, Some(CaptionFor(distance)), Blue)
    ensures ms[|CampusLandmarks| + 1] == Marker(user, "Your Location", None, Red)
    ensures forall i :: 0 <= i < |ms| ==> (ms[i].color == Red <==> i == |CampusLandmarks| + 1)
  {
    LandmarkMarkers(CampusLandmarks, building)
      + [Marker(target, "Detected: " + building, Some(CaptionFor(distance)), Blue),
         Marker(user, "Your Location", None, Red)]
  }

  /** The landmark names are pairwise distinct. */
  lemma LandmarkNamesDistinct()
    ensures forall i, j :: 0 <= i < j < |CampusLandmarks| ==> CampusLandmarks[i].name != CampusLandmarks[j].name
  {
  }

  /** At most one landmark pin is blue, whatever building was detected. */
  lemma AtMostOneLandmarkHighlighted(building: string)
    ensures forall i, j ::
              (0 <= i < |CampusLandmarks| && 0 <= j < |CampusLandmarks|
               && LandmarkMarkers(CampusLandmarks, building)[i].color == Blue
               && LandmarkMarkers(CampusLandmarks, building)[j].color == Blue) ==> i == j
  {
  }

  /**
   * Of the backend's class labels only "EnM" and "Civil" name a landmark,
   * so only for those two classes does a landmark pin turn blue.
   */
  lemma HighlightedLandmarkForClass(k: BuildingTables.ClassIndex)
    ensures (exists i :: 0 <= i < |CampusLandmarks| && LandmarkMarkers(CampusLandmarks, BuildingTables.IdxToLabel[k])[i].color == Blue)
            <==> BuildingTables.IdxToLabel[k] in {"EnM", "Civil"}
  {
    var building := BuildingTables.IdxToLabel[k];
    var ms := LandmarkMarkers(CampusLandmarks, building);
    if building == "EnM" {
      assert CampusLandmarks[1].name == building;
      assert LandmarkMarkers(CampusLandmarks, BuildingTables.IdxToLabel[k])[1].color == Blue;
    } else if building == "Civil" {
      assert CampusLandmarks[8].name == building;
      assert LandmarkMarkers(CampusLandmarks, BuildingTables.IdxToLabel[k])[8].color == Blue;
    } else {
      forall i | 0 <= i < |CampusLandmarks|
        ensures ms[i].color != Blue
      {
        assert CampusLandmarks[i].name != building;
      }
    }
  }

  /** How the distance is captioned: "Unknown", or rounded to two decimals. */
  datatype DistanceCaption = UnknownDistance | Fixed2(negative: bool, hundredths: nat)

  /**
   * Two-decimal fixed-point rounding of a non-negative number, in
   * hundredths: the nearest whole number of hundredths, the larger one on
   * a tie.
   */
  function RoundHundredths(x: real): (n: nat)
    requires x >= 0.0
    ensures -0.5 < n as real - x * 100.0 <= 0.5
  {
    (x * 100.0 + 0.5).Floor
  }

  /**
   * The distance caption: "Unknown" for a falsy distance (missing, or
   * zero), otherwise the sign and magnitude rounded to hundredths.
   */
  function CaptionFor(distance: Option<real>): (c: DistanceCaption)
    ensures c == UnknownDistance <==> distance.None? || distance.value == 0.0
    ensures c.Fixed2? ==> (c.negative <==> distance.value < 0.0)
    ensures c.Fixed2? ==> -0.005 < c.hundredths as real / 100.0 - Abs(distance.value) <= 0.005
  {
    match distance
    case None => UnknownDistance
    case Some(d) =>
      if d == 0.0 then UnknownDistance
      else Fixed2(d < 0.0, RoundHundredths(Abs(d)))
  }

  /** A positive whole number of centimetres is captioned exactly. */
  lemma CaptionExactForCentimetres(cm: nat)
    requires cm > 0
    ensures CaptionFor(Some(cm as real / 100.0)) == Fixed2(false, cm)
  {
  }
}
