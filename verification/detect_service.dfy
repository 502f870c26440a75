/**
 * The backend's `POST /detect` handler: a ladder of request checks, each of
 * which rejects with status 400, and on success a JSON object with the
 * building label, its estimated distance and its coordinates.
 *
 * Image decoding, classification and contour finding are foreign library
 * calls; the request carries what they produce for the uploaded bytes.
 */
module DetectService {
  import opened Wrappers
  import opened Coordinates
  import BuildingTables
  import BoundingBox
  import Distance
  import Geolocation

  type Byte = b: int | 0 <= b < 256

  /** A positive pixel count. */
  type Positive = n: int | n > 0 witness 1

  /**
   * What the foreign libraries yield for a decodable photo: its height in
   * rows, the classifier's class index and the bounding rectangles of the
   * external contours of its closed edge map.
   */
  datatype DecodedImage = DecodedImage(
    height: Positive,
    classIdx: BuildingTables.ClassIndex,
    contours: seq<BoundingBox.Rect>)

  /** The multipart file part named `image`; `decoded` is `None` when decoding fails. */
  datatype Upload = Upload(filename: string, content: seq<Byte>, decoded: Option<DecodedImage>)

  /** A request to the endpoint: `image` is `None` when the part is missing. */
  datatype Request = Request(image: Option<Upload>)

  datatype JsonValue = JString(s: string) | JNumber(n: real) | JNull

  /** An HTTP response: status code and a flat JSON object. */
  datatype Response = Response(status: nat, body: map<string, JsonValue>)

  const NoImagePart := "No image part in the request"
  const NoSelectedFile := "No selected file"
  const EmptyFile := "The file is empty."
  const DecodeFailed := "ValueError: Failed to decode image"
  /** Taking the maximum of no contours raises; the handler reports it as a value error. */
  const NoContours := "ValueError: max() arg is an empty sequence"

  /** The keys of a successful response. */
  const ResultKeys: set<string> := {"building", "distance", "latitude", "longitude"}

  function BadRequest(message: string): (resp: Response)
    ensures resp.status == 400 && resp.body.Keys == {"error"}
  {
    Response(400, map["error" := JString(message)])
  }

  /** A distance is serialised as a number, or as `null` when there is none. */
  function DistanceJson(d: Option<real>): JsonValue
  {
    match d
    case Some(v) => JNumber(v)
    case None => JNull
  }

  function Found(building: string, distance: Option<real>, c: Coord): (resp: Response)
    ensures resp.status == 200 && resp.body.Keys == ResultKeys
  {
    Response(200, map[
      "building" := JString(building),
      "distance" := DistanceJson(distance),
      "latitude" := JNumber(c.latitude),
      "longitude" := JNumber(c.longitude)])
  }

  /** A request that passes every check of the handler. */
  predicate Accepted(req: Request)
  {
    && req.image.Some?
    && req.image.value.filename != ""
    && |req.image.value.content| > 0
    && req.image.value.decoded.Some?
    && req.image.value.decoded.value.contours != []
  }

  /** The handler: validate, classify, select a box, estimate the distance, look up coordinates. */
  function Detect(req: Request): (resp: Response)
    ensures resp.status == 200 || resp.status == 400
    ensures resp.status == 200 <==> Accepted(req)
    ensures resp.status == 200 ==> resp.body.Keys == ResultKeys
    ensures resp.status == 400 ==> resp.body.Keys == {"error"}
  {
    match req.image
    case None => BadRequest(NoImagePart)
    case Some(file) =>
      if file.filename == "" then BadRequest(NoSelectedFile)
      else if |file.content| == 0 then BadRequest(EmptyFile)
      else
        match file.decoded
        case None => BadRequest(DecodeFailed)
        case Some(img) =>
          var building := BuildingTables.LabelOf(img.classIdx);
          match BoundingBox.SelectBox(img.contours, img.height)
          case None => BadRequest(NoContours)
          case Some(box) =>
            var baseY := box.y + box.h;
            var dist := Distance.ComputeDistance(baseY as real, img.height as real, Distance.CameraHeightM);
            Found(building, dist, Geolocation.GetLatLon(building))
  }

  /** A request without an `image` part is rejected first, whatever else it holds. */
  lemma MissingImageRejected(req: Request)
    requires req.image.None?
    ensures Detect(req) == BadRequest(NoImagePart)
  {
  }

  /**
   * An empty filename is rejected before the content is looked at: two
   * uploads with an empty filename get the same response.
   */
  lemma EmptyFilenameCheckedBeforeContent(u1: Upload, u2: Upload)
    requires u1.filename == "" && u2.filename == ""
    ensures Detect(Request(Some(u1))) == Detect(Request(Some(u2))) == BadRequest(NoSelectedFile)
  {
  }

  /** Empty content is rejected before decoding is attempted. */
  lemma EmptyContentCheckedBeforeDecoding(u1: Upload, u2: Upload)
    requires u1.filename != "" && u1.content == [] && u2.filename != "" && u2.content == []
    ensures Detect(Request(Some(u1))) == Detect(Request(Some(u2))) == BadRequest(EmptyFile)
  {
  }

  /** Undecodable content is a value error, reported as a 400. */
  lemma UndecodableRejected(u: Upload)
    requires u.filename != "" && |u.content| > 0 && u.decoded.None?
    ensures Detect(Request(Some(u))) == BadRequest(DecodeFailed)
  {
  }

  /** A photo in which no contour is found is a value error, reported as a 400. */
  lemma NoContoursRejected(u: Upload)
    requires u.filename != "" && |u.content| > 0 && u.decoded.Some? && u.decoded.value.contours == []
    ensures Detect(Request(Some(u))) == BadRequest(NoContours)
  {
  }

  /**
   * A successful response names the classified building, places it at the
   * lookup table's coordinates, and reports the distance derived from the
   * bottom row of the selected contour box by the pinhole formula: `null`
   * exactly when that row is not below the image centre, and otherwise a
   * positive number.
   */
  lemma SuccessContent(req: Request)
    requires Accepted(req)
    ensures var img := req.image.value.decoded.value;
            var resp := Detect(req);
            && resp.body["building"] == JString(BuildingTables.LabelOf(img.classIdx))
            && resp.body["latitude"] == JNumber(Geolocation.GetLatLon(BuildingTables.LabelOf(img.classIdx)).latitude)
            && resp.body["longitude"] == JNumber(Geolocation.GetLatLon(BuildingTables.LabelOf(img.classIdx)).longitude)
            && exists i :: 0 <= i < |img.contours|
                 && BoundingBox.SelectBox(img.contours, img.height) == Some(img.contours[i])
                 && resp.body["distance"] == DistanceJson(Distance.ComputeDistance(
                      (img.contours[i].y + img.contours[i].h) as real, img.height as real, Distance.CameraHeightM))
                 && (resp.body["distance"] == JNull <==> 2 * (img.contours[i].y + img.contours[i].h) <= img.height)
                 && (resp.body["distance"].JNumber? ==> resp.body["distance"].n > 0.0)
  {
  }
}
