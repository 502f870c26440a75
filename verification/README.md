# Campus landmark recognition: backend decisions and map viewport

This project models, in Dafny, the two pieces of logic in the campus
navigation app that decide something.

- **The recognition backend** (`backend/app.py`). It handles `POST /detect` with
  a ladder of request checks. It picks one building bounding box from the
  rectangles around the photo's contours. It estimates the distance to the
  building with a pinhole-camera formula. It looks the building's coordinates
  up in a fixed table. It answers with a four-key JSON object.
- **The map screen** (`cam-app/components/Map.tsx`). It frames a viewport
  around the user and the detected building. It keeps a fallback user
  position until a location fix replaces it. It colours the fixed campus
  landmark pins. It captions the distance.

All real-valued quantities are Dafny `real`s, so arithmetic is exact. The
foreign calls (image decoding, the neural-network classifier, OpenCV contour
finding, the device location service) are not modelled. What they return
becomes part of the input: `DetectService.DecodedImage` holds the decoded
image's height in rows, the classifier's class index and the contour
bounding rectangles (not the image itself), and
`MapScreen.UpdateUserLocation` takes the permission status and the position fix.

Modules: `Wrappers` (optional values), `Coordinates`, `BuildingTables`,
`Distance`, `BoundingBox`, `Geolocation`, `DetectService` (backend);
`Viewport`, `MapScreen` (map screen).

Some facts follow from putting the two sides together. The classifier labels
"CS_Building" and "New_Building" are not keys of the coordinate table, which
spells them "CS" and "NB". So those two classes are reported at the default
position (40.0, -73.0) (`Geolocation.LabelsWithoutCoordinates`). Of the six
labels, only "EnM" and "Civil" match a landmark name on the map. So only for
those two classes does a landmark pin turn blue
(`MapScreen.HighlightedLandmarkForClass`). Both facts are modelled as the code
is written.

Two behaviours of the code are easy to miss, and the model keeps both:
- The backend sends `distance: null` when the building's base is not below
  the image centre. The map screen then shows "Unknown", as it does for a
  distance of 0.
- An upload in which no contour is found makes the backend take the maximum
  of an empty list. That raises a value error, which the handler reports
  with status 400.

## Model

| member | source | states |
|---|---|---|
| BuildingTables.HeightTable | backend/app.py:26 | the derived table has one height per label, and entry i is the height map's value for label i |
| BuildingTables.LabelOf | backend/app.py:11-25 | every class index maps to a label that is a key of the height table |
| BuildingTables.TablesAgree | backend/app.py:11-26 | 6 labels, pairwise distinct, exactly the height table's keys; `IdxToHeight()[i] == BuildingHeights[IdxToLabel[i]]` for every class |
| BuildingTables.HeightValues | backend/app.py:11-26 | the per-class heights are 6.0, 7.5, 9.0, 7.5, 13.5, 6.0 |
| Distance.ComputeDistance | backend/app.py:66-69 | no distance exactly when the base row is not below the image centre; otherwise distance × row offset = focal length in pixels × camera height, and the distance is positive for positive image and camera heights |
| Distance.DistanceRoundTrip | backend/app.py:66-69 | every positive distance comes back from the base row that produces it |
| Distance.BaseRowRoundTrip | backend/app.py:66-69 | the base row comes back from the distance it yields |
| Distance.DistanceDecreasesWithBaseRow | backend/app.py:67-69 | for a fixed image and camera height, the distance strictly decreases as the base row moves further below the centre |
| Distance.BackendCalibration | backend/app.py:19-22 | with the configured focal length, sensor height and 1.6 m camera height, the distance is 1.96 × image height / row offset |
| BoundingBox.FirstTallAndGrounded | backend/app.py:57-61 | the index found holds a rectangle taller than 0.4 of the image whose bottom reaches 0.9 of it, and no earlier rectangle qualifies; none found means no rectangle qualifies |
| BoundingBox.TallestIndex | backend/app.py:62-63 | the index holds a rectangle at least as tall as every other, and every earlier rectangle is strictly shorter, so ties go to the first one |
| BoundingBox.Qualifying | backend/app.py:57-61 | the collected list holds only qualifying rectangles from the input; it is empty exactly when none qualifies, and its head is the first qualifying rectangle |
| BoundingBox.SelectBox | backend/app.py:57-64 | no box exactly for an empty list; the first qualifying rectangle when one exists; otherwise the first rectangle of maximal height |
| BoundingBox.QualifyingHeadIsFirst | backend/app.py:57-64 | the collected list is empty exactly when no rectangle qualifies, and otherwise its head is the first qualifying rectangle |
| BoundingBox.CollectQualifying | backend/app.py:57-61 | the collecting loop yields exactly the qualifying rectangles, in input order |
| BoundingBox.RunningTallest | backend/app.py:63 | the running maximum over the heights ends at the first rectangle of maximal height |
| BoundingBox.DetectBuildingBox | backend/app.py:56-64 | the collect pass, the tallest-rectangle fallback and taking the head together return the same box as the selection rule |
| Geolocation.GetLatLon | backend/app.py:72-82 | a known name gets its table coordinates; the result is (40.0, -73.0) exactly when the name is not in the table, since no listed building sits there |
| Geolocation.LabelsWithoutCoordinates | backend/app.py:72-82 | a class label is placed at the default position exactly when it is "CS_Building" or "New_Building" |
| DetectService.Detect | backend/app.py:85-154 | every response has status 200 or 400; status 200 exactly when the image part, filename, content, decoding and contours are all present; 200 carries exactly the keys building, distance, latitude, longitude, and 400 carries only error |
| DetectService.MissingImageRejected | backend/app.py:89-91 | a request without an image part is rejected with "No image part in the request", whatever else it holds |
| DetectService.EmptyFilenameCheckedBeforeContent | backend/app.py:100-102 | an empty filename is rejected with "No selected file" before content or decoding is considered |
| DetectService.EmptyContentCheckedBeforeDecoding | backend/app.py:108-111 | empty content is rejected with "The file is empty." before decoding is considered |
| DetectService.UndecodableRejected | backend/app.py:116-151 | an undecodable upload is rejected as a value error with status 400 |
| DetectService.NoContoursRejected | backend/app.py:126-151 | an upload with no contours is rejected as a value error with status 400 |
| DetectService.SuccessContent | backend/app.py:126-147 | a success names the classified label and gives that label's looked-up coordinates; its distance is the pinhole estimate for the selected contour box's bottom row, the image height and the 1.6 m camera height: null exactly when that row is not below the image centre, and positive otherwise |
| Viewport.Midpoint | cam-app/components/Map.tsx:90-91 | the centre is equally far from both coordinates |
| Viewport.Span | cam-app/components/Map.tsx:93-94 | a span is at least 0.005 and at least 2.5 × the separation, and equals one of the two |
| Viewport.ComputeRegion | cam-app/components/Map.tsx:90-94 | the centre is the exact midpoint on both axes; each span is at least 0.005 and at least 2.5 × the separation on its axis, and equals one of the two, so it is their maximum |
| Viewport.RegionSymmetric | cam-app/components/Map.tsx:90-94 | swapping user and target changes neither centre nor spans |
| Viewport.CoincidentPointsAtFloor | cam-app/components/Map.tsx:93-94 | coinciding points give a viewport centred on them with both spans exactly 0.005 |
| Viewport.BothPointsVisible | cam-app/components/Map.tsx:90-94 | both points lie within centre ± span / 2 on each axis, and in fact within the middle 40% of each span |
| MapScreen.UpdateUserLocation | cam-app/components/Map.tsx:21-39 | the location changes only to the position fix, and only when permission was granted; a granted permission with a fix always adopts it |
| MapScreen.UserLocationAfterEffect | cam-app/components/Map.tsx:16-39 | starting from (31.481370524750606, 74.30352902161547), the user location is the fix when permission is granted and a fix succeeds, and otherwise stays at that fallback |
| MapScreen.UpdateUserLocationIdempotent | cam-app/components/Map.tsx:23-37 | applying the location update twice with the same permission and fix gives the same location as applying it once |
| MapScreen.LandmarkPin | cam-app/components/Map.tsx:115-121 | a landmark pin is blue exactly when its name equals the detected building, and yellow otherwise |
| MapScreen.LandmarkMarkers | cam-app/components/Map.tsx:115-122 | one pin per landmark, in order, at the landmark's position, titled with its name and without a description; blue exactly for the detected building, never red |
| MapScreen.ScreenMarkers | cam-app/components/Map.tsx:115-140 | the landmark pins come first, without descriptions; then a blue pin titled "Detected: " + building at the detected coordinates, described by the distance caption; then a red pin titled "Your Location" at the user; the user's pin is the only red one |
| MapScreen.LandmarkNamesDistinct | cam-app/components/Map.tsx:42-88 | no two campus landmarks share a name |
| MapScreen.AtMostOneLandmarkHighlighted | cam-app/components/Map.tsx:42-121 | for any detected building, at most one landmark pin is blue |
| MapScreen.HighlightedLandmarkForClass | cam-app/components/Map.tsx:115-121 | for the backend's class labels, some landmark pin is blue exactly when the label is "EnM" or "Civil" |
| MapScreen.RoundHundredths | cam-app/components/Map.tsx:102 | the whole number of hundredths is within half a hundredth of the value, and a tie rounds up |
| MapScreen.CaptionFor | cam-app/components/Map.tsx:102 | "Unknown" exactly when the distance is missing or zero; otherwise the sign, and the magnitude to within 0.005 |
| MapScreen.CaptionExactForCentimetres | cam-app/components/Map.tsx:102 | a positive whole number of centimetres is captioned exactly |

## Left out

- The capture, preview and submit flow in `cam-app/app/(tabs)/camera.tsx` is not part of this model. That covers the camera and gallery acquisition, the multipart upload, response parsing and the error alerts. `PhotoPreviewSection` only forwards two callbacks and has no logic.
- `classify_building` and model loading (backend/app.py:38-47) are neural-network inference. The class index is an input, in [0, 6).
- The OpenCV steps of `detect_building_bbox` (backend/app.py:50-56) are foreign library calls: grey-scale, blur, Canny, morphological closing and contour finding. The contour rectangles are an input.
- `cv2.imdecode` is represented only by whether decoding succeeded and what it yields. Flask routing, CORS, logging, the size read and the seeks back to the start of the upload are I/O plumbing.
- The status-500 branch (backend/app.py:152-154) is left out. It is reached only when a foreign call fails unexpectedly, which the model does not represent.
- DetectService.NoContoursRejected: the error text assumes the interpreter words an empty maximum as "max() arg is an empty sequence". Newer interpreters word it differently.
- IEEE floating-point rounding is left out. All arithmetic, including the 0.4 and 0.9 comparisons and the distance formula, is exact over the reals.
- Viewport.ComputeRegion: this is the region computed on every render. The map takes it only as its initial region, read when the map mounts and the user location is still the fallback. A later position fix moves the red pin but does not reframe the map, and the model does not represent that.
- The React rendering, the polyline, the styles and the asynchronous `expo-location` calls are UI and platform APIs. Only the state update the effect performs is modelled.
- MapScreen.CaptionFor: the caption carries the sign and the rounded number of hundredths, not the digit string. Exponent notation for magnitudes of 1e21 and above is not modelled. A NaN distance, also falsy, does not exist over the reals.
- `IMAGE_HEIGHT_PX` (backend/app.py:21) is declared but never read. It appears as `Distance.ImageHeightPx` only.
