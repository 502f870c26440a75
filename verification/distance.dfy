/**
 * The backend's pinhole-camera distance estimate: a camera held at a known
 * height sees the base of a building some rows below the image centre; by
 * similar triangles, distance / camera height == focal length / row offset.
 */
module Distance {
  import opened Wrappers

  const FocalLengthMm: real := 6.86
  const SensorHeightMm: real := 5.6
  /** Declared by the backend but never read: the formula uses the decoded image's height. */
  const ImageHeightPx: nat := 3024
  /** Height of the camera lens above the ground, in metres. */
  const CameraHeightM: real := 1.6

  /** The focal length expressed in pixels for an image `imgH` rows high. */
  function FocalLengthPx(imgH: real): real
  {
    (FocalLengthMm / SensorHeightMm) * imgH
  }

  /**
   * Distance to a building whose base is at row `baseY` of an image `imgH`
   * rows high, taken by a camera `cameraH` metres above the ground; `None`
   * when the base is not strictly below the image centre.
   */
  function ComputeDistance(baseY: real, imgH: real, cameraH: real): (d: Option<real>)
    ensures d.None? <==> baseY <= imgH / 2.0
    ensures d.Some? ==> d.value * (baseY - imgH / 2.0) == FocalLengthPx(imgH) * cameraH
    ensures d.Some? && imgH > 0.0 && cameraH > 0.0 ==> d.value > 0.0
  {
    var fPx := FocalLengthPx(imgH);
    var dy := baseY - imgH / 2.0;
    if dy > 0.0 then Some((fPx * cameraH) / dy) else None
  }

  /** The row at which a building `distance` metres away has its base. */
  function BaseRowFor(distance: real, imgH: real, cameraH: real): real
    requires distance > 0.0
  {
    imgH / 2.0 + FocalLengthPx(imgH) * cameraH / distance
  }

  /** Every positive distance is produced by exactly one base row. */
  lemma DistanceRoundTrip(distance: real, imgH: real, cameraH: real)
    requires distance > 0.0 && imgH > 0.0 && cameraH > 0.0
    ensures ComputeDistance(BaseRowFor(distance, imgH, cameraH), imgH, cameraH) == Some(distance)
  {
    var k := FocalLengthPx(imgH) * cameraH;
    var b := BaseRowFor(distance, imgH, cameraH);
    assert k > 0.0;
    assert b - imgH / 2.0 == k / distance;
    assert k / (k / distance) == distance;
  }

  /** The base row is recovered from the distance it yields. */
  lemma BaseRowRoundTrip(baseY: real, imgH: real, cameraH: real)
    requires imgH > 0.0 && cameraH > 0.0 && baseY > imgH / 2.0
    ensures ComputeDistance(baseY, imgH, cameraH).Some?
    ensures BaseRowFor(ComputeDistance(baseY, imgH, cameraH).value, imgH, cameraH) == baseY
  {
  }

  /** The lower the building's base sits in the frame, the closer the building. */
  lemma DistanceDecreasesWithBaseRow(b1: real, b2: real, imgH: real, cameraH: real)
    requires imgH > 0.0 && cameraH > 0.0
    requires imgH / 2.0 < b1 < b2
    ensures ComputeDistance(b1, imgH, cameraH).Some?
    ensures ComputeDistance(b2, imgH, cameraH).Some?
    ensures ComputeDistance(b1, imgH, cameraH).value > ComputeDistance(b2, imgH, cameraH).value
  {
    var k := FocalLengthPx(imgH) * cameraH;
    var dy1, dy2 := b1 - imgH / 2.0, b2 - imgH / 2.0;
    assert k > 0.0 && 0.0 < dy1 < dy2;
    var q1, q2 := k / dy1, k / dy2;
    assert q1 * dy1 == k == q2 * dy2 && q2 > 0.0;
    if q1 <= q2 {
      assert q1 * dy1 <= q2 * dy1 < q2 * dy2;
    }
  }

  /** With the backend's constants the estimate is 1.96 * imgH / row offset. */
  lemma BackendCalibration(baseY: real, imgH: real)
    requires baseY > imgH / 2.0
    ensures ComputeDistance(baseY, imgH, CameraHeightM) == Some(1.96 * imgH / (baseY - imgH / 2.0))
  {
  }
}
