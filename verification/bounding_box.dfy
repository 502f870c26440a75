/**
 * The backend's choice of one building bounding box among the rectangles
 * bounding the contours found in the photo: the first rectangle that is
 * tall and reaches the bottom of the frame, otherwise the tallest one.
 */
module BoundingBox {
  import opened Wrappers

  /** An axis-aligned pixel rectangle: top-left corner, width and height. */
  datatype Rect = Rect(x: int, y: int, w: int, h: int)

  /**
   * Taller than 40% of the image and with its bottom edge in the lowest
   * 10% of an image `hImg` rows high: a building standing on the ground.
   */
  predicate TallAndGrounded(r: Rect, hImg: int)
  {
    r.h as real > 0.4 * hImg as real && (r.y + r.h) as real >= 0.9 * hImg as real
  }

  /** The index of the first tall and grounded rectangle, if any. */
  function FirstTallAndGrounded(rects: seq<Rect>, hImg: int): (k: Option<nat>)
    ensures k.Some? ==> k.value < |rects| && TallAndGrounded(rects[k.value], hImg)
    ensures k.Some? ==> forall j :: 0 <= j < k.value ==> !TallAndGrounded(rects[j], hImg)
    ensures k.None? ==> forall j :: 0 <= j < |rects| ==> !TallAndGrounded(rects[j], hImg)
  {
    if rects == [] then None
    else if TallAndGrounded(rects[0], hImg) then Some(0)
    else
      match FirstTallAndGrounded(rects[1..], hImg)
      case None => None
      case Some(k) => Some(k + 1)
  }

  /**
   * The index of a tallest rectangle; on ties the earliest one, as a
   * left-to-right maximum that only replaces its candidate when strictly
   * exceeded.
   */
  function TallestIndex(rects: seq<Rect>): (k: nat)
    requires |rects| > 0
    ensures k < |rects|
    ensures forall j :: 0 <= j < |rects| ==> rects[j].h <= rects[k].h
    ensures forall j :: 0 <= j < k ==> rects[j].h < rects[k].h
  {
    if |rects| == 1 then 0
    else
      var k := TallestIndex(rects[..|rects| - 1]);
      if rects[|rects| - 1].h > rects[k].h then |rects| - 1 else k
  }

  /**
   * The selected box: the first tall and grounded rectangle, otherwise the
   * first tallest rectangle; `None` for an empty list, where taking the
   * maximum fails.
   */
  function SelectBox(rects: seq<Rect>, hImg: int): (box: Option<Rect>)
    ensures box.None? <==> rects == []
    ensures (exists i :: 0 <= i < |rects| && TallAndGrounded(rects[i], hImg)) ==>
              exists i :: 0 <= i < |rects| && box == Some(rects[i]) && TallAndGrounded(rects[i], hImg)
                          && forall j :: 0 <= j < i ==> !TallAndGrounded(rects[j], hImg)
    ensures (forall j :: 0 <= j < |rects| ==> !TallAndGrounded(rects[j], hImg)) && rects != [] ==>
              exists i :: 0 <= i < |rects| && box == Some(rects[i])
                          && (forall j :: 0 <= j < |rects| ==> rects[j].h <= rects[i].h)
                          && forall j :: 0 <= j < i ==> rects[j].h < rects[i].h
  {
    match FirstTallAndGrounded(rects, hImg)
    case Some(k) => Some(rects[k])
    case None => if rects == [] then None else Some(rects[TallestIndex(rects)])
  }

  /** The tall and grounded rectangles of `rects`, in input order. */
  function Qualifying(rects: seq<Rect>, hImg: int): (valid: seq<Rect>)
    ensures forall r :: r in valid ==> r in rects && TallAndGrounded(r, hImg)
    ensures valid == [] <==> forall j :: 0 <= j < |rects| ==> !TallAndGrounded(rects[j], hImg)
    ensures valid != [] ==>
              exists i :: 0 <= i < |rects| && valid[0] == rects[i] && TallAndGrounded(rects[i], hImg)
                          && forall j :: 0 <= j < i ==> !TallAndGrounded(rects[j], hImg)
  {
    if rects == [] then []
    else
      var last := rects[|rects| - 1];
      var front := rects[..|rects| - 1];
      Qualifying(front, hImg) + (if TallAndGrounded(last, hImg) then [last] else [])
  }

  /** The head of the collected list is the first qualifying rectangle. */
  lemma QualifyingHeadIsFirst(rects: seq<Rect>, hImg: int)
    ensures Qualifying(rects, hImg) == [] <==> FirstTallAndGrounded(rects, hImg).None?
    ensures Qualifying(rects, hImg) != [] ==>
              Qualifying(rects, hImg)[0] == rects[FirstTallAndGrounded(rects, hImg).value]
  {
  }

  /** The backend's first pass: every tall and grounded rectangle, in input order. */
  method CollectQualifying(rects: seq<Rect>, hImg: int) returns (valid: seq<Rect>)
    ensures valid == Qualifying(rects, hImg)
  {
    valid := [];
    for i := 0 to |rects|
      invariant valid == Qualifying(rects[..i], hImg)
    {
      assert rects[..i + 1][..i] == rects[..i];
      if TallAndGrounded(rects[i], hImg) {
        valid := valid + [rects[i]];
      }
    }
    assert rects[..|rects|] == rects;
  }

  /** The backend's fallback: a running maximum of the heights, kept on ties. */
  method RunningTallest(rects: seq<Rect>) returns (best: nat)
    requires |rects| > 0
    ensures best == TallestIndex(rects)
  {
    best := 0;
    for i := 1 to |rects|
      invariant best == TallestIndex(rects[..i])
    {
      assert rects[..i + 1][..i] == rects[..i];
      if rects[i].h > rects[best].h {
        best := i;
      }
    }
    assert rects[..|rects|] == rects;
  }

  /**
   * The selection as the backend performs it: collect every qualifying
   * rectangle in one pass, fall back to the tallest one, and return the
   * head of the collected list.
   */
  method DetectBuildingBox(rects: seq<Rect>, hImg: int) returns (box: Option<Rect>)
    ensures box == SelectBox(rects, hImg)
  {
    var valid := CollectQualifying(rects, hImg);
    QualifyingHeadIsFirst(rects, hImg);
    if valid == [] {
      if rects == [] {
        return None;
      }
      var best := RunningTallest(rects);
      valid := [rects[best]];
    }
    box := Some(valid[0]);
  }
}
