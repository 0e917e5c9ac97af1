/** Seeding the CamShift tracker from a bounding box given as two corner
    points, and the validation the Parrot class applies to that box first. */
module Tracking {
  import opened Wrappers

  /** A camera frame as a grid of pixel values; the tracker never looks
      inside it in this model. */
  type Frame = seq<seq<int>>

  /** A point of the bounding box; a valid corner has exactly two coordinates. */
  type Point = seq<int>

  /** The two corners of a validated box. */
  datatype Corners = Corners(first: Point, second: Point)

  /** The single error class raised for any malformed box. */
  datatype BoxError = BoundingBoxError

  /** The tracker state the CamShift constructor returns, recorded as the
      arguments it was seeded with. */
  datatype Tracker = CamShift(frame: Frame, first: Point, second: Point)

  /** The box checks of `init_tracking`, in the source's order: a missing box,
      a box that does not hold exactly two points, and a point that does not
      hold exactly two coordinates are each rejected; otherwise the two
      corners are handed on. */
  function CheckBox(box: Option<seq<Point>>): (r: Result<Corners, BoxError>)
    ensures box.None? ==> r == Failure(BoundingBoxError)
    ensures box.Some? && |box.value| != 2 ==> r == Failure(BoundingBoxError)
    ensures box.Some? && |box.value| == 2 && (|box.value[0]| != 2 || |box.value[1]| != 2) ==>
              r == Failure(BoundingBoxError)
    ensures box.Some? && |box.value| == 2 && |box.value[0]| == 2 && |box.value[1]| == 2 ==> r.Success?
    ensures r.Success? ==> box == Some([r.value.first, r.value.second])
    ensures r.Success? ==> |r.value.first| == 2 && |r.value.second| == 2
  {
    if box.None? then
      Failure(BoundingBoxError)
    else if |box.value| != 2 then
      Failure(BoundingBoxError)
    else if |box.value[0]| != 2 || |box.value[1]| != 2 then
      Failure(BoundingBoxError)
    else
      assert box.value == [box.value[0], box.value[1]];
      Success(Corners(box.value[0], box.value[1]))
  }

  /** Every pair of two-coordinate corners is accepted, and assembling the box
      from them and checking it gives the same corners back. */
  lemma CheckBoxAccepts(first: Point, second: Point)
    requires |first| == 2 && |second| == 2
    ensures CheckBox(Some([first, second])) == Success(Corners(first, second))
  {
  }

  /** The check accepts exactly the two-point boxes of two-coordinate points. */
  lemma CheckBoxExactly(box: Option<seq<Point>>)
    ensures CheckBox(box).Success? <==>
      (exists first: Point, second: Point ::
        |first| == 2 && |second| == 2 && box == Some([first, second]))
  {
  }

  /** A missing box, a single point, and two points that are not both
      two-dimensional are each rejected. */
  lemma MalformedBoxes(p: Point, q: Point)
    ensures CheckBox(None) == Failure(BoundingBoxError)
    ensures CheckBox(Some([p])) == Failure(BoundingBoxError)
    ensures |p| != 2 ==> CheckBox(Some([p, q])) == Failure(BoundingBoxError)
    ensures |q| != 2 ==> CheckBox(Some([p, q])) == Failure(BoundingBoxError)
  {
  }
}
