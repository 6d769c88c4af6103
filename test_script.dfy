/** The per-frame step of the red-droplet test script: detect the centroid of
    the largest contour and, only when there is one, its pixel error against
    the integer target typed in by the operator. */
module TestScript {
  import opened Basics
  import opened Localization

  /** One pass of the capture loop: None when no centroid was found in the
      frame, otherwise the error of the centroid against (reqX, reqY). */
  function FrameError(reqX: int, reqY: int, contours: seq<Contour>): (e: Option<Point>)
    ensures e.None? <==> SelectCentroid(contours).None?
    ensures e.None? <==> contours == [] || contours[LargestContour(contours)].m00 == 0.0
    ensures e.Some? ==>
              var c := SelectCentroid(contours).value;
              e.value.x == (c.x - reqX) as real && e.value.y == (c.y - reqY) as real
    ensures e == Some(Point(0.0, 0.0)) <==> SelectCentroid(contours) == Some(Pixel(reqX, reqY))
  {
    var centroid := SelectCentroid(contours);
    if centroid.Some? then
      Some(FindError(reqX as real, reqY as real, Point(centroid.value.x as real, centroid.value.y as real)))
    else None
  }
}
