/** The classification part of the circle quadrant detector: the frame's
    midpoints, the quadrant of a circle centre, and how many of the detected
    circles are looked at. Circle detection itself is an input. */
module BoundingBox {

  datatype Quadrant = Q1 | Q2 | Q3 | Q4

  /** A detected circle after rounding to unsigned 16-bit integers. */
  datatype Circle = Circle(cx: nat, cy: nat, r: nat)

  /** (w // 2, h // 2): the midpoints of a frame w wide and h high. */
  function Midpoints(w: nat, h: nat): (m: (nat, nat))
    ensures 2 * m.0 <= w < 2 * m.0 + 2
    ensures 2 * m.1 <= h < 2 * m.1 + 2
  {
    (w / 2, h / 2)
  }

  /** The quadrant of (cx, cy) with respect to the midpoints: Q1 top right,
      Q2 top left, Q3 bottom left, Q4 bottom right (y grows downwards). */
  function QuadrantOf(cx: int, cy: int, midX: int, midY: int): (q: Quadrant)
    ensures q == Q1 <==> cx >= midX && cy < midY
    ensures q == Q2 <==> cx < midX && cy < midY
    ensures q == Q3 <==> cx < midX && cy >= midY
    ensures q == Q4 <==> cx >= midX && cy >= midY
  {
    if cx >= midX && cy < midY then Q1
    else if cx < midX && cy < midY then Q2
    else if cx < midX && cy >= midY then Q3
    else Q4
  }

  /** Points on the vertical midline go right (Q1 or Q4), points on the
      horizontal midline go down (Q3 or Q4), and the centre itself is Q4. */
  lemma MidlinesGoRightAndDown(cx: int, cy: int, midX: int, midY: int)
    ensures cx == midX ==> QuadrantOf(cx, cy, midX, midY) in {Q1, Q4}
    ensures cy == midY ==> QuadrantOf(cx, cy, midX, midY) in {Q3, Q4}
    ensures cx == midX && cy == midY ==> QuadrantOf(cx, cy, midX, midY) == Q4
  {
  }

  /** The circles whose quadrant is reported: the first two when more than
      four were found, otherwise all of them, in detection order. */
  function CirclesToProcess(circles: seq<Circle>): (p: seq<Circle>)
    ensures p <= circles
    ensures |circles| > 4 ==> |p| == 2
    ensures |circles| <= 4 ==> p == circles
    ensures |p| <= 4
  {
    if |circles| > 4 then circles[..2] else circles
  }

  /** One frame's reports: the quadrant of every processed circle, in order,
      for a frame w wide and h high. */
  method ReportQuadrants(w: nat, h: nat, circles: seq<Circle>) returns (printed: seq<Quadrant>)
    ensures var p := CirclesToProcess(circles);
            |printed| == |p| &&
            forall i :: 0 <= i < |p| ==>
              printed[i] == QuadrantOf(p[i].cx, p[i].cy, Midpoints(w, h).0, Midpoints(w, h).1)
  {
    var mid := Midpoints(w, h);
    var toProcess := CirclesToProcess(circles);
    printed := [];
    for i := 0 to |toProcess|
      invariant |printed| == i
      invariant forall j :: 0 <= j < i ==>
                  printed[j] == QuadrantOf(toProcess[j].cx, toProcess[j].cy, mid.0, mid.1)
    {
      var c := toProcess[i];
      printed := printed + [QuadrantOf(c.cx, c.cy, mid.0, mid.1)];
    }
  }
}
