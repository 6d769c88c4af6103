/** The tracking arithmetic of the localization module: the hard-coded
    720x480 pixel <-> [-100,100]^2 coordinate transforms, the per-axis
    tracking error, the grid that is drawn under every frame, the choice of
    the tracked blob's centroid among the detected contours, and the placement
    of the coordinate label beside it. Image pixels, colours and fonts are not
    modelled; contour moments and text sizes come in as values. */
module Localization {
  import opened Basics

  // ---------------------------------------------------------------------------
  // Coordinate transforms
  // ---------------------------------------------------------------------------

  datatype Point = Point(x: real, y: real)

  /** A pixel position (0..720, 0..480) in the normalized [-100,100] space;
      the image centre (360, 240) becomes the origin. */
  function PixelsToCoordinates(xPixels: real, yPixels: real): (n: Point)
    ensures n.x == 0.0 <==> xPixels == 360.0
    ensures n.y == 0.0 <==> yPixels == 240.0
    ensures (xPixels == 0.0 ==> n.x == -100.0) && (xPixels == 720.0 ==> n.x == 100.0)
    ensures (yPixels == 0.0 ==> n.y == -100.0) && (yPixels == 480.0 ==> n.y == 100.0)
  {
    Point(((xPixels - 360.0) / 360.0) * 100.0, ((yPixels - 240.0) / 240.0) * 100.0)
  }

  /** A normalized position in pixel space; it undoes PixelsToCoordinates. */
  function CoordinatesToPixels(xCoordinate: real, yCoordinate: real): (p: Point)
    ensures PixelsToCoordinates(p.x, p.y) == Point(xCoordinate, yCoordinate)
    ensures (xCoordinate == -100.0 ==> p.x == 0.0) && (xCoordinate == 100.0 ==> p.x == 720.0)
    ensures (yCoordinate == -100.0 ==> p.y == 0.0) && (yCoordinate == 100.0 ==> p.y == 480.0)
    ensures xCoordinate == 0.0 && yCoordinate == 0.0 ==> p == Point(360.0, 240.0)
  {
    Point(((xCoordinate + 100.0) / 200.0) * 720.0, ((yCoordinate + 100.0) / 200.0) * 480.0)
  }

  /** The other round trip: pixels to coordinates and back is the identity. */
  lemma PixelsRoundTrip(xPixels: real, yPixels: real)
    ensures var n := PixelsToCoordinates(xPixels, yPixels);
            CoordinatesToPixels(n.x, n.y) == Point(xPixels, yPixels)
  {
  }

  /** Both transforms are strictly increasing on each axis, and each output
      axis depends on the same input axis only. */
  lemma TransformsIncreasingPerAxis(a: real, b: real, c: real, d: real)
    requires a < b
    ensures PixelsToCoordinates(a, c).x < PixelsToCoordinates(b, d).x
    ensures PixelsToCoordinates(c, a).y < PixelsToCoordinates(d, b).y
    ensures CoordinatesToPixels(a, c).x < CoordinatesToPixels(b, d).x
    ensures CoordinatesToPixels(c, a).y < CoordinatesToPixels(d, b).y
    ensures PixelsToCoordinates(a, c).x == PixelsToCoordinates(a, d).x
    ensures PixelsToCoordinates(c, a).y == PixelsToCoordinates(d, a).y
    ensures CoordinatesToPixels(a, c).x == CoordinatesToPixels(a, d).x
    ensures CoordinatesToPixels(c, a).y == CoordinatesToPixels(d, a).y
  {
  }

  // ---------------------------------------------------------------------------
  // Tracking error
  // ---------------------------------------------------------------------------

  /** Pixel-space error of the detected centroid against the desired point:
      adding the desired point back gives the centroid, and the error is zero
      exactly when the centroid sits on the desired point. */
  function FindError(xDesired: real, yDesired: real, centroid: Point): (e: Point)
    ensures e.x + xDesired == centroid.x && e.y + yDesired == centroid.y
    ensures e == Point(0.0, 0.0) <==> centroid == Point(xDesired, yDesired)
  {
    Point(centroid.x - xDesired, centroid.y - yDesired)
  }

  /** The x error ignores every y input and the y error every x input. */
  lemma ErrorAxesIndependent(xd: real, yd: real, xd': real, yd': real, c: Point, c': Point)
    ensures c.x == c'.x ==> FindError(xd, yd, c).x == FindError(xd, yd', c').x
    ensures c.y == c'.y ==> FindError(xd, yd, c).y == FindError(xd', yd, c').y
  {
  }

  // ---------------------------------------------------------------------------
  // Grid drawing
  // ---------------------------------------------------------------------------

  /** Colour class of a grid line: the zero axes, every 50 units, the rest. */
  datatype LineKind = Axis | Major | Minor

  /** From (x1, y1) to (x2, y2), in the colour of its kind (thickness is 1). */
  datatype GridLine = GridLine(x1: int, y1: int, x2: int, y2: int, kind: LineKind)

  /** The text str(value) put at (x, y). */
  datatype GridLabel = GridLabel(value: int, x: int, y: int)

  /** What one pass of the grid loop draws for the value v, in drawing order:
      the vertical line x = v, its optional label, the horizontal line y = v,
      its optional label. */
  datatype GridStep = GridStep(vertical: GridLine, xLabel: Option<GridLabel>,
                               horizontal: GridLine, yLabel: Option<GridLabel>)

  /** The loop runs over range(-100, 101, 10). */
  const GridCount: nat := 21

  function GridValue(k: nat): int
  {
    -100 + 10 * k
  }

  /** Python's v % 50 on a negative v is the non-negative remainder, as in
      Dafny, so the test below is the same. */
  function LineKindOf(v: int): LineKind
  {
    if v == 0 then Axis else if v % 50 == 0 then Major else Minor
  }

  predicate HasLabel(v: int)
  {
    v % 50 == 0 && v != 0
  }

  /** int() of the pixel x of the vertical line x = v. */
  function GridX(v: int): int
  {
    Trunc(CoordinatesToPixels(v as real, 0.0).x)
  }

  /** int() of the pixel y of the horizontal line y = v. */
  function GridY(v: int): int
  {
    Trunc(CoordinatesToPixels(0.0, v as real).y)
  }

  /** Baseline of an x-axis label: just below the horizontal axis, but never
      lower than 4 pixels above the bottom edge. */
  function XLabelY(h: int): (y: int)
    ensures y <= h - 4
    ensures y <= Trunc(CoordinatesToPixels(0.0, 0.0).y) + 14
    ensures y == h - 4 || y == Trunc(CoordinatesToPixels(0.0, 0.0).y) + 14
  {
    Min(Trunc(CoordinatesToPixels(0.0, 0.0).y) + 14, h - 4)
  }

  function GridStepOf(v: int, w: int, h: int): GridStep
  {
    var px := GridX(v);
    var py := GridY(v);
    var ox := Trunc(CoordinatesToPixels(0.0, 0.0).x);
    GridStep(GridLine(px, 0, px, h, LineKindOf(v)),
             if HasLabel(v) then Some(GridLabel(v, px + 2, XLabelY(h))) else None,
             GridLine(0, py, w, py, LineKindOf(v)),
             if HasLabel(v) then Some(GridLabel(v, ox + 3, py - 3)) else None)
  }

  function OriginLabel(): GridLabel
  {
    GridLabel(0, Trunc(CoordinatesToPixels(0.0, 0.0).x) + 3,
                 Trunc(CoordinatesToPixels(0.0, 0.0).y) - 3)
  }

  /** draw_grid of an image h pixels high and w wide: the loop over the 21
      grid values, then the origin label. The result lists what is drawn. */
  method DrawGrid(h: int, w: int) returns (steps: seq<GridStep>, origin: GridLabel)
    ensures |steps| == GridCount
    ensures forall k :: 0 <= k < GridCount ==> steps[k] == GridStepOf(GridValue(k), w, h)
    ensures origin == OriginLabel()
  {
    steps := [];
    var v := -100;
    while v < 101
      invariant -100 <= v <= 110 && (v + 100) % 10 == 0
      invariant |steps| == (v + 100) / 10
      invariant forall k :: 0 <= k < |steps| ==> steps[k] == GridStepOf(GridValue(k), w, h)
    {
      steps := steps + [GridStepOf(v, w, h)];
      v := v + 10;
    }
    origin := OriginLabel();
  }

  /** The origin of the transforms, as an integral pixel. */
  lemma OriginPixel()
    ensures Trunc(CoordinatesToPixels(0.0, 0.0).x) == 360
    ensures Trunc(CoordinatesToPixels(0.0, 0.0).y) == 240
  {
  }

  /** Among the grid values, 0 is the axis, the other multiples of 50 are
      major lines, the rest minor; labels go with exactly -100, -50, 50, 100. */
  lemma GridClassification(k: nat)
    requires k < GridCount
    ensures LineKindOf(GridValue(k)) == Axis <==> GridValue(k) == 0
    ensures LineKindOf(GridValue(k)) == Major <==> GridValue(k) in {-100, -50, 50, 100}
    ensures HasLabel(GridValue(k)) <==> GridValue(k) in {-100, -50, 50, 100}
  {
  }

  /** The k-th grid line is 36k pixels from the left edge and 24k pixels from
      the top: computed over the reals, the 720x480 image is divided into 20
      equal columns and rows. */
  lemma GridPixels(k: nat)
    requires k < GridCount
    ensures GridX(GridValue(k)) == 36 * k
    ensures GridY(GridValue(k)) == 24 * k
  {
  }

  /** Every drawn step: vertical lines span the full height, horizontal lines
      the full width, both in the colour of v's class; an x label sits 2
      pixels right of its line and at most h - 4, a y label 3 pixels above
      its line and 3 pixels right of the vertical axis. */
  lemma GridStepLayout(k: nat, w: int, h: int)
    requires k < GridCount
    ensures var s := GridStepOf(GridValue(k), w, h);
            && s.vertical == GridLine(36 * k, 0, 36 * k, h, LineKindOf(GridValue(k)))
            && s.horizontal == GridLine(0, 24 * k, w, 24 * k, LineKindOf(GridValue(k)))
            && (s.xLabel.Some? <==> HasLabel(GridValue(k)))
            && (s.yLabel.Some? <==> HasLabel(GridValue(k)))
            && (s.xLabel.Some? ==> s.xLabel.value == GridLabel(GridValue(k), 36 * k + 2, Min(254, h - 4)))
            && (s.yLabel.Some? ==> s.yLabel.value == GridLabel(GridValue(k), 363, 24 * k - 3))
  {
  }

  /** On a 720x480 image two of the eight labels fall outside the picture:
      "100" on the x axis starts at x = 722 and "-100" on the y axis has its
      baseline at y = -3. */
  lemma EdgeLabelsOffImage()
    ensures var right := GridStepOf(100, 720, 480).xLabel;
            right.Some? && right.value.x == 722 && right.value.x > 720
    ensures var top := GridStepOf(-100, 720, 480).yLabel;
            top.Some? && top.value.y == -3 && top.value.y < 0
  {
  }

  // ---------------------------------------------------------------------------
  // Centroid selection
  // ---------------------------------------------------------------------------

  /** A contour as the detector sees it: its area and its raw moments. */
  datatype Contour = Contour(area: real, m00: real, m10: real, m01: real)

  datatype Pixel = Pixel(x: int, y: int)

  /** Index of max(contours, key=area): the first contour of largest area. */
  function LargestContour(contours: seq<Contour>): (k: nat)
    requires |contours| > 0
    ensures k < |contours|
    ensures forall j :: 0 <= j < |contours| ==> contours[j].area <= contours[k].area
    ensures forall j :: 0 <= j < k ==> contours[j].area < contours[k].area
  {
    if |contours| == 1 then 0
    else
      var k := LargestContour(contours[..|contours| - 1]);
      if contours[|contours| - 1].area > contours[k].area then |contours| - 1 else k
  }

  /** n is int(num / den): the quotient truncated toward zero. */
  ghost predicate IsTruncatedQuotient(n: int, num: real, den: real)
  {
    den != 0.0 &&
    (num / den >= 0.0 ==> n as real <= num / den < n as real + 1.0) &&
    (num / den < 0.0 ==> n as real - 1.0 < num / den <= n as real)
  }

  /** The centroid of the largest contour, if there is one with a non-zero
      area moment: its coordinates are the first moments divided by m00,
      truncated toward zero. */
  function SelectCentroid(contours: seq<Contour>): (c: Option<Pixel>)
    ensures contours == [] ==> c == None
    ensures contours != [] ==>
              (c == None <==> contours[LargestContour(contours)].m00 == 0.0)
    ensures c.Some? ==>
              var m := contours[LargestContour(contours)];
              IsTruncatedQuotient(c.value.x, m.m10, m.m00) &&
              IsTruncatedQuotient(c.value.y, m.m01, m.m00)
  {
    if contours == [] then None
    else
      var m := contours[LargestContour(contours)];
      if m.m00 == 0.0 then None
      else Some(Pixel(Trunc(m.m10 / m.m00), Trunc(m.m01 / m.m00)))
  }

  /** Truncated quotients are unique, so the contract above fixes the centroid. */
  lemma TruncatedQuotientUnique(n: int, n': int, num: real, den: real)
    requires IsTruncatedQuotient(n, num, den) && IsTruncatedQuotient(n', num, den)
    ensures n == n'
  {
  }

  // ---------------------------------------------------------------------------
  // Coordinate label placement
  // ---------------------------------------------------------------------------

  /** Padding between the label text and its background box. */
  const LabelPad: int := 4

  /** Where the label text goes and the background box behind it, clamped to
      the image. */
  datatype LabelLayout = LabelLayout(labelX: int, labelY: int,
                                     bgX1: int, bgY1: int, bgX2: int, bgY2: int)

  predicate InSpan(p: int, lo: int, hi: int)
  {
    lo <= p < hi
  }

  /** Layout of the label whose text is textW x textH pixels (plus baseline)
      for the centroid (cx, cy) in an imgW x imgH image. The text goes up and
      to the right of the centroid; it moves to the left only when it would
      pass the right edge, and below only when it would pass the top edge.
      The background box is the padded text box cut down to the image, read
      as a plain interval: when a bound cut to the image is still negative
      (bgX2 < 0 needs a label nearly as wide as the image), the box here is
      empty, while numpy's slicing would count that bound from the right edge. */
  function PlaceLabel(cx: int, cy: int, textW: int, textH: int, baseline: int,
                      imgW: int, imgH: int): (l: LabelLayout)
    requires textW >= 0 && textH >= 0 && baseline >= 0
    ensures l.labelX == cx + 10 || l.labelX == cx - textW - 10
    ensures l.labelY == cy - 10 || l.labelY == cy + textH + 10
    ensures l.labelX < cx <==> cx + 10 + textW + LabelPad > imgW
    ensures l.labelY > cy <==> cy - 10 - textH - LabelPad < 0
    ensures 0 <= l.bgX1 && 0 <= l.bgY1 && l.bgX2 <= imgW && l.bgY2 <= imgH
    ensures forall px :: InSpan(px, l.bgX1, l.bgX2) <==>
              InSpan(px, 0, imgW) && InSpan(px, l.labelX - LabelPad, l.labelX + textW + LabelPad)
    ensures forall py :: InSpan(py, l.bgY1, l.bgY2) <==>
              InSpan(py, 0, imgH) && InSpan(py, l.labelY - textH - LabelPad, l.labelY + baseline + LabelPad)
  {
    var labelX := if cx + 10 + textW + LabelPad > imgW then cx - textW - 10 else cx + 10;
    var labelY := if cy - 10 - textH - LabelPad < 0 then cy + textH + 10 else cy - 10;
    LabelLayout(labelX, labelY,
                Max(0, labelX - LabelPad), Max(0, labelY - textH - LabelPad),
                Min(imgW, labelX + textW + LabelPad), Min(imgH, labelY + baseline + LabelPad))
  }

  /** For a centroid inside the image and a label that fits in it with room
      to spare, the clamped background box is a non-empty rectangle inside
      the image, so the darkened region behind the text is never empty. */
  lemma LabelBoxInsideImage(cx: int, cy: int, textW: int, textH: int, baseline: int,
                            imgW: int, imgH: int)
    requires 0 <= cx < imgW && 0 <= cy < imgH
    requires textW >= 0 && textH >= 0 && baseline >= 0
    requires textW + 20 <= imgW && textH + 20 <= imgH
    ensures var l := PlaceLabel(cx, cy, textW, textH, baseline, imgW, imgH);
            0 <= l.bgX1 < l.bgX2 <= imgW && 0 <= l.bgY1 < l.bgY2 <= imgH
  {
  }
}
