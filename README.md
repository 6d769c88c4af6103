# Kota Lab Platform tracking arithmetic, in Dafny

The platform tilts a stage with two servos to keep a coloured droplet at a
target position seen by a camera. Around the OpenCV and GPIO calls, its
scripts hold a small amount of decision logic. This project models that logic
and proves what it guarantees:

- the hard-coded 720x480 pixel <-> [-100,100]² coordinate transforms and the
  per-axis tracking error (`localization.py`, repeated in `test.py`);
- the coordinate grid drawn under every frame: which lines are axis, major or
  minor, which carry labels, and where they land (`draw_grid`);
- the centroid rule of `find_centroid`: no contour or a zero area moment gives
  no centroid, otherwise the largest contour's moment ratios, truncated toward
  zero. The same rule holds in `test.py`;
- the placement of the live coordinate label beside the centroid and the
  clamping of its background box to the image;
- the servo angle-to-pulse conversion, clamped in `move_servo.py` and
  unclamped in `servo_angle_test.py`;
- the frame midpoints, the quadrant classification and the cap on the number
  of processed circles in `bounding_box.py`;
- the sampling, detection-threshold and recording loop of `velocity_test.py`.
  It is a class whose fields are the script's lists, `prev_pos`/`prev_time` and
  `frame_count`, with one method per pass of the loop and one for the loop.
  Each pass is specified by a function `Step` on the recorder's state, and the
  loop by `RunFrames`, its repetition over the frames.

Floating-point values are modelled as `real`. Python's `int(x)` is written out
as truncation toward zero (`Basics.Trunc`). OpenCV's outputs become inputs:
a contour is its area and moments, the label's text size is given, and
detected circles have already been rounded.

Modules follow the source files: `Basics` (shared), `Localization`,
`MoveServo`, `ServoAngleTest`, `BoundingBox`, `VelocityTest`, `TestScript`.

Some facts the proofs make explicit:
- Over the reals, for `v` on the grid, the vertical line sits at pixel `36k`
  and the horizontal line at pixel `24k`, where `k = (v + 100) / 10`.
- Two labels are drawn outside a 720x480 image. The x label "100" starts at
  x = 722, and the y label "-100" has its baseline at y = -3.
- `bounding_box.py` comments say "limit to 2 circles", but the code processes
  every circle when at most four are found.
  `BoundingBox.CirclesToProcess` models the code.

## Model

| member | source | states |
|---|---|---|
| `Localization.PixelsToCoordinates` | localization.py:161-168 | the image centre (360,240) maps to (0,0) on each axis, in both directions of the equivalence; the image edges 0 and 720/480 map to -100 and 100 |
| `Localization.CoordinatesToPixels` | localization.py:171-177 | it is an exact inverse: `PixelsToCoordinates(CoordinatesToPixels(n)) == n`; (-100,-100) maps to (0,0), (100,100) to (720,480), and (0,0) to the centre |
| `Localization.PixelsRoundTrip` | localization.py:161-177 | the other round trip: `CoordinatesToPixels(PixelsToCoordinates(p)) == p` for every pixel position |
| `Localization.TransformsIncreasingPerAxis` | localization.py:166-176 | both transforms are strictly increasing on each axis, and each output axis depends only on the same input axis |
| `Localization.FindError` | localization.py:150-156 | the error plus the desired point gives back the centroid on each axis, and the error is (0,0) exactly when the centroid is on the desired point (same function as test.py:96-101) |
| `Localization.ErrorAxesIndependent` | localization.py:154-155 | the x error does not depend on any y input, and the y error does not depend on any x input |
| `Localization.XLabelY` | localization.py:33-34 | the x-axis label's baseline is the smaller of h - 4 and 14 below the horizontal axis: at most each, and equal to one of them |
| `Localization.DrawGrid` | localization.py:19-55 | the loop draws exactly 21 steps, one per value of range(-100, 101, 10) in order, and each step is the specified vertical line, x label, horizontal line and y label for that value; the origin label comes last |
| `Localization.OriginPixel` | localization.py:50-55 | int() of the transformed origin is the pixel (360, 240) |
| `Localization.GridClassification` | localization.py:23-32 | among the grid values, exactly 0 is drawn as the axis, exactly -100, -50, 50, 100 as major lines, the rest as minor; labels are drawn for exactly -100, -50, 50, 100 |
| `Localization.GridPixels` | localization.py:21-39 | over the reals, the k-th grid line is at pixel 36k horizontally and 24k vertically, so the image is split into 20 equal columns and rows |
| `Localization.GridStepLayout` | localization.py:19-51 | computed over the reals, vertical lines span 0..h and horizontal lines 0..w in the colour of their class; an x label sits at (36k + 2, min(254, h - 4)), a y label at (363, 24k - 3), each present exactly when the value is labelled |
| `Localization.EdgeLabelsOffImage` | localization.py:31-51 | on a 720x480 image the x label "100" starts at x = 722, past the right edge, and the y label "-100" has baseline -3, above the top edge |
| `Localization.LargestContour` | localization.py:93 | the chosen contour has the largest area, and every earlier contour has a strictly smaller area, so ties go to the first contour, as `max` does |
| `Localization.SelectCentroid` | localization.py:89-101 | no contours gives None; otherwise None exactly when the largest contour's m00 is 0; otherwise cx and cy are m10/m00 and m01/m00 truncated toward zero (same rule as test.py:74-86) |
| `Localization.TruncatedQuotientUnique` | localization.py:100-101 | the truncated quotient is unique, so SelectCentroid's contract fixes the centroid |
| `Localization.PlaceLabel` | localization.py:119-136 | the label moves left of the centroid exactly when `cx+10+text_w+pad > img_w`, and below it exactly when `cy-10-text_h-pad < 0`; the box satisfies 0 <= bg_x1, 0 <= bg_y1, bg_x2 <= img_w and bg_y2 <= img_h, and it is the padded text box cut to the image |
| `Localization.LabelBoxInsideImage` | localization.py:128-141 | for a centroid in the image and a label with 20 pixels to spare, the clamped box is a non-empty rectangle inside the image, so the darkened region is never empty |
| `MoveServo.ClampAngle` | move_servo.py:15 | the clamped angle lies in [0,180], equals the input there, is 0 below 0 and 180 above 180 |
| `MoveServo.AngleToPulse` | move_servo.py:14-16 | the pulse always lies in [500,2500] and is the clamped angle's point on the 500..2500 line, rounded down; angle <= 0 gives 500, angle >= 180 gives 2500, 90 gives 1500 |
| `MoveServo.AngleToPulseMonotone` | move_servo.py:15-16 | the pulse is monotone non-decreasing in the angle |
| `MoveServo.ClampIsTransparent` | move_servo.py:15 | `AngleToPulse(a) == AngleToPulse(ClampAngle(a))` |
| `ServoAngleTest.SetAnglePulse` | servo_angle_test.py:9-10 | the pulse is the formula's value truncated toward zero (rounded down when it is non-negative, up when it is negative); 0 gives 500, 90 gives 1500 (the value sent at servo_angle_test.py:19-20), 180 gives 2500; there is no clamping: above 180 the pulse is at least 2500 (more than 2500 from 181 on), and below 0 it is under 500 |
| `ServoAngleTest.SetAnglePulseMonotone` | servo_angle_test.py:10 | the pulse is monotone non-decreasing in the angle |
| `ServoAngleTest.AgreesWithAngleToPulse` | servo_angle_test.py:10 | for angles in [0,180] the unclamped formula equals the clamped `move_servo` conversion |
| `BoundingBox.Midpoints` | bounding_box.py:20 | mid_x and mid_y are w // 2 and h // 2 |
| `BoundingBox.QuadrantOf` | bounding_box.py:70-77 | Q1 iff cx >= mid_x and cy < mid_y, Q2 iff cx < mid_x and cy < mid_y, Q3 iff cx < mid_x and cy >= mid_y, Q4 iff cx >= mid_x and cy >= mid_y, so every point gets exactly one quadrant |
| `BoundingBox.MidlinesGoRightAndDown` | bounding_box.py:70-77 | points on the vertical midline go to Q1/Q4, points on the horizontal midline to Q3/Q4, and the centre to Q4 |
| `BoundingBox.CirclesToProcess` | bounding_box.py:60 | the processed circles are a prefix of the detected ones, in order: exactly 2 when more than 4 were detected, otherwise all of them, and never more than 4 |
| `BoundingBox.ReportQuadrants` | bounding_box.py:62-78 | one quadrant is reported per processed circle, in order, and it is that circle's quadrant against the frame's midpoints |
| `VelocityTest.SamplePeriodIsThree` | velocity_test.py:47 | int(30 * TIME_STEP) is 3, so only frames with frame_count % 3 == 0 are analysed |
| `VelocityTest.SampleSpeed` | velocity_test.py:77-88 | the speed is never negative when the norm is a norm; it is 0 for the first sample and when dt <= 0 |
| `VelocityTest.SampleSpeedMoving` | velocity_test.py:78-84 | when dt > 0 the speed is the norm of the velocity (the displacement divided by dt), and for a norm that scales with its argument, as the Euclidean norm does, the distance moved divided by dt |
| `VelocityTest.SpeedsChain` | velocity_test.py:77-88 | in the speed list kept beside the samples, the first speed is 0, every later speed is the SampleSpeed from the sample just before it, and no speed is negative |
| `VelocityTest.AnalysedCountClosedForm` | velocity_test.py:47 | of n counted frames, exactly ceil(n / 3) have frame_count % 3 == 0 and are analysed |
| `VelocityTest.StepValid` | velocity_test.py:36-111 | a pass of the loop keeps the invariant: parallel lists, prev_pos/prev_time equal to the last sample, speeds as in SpeedsChain, every timestamp under 10 s, at most one sample per analysed frame |
| `VelocityTest.RunFramesRecords` | velocity_test.py:35-114 | while no earlier pass stops the loop, n passes append exactly the centres and times of the frames that reach the display step on an analysed frame with a detection of radius > 10, in order, and count every frame except possibly the last |
| `VelocityTest.VelocityTracker.constructor` | velocity_test.py:12-33 | the three lists start empty, prev_pos and prev_time are None, frame_count is 0, and the invariant holds |
| `VelocityTest.VelocityTracker.Iterate` | velocity_test.py:35-114 | the pass stops the loop exactly when elapsed >= 10 s, the read failed, or 'q' was pressed; the new state is `Step` of the old one (time up or a failed read changes nothing; otherwise a sample is recorded on an analysed frame with a detection of radius > 10, and the frame is counted); the invariant is kept |
| `VelocityTest.Consumed` | velocity_test.py:35-114 | the loop consumes the frames up to and including the first one whose time is up, whose read failed or on which 'q' was pressed, or all of them if none does |
| `VelocityTest.VelocityTracker.Passes` | velocity_test.py:35-114 | the loop consumes exactly `Consumed(frames, 0)` frames and leaves the state `RunFrames` computes from them; the invariant is kept |
| `VelocityTest.VelocityTracker.Run` | velocity_test.py:35-114 | the loop ends at the first frame that stops it or when the frames run out (after `Consumed(frames, 0)` frames); the positions and timestamps lists grow by exactly the recorded frames' centres and times, in order; frame_count grows by the number of passes, less one when the last pass stopped before the display step; the speeds are the SampleSpeeds between consecutive samples, and prev_pos/prev_time are the last sample, or None when there is none; the invariant is kept |
| `VelocityTest.TrackRedCircle` | velocity_test.py:12-114 | from a fresh state, the positions and timestamps lists hold exactly the recorded frames' centres and times, the speeds are those of SpeedsChain, prev_pos/prev_time are the last sample (None if none), the loop stopped as in `Consumed`, and frame_count is the number of passes, less one when the last pass stopped before the display step |
| `TestScript.FrameError` | test.py:121-124 | the error is computed exactly when a centroid was found, which is exactly when there is a contour and the largest one has a non-zero m00; it is the centroid minus the integer target on each axis, and it is (0,0) exactly when the centroid is the target |

## Left out

- OpenCV: colour conversion, masks, morphology, contour finding, contour areas
  and moments, Hough circles, enclosing circles, text metrics, drawing and
  display. These are outputs of a foreign library, so the model takes them as
  inputs.
- The rounding of Hough circles (`np.around`, `np.uint16`) in
  bounding_box.py:57. Circles come in with natural-number components.
- The label text (`f"({norm_x:+.1f}, ...)"`) and the darkening of the label's
  background region, localization.py:104-117 and 138-143. The model takes
  the text size as input and proves that the region is non-empty when the
  centroid lies inside the image and the text box is at least 20 pixels
  narrower and 20 pixels shorter than the image.
- Localization.PlaceLabel: the background box is read as a plain interval,
  so a bound that stays negative after clamping gives an empty box. numpy's
  slicing at localization.py:138 would count that bound from the right edge.
  This needs a label about as wide as the image.
- IEEE-754 rounding in the transforms and the pulse formulas. Every formula
  is evaluated over the reals, and `int()` is explicit truncation.
- `simple_pid.PID` and the servo wiring in main.py, test.py and
  motor_offset_test.py. The library's control law is not part of this model.
- Servo and GPIO output (gpiozero, pigpio) in move_servo.py `main` and
  servo_angle_test.py:11-23. This is hardware I/O.
- The input loop in move_servo.py `main` and the capture loops in
  bounding_box.py, test.py and main.py. These are I/O around the modelled
  per-frame logic.
- client.py (a websocket relay), GUI.py, cv_test.py, rectangle_loc.py,
  data_analysis.py and the plotting in velocity_test.py:116-169. These are
  networking, UI and plotting.
- The two problems that stop files from running: the unresolved merge
  conflict in bounding_box.py:42-52 and the stray backslash at
  velocity_test.py:1. Neither affects the modelled logic.
- VelocityTest.SampleSpeed: `np.linalg.norm` is a parameter that is only
  assumed non-negative and, for SampleSpeedMoving's distance-over-time clause,
  to scale with its argument. The Euclidean square root is not modelled.
- Localization.GridPixels: in double arithmetic (70/200)*720 and (140/200)*720
  fall just below 252 and 504, so `int()` puts the vertical lines for x = -30
  and x = 40 one pixel to the left, at 251 and 503. The model computes over the
  reals, where they are at 252 and 504.
- VelocityTest.VelocityTracker.Run: the clock, the camera read result, the
  detection and the quit-key poll come in as a finite sequence of per-frame
  inputs. When that sequence runs out the loop ends; the script would block
  on the camera instead.
