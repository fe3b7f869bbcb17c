# CoverfyScanner rectangle-stabilisation engine, in Dafny

This project models the part of CoverfyScanner that decides, frame by frame,
whether the tracked document outline moves. A detector reports a quadrilateral
for each video frame. `refreshDocumentAreaPoints` first adds 1 to the capture
progress. It then discards the whole candidate if its aspect ratio lies outside
the band `[ratio − 0.2, ratio + 0.2]`. Otherwise it passes the four corners, in
the order top-left, top-right, bottom-left, bottom-right, through
`shouldRefreshPoint`. That function runs five gates in order and stops at the
first that fails: zone, ratio, movement, document size, angles. A corner that
passes them all takes the candidate's coordinate; any other keeps the tracked
one. A movement rejection with a horizontal jump above 17 points also costs 2
progress when the progress is positive.

Files:

- `float_model.dfy` (`FloatModel`): `Float`/`CGFloat` values as exact reals.
  A zero divisor gives an infinity, or NaN for 0/0, and every ordered
  comparison with NaN is false. Each gate is written as the source computes
  it, so its behaviour on a zero divisor is the code's own.
- `cs_point.dfy` (`CSPoints`): `CGPoint`, the four-case `CSPointType` and the
  role-tagged `CSPoint`.
- `cg_rect.dfy` (`CGRects`): `CGRect`, its four quadrant zones, `size()` and
  the containment test `isInside`.
- `cs_rectangle.dfy` (`CSRectangles`): `CSRectangle`, its four initialisers,
  `calculateRatio`, `size` and the angle stubs.
- `scanner.dfy` (`Scanner`): the gates and a pure specification of the engine.
  `RefreshCorner` is one corner, `Refresh` one frame and `RefreshAll` a list of
  features. The class `CoverfyScanner` holds the mutable state
  (`captureProgress`, `isBlackFilterActivated`, `detectedRectangle`) and has
  `const` fields for the ratio band and the frame. Each of its methods is
  proved equal to the specification.
- `scanner_properties.dfy` (`ScannerProperties`): what the engine guarantees.

Division by zero, gate by gate. These are the IEEE 754 answers, which the
code gets:

- Ratio. `calculateRatio` divides by a zero extent and gets +∞ or NaN. +∞
  fails both ratio checks. NaN passes the frame check (`ratio > max || ratio <
  min` is false) and fails the corner check.
- Movement. With a frame width of zero, the x-percentage is +∞ when the point
  moved horizontally, so the gate rejects. When it did not move, the
  percentage is NaN, which does not exceed 10. The y-percentage and the
  height behave the same way.
- Size. With a frame of size zero the occupation is +∞ or NaN, and neither is
  below 60, so the gate passes.

`isInside` is defined in a file that is not part of this model. It is taken
here as CoreGraphics' `contains`: closed on the minimum edges, open on the
maximum edges. With that choice the four zones partition `[0, W) × [0, H)`
exactly. `CGRect`'s width and height are magnitudes, as CoreGraphics
standardises them.

Behaviour of the code worth noting:

- Progress goes up by 1 before the frame-level ratio check. A discarded frame
  still counts.
- The movement penalty has no floor, so a progress of 1 becomes −1.
- The angle gate compares the signed difference `first − second` with 10, not
  its absolute value.
- Every detected feature goes through the engine in list order. Only the
  overlay image is "last wins".
- `calculateRatio` and `size` are modelled as written. They mix x and y
  coordinates: the ratio's "height" is `bottomRight.x − bottomLeft.x` and its
  "width" is `topRight.y − bottomRight.y`. The size's second factor is
  `|topLeft.x − topRight.y|`. For the on-screen layout (100,100), (900,100),
  (100,900), (900,900), the ratio is −1 (`ScreenSquareHasRatioMinusOne`).

A consequence of the code as written (`NeverLeavesInitialRectangle`): suppose
the target ratio is at least 0.2, so the band's lower end is not negative.
Then the all-zero rectangle that `init()` tracks never changes, whatever
frames arrive, and the progress simply counts frames. Against that rectangle,
each corner fails the ratio gate:

- A top-left candidate gives 0/0.
- A top-right or bottom-left candidate gives 0, +∞ or NaN.
- A bottom-right candidate inside its zone gives a negative ratio.

## Model

| member | source | states |
|---|---|---|
| `CSPoints.InitStoresArguments` | CoverfyScanner/Classes/CSPoint.swift:15-17 | the initialiser stores the coordinate and the role exactly as given |
| `CSPoints.WithPoint` | CoverfyScanner/Classes/CSPoint.swift:12-13 | assigning `point` sets the coordinate and leaves the role (a `let`) unchanged |
| `CGRects.CGRect.Size` | CoverfyScanner/Classes/CGRect.swift:28-30 | the frame's size is never negative, and it is zero exactly when the width or the height is zero |
| `CGRects.CGRect.TopLeftZone` | CoverfyScanner/Classes/CGRect.swift:12-14 | the top-left quarter `(0, 0, W/2, H/2)`, anchored at the origin whatever the frame's own origin; characterised by `ZoneMembership` and `ZonesAreQuarters` |
| `CGRects.CGRect.BottomLeftZone` | CoverfyScanner/Classes/CGRect.swift:16-18 | the bottom-left quarter `(0, H/2, W/2, H/2)`; characterised by `ZoneMembership` and `ZonesAreQuarters` |
| `CGRects.CGRect.TopRightZone` | CoverfyScanner/Classes/CGRect.swift:20-22 | the top-right quarter `(W/2, 0, W/2, H/2)`; characterised by `ZoneMembership` and `ZonesAreQuarters` |
| `CGRects.CGRect.BottomRightZone` | CoverfyScanner/Classes/CGRect.swift:24-26 | the bottom-right quarter `(W/2, H/2, W/2, H/2)`; characterised by `ZoneMembership` and `ZonesAreQuarters` |
| `CGRects.IsInside` | CoverfyScanner/Classes/CoverfyScanner.swift:342 | point-in-rectangle test, closed on the minimum edges and open on the maximum edges; with it the zones tile the frame (`ZonesPartitionBox`) |
| `CGRects.ZoneMembership` | CoverfyScanner/Classes/CGRect.swift:12-26 | a point is in the top-left/top-right/bottom-left/bottom-right zone iff it lies in `[0,W)×[0,H)` and on that side of `x = W/2` and `y = H/2` |
| `CGRects.ZonesPartitionBox` | CoverfyScanner/Classes/CGRect.swift:12-26 | the four zones tile `[0,W)×[0,H)`: a point of the box is in exactly one zone, and a point outside it is in none |
| `CGRects.ZonesAreQuarters` | CoverfyScanner/Classes/CGRect.swift:12-26 | each of the four zones has half the frame's width and half its height, hence a quarter of its size, and depends on the frame's size only, not its origin |
| `CSRectangles.Zero` | CoverfyScanner/Classes/CSRectangle.swift:17-23 | `init()` puts all four corners at (0,0), each slot tagged with its own role |
| `CSRectangles.FromCorners` | CoverfyScanner/Classes/CSRectangle.swift:25-30 | the corner initialiser stores each coordinate in its slot and tags every slot with its own role |
| `CSRectangles.FromFeature` | CoverfyScanner/Classes/CSRectangle.swift:32-37 | the feature initialiser stores the feature's four corners in their slots, each tagged with its own role |
| `CSRectangles.Replacing` | CoverfyScanner/Classes/CSRectangle.swift:39-66 | `newPoint` lands in the slot its role names; the other three slots keep the old coordinates; every slot is tagged with its own role |
| `CSRectangles.ReplacingWithOwnCorner` | CoverfyScanner/Classes/CSRectangle.swift:39-66 | replacing a corner of a well-tagged rectangle by the point already in that slot gives the same rectangle |
| `CSRectangles.WithCornerPoint` | CoverfyScanner/Classes/CoverfyScanner.swift:293-296 | assigning one slot's `.point` changes only that slot's coordinate: its role and the other slots stay as they were |
| `CSRectangles.WithCornerPointSame` | CoverfyScanner/Classes/CoverfyScanner.swift:293-296 | writing back the coordinate a slot already holds leaves the rectangle unchanged |
| `CSRectangles.CalculateRatio` | CoverfyScanner/Classes/CSRectangle.swift:69-78 | with both signed extents positive, the ratio is max/min and at least 1; it is NaN iff both are zero; it is +∞ iff exactly one is zero and the other positive; it is never −∞; a zero extent with a negative partner gives 0 |
| `CSRectangles.RatioIgnoresTopLeft` | CoverfyScanner/Classes/CSRectangle.swift:69-78 | the ratio never reads the top-left corner, so replacing it cannot change the ratio |
| `CSRectangles.ScreenSquareHasRatioMinusOne` | CoverfyScanner/Classes/CSRectangle.swift:69-78 | for the layout (100,100), (900,100), (100,900), (900,900) the axis-mixed ratio is −1 |
| `CSRectangles.Size` | CoverfyScanner/Classes/CSRectangle.swift:80-85 | the size is never negative; it is zero iff `topLeft.y = bottomLeft.y` or `topLeft.x = topRight.y` |
| `CSRectangles.SizeIgnoresBottomRight` | CoverfyScanner/Classes/CSRectangle.swift:80-85 | the size never reads the bottom-right corner, so replacing it cannot change the size |
| `CSRectangles.CalculateTopAngles` | CoverfyScanner/Classes/CSRectangle.swift:87-89 | the top-angle stub, (90, 90) for every rectangle; stated by `AnglesIgnoreCorners` |
| `CSRectangles.CalculateBottomAngles` | CoverfyScanner/Classes/CSRectangle.swift:91-93 | the bottom-angle stub, (90, 90) for every rectangle; stated by `AnglesIgnoreCorners` |
| `CSRectangles.AnglesIgnoreCorners` | CoverfyScanner/Classes/CSRectangle.swift:87-93 | both angle functions return (90, 90) for every rectangle |
| `Scanner.PassPointsPosition` | CoverfyScanner/Classes/CoverfyScanner.swift:324-343 | gate 1: the candidate lies inside the zone its role names; characterised by `PointsPositionIff` |
| `Scanner.PassRatio` | CoverfyScanner/Classes/CoverfyScanner.swift:345-353 | gate 2: the tracked rectangle with the candidate swapped in has a ratio strictly inside the band; characterised by `RatioChecks` |
| `Scanner.PassAbsoluteMovement` | CoverfyScanner/Classes/CoverfyScanner.swift:355-373 | gate 3: neither coordinate moved more than 10 % of the frame's extent; characterised by `MovementGateIff` |
| `Scanner.PassDocumentSize` | CoverfyScanner/Classes/CoverfyScanner.swift:375-388 | gate 4: the hypothetical rectangle covers at least 60 % of the frame; characterised by `DocumentSizeGateIff` |
| `Scanner.PassAnglesRules` | CoverfyScanner/Classes/CoverfyScanner.swift:390-410 | gate 5: the signed difference of the role's side angles is at most 10; `AngleGateNeverRejects` shows it always passes |
| `Scanner.GateVerdict` | CoverfyScanner/Classes/CoverfyScanner.swift:299-322 | the five gates in source order, naming the first that fails; characterised by `GateVerdictShortCircuits` |
| `Scanner.Refresh` | CoverfyScanner/Classes/CoverfyScanner.swift:284-297 | one frame: count it, discard it on the frame ratio check, else judge TL, TR, BL, BR in turn; `RefreshDocumentAreaPoints` is proved equal to it, and `RefreshCountsFrame`, `RefreshKeepsRolesAndInventsNothing` and `StuckAtInitialRectangle` describe it |
| `Scanner.RefreshAll` | CoverfyScanner/Classes/CoverfyScanner.swift:256-259 | a run of features fed in list order; `PerformRectangleDetection` is proved equal to it, and the `RefreshAll…` lemmas and `NeverLeavesInitialRectangle` describe it |
| `Scanner.Penalised` | CoverfyScanner/Classes/CoverfyScanner.swift:309 | the penalty never raises the progress and lowers it by exactly 0 or 2; it lowers it exactly when it is positive; from −1 or above it stays at −1 or above |
| `ScannerProperties.PenaltyHasNoFloor` | CoverfyScanner/Classes/CoverfyScanner.swift:309 | there is no floor at 0: a progress of 1 becomes −1, and −1 is the lowest a penalty reaches from a non-negative progress |
| `Scanner.RefreshCorner` | CoverfyScanner/Classes/CoverfyScanner.swift:293-322 | one corner step changes only its own slot's coordinate, never a role. The slot takes the candidate's point iff all five gates pass. Progress changes iff the movement gate rejected a jump of more than 17 while progress was positive, and then it drops by exactly 2 |
| `Scanner.CoverfyScanner.constructor` | CoverfyScanner/Classes/CoverfyScanner.swift:61-68 | the ratio band is fixed at construction to `ratio − 0.2 .. ratio + 0.2` in `const` fields; the tracked rectangle starts at `init()` and the progress at 0 |
| `Scanner.CoverfyScanner.SetBlackFilterActivated` | CoverfyScanner/Classes/CoverfyScanner.swift:30-34 | any assignment of the flag resets the progress to 0 and leaves the tracked rectangle alone |
| `Scanner.CoverfyScanner.CaptureImage` | CoverfyScanner/Classes/CoverfyScanner.swift:142-154 | the crop uses the tracked rectangle, with contrast exactly for the contrast filter; afterwards progress is 0 and the rectangle is unchanged |
| `Scanner.CoverfyScanner.CaptureImageWithOrientation` | CoverfyScanner/Classes/CoverfyScanner.swift:156-162 | the crop uses the tracked rectangle without a filter; afterwards progress is 0 and the rectangle is unchanged |
| `Scanner.CoverfyScanner.ShouldRefreshPoint` | CoverfyScanner/Classes/CoverfyScanner.swift:299-322 | returns the candidate's point iff the gate verdict is "accepted", else the tracked point; progress is penalised only for a movement rejection with a jump above 17 |
| `Scanner.CoverfyScanner.RefreshDocumentAreaPoints` | CoverfyScanner/Classes/CoverfyScanner.swift:284-297 | the new state equals `Refresh` of the old: progress + 1, then the frame check, then the corners TL, TR, BL, BR, each judged against the rectangle as already updated; roles stay well tagged |
| `Scanner.CoverfyScanner.PerformRectangleDetection` | CoverfyScanner/Classes/CoverfyScanner.swift:250-263 | every feature, in list order, is turned into a rectangle and fed through the engine; the final state is `RefreshAll` of the old |
| `ScannerProperties.RatioChecks` | CoverfyScanner/Classes/CoverfyScanner.swift:345-353 | the corner check accepts only a finite ratio strictly inside the band. The frame check (line 289) rejects only infinities and finite ratios outside the closed band. So the endpoints and NaN pass the frame check and fail the corner check |
| `ScannerProperties.PointsPositionIff` | CoverfyScanner/Classes/CoverfyScanner.swift:324-343 | the zone gate passes iff the point lies in `[0,W)×[0,H)` on its role's side of both half lines |
| `ScannerProperties.GateVerdictShortCircuits` | CoverfyScanner/Classes/CoverfyScanner.swift:299-322 | the verdict is "accepted" iff all five gates pass. Otherwise it names the first failing gate in the order zone, ratio, movement, size, angles, and every gate before it passed |
| `ScannerProperties.MovementGateIff` | CoverfyScanner/Classes/CoverfyScanner.swift:355-373 | the movement gate passes iff `10·|Δx| ≤ W` and `10·|Δy| ≤ H`; for a zero extent this means no displacement on that axis |
| `ScannerProperties.DocumentSizeGateIff` | CoverfyScanner/Classes/CoverfyScanner.swift:375-388 | the size gate passes iff `5·size(hypothetical) ≥ 3·size(frame)`, i.e. occupation ≥ 60 %; on a zero-size frame it always passes |
| `ScannerProperties.AngleGateNeverRejects` | CoverfyScanner/Classes/CoverfyScanner.swift:390-410 | with the (90, 90) stubs the signed difference is 0, so the angle gate never rejects |
| `ScannerProperties.CornerProgressStep` | CoverfyScanner/Classes/CoverfyScanner.swift:308-311 | one corner step moves the progress by 0 or by −2 |
| `ScannerProperties.RejectedCornerIsKept` | CoverfyScanner/Classes/CoverfyScanner.swift:299-322 | a rejected corner leaves the tracked rectangle unchanged; a rejection by any gate but movement leaves the progress unchanged too |
| `ScannerProperties.SamePointIsNoOp` | CoverfyScanner/Classes/CoverfyScanner.swift:299-322 | a candidate corner on the tracked corner's own coordinate changes neither the rectangle nor the progress |
| `ScannerProperties.RefreshCountsFrame` | CoverfyScanner/Classes/CoverfyScanner.swift:284-297 | a frame moves progress to +1, −1, −3, −5 or −7 relative to before: one increment, then at most four penalties of 2. A frame the ratio check discards leaves the rectangle unchanged and adds exactly 1 |
| `ScannerProperties.RefreshKeepsRolesAndInventsNothing` | CoverfyScanner/Classes/CoverfyScanner.swift:293-296 | after a frame no slot has changed role, and every slot holds its old point or the candidate's point for that slot |
| `ScannerProperties.RefreshKeepsWellTagged` | CoverfyScanner/Classes/CoverfyScanner.swift:293-296 | a well-tagged tracked rectangle stays well tagged |
| `ScannerProperties.IdenticalCandidateIsStable` | CoverfyScanner/Classes/CoverfyScanner.swift:284-322 | a candidate whose corners coincide with the tracked ones leaves the rectangle unchanged and only adds 1 to the progress |
| `ScannerProperties.ProgressNeverBelowMinusOne` | CoverfyScanner/Classes/CoverfyScanner.swift:309 | from a progress of at least −1, a frame never takes it below −1 |
| `ScannerProperties.ProgressCanReachMinusOne` | CoverfyScanner/Classes/CoverfyScanner.swift:309 | from progress 0, a frame whose top-left corner jumps 300 points ends at progress −1 (+1, then −2) |
| `ScannerProperties.ZeroRectangleRejectsEveryCorner` | CoverfyScanner/Classes/CoverfyScanner.swift:345-353 | when the band's lower end is ≥ 0, every candidate corner judged against the all-zero rectangle is rejected by the zone or the ratio gate |
| `ScannerProperties.StuckAtInitialRectangle` | CoverfyScanner/Classes/CoverfyScanner.swift:284-297 | when the band's lower end is ≥ 0, a frame leaves an all-zero tracked rectangle unchanged and adds exactly 1 to the progress |
| `ScannerProperties.NeverLeavesInitialRectangle` | CoverfyScanner/Classes/CoverfyScanner.swift:256-259 | when the band's lower end is ≥ 0, any run of n frames from the all-zero rectangle keeps it and adds exactly n to the progress |
| `ScannerProperties.RefreshAllKeepsWellTagged` | CoverfyScanner/Classes/CoverfyScanner.swift:256-259 | no run of frames changes any slot's role |
| `ScannerProperties.RefreshAllProgressBounds` | CoverfyScanner/Classes/CoverfyScanner.swift:256-259 | over n frames, progress gains at most n and loses at most 7n |
| `ScannerProperties.RefreshAllProgressAtLeastMinusOne` | CoverfyScanner/Classes/CoverfyScanner.swift:256-259 | from a progress of at least −1, no run of frames takes it below −1 |
| `ScannerProperties.RefreshAllInventsNothing` | CoverfyScanner/Classes/CoverfyScanner.swift:256-259 | after a run, each tracked corner is the starting one or the same corner of one of the features fed in |

## Left out

- Camera and session control (`start`, `stop`, `prepareAvSession`, `createAVSession`, `activateScannerDetection`, `toggleFlash`, `isFlashActive`): AVFoundation I/O and hardware.
- Detector creation (`prepareRectangleDetector`, `configure`) and the detector call: `PerformRectangleDetection` takes the detector's feature list as input. A missing detector is the same as an empty list.
- Overlay drawing in `drawHighlightOverlayForPoints` and the returned image of `performRectangleDetection`: Core Image calls. Only the call into the engine is kept.
- Cropping (`crop`, `cropWithColorContrast`): these are outside the modelled files. `CaptureImage` returns the crop request it would make (rectangle, filter, orientation) instead of an image.
- Video rendering in `captureOutput`, `calculateFrameForScreenOption`, `changeVideoDisplayFrame` and the GL view set up in the initialisers: UI and GPU work. The two initialisers are one constructor, because they differ only in that set-up.
- The delegate callbacks: the progress notification scaled by 4/100, and `getCapturedImageFiltered`. They notify observers and hold no engine logic.
- Floating-point rounding and signed zeros: values are exact reals. Only the infinities and NaN from zero divisors are modelled.
- `captureProgress` is an unbounded `int`. In the source it is a `Float`, and it grows by 1 for every detected feature with no upper bound. A `Float` stops changing under `+= 1` at 2^24 = 16,777,216, and that saturation is not modelled. The exact counts in `NeverLeavesInitialRectangle`, `StuckAtInitialRectangle`, `RefreshCountsFrame` and `RefreshAllProgressBounds` hold for the source only while the progress stays below 2^24.
- Concurrency: frames arrive on one serial queue, so calls are modelled as strictly sequential.
- `CGPoint.isInside` is not part of this model's source files. `IsInside` is an explicit half-open definition.
