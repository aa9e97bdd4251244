# SobrCameraView: selection, confidence, corner editing and aspect fit

A Dafny model of the sequential logic of SobrCameraView, an iOS camera view that
detects the outline of a document in the live video, and of the corner editor and
image-fit helpers of its example app:

- `RectangleSelection` — `biggestRectangle`: among the rectangles the detector reports
  for one image, keep the one whose top edge plus left edge is longest. The loop starts
  from the value 0.0 and moves only on a strictly greater value, so the earliest maximum
  wins. The recursive function `Scan` gives the loop's state after each prefix. The method
  `BiggestRectangle` keeps the source's loop and is proved equal to it.
- `Camera` — the border-detection state of `SobrCameraView`. The repeating timer only
  raises `borderDetectFrame`. A frame that passes the guards (`forceStop`, `stopped`,
  `capturing`, an invalid buffer) re-runs the selection when the flag is up, then lowers
  the flag. It then adds 0.5 to `imageDetectionConfidence` when a feature is held and
  resets it to 0 otherwise. The confidence is valid above 1.0. The pure functions `Tick`,
  `Frame` and `Run` describe this on a `Tracker` value. The class `SobrCameraView` keeps
  the source's fields, and its methods are proved against those functions. The module also
  holds the re-entrancy guard of `captureImage`, the decision to perspective-correct the
  still image, and the focus point-of-interest formula of `focusAt`.
- `EditBorder` — `EditBorderView`, with its four points A (bottom-left), B (bottom-right),
  C (top-right) and D (top-left). It also has four handles tagged 4, 3, 2, 1 (top-left,
  top-right, bottom-right, bottom-left), one shared touch offset and the `frameMoved` flag.
  `ClampToBounds` is the clamping of `pointMoved`, with its asymmetric y rule.
- `AspectFit` — `contentScale`, `contentSize` and `contentFrame` of the `UIImageView`
  extension: the aspect-fit scale, the scaled size, and the centred frame.

Coordinates are `real`. Euclidean distance (`hypotf`) cannot be computed without a square
root, so it is a parameter `dist: (Point, Point) -> real`. The maximality lemmas require it
to be non-negative. The rectangle detector is not modelled either: what it finds in an
image is an input sequence of `RectangleFeature` values.

Points where the code behaves differently from what a reader might expect; the model follows the code:

- Three held-feature frames (1.5) are needed for a valid confidence; two give exactly 1.0,
  which is not above 1.0.
- Confidence grows on every processed frame while a feature is held, not once per
  detection. Between timer ticks the same feature keeps adding 0.5 per frame
  (`HeldFramesAccumulate`).
- Assigning `cornerPoints` sets `frameMoved` to true. Only `resetFrame` clears it.
- A handle tag outside 1..4 is not an error. No point changes, but the sender's center
  still moves and `frameMoved` is still set.
- There is one touch offset shared by all handles, not one per corner.
- `captureImage` raises `capturing` and lowers it again before it returns, because the
  still-image request completes asynchronously. So between calls `capturing` is always
  false (`SobrCameraView.Valid`). Its guards in `captureImage` and in the frame handler are
  modelled, but no reachable state triggers them.
- The code has no flip/rotate/scale chain between detector and display coordinates. The
  only coordinate maps are the aspect-fit helpers and the focus point of interest, and
  those are what is modelled.

## Model

| member | source | states |
|---|---|---|
| `RectangleSelection.Scan` | SobrCameraView/SobrCameraView.swift:309-326 | after visiting n candidates the kept value is ≥ 0 and ≥ every visited half-perimeter, and is either the initial (0, 0.0) or the kept candidate's half-perimeter; every candidate before the kept one is strictly smaller (first maximum wins) |
| `RectangleSelection.BiggestIndex` | SobrCameraView/SobrCameraView.swift:309-327 | the chosen position is inside the list and strictly beats every earlier candidate |
| `RectangleSelection.Biggest` | SobrCameraView/SobrCameraView.swift:304-328 | nil exactly when the candidate list is empty, otherwise an element of the list |
| `RectangleSelection.BiggestRectangle` | SobrCameraView/SobrCameraView.swift:304-328 | the loop with its strict comparison from 0.0 returns exactly `Biggest` |
| `RectangleSelection.BiggestIsEarliestMaximum` | SobrCameraView/SobrCameraView.swift:311-326 | for a non-negative distance the chosen candidate has the largest half-perimeter and is the earliest one that has it |
| `RectangleSelection.EarliestMaximumIsBiggest` | SobrCameraView/SobrCameraView.swift:311-326 | conversely, any earliest maximum is the returned candidate, so the two definitions agree |
| `RectangleSelection.ScanIgnoresBottomRight` | SobrCameraView/SobrCameraView.swift:313-321 | the loop state does not depend on bottom-right corners |
| `RectangleSelection.BiggestIgnoresBottomRight` | SobrCameraView/SobrCameraView.swift:313-321 | changing only bottom-right corners never changes which candidate is chosen |
| `Camera.StepPreservesConsistent` | SobrCameraView/SobrCameraView.swift:384-397 | a timer tick or a processed frame keeps the confidence a non-negative multiple of 0.5, and 0 whenever no feature is held |
| `Camera.RunPreservesConsistent` | SobrCameraView/SobrCameraView.swift:384-397 | that invariant holds after any sequence of ticks and frames |
| `Camera.ValidHoldsFeature` | SobrCameraView/SobrCameraView.swift:349-351 | in a consistent state a valid confidence means a feature is held and the confidence is at least 1.5 |
| `Camera.HeldFramesAccumulate` | SobrCameraView/SobrCameraView.swift:385-396 | without a tick, each frame keeps the held feature and adds 0.5, whatever the detector would report |
| `Camera.SuccessfulCyclesAccumulate` | SobrCameraView/SobrCameraView.swift:384-397 | k tick-and-frame cycles that each find a candidate add 0.5·k, lower the flag and hold the biggest candidate of the last cycle |
| `Camera.MissedCycleResets` | SobrCameraView/SobrCameraView.swift:385-396 | a cycle whose detection finds nothing resets confidence to 0 and drops the feature |
| `Camera.ThreeCyclesAreValid` | SobrCameraView/SobrCameraView.swift:349-351 | from the initial state three successful cycles give 1.5, which is valid, holding the last cycle's biggest candidate |
| `Camera.TwoCyclesAreNotValid` | SobrCameraView/SobrCameraView.swift:349-351 | two successful cycles give exactly 1.0, which is not valid |
| `Camera.MissThenTwoCyclesAreNotValid` | SobrCameraView/SobrCameraView.swift:390-396 | a miss followed by two successful cycles leaves 1.0, which is not valid, from any state |
| `Camera.FocusPointOfInterest` | SobrCameraView/SobrCameraView.swift:176 | a point inside positive bounds maps into the unit square |
| `Camera.FocusPointRoundTrip` | SobrCameraView/SobrCameraView.swift:176 | the view point is recovered from its point of interest, so no two view points share one |
| `Camera.SobrCameraView.constructor` | SobrCameraView/SobrCameraView.swift:35-80 | detection enabled, not stopped, not capturing, confidence 0, flag down, no feature |
| `Camera.SobrCameraView.Start` | SobrCameraView/SobrCameraView.swift:151-156 | frames are no longer stopped |
| `Camera.SobrCameraView.Stop` | SobrCameraView/SobrCameraView.swift:161-166 | frames are stopped |
| `Camera.SobrCameraView.BackgroundMode` | SobrCameraView/SobrCameraView.swift:261-263 | force-stop is set |
| `Camera.SobrCameraView.ForegroundMode` | SobrCameraView/SobrCameraView.swift:267-269 | force-stop is cleared |
| `Camera.SobrCameraView.EnableBorderDetection` | SobrCameraView/SobrCameraView.swift:273-275 | a timer tick only raises the detect flag and keeps the invariant |
| `Camera.SobrCameraView.CaptureOutput` | SobrCameraView/SobrCameraView.swift:365-397 | a frame blocked by force-stop, stop, capturing, an invalid buffer or disabled detection changes nothing; otherwise the state becomes `Frame` of the old state; the overlay is the held feature; the invariant is kept |
| `Camera.SobrCameraView.CaptureImage` | SobrCameraView/SobrCameraView.swift:204-213 | a call while capturing starts nothing; otherwise it starts a capture; either way `capturing` ends as it began |
| `Camera.SobrCameraView.CaptureCompletion` | SobrCameraView/SobrCameraView.swift:239-252 | the still image is corrected exactly when detection is on, the confidence is valid and the detector found something, and then with the biggest candidate; the reported feature is the biggest candidate of the final image |
| `EditBorder.ClampToBounds` | SobrCameraView-Example/EditBorderView.swift:203-224 | a point inside the bounds is kept; outside, x goes into [2, w−2] (kept when already there), y below 2 is raised to 2, y above h becomes h−2, and y in [2, h] is kept; on a view at least 4 wide and high the result lies in the closed bounds |
| `EditBorder.ClampIsIdempotent` | SobrCameraView-Example/EditBorderView.swift:205-223 | clamping a clamped point changes nothing on a view at least 4 wide and high |
| `EditBorder.ClampCanLeavePointOnBottomEdge` | SobrCameraView-Example/EditBorderView.swift:216-223 | because of the asymmetric y rule, a point dragged to (−1, h) is stored at (2, h), outside the bounds |
| `EditBorder.GrabWithoutMovingKeepsHandle` | SobrCameraView-Example/EditBorderView.swift:196-205 | touching a handle inside the view and dragging without moving leaves it where it was |
| `EditBorder.Handle.constructor` | SobrCameraView-Example/EditBorderView.swift:157-158 | a handle carries its tag and starts at the origin |
| `EditBorder.EditBorderView.constructor` | SobrCameraView-Example/EditBorderView.swift:50-81 | no corners, not moved, zero offset, all points at the origin, the handles tagged 4, 3, 2, 1 and aligned with their points |
| `EditBorder.EditBorderView.AlignPoints` | SobrCameraView-Example/EditBorderView.swift:131-138 | A = bottom-left, B = bottom-right, C = top-right, D = top-left of the assigned corners; with no corners, nothing changes |
| `EditBorder.EditBorderView.AlignButtons` | SobrCameraView-Example/EditBorderView.swift:140-153 | every handle's center is its point (D top-left, C top-right, A bottom-left, B bottom-right) |
| `EditBorder.EditBorderView.NeedsRedraw` | SobrCameraView-Example/EditBorderView.swift:124-129 | the frame is marked moved and the handles are aligned |
| `EditBorder.EditBorderView.SetCornerPoints` | SobrCameraView-Example/EditBorderView.swift:41-47 | assigning corners stores them, makes them the editor's corners, marks the frame moved and aligns the handles |
| `EditBorder.EditBorderView.ResetFrame` | SobrCameraView-Example/EditBorderView.swift:116-122 | the editor's corners become the assigned ones again, the moved flag is cleared and the handles are aligned |
| `EditBorder.EditBorderView.PointMoveEnter` | SobrCameraView-Example/EditBorderView.swift:196-199 | the offset becomes the touch minus the handle's center |
| `EditBorder.EditBorderView.PointMoveExit` | SobrCameraView-Example/EditBorderView.swift:246-248 | the offset becomes zero |
| `EditBorder.EditBorderView.PointMoved` | SobrCameraView-Example/EditBorderView.swift:201-244 | the sender moves to the clamped touch-minus-offset, exactly the point its tag names (1 A, 2 B, 3 C, 4 D) follows, the other points do not change, the frame is marked moved; with a zero offset and a touch inside the view the handle lands on the touch; aligned handles stay aligned |
| `AspectFit.ContentScale` | SobrCameraView-Example/UIKitExtensions.swift:12-14 | the scale is the smaller of the width ratio and the height ratio |
| `AspectFit.ContentSize` | SobrCameraView-Example/UIKitExtensions.swift:16-20 | the scaled size fits the bounds, fills them exactly in at least one dimension and keeps the image's aspect ratio |
| `AspectFit.ContentFrame` | SobrCameraView-Example/UIKitExtensions.swift:22-24 | the frame has the content size, starts at a non-negative origin, lies within the bounds and leaves equal slack on both sides of each axis |

## Left out

- Camera session setup, torch, flash, focus and exposure configuration and device locking (SobrCameraView.swift:39-49, 104-146, 177-191): hardware I/O. Only the point-of-interest formula of `focusAt` is modelled.
- The Core Image work: the rectangle detector, the contrast and enhance filters, the overlay compositing and the perspective correction itself (SobrCameraView.swift:83, 296-302, 330-339, 353-359). These are calls into a library; detector results are inputs, and `CaptureCompletion` returns the feature the correction would use.
- GL rendering, `drawRect`, the handle images, fades and the blur shown on a filter change (SobrCameraView.swift:52-65, 277-294, 341-347, 399-403; EditBorderView.swift:83-114, 251-260): drawing only. The choice of `imageFilter` does not affect any modelled state.
- The asynchronous still-image completion, the main-queue delivery, the `NSTimer` and the notification observers (SobrCameraView.swift:90-98, 151-166, 228-254): events are explicit method calls. The completion is `CaptureCompletion`, which reads the state at the time it runs.
- Float rounding in `hypotf` and `fminf`, and CGFloat rounding in general: all arithmetic is exact over `real`.
- Camera.FocusPointOfInterest: requires non-zero bounds, where Swift would divide by zero and produce infinities.
- AspectFit.ContentScale, AspectFit.ContentSize, AspectFit.ContentFrame: require an image of positive size. A missing image (a crash on `image!`) and a zero-sized one (an infinite scale) are not modelled.
- EditBorder.EditBorderView: the bounds are fixed at construction, with their origin at (0, 0); later layout changes to the bounds are not modelled. A handle's frame size (50×50) is not modelled, only its center.
- The `debugPrint` calls of EditBorderView.swift:43, 239 write to the console only.
- `MainViewController.swift` and `ImageViewController.swift`: navigation glue. `transformRectangleFeature`, called at ImageViewController.swift:33, is not part of this model.
