/**
 * The live-detection state of SobrCameraView (SobrCameraView.swift): the timer that asks for
 * a detection, the per-frame confidence accumulator, the capture guard and the decision to
 * apply perspective correction, and the focus point-of-interest formula.
 */
module Camera {
  import opened Wrappers
  import opened Geometry
  import opened RectangleSelection

  /**
   * The fields the frame handler reads and writes: imageDetectionConfidence,
   * borderDetectFrame and borderDetectLastRectangleFeature.
   */
  datatype Tracker = Tracker(confidence: real, detectFrame: bool, last: Option<RectangleFeature>)

  /** The values these fields start with. */
  const Initial := Tracker(0.0, false, None)

  /** `detectionConfidenceValid`. */
  predicate ConfidenceValid(t: Tracker) {
    t.confidence > 1.0
  }

  /** `_enableBorderDetection`, run by the repeating timer: it only raises the flag. */
  function Tick(t: Tracker): Tracker {
    t.(detectFrame := true)
  }

  /**
   * One frame that reaches the border-detection block of `captureOutput`: when the flag is up,
   * the last feature becomes the biggest of the detector's candidates and the flag comes down;
   * then confidence grows by 0.5 while a feature is held and drops to 0 otherwise.
   */
  function Frame(t: Tracker, candidates: seq<RectangleFeature>, dist: Distance): Tracker {
    var detected := if t.detectFrame then t.(last := Biggest(candidates, dist), detectFrame := false) else t;
    if detected.last.Some? then detected.(confidence := detected.confidence + 0.5)
    else detected.(confidence := 0.0)
  }

  /** What happens to the detection state, in the order it happens. */
  datatype Event = TimerTick | ProcessedFrame(candidates: seq<RectangleFeature>)

  function Step(t: Tracker, e: Event, dist: Distance): Tracker {
    match e
    case TimerTick => Tick(t)
    case ProcessedFrame(candidates) => Frame(t, candidates, dist)
  }

  function Run(t: Tracker, events: seq<Event>, dist: Distance): Tracker
    decreases |events|
  {
    if |events| == 0 then t else Run(Step(t, events[0], dist), events[1..], dist)
  }

  /** One detection cycle: a timer tick, then a frame that runs the detector. */
  function Cycles(detections: seq<seq<RectangleFeature>>): (events: seq<Event>)
    ensures |events| == 2 * |detections|
  {
    if |detections| == 0 then []
    else [TimerTick, ProcessedFrame(detections[0])] + Cycles(detections[1..])
  }

  /** c is a non-negative multiple of 0.5. */
  ghost predicate IsHalfStep(c: real) {
    exists n: nat :: Halves(n) == c
  }

  function Halves(n: nat): real {
    0.5 * n as real
  }

  /** The invariant of the detection state: confidence counts half steps, and is 0 when no feature is held. */
  ghost predicate Consistent(t: Tracker) {
    IsHalfStep(t.confidence) && (t.last.None? ==> t.confidence == 0.0)
  }

  lemma StepPreservesConsistent(t: Tracker, e: Event, dist: Distance)
    requires Consistent(t)
    ensures Consistent(Step(t, e, dist))
  {
    var n: nat :| Halves(n) == t.confidence;
    var t' := Step(t, e, dist);
    if t'.confidence == t.confidence + 0.5 {
      assert Halves(n + 1) == t'.confidence;
    } else if t'.confidence == 0.0 {
      assert Halves(0) == t'.confidence;
    }
  }

  /** Every reachable detection state is consistent: confidence is always a non-negative multiple of 0.5. */
  lemma {:induction false} RunPreservesConsistent(t: Tracker, events: seq<Event>, dist: Distance)
    requires Consistent(t)
    ensures Consistent(Run(t, events, dist))
    decreases |events|
  {
    if |events| > 0 {
      StepPreservesConsistent(t, events[0], dist);
      RunPreservesConsistent(Step(t, events[0], dist), events[1..], dist);
    }
  }

  /** A valid confidence is never reached without a held feature. */
  lemma ValidHoldsFeature(t: Tracker)
    requires Consistent(t) && ConfidenceValid(t)
    ensures t.last.Some? && t.confidence >= 1.5
  {
    var n: nat :| Halves(n) == t.confidence;
    assert n >= 3;
  }

  lemma {:induction false} RunAppend(t: Tracker, a: seq<Event>, b: seq<Event>, dist: Distance)
    ensures Run(t, a + b, dist) == Run(Run(t, a, dist), b, dist)
    decreases |a|
  {
    if |a| > 0 {
      assert (a + b)[0] == a[0] && (a + b)[1..] == a[1..] + b;
      RunAppend(Step(t, a[0], dist), a[1..], b, dist);
    } else {
      assert a + b == b;
    }
  }

  /**
   * Confidence rises per frame, not per detection: while a feature is held and no tick has
   * come, each frame adds 0.5 and keeps the feature, whatever the detector would have found.
   */
  lemma {:induction false} HeldFramesAccumulate(t: Tracker, events: seq<Event>, dist: Distance)
    requires !t.detectFrame && t.last.Some?
    requires forall i :: 0 <= i < |events| ==> events[i].ProcessedFrame?
    ensures Run(t, events, dist) == t.(confidence := t.confidence + 0.5 * |events| as real)
    decreases |events|
  {
    if |events| > 0 {
      var t' := Step(t, events[0], dist);
      assert t' == t.(confidence := t.confidence + 0.5);
      HeldFramesAccumulate(t', events[1..], dist);
    }
  }

  /**
   * Detection cycles that each find at least one candidate add 0.5 apiece, and the last
   * feature is the biggest candidate of the latest cycle.
   */
  lemma {:induction false} SuccessfulCyclesAccumulate(t: Tracker, detections: seq<seq<RectangleFeature>>, dist: Distance)
    requires |detections| > 0
    requires forall i :: 0 <= i < |detections| ==> |detections[i]| > 0
    ensures Run(t, Cycles(detections), dist)
         == Tracker(t.confidence + 0.5 * |detections| as real, false, Biggest(detections[|detections| - 1], dist))
    decreases |detections|
  {
    var head := [TimerTick, ProcessedFrame(detections[0])];
    var t' := Run(t, head, dist);
    assert head[1..] == [ProcessedFrame(detections[0])];
    assert t' == Run(Tick(t), [ProcessedFrame(detections[0])], dist);
    assert [ProcessedFrame(detections[0])][1..] == [];
    assert t' == Run(Frame(Tick(t), detections[0], dist), [], dist);
    assert t' == Tracker(t.confidence + 0.5, false, Biggest(detections[0], dist));
    RunAppend(t, head, Cycles(detections[1..]), dist);
    if |detections| > 1 {
      SuccessfulCyclesAccumulate(t', detections[1..], dist);
    }
  }

  /** A cycle whose detection finds nothing resets the state, whatever it was. */
  lemma MissedCycleResets(t: Tracker, dist: Distance)
    ensures Run(t, Cycles([[]]), dist) == Tracker(0.0, false, None)
  {
    assert Cycles([[]]) == [TimerTick, ProcessedFrame([])];
  }

  /** From the initial state three successful cycles make the confidence valid (1.5) ... */
  lemma ThreeCyclesAreValid(c1: seq<RectangleFeature>, c2: seq<RectangleFeature>, c3: seq<RectangleFeature>, dist: Distance)
    requires |c1| > 0 && |c2| > 0 && |c3| > 0
    ensures var t := Run(Initial, Cycles([c1, c2, c3]), dist);
      ConfidenceValid(t) && t.confidence == 1.5 && t.last == Biggest(c3, dist)
  {
    SuccessfulCyclesAccumulate(Initial, [c1, c2, c3], dist);
  }

  /** ... but two (1.0) are not enough. */
  lemma TwoCyclesAreNotValid(c1: seq<RectangleFeature>, c2: seq<RectangleFeature>, dist: Distance)
    requires |c1| > 0 && |c2| > 0
    ensures var t := Run(Initial, Cycles([c1, c2]), dist);
      !ConfidenceValid(t) && t.confidence == 1.0
  {
    SuccessfulCyclesAccumulate(Initial, [c1, c2], dist);
  }

  /** A miss followed by two successful cycles leaves the confidence at 1.0: not valid. */
  lemma MissThenTwoCyclesAreNotValid(t: Tracker, c2: seq<RectangleFeature>, c3: seq<RectangleFeature>, dist: Distance)
    requires |c2| > 0 && |c3| > 0
    ensures var t' := Run(t, Cycles([[], c2, c3]), dist);
      !ConfidenceValid(t') && t'.confidence == 1.0
  {
    assert Cycles([[], c2, c3]) == Cycles([[]]) + Cycles([c2, c3]);
    RunAppend(t, Cycles([[]]), Cycles([c2, c3]), dist);
    MissedCycleResets(t, dist);
    SuccessfulCyclesAccumulate(Tracker(0.0, false, None), [c2, c3], dist);
  }

  /**
   * `focusAt`'s point of interest: the view point, rotated into the sensor's landscape
   * frame and scaled to the unit square.
   */
  function FocusPointOfInterest(point: Point, boundsWidth: real, boundsHeight: real): (poi: Point)
    requires boundsWidth != 0.0 && boundsHeight != 0.0
    ensures boundsWidth > 0.0 && boundsHeight > 0.0
         && 0.0 <= point.x <= boundsWidth && 0.0 <= point.y <= boundsHeight
        ==> 0.0 <= poi.x <= 1.0 && 0.0 <= poi.y <= 1.0
  {
    RatioInUnitInterval(point.y, boundsHeight);
    RatioInUnitInterval(point.x, boundsWidth);
    Point(point.y / boundsHeight, 1.0 - point.x / boundsWidth)
  }

  lemma RatioInUnitInterval(a: real, b: real)
    ensures 0.0 <= a <= b && b > 0.0 ==> 0.0 <= a / b <= 1.0
  {
    if 0.0 <= a <= b && b > 0.0 {
      assert (a / b) * b == a;
    }
  }

  /** The view point a point of interest stands for. */
  function ViewPointOf(poi: Point, boundsWidth: real, boundsHeight: real): Point {
    Point(boundsWidth * (1.0 - poi.y), boundsHeight * poi.x)
  }

  /** The point-of-interest map loses nothing: the view point can be recovered from it. */
  lemma FocusPointRoundTrip(point: Point, boundsWidth: real, boundsHeight: real)
    requires boundsWidth != 0.0 && boundsHeight != 0.0
    ensures ViewPointOf(FocusPointOfInterest(point, boundsWidth, boundsHeight), boundsWidth, boundsHeight) == point
  {
    var poi := FocusPointOfInterest(point, boundsWidth, boundsHeight);
    assert boundsWidth * (point.x / boundsWidth) == point.x;
    assert boundsHeight * (point.y / boundsHeight) == point.y;
  }

  /** The view's border-detection state. */
  class SobrCameraView {
    var borderDetectionEnabled: bool
    var forceStop: bool
    var stopped: bool
    var imageDetectionConfidence: real
    var borderDetectFrame: bool
    var borderDetectLastRectangleFeature: Option<RectangleFeature>
    var capturing: bool
    /** The distance `biggestRectangle` measures edges with. */
    const distance: Distance

    function DetectionState(): Tracker
      reads this
    {
      Tracker(imageDetectionConfidence, borderDetectFrame, borderDetectLastRectangleFeature)
    }

    /** Between calls the detection state is consistent and no capture is under way. */
    ghost predicate Valid()
      reads this
    {
      Consistent(DetectionState()) && !capturing
    }

    constructor (distance: Distance)
      ensures Valid() && DetectionState() == Initial
      ensures borderDetectionEnabled && !forceStop && !stopped && !capturing
      ensures this.distance == distance
    {
      borderDetectionEnabled := true;
      forceStop := false;
      stopped := false;
      imageDetectionConfidence := 0.0;
      borderDetectFrame := false;
      borderDetectLastRectangleFeature := None;
      capturing := false;
      this.distance := distance;
      new;
      assert Halves(0) == imageDetectionConfidence;
    }

    /** `start`: frames are processed again (the session and the timer are not modelled). */
    method Start()
      modifies this`stopped
      ensures !stopped
    {
      stopped := false;
    }

    /** `stop`. */
    method Stop()
      modifies this`stopped
      ensures stopped
    {
      stopped := true;
    }

    /** `_backgroundMode`. */
    method BackgroundMode()
      modifies this`forceStop
      ensures forceStop
    {
      forceStop := true;
    }

    /** `_foregroundMode`. */
    method ForegroundMode()
      modifies this`forceStop
      ensures !forceStop
    {
      forceStop := false;
    }

    /** `_enableBorderDetection`: the timer tick raises the detect flag and changes nothing else. */
    method EnableBorderDetection()
      modifies this`borderDetectFrame
      ensures DetectionState() == Tick(old(DetectionState()))
      ensures old(Valid()) ==> Valid()
    {
      borderDetectFrame := true;
    }

    /** `detectionConfidenceValid`. */
    predicate DetectionConfidenceValid()
      reads this
    {
      ConfidenceValid(DetectionState())
    }

    /** Whether `captureOutput` gets past its guards for a buffer of the given validity. */
    predicate ProcessesFrame(sampleBufferValid: bool)
      reads this
    {
      !forceStop && !(stopped || capturing || !sampleBufferValid)
    }

    /**
     * `captureOutput`: `detected` is what the rectangle detector finds in the frame (it is
     * consulted only when the detect flag is up); the result is the feature drawn as overlay.
     */
    method CaptureOutput(sampleBufferValid: bool, detected: seq<RectangleFeature>) returns (overlay: Option<RectangleFeature>)
      modifies this`imageDetectionConfidence, this`borderDetectFrame, this`borderDetectLastRectangleFeature
      ensures DetectionState()
           == if ProcessesFrame(sampleBufferValid) && borderDetectionEnabled
              then Frame(old(DetectionState()), detected, distance)
              else old(DetectionState())
      ensures overlay
           == if ProcessesFrame(sampleBufferValid) && borderDetectionEnabled then DetectionState().last else None
      ensures old(Valid()) ==> Valid()
    {
      overlay := None;
      if forceStop {
        return;
      }
      if stopped || capturing || !sampleBufferValid {
        return;
      }
      if borderDetectionEnabled {
        ghost var before := DetectionState();
        if borderDetectFrame {
          borderDetectLastRectangleFeature := BiggestRectangle(detected, distance);
          borderDetectFrame := false;
        }
        if borderDetectLastRectangleFeature.Some? {
          imageDetectionConfidence := imageDetectionConfidence + 0.5;
          overlay := borderDetectLastRectangleFeature;
        } else {
          imageDetectionConfidence := 0.0;
        }
        if Consistent(before) {
          StepPreservesConsistent(before, ProcessedFrame(detected), distance);
        }
      }
    }

    /**
     * `captureImage`, apart from its asynchronous completion: a call while `capturing` is
     * set does nothing; otherwise the flag is raised, the still-image request is handed off,
     * and the flag is lowered again before the call returns.
     */
    method CaptureImage() returns (started: bool)
      modifies this`capturing
      ensures started == !old(capturing)
      ensures capturing == old(capturing)
      ensures old(Valid()) ==> Valid() && started
    {
      if capturing {
        return false;
      }
      capturing := true;
      started := true;
      capturing := false;
    }

    /**
     * The decisions of the still-image completion handler: the feature the image is
     * perspective-corrected with (only when detection is on and the confidence valid), and
     * the feature reported to the caller. `stillDetected` is what the detector finds in the
     * filtered still image, `finalDetected` what it finds in the image finally produced.
     */
    method CaptureCompletion(stillDetected: seq<RectangleFeature>, finalDetected: seq<RectangleFeature>)
      returns (correction: Option<RectangleFeature>, reported: Option<RectangleFeature>)
      ensures correction.Some? <==> borderDetectionEnabled && DetectionConfidenceValid() && |stillDetected| > 0
      ensures correction.Some? ==> correction == Biggest(stillDetected, distance)
      ensures reported == Biggest(finalDetected, distance)
    {
      correction := None;
      if borderDetectionEnabled && DetectionConfidenceValid() {
        correction := BiggestRectangle(stillDetected, distance);
      }
      reported := BiggestRectangle(finalDetected, distance);
    }
  }
}
