/** The rectangle-stabilisation engine of the scanner: the five corner gates,
    the per-frame refresh as a pure function of the engine state, and the
    scanner object whose methods update that state in place. */
module Scanner {
  import opened FloatModel
  import opened CSPoints
  import opened CGRects
  import opened CSRectangles

  /** Half-width of the accepted aspect-ratio band around the target ratio. */
  const RatioTolerance: real := 0.2
  /** Largest accepted per-frame displacement, in percent of the frame's extent. */
  const MovementError: real := 10.0
  /** Horizontal jump, in points, above which a movement rejection costs progress. */
  const PenaltyThreshold: real := 17.0
  /** Progress lost on such a jump. */
  const PenaltyStep: int := 2
  /** Smallest accepted share of the frame covered by the document, in percent. */
  const MinOccupation: real := 60.0
  /** Largest accepted excess of the first angle of a side over the second. */
  const AngleError: real := 10.0

  /** What the engine fixes at construction. */
  datatype EngineConfig = EngineConfig(minRatio: real, maxRatio: real, frame: CGRect)

  /** What the engine changes from frame to frame. */
  datatype EngineState = EngineState(rectangle: CSRectangle, progress: int)

  /** The quadrant of the frame a corner of role t must lie in. */
  function ZoneFor(frame: CGRect, t: CSPointType): CGRect
  {
    match t
    case TopLeft => frame.TopLeftZone()
    case TopRight => frame.TopRightZone()
    case BottomLeft => frame.BottomLeftZone()
    case BottomRight => frame.BottomRightZone()
  }

  /** Frame-level check: the whole candidate is discarded when its ratio is
      above the band or below it. The endpoints are kept, and so is NaN. */
  predicate FrameRatioRejects(cfg: EngineConfig, q: FloatValue)
  {
    Greater(q, cfg.maxRatio) || Less(q, cfg.minRatio)
  }

  /** Corner-level check: the ratio must lie strictly inside the band. */
  predicate RatioInOpenBand(cfg: EngineConfig, q: FloatValue)
  {
    Greater(q, cfg.minRatio) && Less(q, cfg.maxRatio)
  }

  /** Gate 1, `passPointsPosition`: the candidate lies in its role's zone. */
  predicate PassPointsPosition(frame: CGRect, actual: CSPoint)
  {
    IsInside(actual.point, ZoneFor(frame, actual.pointType))
  }

  /** Gate 2, `passRatio`: the tracked rectangle with this one corner replaced
      has a ratio strictly inside the band. */
  predicate PassRatio(cfg: EngineConfig, tracked: CSRectangle, actual: CSPoint)
  {
    RatioInOpenBand(cfg, CalculateRatio(Replacing(tracked, actual)))
  }

  /** Gate 3, `passAbsoluteMovement`: neither the horizontal nor the vertical
      displacement, as a percentage of the frame's width or height, exceeds
      MovementError. */
  predicate PassAbsoluteMovement(frame: CGRect, previous: CSPoint, actual: CSPoint)
  {
    var xMovement := Abs(previous.point.x - actual.point.x);
    var yMovement := Abs(previous.point.y - actual.point.y);
    var xPercentage := Scale(Divide(xMovement, frame.Width()), 100.0);
    var yPercentage := Scale(Divide(yMovement, frame.Height()), 100.0);
    !Greater(xPercentage, MovementError) && !Greater(yPercentage, MovementError)
  }

  /** Gate 4, `passDocumentSize`: the tracked rectangle with this corner
      replaced covers at least MinOccupation percent of the frame. */
  predicate PassDocumentSize(frame: CGRect, tracked: CSRectangle, actual: CSPoint)
  {
    var occupation := Scale(Divide(Size(Replacing(tracked, actual)), frame.Size()), 100.0);
    !Less(occupation, MinOccupation)
  }

  /** Gate 5, `passAnglesRules`: on the side the corner belongs to, the first
      angle does not exceed the second by more than AngleError. */
  predicate PassAnglesRules(tracked: CSRectangle, actual: CSPoint)
  {
    var newRectangle := Replacing(tracked, actual);
    var angles := match actual.pointType
      case TopLeft => CalculateTopAngles(newRectangle)
      case TopRight => CalculateTopAngles(newRectangle)
      case BottomLeft => CalculateBottomAngles(newRectangle)
      case BottomRight => CalculateBottomAngles(newRectangle);
    !(angles.0 - angles.1 > AngleError)
  }

  datatype Gate = ZoneGate | RatioGate | MovementGate | SizeGate | AngleGate

  datatype Verdict = Accepted | Rejected(gate: Gate)

  /** The outcome of `shouldRefreshPoint`'s gates, checked in order and
      stopping at the first that fails. */
  function GateVerdict(cfg: EngineConfig, tracked: CSRectangle, previous: CSPoint, actual: CSPoint): Verdict
  {
    if !PassPointsPosition(cfg.frame, actual) then Rejected(ZoneGate)
    else if !PassRatio(cfg, tracked, actual) then Rejected(RatioGate)
    else if !PassAbsoluteMovement(cfg.frame, previous, actual) then Rejected(MovementGate)
    else if !PassDocumentSize(cfg.frame, tracked, actual) then Rejected(SizeGate)
    else if !PassAnglesRules(tracked, actual) then Rejected(AngleGate)
    else Accepted
  }

  /** The movement penalty: a positive progress drops by PenaltyStep, with no
      floor; any other progress is left as it is. */
  function Penalised(progress: int): (p: int)
    ensures p <= progress && progress - p in {0, PenaltyStep}
    ensures p < progress <==> progress > 0
    ensures progress >= -1 ==> p >= -1
  {
    if progress > 0 then progress - PenaltyStep else progress
  }

  /** A movement rejection costs progress when the horizontal jump exceeds
      PenaltyThreshold. */
  predicate IsPenalised(verdict: Verdict, previous: CSPoint, actual: CSPoint)
  {
    verdict == Rejected(MovementGate) && Abs(previous.point.x - actual.point.x) > PenaltyThreshold
  }

  /** One corner's refresh: `detectedRectangle.<slot>.point =
      shouldRefreshPoint(previous: detectedRectangle.<slot>, actual: actual)`. */
  function RefreshCorner(cfg: EngineConfig, s: EngineState, slot: CSPointType, actual: CSPoint): (r: EngineState)
    ensures forall k :: k != slot ==> Corner(r.rectangle, k) == Corner(s.rectangle, k)
    ensures Corner(r.rectangle, slot).pointType == Corner(s.rectangle, slot).pointType
    ensures Corner(r.rectangle, slot).point ==
              if GateVerdict(cfg, s.rectangle, Corner(s.rectangle, slot), actual) == Accepted
              then actual.point else Corner(s.rectangle, slot).point
    ensures r.progress != s.progress <==>
              IsPenalised(GateVerdict(cfg, s.rectangle, Corner(s.rectangle, slot), actual), Corner(s.rectangle, slot), actual)
              && s.progress > 0
    ensures r.progress != s.progress ==> r.progress == s.progress - PenaltyStep
  {
    var previous := Corner(s.rectangle, slot);
    var verdict := GateVerdict(cfg, s.rectangle, previous, actual);
    var point := if verdict == Accepted then actual.point else previous.point;
    var progress := if IsPenalised(verdict, previous, actual) then Penalised(s.progress) else s.progress;
    EngineState(WithCornerPoint(s.rectangle, slot, point), progress)
  }

  /** `refreshDocumentAreaPoints`: count the frame, run the frame-level ratio
      check, then refresh the corners in the order top-left, top-right,
      bottom-left, bottom-right, each judged against the rectangle as already
      updated by the corners before it. */
  function Refresh(cfg: EngineConfig, s: EngineState, candidate: CSRectangle): EngineState
  {
    var counted := EngineState(s.rectangle, s.progress + 1);
    if FrameRatioRejects(cfg, CalculateRatio(candidate)) then counted
    else
      var afterTopLeft := RefreshCorner(cfg, counted, TopLeft, candidate.topLeft);
      var afterTopRight := RefreshCorner(cfg, afterTopLeft, TopRight, candidate.topRight);
      var afterBottomLeft := RefreshCorner(cfg, afterTopRight, BottomLeft, candidate.bottomLeft);
      RefreshCorner(cfg, afterBottomLeft, BottomRight, candidate.bottomRight)
  }

  /** `performRectangleDetection`'s loop: every detected feature, in list
      order, goes through Refresh. */
  function RefreshAll(cfg: EngineConfig, s: EngineState, features: seq<RectangleFeature>): EngineState
    decreases |features|
  {
    if features == [] then s
    else Refresh(cfg, RefreshAll(cfg, s, features[..|features| - 1]), FromFeature(features[|features| - 1]))
  }

  datatype CSImageFilter = Contrast | NoFilter
  datatype CSImageOrientation = Vertical | Horizontal

  /** The crop a capture hands to the imaging collaborator. */
  datatype CropRequest = CropRequest(rectangle: CSRectangle, withColorContrast: bool, orientation: CSImageOrientation)

  class CoverfyScanner {
    var captureProgress: int
    var isBlackFilterActivated: bool
    var detectedRectangle: CSRectangle
    const ratio: real
    const minRatio: real
    const maxRatio: real
    const superViewFrame: CGRect

    /** Every slot of the tracked rectangle keeps its own role. In the source
        this needs no check: a point's role is a `let`, so a slot's role is
        fixed once the rectangle is built. Here it is stated so that each
        method's contract shows the object keeps it. */
    ghost predicate Valid()
      reads this
    {
      WellTagged(detectedRectangle)
    }

    function Config(): EngineConfig
    {
      EngineConfig(minRatio, maxRatio, superViewFrame)
    }

    function State(): EngineState
      reads this
    {
      EngineState(detectedRectangle, captureProgress)
    }

    /** The ratio band is fixed here, around the caller's target ratio. */
    constructor (superViewFrame: CGRect, ratio: real)
      ensures Valid()
      ensures this.superViewFrame == superViewFrame && this.ratio == ratio
      ensures minRatio == ratio - RatioTolerance && maxRatio == ratio + RatioTolerance
      ensures detectedRectangle == Zero() && captureProgress == 0 && !isBlackFilterActivated
    {
      this.superViewFrame := superViewFrame;
      this.ratio := ratio;
      minRatio := ratio - RatioTolerance;
      maxRatio := ratio + RatioTolerance;
      detectedRectangle := Zero();
      captureProgress := 0;
      isBlackFilterActivated := false;
    }

    /** Assigning `isBlackFilterActivated` resets the progress, even when the
        value does not change. */
    method SetBlackFilterActivated(on: bool)
      requires Valid()
      modifies this`isBlackFilterActivated, this`captureProgress
      ensures Valid()
      ensures isBlackFilterActivated == on && captureProgress == 0
      ensures detectedRectangle == old(detectedRectangle)
    {
      isBlackFilterActivated := on;
      captureProgress := 0;
    }

    /** `captureImage(withFilter:andOrientation:)`: crops with the tracked
        rectangle, contrast-filtered or not, then resets the progress. */
    method CaptureImage(filter: CSImageFilter, orientation: CSImageOrientation) returns (request: CropRequest)
      requires Valid()
      modifies this`captureProgress
      ensures Valid()
      ensures request == CropRequest(old(detectedRectangle), filter == Contrast, orientation)
      ensures captureProgress == 0 && detectedRectangle == old(detectedRectangle)
    {
      match filter {
        case Contrast =>
          request := CropRequest(detectedRectangle, true, orientation);
        case NoFilter =>
          request := CropRequest(detectedRectangle, false, orientation);
      }
      captureProgress := 0;
    }

    /** `captureImage(withOrientation:)`: crops without a filter, then resets
        the progress. */
    method CaptureImageWithOrientation(orientation: CSImageOrientation) returns (request: CropRequest)
      requires Valid()
      modifies this`captureProgress
      ensures Valid()
      ensures request == CropRequest(old(detectedRectangle), false, orientation)
      ensures captureProgress == 0 && detectedRectangle == old(detectedRectangle)
    {
      request := CropRequest(detectedRectangle, false, orientation);
      captureProgress := 0;
    }

    /** `shouldRefreshPoint`: the gates in order, stopping at the first that
        fails; only a movement rejection may touch the progress. */
    method ShouldRefreshPoint(previous: CSPoint, actual: CSPoint) returns (p: CGPoint)
      requires Valid()
      modifies this`captureProgress
      ensures Valid()
      ensures p == if GateVerdict(Config(), detectedRectangle, previous, actual) == Accepted
                   then actual.point else previous.point
      ensures captureProgress ==
                if IsPenalised(GateVerdict(Config(), detectedRectangle, previous, actual), previous, actual)
                then Penalised(old(captureProgress)) else old(captureProgress)
    {
      if !PassPointsPosition(superViewFrame, actual) {
        return previous.point;
      }
      if !PassRatio(Config(), detectedRectangle, actual) {
        return previous.point;
      }
      if !PassAbsoluteMovement(superViewFrame, previous, actual) {
        if Abs(previous.point.x - actual.point.x) > PenaltyThreshold {
          captureProgress := Penalised(captureProgress);
        }
        return previous.point;
      }
      if !PassDocumentSize(superViewFrame, detectedRectangle, actual) {
        return previous.point;
      }
      if !PassAnglesRules(detectedRectangle, actual) {
        return previous.point;
      }
      return actual.point;
    }

    /** `refreshDocumentAreaPoints`. */
    method RefreshDocumentAreaPoints(rectangle: CSRectangle)
      requires Valid()
      modifies this`detectedRectangle, this`captureProgress
      ensures Valid()
      ensures State() == Refresh(Config(), old(State()), rectangle)
    {
      var ratio := CalculateRatio(rectangle);
      captureProgress := captureProgress + 1;
      if FrameRatioRejects(Config(), ratio) {
        return;
      }
      var p := ShouldRefreshPoint(detectedRectangle.topLeft, rectangle.topLeft);
      detectedRectangle := detectedRectangle.(topLeft := WithPoint(detectedRectangle.topLeft, p));
      p := ShouldRefreshPoint(detectedRectangle.topRight, rectangle.topRight);
      detectedRectangle := detectedRectangle.(topRight := WithPoint(detectedRectangle.topRight, p));
      p := ShouldRefreshPoint(detectedRectangle.bottomLeft, rectangle.bottomLeft);
      detectedRectangle := detectedRectangle.(bottomLeft := WithPoint(detectedRectangle.bottomLeft, p));
      p := ShouldRefreshPoint(detectedRectangle.bottomRight, rectangle.bottomRight);
      detectedRectangle := detectedRectangle.(bottomRight := WithPoint(detectedRectangle.bottomRight, p));
    }

    /** `performRectangleDetection`: the detector's features, in list order,
        each turned into a rectangle and fed to the engine. */
    method PerformRectangleDetection(features: seq<RectangleFeature>)
      requires Valid()
      modifies this`detectedRectangle, this`captureProgress
      ensures Valid()
      ensures State() == RefreshAll(Config(), old(State()), features)
    {
      var i := 0;
      while i < |features|
        invariant 0 <= i <= |features|
        invariant Valid()
        invariant State() == RefreshAll(Config(), old(State()), features[..i])
      {
        var rectangle := FromFeature(features[i]);
        RefreshDocumentAreaPoints(rectangle);
        assert features[..i + 1][..i] == features[..i];
        i := i + 1;
      }
      assert features[..|features|] == features;
    }
  }
}
