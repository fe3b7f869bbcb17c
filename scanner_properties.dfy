/** What the stabilisation engine guarantees, proved about the pure model of
    one frame (Refresh) and of a run of frames (RefreshAll). */
module ScannerProperties {
  import opened FloatModel
  import opened CSPoints
  import opened CGRects
  import opened CSRectangles
  import opened Scanner

  // ---------------------------------------------------------------- the gates

  /** The frame check rejects an infinity or a finite ratio outside the closed
      band; the corner check accepts only a finite ratio inside the open band.
      So the band's endpoints pass the first and fail the second, and NaN
      passes the first and fails the second. */
  lemma RatioChecks(cfg: EngineConfig, q: FloatValue)
    ensures FrameRatioRejects(cfg, q) <==>
              q.PosInfinity? || q.NegInfinity? || (q.Finite? && (q.value > cfg.maxRatio || q.value < cfg.minRatio))
    ensures RatioInOpenBand(cfg, q) <==> q.Finite? && cfg.minRatio < q.value < cfg.maxRatio
    ensures RatioInOpenBand(cfg, q) ==> !FrameRatioRejects(cfg, q)
    ensures !FrameRatioRejects(cfg, NaN) && !RatioInOpenBand(cfg, NaN)
    ensures cfg.minRatio <= cfg.maxRatio ==>
              && !FrameRatioRejects(cfg, Finite(cfg.minRatio)) && !RatioInOpenBand(cfg, Finite(cfg.minRatio))
              && !FrameRatioRejects(cfg, Finite(cfg.maxRatio)) && !RatioInOpenBand(cfg, Finite(cfg.maxRatio))
  {
  }

  /** The zone gate accepts exactly the points of [0, W) x [0, H) on the
      role's side of the two half lines. */
  lemma PointsPositionIff(frame: CGRect, actual: CSPoint)
    ensures PassPointsPosition(frame, actual) <==>
              && InZoneBox(frame, actual.point)
              && (actual.point.x < frame.Width() / 2.0 <==> actual.pointType in {TopLeft, BottomLeft})
              && (actual.point.y < frame.Height() / 2.0 <==> actual.pointType in {TopLeft, TopRight})
  {
    ZoneMembership(frame, actual.point);
  }

  /** One coordinate's share of the movement gate: the percentage exceeds
      MovementError exactly when ten times the displacement exceeds the
      extent, a zero extent included (there any displacement is an infinity,
      and none is NaN, which does not exceed). */
  lemma MovementPercentageExceeds(movement: real, extent: real)
    requires movement >= 0.0 && extent >= 0.0
    ensures Greater(Scale(Divide(movement, extent), 100.0), MovementError) <==> movement * 10.0 > extent
  {
    var q := Divide(movement, extent);
    assert Greater(Scale(q, 100.0), 0.1 * 100.0) <==> Greater(q, 0.1);
    if extent > 0.0 {
      QuotientCompare(movement, extent, 0.1);
    }
  }

  /** The movement gate passes iff the candidate moved at most a tenth of the
      frame's width horizontally and a tenth of its height vertically. */
  lemma MovementGateIff(frame: CGRect, previous: CSPoint, actual: CSPoint)
    ensures PassAbsoluteMovement(frame, previous, actual) <==>
              && Abs(previous.point.x - actual.point.x) * 10.0 <= frame.Width()
              && Abs(previous.point.y - actual.point.y) * 10.0 <= frame.Height()
  {
    MovementPercentageExceeds(Abs(previous.point.x - actual.point.x), frame.Width());
    MovementPercentageExceeds(Abs(previous.point.y - actual.point.y), frame.Height());
  }

  /** The size gate passes iff the hypothetical rectangle covers at least
      three fifths of the frame; on a frame of size zero the quotient is an
      infinity or NaN and the gate always passes. */
  lemma DocumentSizeGateIff(frame: CGRect, tracked: CSRectangle, actual: CSPoint)
    ensures PassDocumentSize(frame, tracked, actual) <==>
              5.0 * Size(Replacing(tracked, actual)) >= 3.0 * frame.Size()
    ensures frame.Size() == 0.0 ==> PassDocumentSize(frame, tracked, actual)
  {
    var q := Divide(Size(Replacing(tracked, actual)), frame.Size());
    assert Less(Scale(q, 100.0), 0.6 * 100.0) <==> Less(q, 0.6);
    if frame.Size() > 0.0 {
      QuotientCompare(Size(Replacing(tracked, actual)), frame.Size(), 0.6);
    }
  }

  /** The gates are checked in the order zone, ratio, movement, size,
      angles, and the verdict names the first that fails: a later gate is
      consulted only when every earlier one passed. */
  lemma GateVerdictShortCircuits(cfg: EngineConfig, tracked: CSRectangle, previous: CSPoint, actual: CSPoint)
    ensures GateVerdict(cfg, tracked, previous, actual) == Accepted <==>
              && PassPointsPosition(cfg.frame, actual)
              && PassRatio(cfg, tracked, actual)
              && PassAbsoluteMovement(cfg.frame, previous, actual)
              && PassDocumentSize(cfg.frame, tracked, actual)
              && PassAnglesRules(tracked, actual)
    ensures GateVerdict(cfg, tracked, previous, actual) == Rejected(ZoneGate) <==> !PassPointsPosition(cfg.frame, actual)
    ensures GateVerdict(cfg, tracked, previous, actual) == Rejected(RatioGate) <==>
              PassPointsPosition(cfg.frame, actual) && !PassRatio(cfg, tracked, actual)
    ensures GateVerdict(cfg, tracked, previous, actual) == Rejected(MovementGate) <==>
              && PassPointsPosition(cfg.frame, actual) && PassRatio(cfg, tracked, actual)
              && !PassAbsoluteMovement(cfg.frame, previous, actual)
    ensures GateVerdict(cfg, tracked, previous, actual) == Rejected(SizeGate) <==>
              && PassPointsPosition(cfg.frame, actual) && PassRatio(cfg, tracked, actual)
              && PassAbsoluteMovement(cfg.frame, previous, actual)
              && !PassDocumentSize(cfg.frame, tracked, actual)
    ensures GateVerdict(cfg, tracked, previous, actual) == Rejected(AngleGate) <==>
              && PassPointsPosition(cfg.frame, actual) && PassRatio(cfg, tracked, actual)
              && PassAbsoluteMovement(cfg.frame, previous, actual)
              && PassDocumentSize(cfg.frame, tracked, actual)
              && !PassAnglesRules(tracked, actual)
  {
  }

  /** With the angle stubs the angle gate never rejects. */
  lemma AngleGateNeverRejects(tracked: CSRectangle, actual: CSPoint)
    ensures PassAnglesRules(tracked, actual)
  {
  }

  // ---------------------------------------------------------------- one corner

  /** A rejected candidate leaves the tracked rectangle as it was, and unless
      the movement gate rejected it, the progress too. */
  lemma RejectedCornerIsKept(cfg: EngineConfig, s: EngineState, slot: CSPointType, actual: CSPoint)
    requires GateVerdict(cfg, s.rectangle, Corner(s.rectangle, slot), actual) != Accepted
    ensures RefreshCorner(cfg, s, slot, actual).rectangle == s.rectangle
    ensures GateVerdict(cfg, s.rectangle, Corner(s.rectangle, slot), actual) != Rejected(MovementGate) ==>
              RefreshCorner(cfg, s, slot, actual) == s
  {
    WithCornerPointSame(s.rectangle, slot);
  }

  /** A candidate corner at the tracked corner's own coordinate changes
      nothing: whichever point is kept is the same, and the jump is zero. */
  lemma SamePointIsNoOp(cfg: EngineConfig, s: EngineState, slot: CSPointType, actual: CSPoint)
    requires actual.point == Corner(s.rectangle, slot).point
    ensures RefreshCorner(cfg, s, slot, actual) == s
  {
    WithCornerPointSame(s.rectangle, slot);
  }

  /** One corner moves the progress by 0 or by -2, nothing else. */
  lemma CornerProgressStep(cfg: EngineConfig, s: EngineState, slot: CSPointType, actual: CSPoint)
    ensures RefreshCorner(cfg, s, slot, actual).progress in {s.progress, s.progress - 2}
  {
  }

  // ---------------------------------------------------------------- one frame

  /** Every frame adds exactly 1 to the progress before anything else; only
      the per-corner movement penalties, 2 each and at most four, take
      anything away. A frame the frame check discards changes nothing
      but the count. */
  lemma RefreshCountsFrame(cfg: EngineConfig, s: EngineState, candidate: CSRectangle)
    ensures Refresh(cfg, s, candidate).progress in
              {s.progress + 1, s.progress - 1, s.progress - 3, s.progress - 5, s.progress - 7}
    ensures FrameRatioRejects(cfg, CalculateRatio(candidate)) ==>
              Refresh(cfg, s, candidate) == EngineState(s.rectangle, s.progress + 1)
  {
    var counted := EngineState(s.rectangle, s.progress + 1);
    if !FrameRatioRejects(cfg, CalculateRatio(candidate)) {
      var s1 := RefreshCorner(cfg, counted, TopLeft, candidate.topLeft);
      var s2 := RefreshCorner(cfg, s1, TopRight, candidate.topRight);
      var s3 := RefreshCorner(cfg, s2, BottomLeft, candidate.bottomLeft);
      var s4 := RefreshCorner(cfg, s3, BottomRight, candidate.bottomRight);
      assert Refresh(cfg, s, candidate) == s4;
      CornerProgressStep(cfg, counted, TopLeft, candidate.topLeft);
      CornerProgressStep(cfg, s1, TopRight, candidate.topRight);
      CornerProgressStep(cfg, s2, BottomLeft, candidate.bottomLeft);
      CornerProgressStep(cfg, s3, BottomRight, candidate.bottomRight);
    }
  }

  /** No slot of the tracked rectangle changes role, and every slot ends
      either where it was or at the candidate's point for that slot. */
  lemma RefreshKeepsRolesAndInventsNothing(cfg: EngineConfig, s: EngineState, candidate: CSRectangle)
    ensures forall k :: Corner(Refresh(cfg, s, candidate).rectangle, k).pointType == Corner(s.rectangle, k).pointType
    ensures forall k ::
              || Corner(Refresh(cfg, s, candidate).rectangle, k).point == Corner(s.rectangle, k).point
              || Corner(Refresh(cfg, s, candidate).rectangle, k).point == Corner(candidate, k).point
  {
    var counted := EngineState(s.rectangle, s.progress + 1);
    if !FrameRatioRejects(cfg, CalculateRatio(candidate)) {
      var s1 := RefreshCorner(cfg, counted, TopLeft, candidate.topLeft);
      var s2 := RefreshCorner(cfg, s1, TopRight, candidate.topRight);
      var s3 := RefreshCorner(cfg, s2, BottomLeft, candidate.bottomLeft);
      var s4 := RefreshCorner(cfg, s3, BottomRight, candidate.bottomRight);
      assert Refresh(cfg, s, candidate) == s4;
      forall k: CSPointType
        ensures Corner(s4.rectangle, k).pointType == Corner(s.rectangle, k).pointType
        ensures Corner(s4.rectangle, k).point == Corner(s.rectangle, k).point
                || Corner(s4.rectangle, k).point == Corner(candidate, k).point
      {
        match k {
          case TopLeft =>
          case TopRight =>
          case BottomLeft =>
          case BottomRight =>
        }
      }
    }
  }

  /** The tracked rectangle keeps its tags. */
  lemma RefreshKeepsWellTagged(cfg: EngineConfig, s: EngineState, candidate: CSRectangle)
    requires WellTagged(s.rectangle)
    ensures WellTagged(Refresh(cfg, s, candidate).rectangle)
  {
    RefreshKeepsRolesAndInventsNothing(cfg, s, candidate);
    var r := Refresh(cfg, s, candidate).rectangle;
    assert Corner(r, TopLeft).pointType == TopLeft;
    assert Corner(r, TopRight).pointType == TopRight;
    assert Corner(r, BottomLeft).pointType == BottomLeft;
    assert Corner(r, BottomRight).pointType == BottomRight;
  }

  /** A candidate whose corners sit exactly on the tracked ones leaves the
      rectangle unchanged and only counts the frame; so feeding back a fully
      accepted candidate is stable. */
  lemma IdenticalCandidateIsStable(cfg: EngineConfig, s: EngineState, candidate: CSRectangle)
    requires forall k :: Corner(candidate, k).point == Corner(s.rectangle, k).point
    ensures Refresh(cfg, s, candidate) == EngineState(s.rectangle, s.progress + 1)
  {
    var counted := EngineState(s.rectangle, s.progress + 1);
    if !FrameRatioRejects(cfg, CalculateRatio(candidate)) {
      assert Corner(candidate, TopLeft).point == Corner(s.rectangle, TopLeft).point;
      assert Corner(candidate, TopRight).point == Corner(s.rectangle, TopRight).point;
      assert Corner(candidate, BottomLeft).point == Corner(s.rectangle, BottomLeft).point;
      assert Corner(candidate, BottomRight).point == Corner(s.rectangle, BottomRight).point;
      SamePointIsNoOp(cfg, counted, TopLeft, candidate.topLeft);
      SamePointIsNoOp(cfg, counted, TopRight, candidate.topRight);
      SamePointIsNoOp(cfg, counted, BottomLeft, candidate.bottomLeft);
      SamePointIsNoOp(cfg, counted, BottomRight, candidate.bottomRight);
    }
  }

  /** The penalty has no floor, but from a progress of at least -1 one frame
      cannot take it below -1: a penalty fires only on a positive value. */
  lemma ProgressNeverBelowMinusOne(cfg: EngineConfig, s: EngineState, candidate: CSRectangle)
    requires s.progress >= -1
    ensures Refresh(cfg, s, candidate).progress >= -1
  {
  }

  /** The penalty has no floor: a progress of 1 becomes -1, the lowest value
      a penalty can reach from a non-negative progress. */
  lemma PenaltyHasNoFloor()
    ensures Penalised(1) == -1
    ensures forall progress :: progress >= 0 ==> Penalised(progress) >= -1
  {
  }

  /** -1 is reached: from progress 0, a frame whose top-left corner jumps
      300 points to the right gains 1 and then loses 2. */
  lemma ProgressCanReachMinusOne()
    ensures
      var cfg := EngineConfig(1.2, 1.6, CGRect(0.0, 0.0, 1000.0, 1000.0));
      var tracked := FromCorners(CGPoint(0.0, 0.0), CGPoint(0.0, 140.0), CGPoint(0.0, 0.0), CGPoint(100.0, 0.0));
      var candidate := FromCorners(CGPoint(300.0, 0.0), CGPoint(0.0, 140.0), CGPoint(0.0, 0.0), CGPoint(100.0, 0.0));
      Refresh(cfg, EngineState(tracked, 0), candidate) == EngineState(tracked, -1)
  {
    var cfg := EngineConfig(1.2, 1.6, CGRect(0.0, 0.0, 1000.0, 1000.0));
    var tracked := FromCorners(CGPoint(0.0, 0.0), CGPoint(0.0, 140.0), CGPoint(0.0, 0.0), CGPoint(100.0, 0.0));
    var candidate := FromCorners(CGPoint(300.0, 0.0), CGPoint(0.0, 140.0), CGPoint(0.0, 0.0), CGPoint(100.0, 0.0));
    assert CalculateRatio(candidate) == Finite(1.4);
    assert CalculateRatio(Replacing(tracked, candidate.topLeft)) == Finite(1.4);
    MovementGateIff(cfg.frame, tracked.topLeft, candidate.topLeft);
    PointsPositionIff(cfg.frame, candidate.topLeft);
    var s1 := RefreshCorner(cfg, EngineState(tracked, 1), TopLeft, candidate.topLeft);
    assert s1 == EngineState(tracked, -1) by {
      RejectedCornerIsKept(cfg, EngineState(tracked, 1), TopLeft, candidate.topLeft);
    }
    SamePointIsNoOp(cfg, s1, TopRight, candidate.topRight);
    SamePointIsNoOp(cfg, s1, BottomLeft, candidate.bottomLeft);
    SamePointIsNoOp(cfg, s1, BottomRight, candidate.bottomRight);
  }

  // ------------------------------------------------ the initial rectangle

  /** Against the all-zero rectangle of `init()`, no candidate corner gets
      past the zone and ratio gates once the band's lower end is not
      negative: the top-left ratio is 0/0, the top-right and bottom-left
      ratios are 0, an infinity or NaN, and a bottom-right corner inside its
      zone gives a negative ratio. */
  lemma ZeroRectangleRejectsEveryCorner(cfg: EngineConfig, previous: CSPoint, actual: CSPoint)
    requires cfg.minRatio >= 0.0
    ensures GateVerdict(cfg, Zero(), previous, actual) in {Rejected(ZoneGate), Rejected(RatioGate)}
  {
    var hypothetical := Replacing(Zero(), actual);
    var q := CalculateRatio(hypothetical);
    match actual.pointType {
      case TopLeft =>
        assert q.NaN?;
      case TopRight =>
        assert q.NaN? || q.PosInfinity? || q == Finite(0.0);
      case BottomLeft =>
        assert q.NaN? || q.PosInfinity? || q == Finite(0.0);
      case BottomRight =>
        if PassPointsPosition(cfg.frame, actual) {
          PointsPositionIff(cfg.frame, actual);
          var h, w := HeightOne(hypothetical), WidthOne(hypothetical);
          assert h == actual.point.x > 0.0;
          assert w == -actual.point.y < 0.0;
          assert q.Finite? && q.value * w == h;
          assert q.value < 0.0;
        }
    }
  }

  /** So a tracked rectangle at its initial all-zero value never moves: each
      frame only adds 1 to the progress. */
  lemma StuckAtInitialRectangle(cfg: EngineConfig, s: EngineState, candidate: CSRectangle)
    requires cfg.minRatio >= 0.0 && s.rectangle == Zero()
    ensures Refresh(cfg, s, candidate) == EngineState(Zero(), s.progress + 1)
  {
    var counted := EngineState(s.rectangle, s.progress + 1);
    if !FrameRatioRejects(cfg, CalculateRatio(candidate)) {
      ZeroRectangleRejectsEveryCorner(cfg, Corner(Zero(), TopLeft), candidate.topLeft);
      RejectedCornerIsKept(cfg, counted, TopLeft, candidate.topLeft);
      ZeroRectangleRejectsEveryCorner(cfg, Corner(Zero(), TopRight), candidate.topRight);
      RejectedCornerIsKept(cfg, counted, TopRight, candidate.topRight);
      ZeroRectangleRejectsEveryCorner(cfg, Corner(Zero(), BottomLeft), candidate.bottomLeft);
      RejectedCornerIsKept(cfg, counted, BottomLeft, candidate.bottomLeft);
      ZeroRectangleRejectsEveryCorner(cfg, Corner(Zero(), BottomRight), candidate.bottomRight);
      RejectedCornerIsKept(cfg, counted, BottomRight, candidate.bottomRight);
    }
  }

  // ---------------------------------------------------------------- many frames

  /** Roles survive any run of frames. */
  lemma {:induction false} RefreshAllKeepsWellTagged(cfg: EngineConfig, s: EngineState, features: seq<RectangleFeature>)
    requires WellTagged(s.rectangle)
    ensures WellTagged(RefreshAll(cfg, s, features).rectangle)
    decreases |features|
  {
    if features != [] {
      var prefix := features[..|features| - 1];
      RefreshAllKeepsWellTagged(cfg, s, prefix);
      RefreshKeepsWellTagged(cfg, RefreshAll(cfg, s, prefix), FromFeature(features[|features| - 1]));
    }
  }

  /** Over n frames the progress gains at most n and loses at most 7 per
      frame (one count, four penalties of 2). */
  lemma {:induction false} RefreshAllProgressBounds(cfg: EngineConfig, s: EngineState, features: seq<RectangleFeature>)
    ensures s.progress - 7 * |features| <= RefreshAll(cfg, s, features).progress
    ensures RefreshAll(cfg, s, features).progress <= s.progress + |features|
    decreases |features|
  {
    if features != [] {
      var prefix := features[..|features| - 1];
      RefreshAllProgressBounds(cfg, s, prefix);
      RefreshCountsFrame(cfg, RefreshAll(cfg, s, prefix), FromFeature(features[|features| - 1]));
    }
  }

  /** From a progress of at least -1, no run of frames goes below -1. */
  lemma {:induction false} RefreshAllProgressAtLeastMinusOne(cfg: EngineConfig, s: EngineState, features: seq<RectangleFeature>)
    requires s.progress >= -1
    ensures RefreshAll(cfg, s, features).progress >= -1
    decreases |features|
  {
    if features != [] {
      var prefix := features[..|features| - 1];
      RefreshAllProgressAtLeastMinusOne(cfg, s, prefix);
      ProgressNeverBelowMinusOne(cfg, RefreshAll(cfg, s, prefix), FromFeature(features[|features| - 1]));
    }
  }

  /** Every tracked corner is either the one the run started with or the
      same corner of one of the features it was fed. */
  lemma {:induction false} RefreshAllInventsNothing(cfg: EngineConfig, s: EngineState, features: seq<RectangleFeature>, k: CSPointType)
    ensures
      var p := Corner(RefreshAll(cfg, s, features).rectangle, k).point;
      p == Corner(s.rectangle, k).point ||
      exists i :: 0 <= i < |features| && p == Corner(FromFeature(features[i]), k).point
    decreases |features|
  {
    if features != [] {
      var n := |features| - 1;
      var prefix := features[..n];
      var before := RefreshAll(cfg, s, prefix);
      RefreshAllInventsNothing(cfg, s, prefix, k);
      RefreshKeepsRolesAndInventsNothing(cfg, before, FromFeature(features[n]));
      var p := Corner(RefreshAll(cfg, s, features).rectangle, k).point;
      if p == Corner(before.rectangle, k).point {
        if p != Corner(s.rectangle, k).point {
          var i :| 0 <= i < |prefix| && p == Corner(FromFeature(prefix[i]), k).point;
          assert prefix[i] == features[i];
        }
      } else {
        assert p == Corner(FromFeature(features[n]), k).point;
      }
    }
  }

  /** With a band whose lower end is not negative, a scanner that starts from
      `init()` keeps the all-zero rectangle through any run of frames, and
      its progress is exactly the number of frames. */
  lemma {:induction false} NeverLeavesInitialRectangle(cfg: EngineConfig, s: EngineState, features: seq<RectangleFeature>)
    requires cfg.minRatio >= 0.0 && s.rectangle == Zero()
    ensures RefreshAll(cfg, s, features) == EngineState(Zero(), s.progress + |features|)
    decreases |features|
  {
    if features != [] {
      var prefix := features[..|features| - 1];
      NeverLeavesInitialRectangle(cfg, s, prefix);
      StuckAtInitialRectangle(cfg, RefreshAll(cfg, s, prefix), FromFeature(features[|features| - 1]));
    }
  }
}
