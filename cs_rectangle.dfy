/** The four-slot, role-tagged quadrilateral and its derived metrics. */
module CSRectangles {
  import opened FloatModel
  import opened CSPoints

  /** One point per corner slot. */
  datatype CSRectangle = CSRectangle(topLeft: CSPoint, topRight: CSPoint,
                                     bottomLeft: CSPoint, bottomRight: CSPoint)

  /** A detector's rectangle feature: four bare corner coordinates. */
  datatype RectangleFeature = RectangleFeature(topLeft: CGPoint, topRight: CGPoint,
                                               bottomLeft: CGPoint, bottomRight: CGPoint)

  /** The slot for role k. */
  function Corner(r: CSRectangle, k: CSPointType): CSPoint
  {
    match k
    case TopLeft => r.topLeft
    case TopRight => r.topRight
    case BottomLeft => r.bottomLeft
    case BottomRight => r.bottomRight
  }

  /** Every slot holds a point tagged with that slot's own role. */
  predicate WellTagged(r: CSRectangle)
  {
    && r.topLeft.pointType == TopLeft
    && r.topRight.pointType == TopRight
    && r.bottomLeft.pointType == BottomLeft
    && r.bottomRight.pointType == BottomRight
  }

  /** `init()`: every corner at the origin. */
  function Zero(): (r: CSRectangle)
    ensures WellTagged(r)
    ensures forall k :: Corner(r, k).point == Origin
  {
    FromCorners(Origin, Origin, Origin, Origin)
  }

  /** `init(topLeft:topRight:bottomLeft:bottomRight:)`. */
  function FromCorners(tl: CGPoint, tr: CGPoint, bl: CGPoint, br: CGPoint): (r: CSRectangle)
    ensures WellTagged(r)
    ensures Corner(r, TopLeft).point == tl && Corner(r, TopRight).point == tr
    ensures Corner(r, BottomLeft).point == bl && Corner(r, BottomRight).point == br
  {
    CSRectangle(CSPoint(tl, TopLeft), CSPoint(tr, TopRight),
                CSPoint(bl, BottomLeft), CSPoint(br, BottomRight))
  }

  /** `init(rectangle: CIRectangleFeature)`. */
  function FromFeature(f: RectangleFeature): (r: CSRectangle)
    ensures WellTagged(r)
    ensures Corner(r, TopLeft).point == f.topLeft && Corner(r, TopRight).point == f.topRight
    ensures Corner(r, BottomLeft).point == f.bottomLeft && Corner(r, BottomRight).point == f.bottomRight
  {
    FromCorners(f.topLeft, f.topRight, f.bottomLeft, f.bottomRight)
  }

  /** `init(rectangle:newPoint:)`: newPoint goes into the slot its own role
      names; the other three slots take rectangle's coordinates, re-tagged with
      their slot's role. */
  function Replacing(rectangle: CSRectangle, newPoint: CSPoint): (r: CSRectangle)
    ensures WellTagged(r)
    ensures Corner(r, newPoint.pointType) == newPoint
    ensures forall k :: k != newPoint.pointType ==> Corner(r, k).point == Corner(rectangle, k).point
  {
    match newPoint.pointType
    case TopLeft =>
      CSRectangle(newPoint, CSPoint(rectangle.topRight.point, TopRight),
                  CSPoint(rectangle.bottomLeft.point, BottomLeft), CSPoint(rectangle.bottomRight.point, BottomRight))
    case TopRight =>
      CSRectangle(CSPoint(rectangle.topLeft.point, TopLeft), newPoint,
                  CSPoint(rectangle.bottomLeft.point, BottomLeft), CSPoint(rectangle.bottomRight.point, BottomRight))
    case BottomLeft =>
      CSRectangle(CSPoint(rectangle.topLeft.point, TopLeft), CSPoint(rectangle.topRight.point, TopRight),
                  newPoint, CSPoint(rectangle.bottomRight.point, BottomRight))
    case BottomRight =>
      CSRectangle(CSPoint(rectangle.topLeft.point, TopLeft), CSPoint(rectangle.topRight.point, TopRight),
                  CSPoint(rectangle.bottomLeft.point, BottomLeft), newPoint)
  }

  /** Replacing a corner of a well-tagged rectangle by the point already in
      that slot gives back the same rectangle. */
  lemma ReplacingWithOwnCorner(r: CSRectangle, k: CSPointType)
    requires WellTagged(r)
    ensures Replacing(r, Corner(r, k)) == r
  {
  }

  /** `detectedRectangle.<slot>.point = p`: only the coordinate of slot k
      changes; its role and the other three slots stay as they were. */
  function WithCornerPoint(r: CSRectangle, k: CSPointType, p: CGPoint): (r': CSRectangle)
    ensures Corner(r', k) == WithPoint(Corner(r, k), p)
    ensures forall j :: j != k ==> Corner(r', j) == Corner(r, j)
  {
    match k
    case TopLeft => r.(topLeft := WithPoint(r.topLeft, p))
    case TopRight => r.(topRight := WithPoint(r.topRight, p))
    case BottomLeft => r.(bottomLeft := WithPoint(r.bottomLeft, p))
    case BottomRight => r.(bottomRight := WithPoint(r.bottomRight, p))
  }

  /** Writing back the coordinate a slot already holds changes nothing. */
  lemma WithCornerPointSame(r: CSRectangle, k: CSPointType)
    ensures WithCornerPoint(r, k, Corner(r, k).point) == r
  {
  }

  /** The "height" the ratio uses: a horizontal difference, signed. */
  function HeightOne(r: CSRectangle): real
  {
    r.bottomRight.point.x - r.bottomLeft.point.x
  }

  /** The "width" the ratio uses: a vertical difference, signed. */
  function WidthOne(r: CSRectangle): real
  {
    r.topRight.point.y - r.bottomRight.point.y
  }

  /** `calculateRatio`: the larger of the two extents over the smaller, in
      floating point, so a zero extent gives an infinity or NaN. */
  function CalculateRatio(r: CSRectangle): (q: FloatValue)
    ensures q.NaN? <==> HeightOne(r) == 0.0 && WidthOne(r) == 0.0
    ensures q.PosInfinity? <==> (HeightOne(r) == 0.0 && WidthOne(r) > 0.0) || (WidthOne(r) == 0.0 && HeightOne(r) > 0.0)
    ensures !q.NegInfinity?
    ensures q.Finite? && (HeightOne(r) == 0.0 || WidthOne(r) == 0.0) ==> q.value == 0.0
    ensures HeightOne(r) > 0.0 && WidthOne(r) > 0.0 ==>
              q == Finite(Max(HeightOne(r), WidthOne(r)) / Min(HeightOne(r), WidthOne(r))) && q.value >= 1.0
  {
    var h, w := HeightOne(r), WidthOne(r);
    if h > w then
      assert w > 0.0 ==> h / w >= 1.0 by {
        if w > 0.0 { QuotientAtLeastOne(h, w); }
      }
      Divide(h, w)
    else
      assert h > 0.0 ==> w / h >= 1.0 by {
        if h > 0.0 { QuotientAtLeastOne(w, h); }
      }
      Divide(w, h)
  }

  /** `size`: |topLeft.y - bottomLeft.y| times |topLeft.x - topRight.y|; the
      second factor mixes an x with a y, as the source does. */
  function Size(r: CSRectangle): (s: real)
    ensures s >= 0.0
    ensures s == 0.0 <==> r.topLeft.point.y == r.bottomLeft.point.y || r.topLeft.point.x == r.topRight.point.y
  {
    Abs(r.topLeft.point.y - r.bottomLeft.point.y) * Abs(r.topLeft.point.x - r.topRight.point.y)
  }

  /** `calculateTopAngles`: a stub that always answers a pair of right angles. */
  function CalculateTopAngles(r: CSRectangle): (real, real)
  {
    (90.0, 90.0)
  }

  /** `calculateBottomAngles`: the same stub for the bottom side. */
  function CalculateBottomAngles(r: CSRectangle): (real, real)
  {
    (90.0, 90.0)
  }

  /** Both angle stubs give (90, 90) whatever the corners. */
  lemma AnglesIgnoreCorners(r: CSRectangle, s: CSRectangle)
    ensures CalculateTopAngles(r) == CalculateTopAngles(s) == (90.0, 90.0)
    ensures CalculateBottomAngles(r) == CalculateBottomAngles(s) == (90.0, 90.0)
  {
  }

  /** The ratio never reads the top-left corner, so replacing it cannot
      change the ratio. */
  lemma RatioIgnoresTopLeft(r: CSRectangle, p: CSPoint)
    requires p.pointType == TopLeft
    ensures CalculateRatio(Replacing(r, p)) == CalculateRatio(r)
  {
  }

  /** The size never reads the bottom-right corner, so replacing it cannot
      change the size. */
  lemma SizeIgnoresBottomRight(r: CSRectangle, p: CSPoint)
    requires p.pointType == BottomRight
    ensures Size(Replacing(r, p)) == Size(r)
  {
  }

  /** For the on-screen layout top-left (100,100), top-right (900,100),
      bottom-left (100,900), bottom-right (900,900), the axis-mixed ratio is
      800 / -800 = -1: negative, not the square's 1. */
  lemma ScreenSquareHasRatioMinusOne()
    ensures CalculateRatio(FromCorners(CGPoint(100.0, 100.0), CGPoint(900.0, 100.0),
                                       CGPoint(100.0, 900.0), CGPoint(900.0, 900.0))) == Finite(-1.0)
  {
  }
}
