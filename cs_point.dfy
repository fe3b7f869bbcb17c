/** The role-tagged corner point of a document outline, and the coordinate it wraps. */
module CSPoints {

  /** A CoreGraphics point. */
  datatype CGPoint = CGPoint(x: real, y: real)

  const Origin: CGPoint := CGPoint(0.0, 0.0)

  /** The corner a point stands for. */
  datatype CSPointType = TopLeft | TopRight | BottomLeft | BottomRight

  /** A coordinate together with the corner role it was created with. The
      memberwise initialiser is the datatype constructor. The role is fixed for
      the life of the value: the only update this model offers, WithPoint, keeps
      it. */
  datatype CSPoint = CSPoint(point: CGPoint, pointType: CSPointType)

  /** The memberwise initialiser stores both arguments as given. */
  lemma InitStoresArguments(point: CGPoint, pointType: CSPointType)
    ensures CSPoint(point, pointType).point == point
    ensures CSPoint(point, pointType).pointType == pointType
  {
  }

  /** `p.point = q`: assigns the coordinate and leaves the role alone. */
  function WithPoint(p: CSPoint, q: CGPoint): (r: CSPoint)
    ensures r.point == q && r.pointType == p.pointType
  {
    p.(point := q)
  }
}
