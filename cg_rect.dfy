/** Axis-aligned rectangles and the quadrant zones of a reference frame. */
module CGRects {
  import opened FloatModel
  import opened CSPoints

  /** An origin and a size. As in CoreGraphics the stored size may be negative;
      Width() and Height() give its magnitude, and MinX()/MaxX() the
      standardised edges. */
  datatype CGRect = CGRect(x: real, y: real, width: real, height: real)
  {
    function Width(): (w: real)
      ensures w >= 0.0
    {
      Abs(width)
    }

    function Height(): (h: real)
      ensures h >= 0.0
    {
      Abs(height)
    }

    function MinX(): real { if width < 0.0 then x + width else x }
    function MinY(): real { if height < 0.0 then y + height else y }
    function MaxX(): real { MinX() + Width() }
    function MaxY(): real { MinY() + Height() }

    /** The zone a top-left corner must lie in. Like the three below, it is
        anchored at (0, 0), whatever the rectangle's own origin. */
    function TopLeftZone(): CGRect
    {
      CGRect(0.0, 0.0, Width() / 2.0, Height() / 2.0)
    }

    function BottomLeftZone(): CGRect
    {
      CGRect(0.0, Height() / 2.0, Width() / 2.0, Height() / 2.0)
    }

    function TopRightZone(): CGRect
    {
      CGRect(Width() / 2.0, 0.0, Width() / 2.0, Height() / 2.0)
    }

    function BottomRightZone(): CGRect
    {
      CGRect(Width() / 2.0, Height() / 2.0, Width() / 2.0, Height() / 2.0)
    }

    /** The area, height times width. */
    function Size(): (s: real)
      ensures s >= 0.0
      ensures s == 0.0 <==> Width() == 0.0 || Height() == 0.0
    {
      Height() * Width()
    }
  }

  /** `point.isInside(rect)`. The definition is not among the modelled files;
      this model takes the CoreGraphics `contains` convention: closed on the
      minimum edges, open on the maximum edges. */
  predicate IsInside(p: CGPoint, r: CGRect)
  {
    r.MinX() <= p.x < r.MaxX() && r.MinY() <= p.y < r.MaxY()
  }

  /** p lies in [0, W) x [0, H), the box the four zones of f cover. */
  predicate InZoneBox(f: CGRect, p: CGPoint)
  {
    0.0 <= p.x < f.Width() && 0.0 <= p.y < f.Height()
  }

  /** Each zone is the part of the box on one side of each half line. */
  lemma ZoneMembership(f: CGRect, p: CGPoint)
    ensures IsInside(p, f.TopLeftZone()) <==>
              InZoneBox(f, p) && p.x < f.Width() / 2.0 && p.y < f.Height() / 2.0
    ensures IsInside(p, f.TopRightZone()) <==>
              InZoneBox(f, p) && p.x >= f.Width() / 2.0 && p.y < f.Height() / 2.0
    ensures IsInside(p, f.BottomLeftZone()) <==>
              InZoneBox(f, p) && p.x < f.Width() / 2.0 && p.y >= f.Height() / 2.0
    ensures IsInside(p, f.BottomRightZone()) <==>
              InZoneBox(f, p) && p.x >= f.Width() / 2.0 && p.y >= f.Height() / 2.0
  {
  }

  /** The four zones tile [0, W) x [0, H): a point of the box lies in exactly
      one zone, and a point outside it in none. */
  lemma ZonesPartitionBox(f: CGRect, p: CGPoint)
    ensures InZoneBox(f, p) <==>
              IsInside(p, f.TopLeftZone()) || IsInside(p, f.TopRightZone()) ||
              IsInside(p, f.BottomLeftZone()) || IsInside(p, f.BottomRightZone())
    ensures !(IsInside(p, f.TopLeftZone()) && IsInside(p, f.TopRightZone()))
    ensures !(IsInside(p, f.TopLeftZone()) && IsInside(p, f.BottomLeftZone()))
    ensures !(IsInside(p, f.TopLeftZone()) && IsInside(p, f.BottomRightZone()))
    ensures !(IsInside(p, f.TopRightZone()) && IsInside(p, f.BottomLeftZone()))
    ensures !(IsInside(p, f.TopRightZone()) && IsInside(p, f.BottomRightZone()))
    ensures !(IsInside(p, f.BottomLeftZone()) && IsInside(p, f.BottomRightZone()))
  {
    ZoneMembership(f, p);
  }

  /** Every zone has half the frame's width and height, so a quarter of its
      size, and depends on the frame's size only, not on its origin. */
  lemma ZonesAreQuarters(f: CGRect, g: CGRect)
    requires f.Width() == g.Width() && f.Height() == g.Height()
    ensures f.TopLeftZone() == g.TopLeftZone() && f.TopRightZone() == g.TopRightZone()
    ensures f.BottomLeftZone() == g.BottomLeftZone() && f.BottomRightZone() == g.BottomRightZone()
    ensures f.TopLeftZone().Width() == f.Width() / 2.0 && f.TopLeftZone().Height() == f.Height() / 2.0
    ensures f.TopRightZone().Width() == f.Width() / 2.0 && f.TopRightZone().Height() == f.Height() / 2.0
    ensures f.BottomLeftZone().Width() == f.Width() / 2.0 && f.BottomLeftZone().Height() == f.Height() / 2.0
    ensures f.BottomRightZone().Width() == f.Width() / 2.0 && f.BottomRightZone().Height() == f.Height() / 2.0
    ensures f.TopLeftZone().Size() == f.Size() / 4.0
    ensures f.TopRightZone().Size() == f.Size() / 4.0
    ensures f.BottomLeftZone().Size() == f.Size() / 4.0
    ensures f.BottomRightZone().Size() == f.Size() / 4.0
  {
  }
}
