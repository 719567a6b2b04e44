/**
 * Points, sizes and rectangles over the reals, with the few CoreGraphics
 * operations the renderer relies on: inset (which standardises the rectangle
 * and yields the null rectangle when the extent would go negative), centring a
 * size in a rectangle, and the rounding and truncation of `CGFloat` values.
 */
module Geometry {

  datatype Size = Size(width: real, height: real)

  /** `CGRect`; `Null` is `CGRect.null`. */
  datatype Rect = Rect(x: real, y: real, width: real, height: real) | Null

  function Abs(x: real): real {
    if x < 0.0 then -x else x
  }

  /** `x.rounded()`: to the nearest integer, halves away from zero. */
  function Round(x: real): (r: int)
    ensures x - 0.5 <= r as real <= x + 0.5
    ensures Abs(r as real - x) == 0.5 ==> Abs(r as real) > Abs(x)
  {
    if x >= 0.0 then (x + 0.5).Floor else -((-x + 0.5).Floor)
  }

  /** `Int(x)`: truncation toward zero. */
  function Trunc(x: real): (r: int)
    ensures Abs(r as real) <= Abs(x) < Abs(r as real) + 1.0
    ensures r > 0 ==> x > 0.0
    ensures r < 0 ==> x < 0.0
  {
    if x >= 0.0 then x.Floor else -((-x).Floor)
  }

  function MinX(r: Rect): real
    requires r.Rect?
  {
    if r.width < 0.0 then r.x + r.width else r.x
  }

  function MaxX(r: Rect): real
    requires r.Rect?
  {
    if r.width < 0.0 then r.x else r.x + r.width
  }

  function MinY(r: Rect): real
    requires r.Rect?
  {
    if r.height < 0.0 then r.y + r.height else r.y
  }

  function MaxY(r: Rect): real
    requires r.Rect?
  {
    if r.height < 0.0 then r.y else r.y + r.height
  }

  function MidX(r: Rect): real
    requires r.Rect?
  {
    r.x + r.width / 2.0
  }

  function MidY(r: Rect): real
    requires r.Rect?
  {
    r.y + r.height / 2.0
  }

  /** The same rectangle with a non-negative width and height. */
  function Standardize(r: Rect): (s: Rect)
    ensures r.Null? <==> s.Null?
    ensures s.Rect? ==> s.width >= 0.0 && s.height >= 0.0
    ensures s.Rect? ==> MinX(s) == MinX(r) && MaxX(s) == MaxX(r) && MinY(s) == MinY(r) && MaxY(s) == MaxY(r)
  {
    match r
    case Null => Null
    case Rect(x, y, w, h) =>
      Rect(if w < 0.0 then x + w else x, if h < 0.0 then y + h else y, Abs(w), Abs(h))
  }

  /** `CGRect.insetBy(dx:dy:)`: shrink by `dx` on the left and right and by `dy` at top and bottom. */
  function InsetBy(r: Rect, dx: real, dy: real): (s: Rect)
    ensures s.Rect? ==> r.Rect?
    ensures r.Rect? ==> (s.Null? <==> 2.0 * dx > Abs(r.width) || 2.0 * dy > Abs(r.height))
    ensures s.Rect? ==> s.width == Abs(r.width) - 2.0 * dx && s.height == Abs(r.height) - 2.0 * dy
    ensures s.Rect? ==> MidX(s) == MidX(r) && MidY(s) == MidY(r)
    ensures s.Rect? ==> MinX(s) == MinX(r) + dx && MinY(s) == MinY(r) + dy
  {
    match Standardize(r)
    case Null => Null
    case Rect(x, y, w, h) =>
      if w - 2.0 * dx < 0.0 || h - 2.0 * dy < 0.0 then Null
      else Rect(x + dx, y + dy, w - 2.0 * dx, h - 2.0 * dy)
  }

  /** `CGRect.insetBy(_:)`: the same inset on all four sides. */
  function Inset(r: Rect, d: real): (s: Rect)
    ensures s.Rect? ==> r.Rect?
    ensures r.Rect? ==> (s.Null? <==> 2.0 * d > Abs(r.width) || 2.0 * d > Abs(r.height))
    ensures s.Rect? ==> s.width == Abs(r.width) - 2.0 * d && s.height == Abs(r.height) - 2.0 * d
    ensures s.Rect? ==> MidX(s) == MidX(r) && MidY(s) == MidY(r)
  {
    InsetBy(r, d, d)
  }

  /**
   * `CGSize.centered(in:)`: a rectangle of this size placed in the middle of
   * `r`. The null rectangle has an infinite origin, so nothing centred in it
   * is visible; that is modelled as the null rectangle again.
   */
  function Centered(sz: Size, r: Rect): (c: Rect)
    ensures r.Null? <==> c.Null?
    ensures c.Rect? ==> c.width == sz.width && c.height == sz.height
    ensures c.Rect? ==> c.x - MinX(r) == MaxX(r) - (c.x + c.width)
    ensures c.Rect? ==> c.y - MinY(r) == MaxY(r) - (c.y + c.height)
  {
    match r
    case Null => Null
    case Rect(_, _, w, h) =>
      Rect(MinX(r) + (Abs(w) - sz.width) / 2.0, MinY(r) + (Abs(h) - sz.height) / 2.0, sz.width, sz.height)
  }
}
