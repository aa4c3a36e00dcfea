/**
 * Two-dimensional points and vectors with real components standing in for the
 * source's `float`, and the three geometry predicates of the game
 * (src/bricks.cpp, `is_rect_in_rect`, `is_circle_in_rect`, `get_intersection`).
 */
module Geometry {
  import opened Wrappers

  datatype V2 = V2(x: real, y: real) {
    function Add(o: V2): V2 { V2(x + o.x, y + o.y) }
    function Sub(o: V2): V2 { V2(x - o.x, y - o.y) }
    function Scale(k: real): V2 { V2(x * k, y * k) }
  }

  const ZERO := V2(0.0, 0.0)

  function Abs(a: real): real { if a < 0.0 then -a else a }

  /** Squared length of a vector. */
  function Norm2(v: V2): real { v.x * v.x + v.y * v.y }

  /**
   * The source's `normalize(v) * speed` needs a square root; the model takes
   * it as a parameter and assumes only that it turns a nonzero vector into
   * one of length `speed`.
   */
  type Rescale = (V2, real) -> V2

  ghost predicate Rescales(norm: Rescale) {
    forall v: V2, s: real {:trigger norm(v, s)} :: v != ZERO && s >= 0.0 ==> Norm2(norm(v, s)) == s * s
  }

  /**
   * Axis-aligned rectangles given by centre and full dimensions overlap; the
   * comparisons are strict, so rectangles that only touch do not overlap.
   * Stated as: on each axis the centres are closer than half the summed sizes.
   */
  function IsRectInRect(pos0: V2, dim0: V2, pos1: V2, dim1: V2): (r: bool)
    ensures r <==> (Abs(pos0.x - pos1.x) < (dim0.x + dim1.x) / 2.0 &&
                    Abs(pos0.y - pos1.y) < (dim0.y + dim1.y) / 2.0)
  {
    pos0.x + dim0.x / 2.0 > pos1.x - dim1.x / 2.0 &&
    pos0.x - dim0.x / 2.0 < pos1.x + dim1.x / 2.0 &&
    pos0.y + dim0.y / 2.0 > pos1.y - dim1.y / 2.0 &&
    pos0.y - dim0.y / 2.0 < pos1.y + dim1.y / 2.0
  }

  /** The circle test is the rectangle test with the circle taken as its bounding square. */
  function IsCircleInRect(circlePos: V2, circleR: real, rectPos: V2, rectDim: V2): (r: bool)
    ensures r == IsRectInRect(circlePos, V2(2.0 * circleR, 2.0 * circleR), rectPos, rectDim)
  {
    circlePos.x + circleR > rectPos.x - rectDim.x / 2.0 &&
    circlePos.x - circleR < rectPos.x + rectDim.x / 2.0 &&
    circlePos.y + circleR > rectPos.y - rectDim.y / 2.0 &&
    circlePos.y - circleR < rectPos.y + rectDim.y / 2.0
  }

  lemma RectInRectSymmetric(pos0: V2, dim0: V2, pos1: V2, dim1: V2)
    ensures IsRectInRect(pos0, dim0, pos1, dim1) == IsRectInRect(pos1, dim1, pos0, dim0)
  {
  }

  lemma TouchingRectsDoNotOverlap(pos0: V2, dim0: V2, pos1: V2, dim1: V2)
    requires pos0.x + dim0.x / 2.0 == pos1.x - dim1.x / 2.0
          || pos0.y + dim0.y / 2.0 == pos1.y - dim1.y / 2.0
          || pos1.x + dim1.x / 2.0 == pos0.x - dim0.x / 2.0
          || pos1.y + dim1.y / 2.0 == pos0.y - dim0.y / 2.0
    ensures !IsRectInRect(pos0, dim0, pos1, dim1)
  {
  }

  /** q lies on the line through p0 and p1. */
  predicate OnLine(p0: V2, p1: V2, q: V2) {
    (q.x - p0.x) * (p1.y - p0.y) == (q.y - p0.y) * (p1.x - p0.x)
  }

  /**
   * Where the line through p0 and p1 crosses the vertical (l0.x == l1.x) or
   * horizontal line through l0 and l1. A line that is neither is a caller
   * error (the source asserts). The source divides by the matching component
   * of p1 - p0; when that is zero the lines are parallel and the model gives
   * None where the float code would produce an infinity or NaN.
   */
  function GetIntersection(p0: V2, p1: V2, l0: V2, l1: V2): (r: Option<V2>)
    requires l0.x == l1.x || l0.y == l1.y
    ensures l0.x == l1.x ==> (r.Some? <==> p1.x != p0.x) && (r.Some? ==> r.value.x == l0.x)
    ensures l0.x != l1.x ==> (r.Some? <==> p1.y != p0.y) && (r.Some? ==> r.value.y == l0.y)
    ensures r.Some? ==> OnLine(p0, p1, r.value)
  {
    var p2 := p1.Sub(p0);
    if l0.x == l1.x then
      if p2.x == 0.0 then None
      else
        var q := V2(l0.x, (l0.x - p0.x) * (p2.y / p2.x) + p0.y);
        assert (q.y - p0.y) * p2.x == (l0.x - p0.x) * ((p2.y / p2.x) * p2.x);
        Some(q)
    else
      if p2.y == 0.0 then None
      else
        var q := V2((l0.y - p0.y) * (p2.x / p2.y) + p0.x, l0.y);
        assert (q.x - p0.x) * p2.y == (l0.y - p0.y) * ((p2.x / p2.y) * p2.y);
        Some(q)
  }
}
