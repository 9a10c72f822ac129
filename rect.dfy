// EMRect: an axis-aligned rectangle given by its left, top, right and bottom
// edges, with y growing downwards (top <= bottom in a valid rectangle).  The
// C++ edges are floats; the operations here only compare them, so they are
// modelled as reals (NaN edges are not modelled).

module Rect {

  datatype EMRect = EMRect(left: real, top: real, right: real, bottom: real)

  datatype EMPoint = EMPoint(x: real, y: real)

  function Max(a: real, b: real): real
  {
    if a >= b then a else b
  }

  function Min(a: real, b: real): real
  {
    if a <= b then a else b
  }

  /** The default constructor: (0, 0, -1, -1), deliberately invalid. */
  function DefaultRect(): EMRect
  {
    EMRect(0.0, 0.0, -1.0, -1.0)
  }

  /** IsValid: the edges are not crossed. */
  predicate IsValid(r: EMRect)
  {
    r.left <= r.right && r.top <= r.bottom
  }

  /** operator==: all four edges equal. */
  predicate Eq(a: EMRect, b: EMRect)
  {
    a.left == b.left && a.right == b.right && a.top == b.top && a.bottom == b.bottom
  }

  /** operator!=: the negation of ==. */
  predicate Neq(a: EMRect, b: EMRect)
  {
    !Eq(a, b)
  }

  /** operator&: the inner edges of the two. */
  function Intersection(a: EMRect, b: EMRect): EMRect
  {
    EMRect(Max(a.left, b.left), Max(a.top, b.top), Min(a.right, b.right), Min(a.bottom, b.bottom))
  }

  /** operator|: the outer edges of the two. */
  function Union(a: EMRect, b: EMRect): EMRect
  {
    EMRect(Min(a.left, b.left), Min(a.top, b.top), Max(a.right, b.right), Max(a.bottom, b.bottom))
  }

  /** Intersects: both valid and no edge of one lies beyond the other. */
  predicate Intersects(a: EMRect, b: EMRect)
  {
    if !IsValid(a) || !IsValid(b) then false
    else !(b.left > a.right || b.right < a.left || b.top > a.bottom || b.bottom < a.top)
  }

  /** Contains(point): inclusive on every edge. */
  predicate ContainsPoint(r: EMRect, p: EMPoint)
  {
    p.x >= r.left && p.x <= r.right && p.y >= r.top && p.y <= r.bottom
  }

  /** Contains(rect): every edge of the inner one within the outer one's. */
  predicate ContainsRect(r: EMRect, inner: EMRect)
  {
    inner.left >= r.left && inner.right <= r.right && inner.top >= r.top && inner.bottom <= r.bottom
  }

  // ------------------------------------------------------------------- lemmas

  /** == is equality of rectangles, and != its negation. */
  lemma EqIsEquality(a: EMRect, b: EMRect)
    ensures Eq(a, b) <==> a == b
    ensures Neq(a, b) <==> a != b
  {
  }

  /** a & b lies inside both, and it is the largest rectangle that does. */
  lemma IntersectionIsMeet(a: EMRect, b: EMRect, c: EMRect)
    ensures ContainsRect(a, Intersection(a, b)) && ContainsRect(b, Intersection(a, b))
    ensures ContainsRect(a, c) && ContainsRect(b, c) ==> ContainsRect(Intersection(a, b), c)
  {
  }

  /** a | b holds both, and it is the smallest rectangle that does. */
  lemma UnionIsJoin(a: EMRect, b: EMRect, c: EMRect)
    ensures ContainsRect(Union(a, b), a) && ContainsRect(Union(a, b), b)
    ensures ContainsRect(c, a) && ContainsRect(c, b) ==> ContainsRect(c, Union(a, b))
  {
  }

  /** Contains(rect) is reflexive and transitive; a point of the inner one is a point of the outer. */
  lemma ContainsOrder(a: EMRect, b: EMRect, c: EMRect, p: EMPoint)
    ensures ContainsRect(a, a)
    ensures ContainsRect(a, b) && ContainsRect(b, c) ==> ContainsRect(a, c)
    ensures ContainsRect(a, b) && ContainsPoint(b, p) ==> ContainsPoint(a, p)
  {
  }

  /** Contains(point) holds on all four corners of a valid rectangle. */
  lemma CornersContained(r: EMRect)
    requires IsValid(r)
    ensures ContainsPoint(r, EMPoint(r.left, r.top)) && ContainsPoint(r, EMPoint(r.right, r.top))
    ensures ContainsPoint(r, EMPoint(r.left, r.bottom)) && ContainsPoint(r, EMPoint(r.right, r.bottom))
  {
  }

  /**
   * Two valid rectangles intersect exactly when their & is valid, and then
   * exactly when they share a point; Intersects is symmetric.
   */
  lemma IntersectsMeansCommonPoint(a: EMRect, b: EMRect)
    ensures Intersects(a, b) <==> IsValid(a) && IsValid(b) && IsValid(Intersection(a, b))
    ensures Intersects(a, b) <==> Intersects(b, a)
    ensures IsValid(a) && IsValid(b) ==>
      (Intersects(a, b) <==> exists p: EMPoint :: ContainsPoint(a, p) && ContainsPoint(b, p))
  {
    if IsValid(a) && IsValid(b) {
      var m := Intersection(a, b);
      if Intersects(a, b) {
        assert ContainsPoint(a, EMPoint(m.left, m.top)) && ContainsPoint(b, EMPoint(m.left, m.top));
      }
    }
  }

  /** An invalid rectangle, such as the default one, intersects nothing, not even itself. */
  lemma InvalidIntersectsNothing(a: EMRect, b: EMRect)
    requires !IsValid(a)
    ensures !Intersects(a, b) && !Intersects(b, a)
    ensures !IsValid(DefaultRect()) && !Intersects(DefaultRect(), b)
  {
  }
}
