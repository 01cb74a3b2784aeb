/**
 * The two geometric primitives of the agent: the ray/wall intersection used
 * for sensing and the wall/circle test used for collisions. Both are exact
 * over the reals; the collision test is restated without square roots.
 */
module Geometry {
  import opened Common

  datatype Point = Point(x: real, y: real)

  /** An RGB colour; walls carry one as their category tag. */
  datatype Color = Color(r: int, g: int, b: int)

  /** A wall segment of the maze: start point, end point and tag. */
  datatype Wall = Wall(start: Point, end: Point, tag: Color)

  function Add(p: Point, q: Point): Point { Point(p.x + q.x, p.y + q.y) }
  function Sub(p: Point, q: Point): Point { Point(p.x - q.x, p.y - q.y) }
  function Scale(p: Point, k: real): Point { Point(k * p.x, k * p.y) }
  function Dot(p: Point, q: Point): real { p.x * q.x + p.y * q.y }

  /** Squared Euclidean distance; `np.linalg.norm(p - q)` is its square root. */
  function Dist2(p: Point, q: Point): real { Dot(Sub(p, q), Sub(p, q)) }

  /** The point `a + t * (b - a)` of the line through `a` and `b`. */
  function PointAt(a: Point, b: Point, t: real): Point { Add(a, Scale(Sub(b, a), t)) }

  function Min(a: real, b: real): real { if a <= b then a else b }
  function Max(a: real, b: real): real { if a <= b then b else a }

  // ---------------------------------------------------------------------
  // Ray against wall segment
  // ---------------------------------------------------------------------

  /** The determinant of the 2x2 system; zero when ray and wall are parallel. */
  function Denom(origin: Point, dir: Point, a: Point, b: Point): real
  {
    (a.x - b.x) * (origin.y - (origin.y + dir.y)) - (a.y - b.y) * (origin.x - (origin.x + dir.x))
  }

  /** The wall parameter `t` of the solution (the hit is `a + t * (b - a)`). */
  function WallParam(origin: Point, dir: Point, a: Point, b: Point): real
    requires Denom(origin, dir, a, b) != 0.0
  {
    var x1, y1, x3, y3 := a.x, a.y, origin.x, origin.y;
    var x4, y4 := origin.x + dir.x, origin.y + dir.y;
    ((x1 - x3) * (y3 - y4) - (y1 - y3) * (x3 - x4)) / Denom(origin, dir, a, b)
  }

  /** The ray parameter `u` of the solution (the hit is `origin + u * dir`). */
  function RayParam(origin: Point, dir: Point, a: Point, b: Point): real
    requires Denom(origin, dir, a, b) != 0.0
  {
    var x1, y1, x2, y2, x3, y3 := a.x, a.y, b.x, b.y, origin.x, origin.y;
    -((x1 - x2) * (y1 - y3) - (y1 - y2) * (x1 - x3)) / Denom(origin, dir, a, b)
  }

  /**
   * The intersection of the ray `origin + u * dir` (u > 0, with no upper
   * bound on u) with the wall from `a` to `b`, or None when the two are
   * parallel or the crossing lies outside the wall or behind the origin.
   */
  function RayIntersect(origin: Point, dir: Point, a: Point, b: Point): (r: Option<Point>)
    ensures Denom(origin, dir, a, b) == 0.0 ==> r.None?
    ensures r.Some? ==>
      && 0.0 <= WallParam(origin, dir, a, b) <= 1.0
      && RayParam(origin, dir, a, b) > 0.0
      && r.value == PointAt(a, b, WallParam(origin, dir, a, b))
  {
    var denom := Denom(origin, dir, a, b);
    if denom == 0.0 then None
    else
      var t := WallParam(origin, dir, a, b);
      var u := RayParam(origin, dir, a, b);
      if 0.0 <= t <= 1.0 && u > 0.0 then Some(PointAt(a, b, t))
      else None
  }

  /**
   * A reported hit is the crossing of the wall (at a parameter in [0, 1])
   * with the ray (strictly in front of the origin); parallel rays never hit.
   */
  lemma RayIntersectSound(origin: Point, dir: Point, a: Point, b: Point)
    ensures Denom(origin, dir, a, b) == 0.0 ==> RayIntersect(origin, dir, a, b) == None
    ensures RayIntersect(origin, dir, a, b).Some? ==>
      && Denom(origin, dir, a, b) != 0.0
      && 0.0 <= WallParam(origin, dir, a, b) <= 1.0
      && RayParam(origin, dir, a, b) > 0.0
      && RayIntersect(origin, dir, a, b).value == PointAt(a, b, WallParam(origin, dir, a, b))
      && RayIntersect(origin, dir, a, b).value == Add(origin, Scale(dir, RayParam(origin, dir, a, b)))
  {
    if Denom(origin, dir, a, b) != 0.0 {
      HitIsOnRay(origin, dir, a, b);
    }
  }

  /** The solution of the system lies on the ray as well as on the wall's line. */
  lemma HitIsOnRay(origin: Point, dir: Point, a: Point, b: Point)
    requires Denom(origin, dir, a, b) != 0.0
    ensures PointAt(a, b, WallParam(origin, dir, a, b))
         == Add(origin, Scale(dir, RayParam(origin, dir, a, b)))
  {
    var D := Denom(origin, dir, a, b);
    var t := WallParam(origin, dir, a, b);
    var u := RayParam(origin, dir, a, b);
    var ex, ey := b.x - a.x, b.y - a.y;
    var wx, wy := a.x - origin.x, a.y - origin.y;
    var dx, dy := dir.x, dir.y;
    assert D == ex * dy - ey * dx;
    assert t * D == wy * dx - wx * dy;
    assert u * D == ex * wy - ey * wx;
    // Cramer's rule: D * (w + t e - u d) vanishes componentwise.
    assert D * (wx + t * ex - u * dx) == wx * D + (t * D) * ex - (u * D) * dx;
    assert D * (wy + t * ey - u * dy) == wy * D + (t * D) * ey - (u * D) * dy;
    assert wx + t * ex - u * dx == 0.0;
    assert wy + t * ey - u * dy == 0.0;
  }

  /**
   * Conversely, every crossing of a non-parallel ray with the wall, at a
   * wall parameter in [0, 1] and any positive ray parameter, is reported.
   */
  lemma RayIntersectComplete(origin: Point, dir: Point, a: Point, b: Point, t: real, u: real)
    requires Denom(origin, dir, a, b) != 0.0
    requires 0.0 <= t <= 1.0 && u > 0.0
    requires PointAt(a, b, t) == Add(origin, Scale(dir, u))
    ensures RayIntersect(origin, dir, a, b) == Some(PointAt(a, b, t))
  {
    var D := Denom(origin, dir, a, b);
    var ex, ey := b.x - a.x, b.y - a.y;
    var wx, wy := a.x - origin.x, a.y - origin.y;
    var dx, dy := dir.x, dir.y;
    assert wx == u * dx - t * ex && wy == u * dy - t * ey;
    assert D == ex * dy - ey * dx;
    assert WallParam(origin, dir, a, b) * D == wy * dx - wx * dy;
    assert wy * dx - wx * dy == t * D by {
      calc {
        wy * dx - wx * dy;
        (u * dy - t * ey) * dx - (u * dx - t * ex) * dy;
        t * (ex * dy - ey * dx);
      }
    }
    assert RayParam(origin, dir, a, b) * D == ex * wy - ey * wx;
    assert ex * wy - ey * wx == u * D by {
      calc {
        ex * wy - ey * wx;
        ex * (u * dy - t * ey) - ey * (u * dx - t * ex);
        u * (ex * dy - ey * dx);
      }
    }
    assert WallParam(origin, dir, a, b) == t;
    assert RayParam(origin, dir, a, b) == u;
  }

  // ---------------------------------------------------------------------
  // Wall segment against circle
  // ---------------------------------------------------------------------

  /** Squared length of the segment from `a` to `b`. */
  function Length2(a: Point, b: Point): real { Dist2(b, a) }

  /** Parameter of the foot of the perpendicular from `c` to the line a-b. */
  function FootParam(a: Point, b: Point, c: Point): real
    requires Length2(a, b) != 0.0
  {
    Dot(Sub(c, a), Sub(b, a)) / Length2(a, b)
  }

  /** The foot of the perpendicular from `c` onto the (unbounded) line a-b. */
  function Foot(a: Point, b: Point, c: Point): Point
    requires Length2(a, b) != 0.0
  {
    PointAt(a, b, FootParam(a, b, c))
  }

  /** `p` lies within the axis-aligned bounding box of the segment a-b. */
  predicate InBox(p: Point, a: Point, b: Point)
  {
    Min(a.x, b.x) <= p.x <= Max(a.x, b.x) && Min(a.y, b.y) <= p.y <= Max(a.y, b.y)
  }

  /**
   * The collision test: the perpendicular foot from the circle's centre onto
   * the wall's line must lie inside the wall's bounding box (it is not
   * clamped onto the segment) and within `radius` of the centre. Distances
   * are compared squared: `sqrt(d2) <= radius` iff `0 <= radius` and
   * `d2 <= radius * radius`. A zero-length wall never collides: there
   * agent.py divides 0 by 0, and every comparison with the resulting NaN is
   * false.
   */
  function LineIntersectCircle(a: Point, b: Point, c: Point, radius: real): (r: bool)
  {
    if Length2(a, b) == 0.0 then false
    else
      var e := Foot(a, b, c);
      0.0 <= radius && Dist2(e, c) <= radius * radius && InBox(e, a, b)
  }

  /** The foot is perpendicular: `(c - foot) . (b - a) == 0`. */
  lemma FootIsPerpendicular(a: Point, b: Point, c: Point)
    requires Length2(a, b) != 0.0
    ensures Dot(Sub(c, Foot(a, b, c)), Sub(b, a)) == 0.0
  {
    var L := Length2(a, b);
    var s := FootParam(a, b, c);
    var ex, ey := b.x - a.x, b.y - a.y;
    var wx, wy := c.x - a.x, c.y - a.y;
    assert L == ex * ex + ey * ey;
    assert s * L == wx * ex + wy * ey;
    calc {
      Dot(Sub(c, Foot(a, b, c)), Sub(b, a));
      (wx - s * ex) * ex + (wy - s * ey) * ey;
      (wx * ex + wy * ey) - s * (ex * ex + ey * ey);
      (wx * ex + wy * ey) - s * L;
      0.0;
    }
  }

  /**
   * The foot is the point of the whole line nearest to `c`: every other point
   * of the line is farther by exactly `(k - s)^2 * |b - a|^2`.
   */
  lemma FootIsNearestOnLine(a: Point, b: Point, c: Point, k: real)
    requires Length2(a, b) != 0.0
    ensures Dist2(PointAt(a, b, k), c)
         == Dist2(Foot(a, b, c), c) + (k - FootParam(a, b, c)) * (k - FootParam(a, b, c)) * Length2(a, b)
    ensures Dist2(Foot(a, b, c), c) <= Dist2(PointAt(a, b, k), c)
  {
    var s := FootParam(a, b, c);
    var e := Foot(a, b, c);
    var ex, ey := b.x - a.x, b.y - a.y;
    var fx, fy := e.x - c.x, e.y - c.y;
    var m := k - s;
    FootIsPerpendicular(a, b, c);
    assert fx * ex + fy * ey == 0.0;
    PointAtShift(a, b, s, k);
    assert Dist2(PointAt(a, b, k), c) == (fx + m * ex) * (fx + m * ex) + (fy + m * ey) * (fy + m * ey);
    ShiftAlongOrthogonal(fx, fy, ex, ey, m);
    SquareTimesSumOfSquares(m, ex, ey);
  }

  /** Moving along the line from parameter `s` to parameter `k`. */
  lemma PointAtShift(a: Point, b: Point, s: real, k: real)
    ensures PointAt(a, b, k) == Add(PointAt(a, b, s), Scale(Sub(b, a), k - s))
  {
    assert k * (b.x - a.x) == s * (b.x - a.x) + (k - s) * (b.x - a.x);
    assert k * (b.y - a.y) == s * (b.y - a.y) + (k - s) * (b.y - a.y);
  }

  lemma SquareTimesSumOfSquares(m: real, x: real, y: real)
    ensures m * m * (x * x + y * y) >= 0.0
  {
    assert m * m >= 0.0;
    assert x * x >= 0.0;
    assert y * y >= 0.0;
    assert x * x + y * y >= 0.0;
  }

  /** Moving by `m` times a vector orthogonal to `(fx, fy)` adds `m^2` times its squared length. */
  lemma ShiftAlongOrthogonal(fx: real, fy: real, ex: real, ey: real, m: real)
    requires fx * ex + fy * ey == 0.0
    ensures (fx + m * ex) * (fx + m * ex) + (fy + m * ey) * (fy + m * ey)
         == (fx * fx + fy * fy) + m * m * (ex * ex + ey * ey)
  {
    assert (fx + m * ex) * (fx + m * ex) + (fy + m * ey) * (fy + m * ey)
        == (fx * fx + fy * fy) + 2.0 * m * (fx * ex + fy * ey) + m * m * (ex * ex + ey * ey);
  }

  /** A point of the line a-b is in the segment's bounding box iff it lies on the segment. */
  lemma InBoxIffOnSegment(a: Point, b: Point, k: real)
    requires Length2(a, b) != 0.0
    ensures InBox(PointAt(a, b, k), a, b) <==> 0.0 <= k <= 1.0
  {
    var p := PointAt(a, b, k);
    var ex, ey := b.x - a.x, b.y - a.y;
    assert p.x == a.x + k * ex && p.y == a.y + k * ey;
    assert ex == 0.0 && ey == 0.0 ==> Length2(a, b) == 0.0;
    if 0.0 <= k <= 1.0 {
      InIntervalWhenFraction(a.x, ex, k);
      InIntervalWhenFraction(a.y, ey, k);
    } else if ex != 0.0 {
      OutOfIntervalWhenNotFraction(a.x, ex, k);
    } else {
      assert ey != 0.0;
      OutOfIntervalWhenNotFraction(a.y, ey, k);
    }
  }

  lemma InIntervalWhenFraction(v: real, e: real, k: real)
    requires 0.0 <= k <= 1.0
    ensures Min(v, v + e) <= v + k * e <= Max(v, v + e)
  {
    if e >= 0.0 {
      assert 0.0 <= k * e;
      assert (1.0 - k) * e >= 0.0;
    } else {
      assert k * e <= 0.0;
      assert (1.0 - k) * e <= 0.0;
    }
  }

  lemma OutOfIntervalWhenNotFraction(v: real, e: real, k: real)
    requires e != 0.0 && !(0.0 <= k <= 1.0)
    ensures !(Min(v, v + e) <= v + k * e <= Max(v, v + e))
  {
    if k < 0.0 {
      if e > 0.0 { assert k * e < 0.0; } else { assert k * e > 0.0; }
    } else {
      assert k > 1.0;
      if e > 0.0 { assert k * e > e; } else { assert k * e < e; }
    }
  }

  /**
   * What the collision test decides, without bounding boxes: the wall has
   * positive length, the foot of the perpendicular from the centre lies on
   * the segment (parameter in [0, 1]), and it is within `radius` of the centre.
   */
  lemma LineIntersectCircleMeaning(a: Point, b: Point, c: Point, radius: real)
    ensures LineIntersectCircle(a, b, c, radius) <==>
      && Length2(a, b) != 0.0
      && 0.0 <= FootParam(a, b, c) <= 1.0
      && 0.0 <= radius
      && Dist2(Foot(a, b, c), c) <= radius * radius
  {
    if Length2(a, b) != 0.0 {
      InBoxIffOnSegment(a, b, FootParam(a, b, c));
    }
  }

  /**
   * The test never reports a collision falsely: when it fires, a point of the
   * segment lies within `radius` of the centre.
   */
  lemma CollisionIsSound(a: Point, b: Point, c: Point, radius: real)
    requires LineIntersectCircle(a, b, c, radius)
    ensures exists k :: 0.0 <= k <= 1.0 && Dist2(PointAt(a, b, k), c) <= radius * radius
  {
    LineIntersectCircleMeaning(a, b, c, radius);
    var k := FootParam(a, b, c);
    assert Dist2(PointAt(a, b, k), c) <= radius * radius;
  }

  /**
   * A foot of the perpendicular before the start of the wall means no
   * collision, however near the wall's end the centre is.
   */
  lemma NoCollisionBeforeStart(a: Point, b: Point, c: Point, radius: real)
    requires Length2(a, b) != 0.0 && FootParam(a, b, c) < 0.0
    ensures !LineIntersectCircle(a, b, c, radius)
  {
    LineIntersectCircleMeaning(a, b, c, radius);
  }

  /** A foot on the segment within `radius` of the centre means a collision. */
  lemma CollisionOnSegment(a: Point, b: Point, c: Point, radius: real)
    requires Length2(a, b) != 0.0 && 0.0 <= FootParam(a, b, c) <= 1.0
    requires 0.0 <= radius && Dist2(Foot(a, b, c), c) <= radius * radius
    ensures LineIntersectCircle(a, b, c, radius)
  {
    LineIntersectCircleMeaning(a, b, c, radius);
  }
}
