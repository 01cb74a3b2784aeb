/** Worked examples of the wall tests on concrete coordinates. */
module GeometryExamples {
  import opened Common
  import opened Geometry

  /**
   * The test is not complete at the ends of a wall: a circle of radius 10
   * centred at (-5, 0) contains the end (0, 0) of the wall (0, 0)-(100, 0),
   * but the foot of its perpendicular lies outside the wall, so no collision
   * is reported.
   */
  lemma EndOfWallContactMissed()
    ensures Dist2(Point(0.0, 0.0), Point(-5.0, 0.0)) <= 10.0 * 10.0
    ensures !LineIntersectCircle(Point(0.0, 0.0), Point(100.0, 0.0), Point(-5.0, 0.0), 10.0)
  {
    assert Sub(Point(0.0, 0.0), Point(-5.0, 0.0)) == Point(5.0, 0.0);
    assert Sub(Point(100.0, 0.0), Point(0.0, 0.0)) == Point(100.0, 0.0);
    assert Sub(Point(-5.0, 0.0), Point(0.0, 0.0)) == Point(-5.0, 0.0);
    var a, b, c := Point(0.0, 0.0), Point(100.0, 0.0), Point(-5.0, 0.0);
    assert Length2(a, b) == 10000.0;
    assert Dot(Sub(c, a), Sub(b, a)) == -500.0;
    assert FootParam(a, b, c) < 0.0;
    NoCollisionBeforeStart(a, b, c, 10.0);
  }

  /**
   * Worked example: a ray cast from (50, -50) along (0, 1), scaled by the
   * ray length 600, meets the wall (0, 0)-(100, 0) at (50, 0).
   */
  lemma RayExample()
    ensures RayIntersect(Point(50.0, -50.0), Point(0.0, 600.0), Point(0.0, 0.0), Point(100.0, 0.0))
         == Some(Point(50.0, 0.0))
  {
    var o, d, a, b := Point(50.0, -50.0), Point(0.0, 600.0), Point(0.0, 0.0), Point(100.0, 0.0);
    assert Denom(o, d, a, b) == 60000.0;
    assert WallParam(o, d, a, b) == 0.5;
    assert RayParam(o, d, a, b) == 5000.0 / 60000.0;
  }

  /**
   * There is no upper bound on the ray parameter: a wall 1000 away is still
   * hit by a ray whose nominal length is 600.
   */
  lemma RayHitBeyondLength()
    ensures RayIntersect(Point(0.0, 0.0), Point(600.0, 0.0), Point(1000.0, -10.0), Point(1000.0, 10.0))
         == Some(Point(1000.0, 0.0))
  {
    var o, d, a, b := Point(0.0, 0.0), Point(600.0, 0.0), Point(1000.0, -10.0), Point(1000.0, 10.0);
    assert Denom(o, d, a, b) == -12000.0;
    assert WallParam(o, d, a, b) == 0.5;
    assert RayParam(o, d, a, b) == 20000.0 / 12000.0;
  }
}
