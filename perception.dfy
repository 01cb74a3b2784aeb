/**
 * What an agent senses: the fan of ray directions, the nearest wall hit
 * along each ray, and the sensor vector handed to the brain.
 */
module Perception {
  import opened Common
  import opened Geometry

  /** `np.linspace(lo, hi, n)`: `n` evenly spaced values, both ends included. */
  function Linspace(lo: real, hi: real, n: nat): (r: seq<real>)
    ensures |r| == n
    ensures n >= 1 ==> r[0] == lo
    ensures n >= 2 ==> r[n - 1] == hi
  {
    if n == 0 then []
    else if n == 1 then [lo]
    else
      var step := (hi - lo) / ((n - 1) as real);
      seq(n, i requires 0 <= i < n => if i == n - 1 then hi else lo + (i as real) * step)
  }

  /** Consecutive values of `Linspace` are one step `(hi - lo) / (n - 1)` apart. */
  lemma LinspaceEvenlySpaced(lo: real, hi: real, n: nat, i: nat)
    requires n >= 2 && i + 1 < n
    ensures Linspace(lo, hi, n)[i + 1] - Linspace(lo, hi, n)[i] == (hi - lo) / ((n - 1) as real)
  {
    var step := (hi - lo) / ((n - 1) as real);
    var m := (n - 1) as real;
    assert step * m == hi - lo;
    if i + 1 == n - 1 {
      assert (i as real) == m - 1.0;
      assert hi - (lo + (m - 1.0) * step) == step;
    } else {
      assert ((i + 1) as real) * step == (i as real) * step + step;
    }
  }

  /** The unit vector `(cos a, sin a)`. */
  function Heading(angle: real, num: Numerics): Point
  {
    Point(num.cos(angle), num.sin(angle))
  }

  /**
   * The nearest wall found so far: its intersection point, the squared
   * distance to the ray's origin, the wall's colour and its index.
   */
  datatype Sighting = NoHit | Hit(point: Point, dist2: real, tag: Color, index: nat)

  /** The hit of wall `w` by the ray from `origin` along `dir`, if any. */
  function WallHit(w: Wall, origin: Point, dir: Point): Option<Point>
  {
    RayIntersect(origin, dir, w.start, w.end)
  }

  /**
   * `find_closest_intersection` over the first `n` walls, in order: a hit
   * replaces the best so far only when strictly nearer. Distances are
   * compared squared, which orders them as their square roots do.
   */
  function ClosestUpTo(walls: seq<Wall>, origin: Point, dir: Point, n: nat): (r: Sighting)
    requires n <= |walls|
    ensures r.Hit? ==>
      && r.index < n
      && WallHit(walls[r.index], origin, dir) == Some(r.point)
      && r.dist2 == Dist2(r.point, origin)
      && r.tag == walls[r.index].tag
    decreases n
  {
    if n == 0 then NoHit
    else
      var prev := ClosestUpTo(walls, origin, dir, n - 1);
      match WallHit(walls[n - 1], origin, dir)
      case None => prev
      case Some(p) =>
        var d := Dist2(p, origin);
        if prev.NoHit? || d < prev.dist2 then Hit(p, d, walls[n - 1].tag, n - 1) else prev
  }

  /**
   * The scan finds nothing exactly when no wall is hit; otherwise it finds
   * a wall's hit, with that wall's colour and the squared distance to the
   * origin, no farther than any hit and strictly nearer than every earlier
   * one.
   */
  lemma {:induction false} ClosestUpToIsNearest(walls: seq<Wall>, origin: Point, dir: Point, n: nat)
    requires n <= |walls|
    ensures var r := ClosestUpTo(walls, origin, dir, n);
      && (r.NoHit? <==> forall i :: 0 <= i < n ==> WallHit(walls[i], origin, dir).None?)
      && (r.Hit? ==>
            && r.index < n
            && WallHit(walls[r.index], origin, dir) == Some(r.point)
            && r.dist2 == Dist2(r.point, origin)
            && r.tag == walls[r.index].tag)
      && (r.Hit? ==> forall i :: 0 <= i < n && WallHit(walls[i], origin, dir).Some? ==>
            r.dist2 <= Dist2(WallHit(walls[i], origin, dir).value, origin))
      && (r.Hit? ==> forall i :: 0 <= i < r.index && WallHit(walls[i], origin, dir).Some? ==>
            r.dist2 < Dist2(WallHit(walls[i], origin, dir).value, origin))
    decreases n
  {
    if n > 0 {
      ClosestUpToIsNearest(walls, origin, dir, n - 1);
    }
  }

  /** The sensor value of one ray: the distance to the nearest hit, or the ray length. */
  function Reading(s: Sighting, rayLength: real, num: Numerics): real
  {
    if s.NoHit? then rayLength else num.sqrt(s.dist2)
  }

  /** What one ray at absolute heading `heading` sees from `position`. */
  function Look(walls: seq<Wall>, position: Point, heading: real, rayLength: real, num: Numerics): Sighting
  {
    ClosestUpTo(walls, position, Scale(Heading(heading, num), rayLength), |walls|)
  }

  /**
   * `get_inputs`: one reading per ray angle (relative to the agent's
   * heading), then `x, y, vx, vy, angle`.
   */
  function SensorVector(walls: seq<Wall>, rayAngles: seq<real>, rayLength: real, num: Numerics,
                        position: Point, velocity: Point, angle: real): seq<real>
  {
    Readings(walls, rayAngles, rayLength, num, position, angle)
      + [position.x, position.y, velocity.x, velocity.y, angle]
  }

  /** The ray part of the sensor vector: one reading per ray angle, in order. */
  function Readings(walls: seq<Wall>, rayAngles: seq<real>, rayLength: real, num: Numerics,
                    position: Point, angle: real): (r: seq<real>)
    ensures |r| == |rayAngles|
  {
    seq(|rayAngles|, i requires 0 <= i < |rayAngles| =>
          Reading(Look(walls, position, angle + rayAngles[i], rayLength, num), rayLength, num))
  }

  /** One more ray angle adds its reading at the end. */
  lemma ReadingsSnoc(walls: seq<Wall>, rayAngles: seq<real>, rayLength: real, num: Numerics,
                     position: Point, angle: real, a: real)
    ensures Readings(walls, rayAngles + [a], rayLength, num, position, angle)
         == Readings(walls, rayAngles, rayLength, num, position, angle)
            + [Reading(Look(walls, position, angle + a, rayLength, num), rayLength, num)]
  {
  }

  /**
   * The sensor vector has `len(ray_angles) + 5` entries: ray `i` reads the
   * ray length when no wall is hit and the distance to the nearest hit
   * otherwise, and the last five are position, velocity and heading.
   */
  lemma SensorVectorLayout(walls: seq<Wall>, rayAngles: seq<real>, rayLength: real, num: Numerics,
                           position: Point, velocity: Point, angle: real)
    ensures var v := SensorVector(walls, rayAngles, rayLength, num, position, velocity, angle);
      var n := |rayAngles|;
      && |v| == n + 5
      && (forall i :: 0 <= i < n ==>
            var dir := Scale(Heading(angle + rayAngles[i], num), rayLength);
            if forall w :: 0 <= w < |walls| ==> WallHit(walls[w], position, dir).None?
            then v[i] == rayLength
            else exists w :: 0 <= w < |walls| && WallHit(walls[w], position, dir).Some? &&
                   v[i] == num.sqrt(Dist2(WallHit(walls[w], position, dir).value, position)) &&
                   forall w' :: 0 <= w' < |walls| && WallHit(walls[w'], position, dir).Some? ==>
                     Dist2(WallHit(walls[w], position, dir).value, position)
                       <= Dist2(WallHit(walls[w'], position, dir).value, position))
      && v[n] == position.x && v[n + 1] == position.y
      && v[n + 2] == velocity.x && v[n + 3] == velocity.y
      && v[n + 4] == angle
  {
    var v := SensorVector(walls, rayAngles, rayLength, num, position, velocity, angle);
    var n := |rayAngles|;
    forall i | 0 <= i < n
      ensures var dir := Scale(Heading(angle + rayAngles[i], num), rayLength);
        if forall w :: 0 <= w < |walls| ==> WallHit(walls[w], position, dir).None?
        then v[i] == rayLength
        else exists w :: 0 <= w < |walls| && WallHit(walls[w], position, dir).Some? &&
               v[i] == num.sqrt(Dist2(WallHit(walls[w], position, dir).value, position)) &&
               forall w' :: 0 <= w' < |walls| && WallHit(walls[w'], position, dir).Some? ==>
                 Dist2(WallHit(walls[w], position, dir).value, position)
                   <= Dist2(WallHit(walls[w'], position, dir).value, position)
    {
      var dir := Scale(Heading(angle + rayAngles[i], num), rayLength);
      var s := Look(walls, position, angle + rayAngles[i], rayLength, num);
      ClosestUpToIsNearest(walls, position, dir, |walls|);
      assert v[i] == Reading(s, rayLength, num);
      if s.Hit? {
        assert WallHit(walls[s.index], position, dir).Some?;
      }
    }
  }
}
