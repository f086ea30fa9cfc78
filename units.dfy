/**
 * The motion helper `Unit` that balls and players own. Its source (Unit.hpp)
 * is not part of this model: only the fields the gameplay code reads and
 * writes are explicit, and Unit's own operations are supplied by the caller.
 */
module Units {

  type Gauge = g: real | g > 0.0 witness 1.0

  /** Unit::GAUGE, the one length scale every gameplay constant of every ball
      and player is a multiple of. Its value lives in Unit.hpp; the model only
      knows it is positive. */
  const GAUGE: Gauge

  /** A point on the pitch (the vertical coordinate is the unit's height). */
  datatype Loc = Loc(x: real, y: real)

  /** The part of a unit that only Unit's own operations change: its position,
      its current facing and the point it is steering towards. */
  datatype Track = Track(pos: Loc, facing: real, target: Loc)

  datatype Unit = Unit(track: Track, facingDest: real, movingSpeed: real, height: real)

  /**
   * Unit's operations, opaque here: `stop()`, `move(point)`,
   * `point_offset(distance, angle)`, the per-tick `idle` (given the heading,
   * the moving speed and the tick length), and glm::length of a planar vector.
   */
  datatype Kinematics = Kinematics(
    stop: Track -> Track,
    move: (Track, Loc) -> Track,
    pointOffset: (Track, real, real) -> Loc,
    step: (Track, real, real, real) -> Track,
    length: (real, real) -> real)

  /** `length` is the Euclidean norm of a planar vector. */
  ghost predicate Euclidean(k: Kinematics)
  {
    forall dx: real, dy: real :: k.length(dx, dy) >= 0.0 && k.length(dx, dy) * k.length(dx, dy) == dx * dx + dy * dy
  }

  /** `point_offset(distance, angle)` is the point `distance` away from the
      unit's position: for a non-negative distance it lies at exactly that
      planar distance, whatever the angle. */
  ghost predicate OffsetsByDistance(k: Kinematics)
  {
    forall t: Track, d: real, a: real :: d >= 0.0 ==> DistanceSquared(t.pos, k.pointOffset(t, d, a)) == d * d
  }

  /** Square of the planar distance between two points. */
  function DistanceSquared(a: Loc, b: Loc): real
  {
    (b.x - a.x) * (b.x - a.x) + (b.y - a.y) * (b.y - a.y)
  }

  /** glm::length(b - a): the planar distance from `a` to `b`. */
  function Distance(k: Kinematics, a: Loc, b: Loc): real
  {
    k.length(b.x - a.x, b.y - a.y)
  }

  /** Among non-negative reals, order agrees with the order of squares. */
  lemma SquareOrder(r: real, s: real)
    requires r >= 0.0 && s >= 0.0
    ensures r < s <==> r * r < s * s
  {
    if r < s {
      var d := s - r;
      assert s * s == r * r + d * (s + r);
      assert d * (s + r) > 0.0;
    } else {
      var d := r - s;
      assert r * r == s * s + d * (r + s);
      assert d * (r + s) >= 0.0;
    }
  }

  /** Distances compare as their squares do, in both directions. */
  lemma DistanceOrder(k: Kinematics, a: Loc, b: Loc, c: Loc, d: Loc)
    requires Euclidean(k)
    ensures Distance(k, a, b) < Distance(k, c, d) <==> DistanceSquared(a, b) < DistanceSquared(c, d)
    ensures Distance(k, a, b) * Distance(k, a, b) == DistanceSquared(a, b)
  {
    var r, s := Distance(k, a, b), Distance(k, c, d);
    assert r >= 0.0 && r * r == DistanceSquared(a, b);
    assert s >= 0.0 && s * s == DistanceSquared(c, d);
    SquareOrder(r, s);
  }
}
