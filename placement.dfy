/**
 * Procedural placement: `count` positions scattered uniformly over a square
 * of side `range` centred on the origin, on the ground plane. The random
 * source is injected as the sequence of values `Math.random()` would have
 * returned, consumed two per position (x first, then z).
 */
module Placement {
  import opened Space

  const TreeCount: nat := 30
  const RockCount: nat := 20
  const ScatterRange: real := 200.0

  /** A value `Math.random()` can return. */
  predicate IsDraw(r: real) {
    0.0 <= r < 1.0
  }

  predicate AllDraws(draws: seq<real>) {
    forall k :: 0 <= k < |draws| ==> IsDraw(draws[k])
  }

  /** On the ground and inside the half-open square [-range/2, range/2)². */
  predicate InSquare(p: Vec3, range: real) {
    p.y == 0.0 &&
    -range / 2.0 <= p.x < range / 2.0 &&
    -range / 2.0 <= p.z < range / 2.0
  }

  /** `(Math.random() - 0.5) * range` for the draw `r`. */
  function Scatter(r: real, range: real): (c: real)
    ensures IsDraw(r) && range > 0.0 ==> -range / 2.0 <= c < range / 2.0
  {
    assert (r - 0.5) * range == r * range - range / 2.0;
    (r - 0.5) * range
  }

  /** The position built from the two draws `rx` (for x) and `rz` (for z). */
  function PositionFrom(rx: real, rz: real, range: real): (p: Vec3)
    ensures p.y == 0.0
    ensures IsDraw(rx) && IsDraw(rz) && range > 0.0 ==> InSquare(p, range)
  {
    Vec3(Scatter(rx, range), 0.0, Scatter(rz, range))
  }

  /**
   * `getRandomPositions(count, range)`: `count` positions, the i-th built
   * from draws 2i and 2i+1; the draws not consumed are handed back.
   */
  method RandomPositions(count: nat, range: real, draws: seq<real>)
      returns (positions: seq<Vec3>, rest: seq<real>)
    requires 2 * count <= |draws|
    ensures |positions| == count
    ensures forall i :: 0 <= i < count ==>
              positions[i] == PositionFrom(draws[2 * i], draws[2 * i + 1], range)
    ensures AllDraws(draws) && range > 0.0 ==>
              forall i :: 0 <= i < count ==> InSquare(positions[i], range)
    ensures rest == draws[2 * count..]
  {
    positions := [];
    rest := draws;
    for i := 0 to count
      invariant |positions| == i
      invariant rest == draws[2 * i..]
      invariant forall k :: 0 <= k < i ==>
                  positions[k] == PositionFrom(draws[2 * k], draws[2 * k + 1], range)
    {
      var x := Scatter(rest[0], range);
      var z := Scatter(rest[1], range);
      positions := positions + [Vec3(x, 0.0, z)];
      rest := rest[2..];
    }
  }

  /**
   * The two calls made at start-up: 30 tree positions, then 20 rock
   * positions, both over a 200-wide square, from one stream of draws.
   */
  method PlaceForest(draws: seq<real>) returns (trees: seq<Vec3>, rocks: seq<Vec3>)
    requires 2 * (TreeCount + RockCount) <= |draws|
    ensures |trees| == TreeCount && |rocks| == RockCount
    ensures forall i :: 0 <= i < TreeCount ==>
              trees[i] == PositionFrom(draws[2 * i], draws[2 * i + 1], ScatterRange)
    ensures forall i :: 0 <= i < RockCount ==>
              rocks[i] == PositionFrom(draws[2 * (TreeCount + i)], draws[2 * (TreeCount + i) + 1], ScatterRange)
    ensures AllDraws(draws) ==>
              (forall i :: 0 <= i < TreeCount ==> InSquare(trees[i], ScatterRange)) &&
              (forall i :: 0 <= i < RockCount ==> InSquare(rocks[i], ScatterRange))
  {
    var rest;
    trees, rest := RandomPositions(TreeCount, ScatterRange, draws);
    rocks, rest := RandomPositions(RockCount, ScatterRange, rest);
  }
}
