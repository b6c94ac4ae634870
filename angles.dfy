/** Angle normalisation for the rotation setters. A rotation is brought into
    [0, 360 * 16] by adding or subtracting whole turns of 360. */
module Angles {

  /** The step the normalising loops add or subtract. */
  const FullTurn: real := 360.0
  /** The inclusive upper end of the normalised range. */
  const MaxAngle: real := 360.0 * 16.0

  /** `b` differs from `a` by a whole number of turns of 360
      (not of MaxAngle). */
  predicate SameModTurn(a: real, b: real) {
    var q := (b - a) / FullTurn;
    q.Floor as real == q
  }

  /** `r` is what normalising `angle` produces: congruent to it, inside
      [0, MaxAngle], unchanged if already inside, and otherwise the first value
      reached by whole turns from below (into [0, 360)) or from above
      (into (MaxAngle - 360, MaxAngle]). */
  predicate IsNormalized(angle: real, r: real) {
    && SameModTurn(angle, r)
    && 0.0 <= r <= MaxAngle
    && (0.0 <= angle <= MaxAngle ==> r == angle)
    && (angle < 0.0 ==> r < FullTurn)
    && (angle > MaxAngle ==> r > MaxAngle - FullTurn)
  }

  /** normalizeAngle: add 360 while negative, then subtract 360 while above 360 * 16. */
  method NormalizeAngle(angle: real) returns (r: real)
    ensures IsNormalized(angle, r)
  {
    r := angle;
    ghost var turns: int := 0;
    while r < 0.0
      invariant r == angle + FullTurn * turns as real
      invariant angle < 0.0 ==> r < FullTurn
      invariant angle >= 0.0 ==> r == angle
      decreases (-r).Floor
    {
      r := r + 360.0;
      turns := turns + 1;
    }
    while r > 360.0 * 16.0
      invariant r == angle + FullTurn * turns as real
      invariant r >= 0.0
      invariant angle < 0.0 ==> r < FullTurn
      invariant 0.0 <= angle <= MaxAngle ==> r == angle
      invariant angle > MaxAngle ==> r > MaxAngle - FullTurn
      decreases r.Floor
    {
      r := r - 360.0;
      turns := turns - 1;
    }
    assert (r - angle) / FullTurn == turns as real;
  }

  /** The normalised value is determined by the angle alone: the contract of
      NormalizeAngle leaves no choice. */
  lemma NormalizedUnique(angle: real, r1: real, r2: real)
    requires IsNormalized(angle, r1) && IsNormalized(angle, r2)
    ensures r1 == r2
  {
    var k1 := ((r1 - angle) / FullTurn).Floor;
    var k2 := ((r2 - angle) / FullTurn).Floor;
    assert r1 - r2 == FullTurn * (k1 - k2) as real;
    if angle < 0.0 || angle > MaxAngle {
      assert -FullTurn < r1 - r2 < FullTurn;
      assert k1 - k2 == 0;
    }
  }
}
