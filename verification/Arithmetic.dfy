/** The few facts about products and quotients the proofs use, one at a time. */
module Arithmetic {

  lemma Product(x: real, y: real, z: real)
    requires 0.0 <= x && 0.0 <= y <= z
    ensures 0.0 <= x * y <= x * z
  {
  }

  lemma ProductMonotone(x: real, y: real, t: real)
    requires x <= y && t >= 0.0
    ensures x * t <= y * t
  {
  }

  lemma Distribute(x: real, y: real, z: real)
    ensures x * (y + z) == x * y + x * z
  {
  }

  lemma QuotientMonotone(x: real, y: real, d: real)
    requires x <= y && d > 0.0
    ensures x / d <= y / d
  {
  }

  lemma QuotientSum(x: real, y: real, d: real)
    requires d > 0.0
    ensures (x + y) / d == x / d + y / d
  {
  }

  lemma QuotientNegated(x: real, d: real)
    requires d > 0.0
    ensures (-x) / d == -(x / d)
  {
  }
}
