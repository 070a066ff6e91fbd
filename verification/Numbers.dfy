/** Rounding and clamping as the source's host language performs them. */
module Numbers {

  function Max(x: real, y: real): real { if x < y then y else x }

  function Min(x: real, y: real): real { if y < x then y else x }

  function Clamp(x: real, low: real, high: real): (r: real)
    requires low <= high
    ensures low <= r <= high
    ensures low <= x <= high ==> r == x
    ensures x < low ==> r == low
    ensures high < x ==> r == high
  {
    Min(high, Max(low, x))
  }

  /** The built-in `round`: the nearest integer, ties going to the even one. */
  function RoundHalfEven(x: real): (n: int)
    ensures -0.5 <= x - n as real <= 0.5
    ensures x - n as real == 0.5 || x - n as real == -0.5 ==> n % 2 == 0
  {
    var f := x.Floor;
    var d := x - f as real;
    if d < 0.5 then f
    else if d > 0.5 then f + 1
    else if f % 2 == 0 then f else f + 1
  }

  lemma RoundMonotone(x: real, y: real)
    requires x <= y
    ensures RoundHalfEven(x) <= RoundHalfEven(y)
  {
  }

  lemma RoundBetween(x: real, low: int, high: int)
    requires low as real <= x <= high as real
    ensures low <= RoundHalfEven(x) <= high
  {
    RoundOfInteger(low);
    RoundOfInteger(high);
    RoundMonotone(low as real, x);
    RoundMonotone(x, high as real);
  }

  lemma RoundOfInteger(n: int)
    ensures RoundHalfEven(n as real) == n
  {
  }
}
