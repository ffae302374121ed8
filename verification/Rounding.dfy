/** Decimal rounding, half away from zero, as the accounting code applies it. */
module Rounding {

  function Nearest(x: real): int {
    if x >= 0.0 then (x + 0.5).Floor else -((0.5 - x).Floor)
  }

  function Round2(x: real): real {
    Nearest(x * 100.0) as real / 100.0
  }

  function Round4(x: real): real {
    Nearest(x * 10000.0) as real / 10000.0
  }

  function Round6(x: real): real {
    Nearest(x * 1000000.0) as real / 1000000.0
  }

  function Round10(x: real): real {
    Nearest(x * 10000000000.0) as real / 10000000000.0
  }

  function Round12(x: real): real {
    Nearest(x * 1000000000000.0) as real / 1000000000000.0
  }

  /** Half a unit in the tenth decimal place. */
  const HALF_ULP10: real := 0.00000000005

  lemma NearestError(x: real)
    ensures -0.5 <= Nearest(x) as real - x <= 0.5
  {
  }

  lemma Round2Error(x: real)
    ensures -0.005 <= Round2(x) - x <= 0.005
  {
    NearestError(x * 100.0);
  }

  lemma Round4Error(x: real)
    ensures -0.00005 <= Round4(x) - x <= 0.00005
  {
    NearestError(x * 10000.0);
  }

  lemma Round6Error(x: real)
    ensures -0.0000005 <= Round6(x) - x <= 0.0000005
  {
    NearestError(x * 1000000.0);
  }

  lemma Round10Error(x: real)
    ensures -HALF_ULP10 <= Round10(x) - x <= HALF_ULP10
  {
    NearestError(x * 10000000000.0);
  }

  /** Nothing lies between a whole number and its rounding. */
  lemma NearestOfWhole(x: real, k: int)
    requires x == k as real
    ensures Nearest(x) == k
  {
  }

  /** A sum of three amounts already rounded to ten places is left alone by a further rounding. */
  lemma Round10OfRoundedSum(a: real, b: real, c: real)
    ensures Round10(Round10(a) - Round10(b) + Round10(c)) == Round10(a) - Round10(b) + Round10(c)
  {
    var i, j, k := Nearest(a * 10000000000.0), Nearest(b * 10000000000.0), Nearest(c * 10000000000.0);
    var sum := Round10(a) - Round10(b) + Round10(c);
    assert sum * 10000000000.0 == (i - j + k) as real;
    NearestOfWhole(sum * 10000000000.0, i - j + k);
  }
}
