/** The few facts about products and quotients that the proofs need by name. */
module Reals {
  import opened Domain

  lemma Cancel(x: real, y: real, p: Positive)
    requires x * p == y * p
    ensures x == y
  {
    assert (x - y) * p == 0.0;
  }

  lemma QuotientIs(q: real, x: real, p: Positive)
    requires q * p == x
    ensures x / p == q
  {
    Cancel(x / p, q, p);
  }

  lemma MulMonotone(x: real, y: real, p: real)
    requires x <= y && p >= 0.0
    ensures x * p <= y * p
  {
    assert (y - x) * p >= 0.0;
  }

  lemma QuotientMonotone(x: real, y: real, p: Positive)
    requires x <= y
    ensures x / p <= y / p
  {
  }

  lemma ProductSign(x: real, p: real)
    requires p >= 0.0
    ensures p > 0.0 ==> (x * p >= 0.0 <==> x >= 0.0)
    ensures p == 0.0 ==> x * p == 0.0
  {
  }
}
