/** The guard that suspends entries while the account is below its own time-weighted average. */
module EquityGuards {

  datatype Sample = Sample(at: int, equity: real)

  ghost predicate InOrder(samples: seq<Sample>) {
    forall i, j :: 0 <= i < j < |samples| ==> samples[i].at <= samples[j].at
  }

  /** The account value in force at a moment: that of the last sample taken by then. */
  function EquityAt(samples: seq<Sample>, t: int): real
    requires samples != []
  {
    if |samples| == 1 || samples[|samples| - 1].at <= t then samples[|samples| - 1].equity
    else EquityAt(samples[..|samples| - 1], t)
  }

  /** The integral of the account value, second by second, over [from, until). */
  function Area(samples: seq<Sample>, from: int, until: int): real
    requires samples != []
    decreases until - from
  {
    if until <= from then 0.0 else Area(samples, from, until - 1) + EquityAt(samples, until - 1)
  }

  lemma {:induction false} InForce(samples: seq<Sample>, i: nat, t: int)
    requires 0 < i <= |samples| && InOrder(samples)
    requires samples[i - 1].at <= t && (i < |samples| ==> t < samples[i].at)
    ensures EquityAt(samples, t) == samples[i - 1].equity
    decreases |samples|
  {
    if i < |samples| {
      assert samples[i].at <= samples[|samples| - 1].at;
      InForce(samples[..|samples| - 1], i, t);
    }
  }

  function Weighted(value: real, seconds: int): real {
    value * seconds as real
  }

  lemma WeightedStep(value: real, seconds: int)
    ensures Weighted(value, seconds + 1) == Weighted(value, seconds) + value
    ensures Weighted(value, 0) == 0.0
  {
    var n := seconds as real;
    assert (seconds + 1) as real == n + 1.0;
    assert value * (n + 1.0) == value * n + value;
  }

  lemma {:induction false} AreaOfStep(samples: seq<Sample>, from: int, a: int, b: int, i: nat)
    requires 0 < i <= |samples| && InOrder(samples) && from <= a <= b
    requires samples[i - 1].at <= a && (i < |samples| ==> b <= samples[i].at)
    ensures Area(samples, from, b) == Area(samples, from, a) + Weighted(samples[i - 1].equity, b - a)
    ensures a == b ==> Weighted(samples[i - 1].equity, b - a) == 0.0
    decreases b - a
  {
    if a < b {
      AreaOfStep(samples, from, a, b - 1, i);
      InForce(samples, i, b - 1);
    }
    WeightedStep(samples[i - 1].equity, b - a - 1);
  }

  /** An average over time lies between the smallest and the largest value in force. */
  lemma {:induction false} MeanIsBetween(samples: seq<Sample>, from: int, until: int, lo: real, hi: real)
    requires samples != [] && from <= until
    requires forall t :: from <= t < until ==> lo <= EquityAt(samples, t) <= hi
    ensures lo * (until - from) as real <= Area(samples, from, until) <= hi * (until - from) as real
    decreases until - from
  {
    if from < until {
      MeanIsBetween(samples, from, until - 1, lo, hi);
      WeightedStep(lo, until - 1 - from);
      WeightedStep(hi, until - 1 - from);
    }
  }

  /** Whether the guard has seen enough of the account to judge it. */
  predicate CanJudge(samples: seq<Sample>, window: int, at: int) {
    window > 0 && samples != [] && samples[0].at <= at - window
  }

  /** With enough history an entry is allowed exactly when the account is at or above its mean value
      over the window, each value weighted by how long it was in force. */
  ghost predicate Allowed(samples: seq<Sample>, window: int, at: int, equity: real) {
    CanJudge(samples, window, at) ==> equity >= Area(samples, at - window, at) / window as real
  }

  class EquityGuard {
    const window: int
    var samples: seq<Sample>

    constructor (window: int)
      ensures this.window == window && samples == []
    {
      this.window := window;
      samples := [];
    }

    /** Marks the account value from this moment on. */
    method Record(at: int, equity: real)
      modifies this`samples
      ensures samples == if window <= 0 then old(samples) else old(samples) + [Sample(at, equity)]
    {
      if window <= 0 {
        return;
      }
      samples := samples + [Sample(at, equity)];
    }

    method Allows(at: int, equity: real) returns (allowed: bool)
      requires InOrder(samples)
      ensures allowed <==> Allowed(samples, window, at, equity)
    {
      if window <= 0 || |samples| == 0 {
        return true;
      }
      hide Weighted, EquityAt;
      var from := at - window;
      if samples[0].at > from {
        return true;
      }
      var area, span, previous, value := 0.0, 0, from, samples[0].equity;
      var i := 0;
      while i < |samples|
        invariant 0 <= i <= |samples| && from <= previous <= at
        invariant i > 0 ==> value == samples[i - 1].equity && samples[i - 1].at <= previous
        invariant i > 0 && samples[i - 1].at > from ==> previous == samples[i - 1].at
        invariant previous == from || (i > 0 && previous == samples[i - 1].at)
        invariant i < |samples| ==> previous <= samples[i].at || previous == from
        invariant span == previous - from && area == Area(samples, from, previous)
      {
        var sample := samples[i];
        if sample.at <= from {
          value := sample.equity;
        } else if sample.at > at {
          break;
        } else {
          var elapsed := sample.at - previous;
          AreaOfStep(samples, from, previous, sample.at, i);
          area := area + Weighted(value, elapsed);
          span := span + elapsed;
          previous, value := sample.at, sample.equity;
        }
        i := i + 1;
      }
      var elapsed := at - previous;
      AreaOfStep(samples, from, previous, at, i);
      if elapsed > 0 {
        area := area + Weighted(value, elapsed);
        span := span + elapsed;
      }
      if span <= 0 {
        return true;
      }
      return equity >= area / span as real;
    }
  }
}
