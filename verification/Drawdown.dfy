/** The running-peak drawdown of an equity curve and what the figure means. */
module Drawdown {
  import opened Domain
  import opened Reals

  /** What the account remembers between two marks. */
  datatype Tracker = Tracker(peak: real, maxPct: real)

  /** One mark: a new peak records no drawdown, anything else is measured from the standing peak. */
  function Record(t: Tracker, equity: real): Tracker {
    if equity > t.peak then t.(peak := equity)
    else if t.peak > 0.0 then
      var pct := (t.peak - equity) / t.peak * 100.0;
      if pct > t.maxPct then t.(maxPct := pct) else t
    else t
  }

  function RecordAll(initial: Positive, marks: seq<real>): Tracker {
    if marks == [] then Tracker(initial, 0.0)
    else Record(RecordAll(initial, marks[..|marks| - 1]), marks[|marks| - 1])
  }

  /** The account value standing before mark i; index 0 is the initial capital. */
  function At(initial: real, marks: seq<real>, i: nat): real
    requires i <= |marks|
  {
    if i == 0 then initial else marks[i - 1]
  }

  /** The loss between two moments of the curve in percent of the earlier one. */
  function LossPct(from: Positive, to: real): real {
    (from - to) / from * 100.0
  }

  /** p is the highest value the curve reached up to and including index j. */
  ghost predicate IsPeak(initial: real, marks: seq<real>, j: nat, p: real)
    requires j <= |marks|
  {
    && (exists i :: 0 <= i <= j && p == At(initial, marks, i))
    && (forall i :: 0 <= i <= j ==> At(initial, marks, i) <= p)
  }

  /** The curve really fell by d percent from a running peak at some moment. */
  ghost predicate Attained(initial: real, marks: seq<real>, d: real) {
    exists j, p: Positive :: 0 <= j <= |marks| && IsPeak(initial, marks, j, p)
                             && d == LossPct(p, At(initial, marks, j))
  }

  /** At no moment was the curve more than d percent below its running peak. */
  ghost predicate Bounding(initial: real, marks: seq<real>, d: real) {
    forall j, p: Positive :: 0 <= j <= |marks| && IsPeak(initial, marks, j, p)
                             ==> LossPct(p, At(initial, marks, j)) <= d
  }

  // ---------- the tracker computes the specification ----------

  lemma {:induction false} RecordAllIsPeak(initial: Positive, marks: seq<real>)
    ensures IsPeak(initial, marks, |marks|, RecordAll(initial, marks).peak)
  {
    var n := |marks|;
    if n == 0 {
      assert At(initial, marks, 0) == initial;
    } else {
      var before := marks[..n - 1];
      RecordAllIsPeak(initial, before);
      assert forall i :: 0 <= i <= n - 1 ==> At(initial, before, i) == At(initial, marks, i);
      var p := RecordAll(initial, marks).peak;
      if p == marks[n - 1] {
        assert p == At(initial, marks, n);
      } else {
        var i :| 0 <= i <= n - 1 && p == At(initial, before, i);
        assert p == At(initial, marks, i);
      }
    }
  }

  lemma PeakIsUnique(initial: real, marks: seq<real>, j: nat, p: real, q: real)
    requires j <= |marks| && IsPeak(initial, marks, j, p) && IsPeak(initial, marks, j, q)
    ensures p == q
  {
  }

  lemma PeakOfPrefix(initial: real, marks: seq<real>, j: nat, p: real)
    requires j < |marks|
    ensures IsPeak(initial, marks, j, p) <==> IsPeak(initial, marks[..|marks| - 1], j, p)
    ensures At(initial, marks, j) == At(initial, marks[..|marks| - 1], j)
  {
    var before := marks[..|marks| - 1];
    assert forall i :: 0 <= i <= j ==> At(initial, before, i) == At(initial, marks, i);
  }

  lemma NoMarksNoLoss(initial: Positive)
    ensures Attained(initial, [], 0.0) && Bounding(initial, [], 0.0)
  {
    assert IsPeak(initial, [], 0, initial) by {
      assert At(initial, [], 0) == initial;
    }
    NoLossFromItself(initial);
    forall j, p: Positive | 0 <= j <= 0 && IsPeak(initial, [], j, p)
      ensures LossPct(p, At(initial, [], j)) <= 0.0
    {
      PeakIsUnique(initial, [], 0, p, initial);
    }
  }

  lemma NoLossFromItself(p: Positive)
    ensures LossPct(p, p) == 0.0
  {
  }

  /** The figure the account reports is the largest loss from a running peak over the whole curve. */
  lemma {:induction false} RecordAllIsPeakDrawdown(initial: Positive, marks: seq<real>)
    ensures RecordAll(initial, marks).peak >= initial && RecordAll(initial, marks).maxPct >= 0.0
    ensures Attained(initial, marks, RecordAll(initial, marks).maxPct)
    ensures Bounding(initial, marks, RecordAll(initial, marks).maxPct)
  {
    if marks == [] {
      NoMarksNoLoss(initial);
    } else {
      var before := marks[..|marks| - 1];
      RecordAllIsPeakDrawdown(initial, before);
      BoundingStep(initial, marks, RecordAll(initial, before).maxPct);
      AttainedStep(initial, marks, RecordAll(initial, before).maxPct);
    }
  }

  lemma RecordCovers(t: Tracker, mark: real)
    requires t.peak > 0.0 && t.maxPct >= 0.0
    ensures Record(t, mark).maxPct >= t.maxPct && Record(t, mark).peak >= t.peak
    ensures LossPct(Record(t, mark).peak, mark) <= Record(t, mark).maxPct
  {
    if mark > t.peak {
      NoLossFromItself(mark);
    }
  }

  lemma BoundingStep(initial: Positive, marks: seq<real>, d: real)
    requires marks != [] && Bounding(initial, marks[..|marks| - 1], d)
    requires RecordAll(initial, marks[..|marks| - 1]) == Tracker(RecordAll(initial, marks[..|marks| - 1]).peak, d)
    requires d >= 0.0 && RecordAll(initial, marks[..|marks| - 1]).peak >= initial
    ensures Bounding(initial, marks, RecordAll(initial, marks).maxPct)
  {
    RecordAllIsPeak(initial, marks);
    var t, last := RecordAll(initial, marks[..|marks| - 1]), marks[|marks| - 1];
    assert RecordAll(initial, marks) == Record(t, last) && At(initial, marks, |marks|) == last;
    RecordCovers(t, last);
    hide RecordAll, Record, LossPct, IsPeak, At;
    forall j, p: Positive | 0 <= j <= |marks| && IsPeak(initial, marks, j, p)
      ensures LossPct(p, At(initial, marks, j)) <= RecordAll(initial, marks).maxPct
    {
      if j < |marks| {
        PeakOfPrefix(initial, marks, j, p);
      } else {
        PeakIsUnique(initial, marks, j, p, RecordAll(initial, marks).peak);
      }
    }
  }

  lemma AttainedStep(initial: Positive, marks: seq<real>, d: real)
    requires marks != [] && Attained(initial, marks[..|marks| - 1], d)
    requires RecordAll(initial, marks[..|marks| - 1]) == Tracker(RecordAll(initial, marks[..|marks| - 1]).peak, d)
    requires RecordAll(initial, marks[..|marks| - 1]).peak >= initial
    ensures Attained(initial, marks, RecordAll(initial, marks).maxPct)
  {
    var before := marks[..|marks| - 1];
    if RecordAll(initial, marks).maxPct == d {
      var j, p: Positive :| 0 <= j <= |before| && IsPeak(initial, before, j, p)
                            && d == LossPct(p, At(initial, before, j));
      PeakOfPrefix(initial, marks, j, p);
    } else {
      RecordAllIsPeak(initial, marks);
      assert At(initial, marks, |marks|) == marks[|marks| - 1];
    }
  }

  // ---------- running peak against every earlier moment ----------

  lemma LossPctFromHigherPeak(low: Positive, high: Positive, e: real)
    requires low <= high
    ensures LossPct(low, e) <= LossPct(high, e) <==> e >= 0.0 || low == high
  {
    var x, y := (low - e) / low, (high - e) / high;
    assert (y - x) * low * high == e * (high - low) by {
      assert x * low == low - e && y * high == high - e;
      assert (y - x) * low * high == (y * high) * low - (x * low) * high;
    }
    ProductSign(y - x, low * high);
    ProductSign(e, high - low);
  }

  /** Measured pair by pair the drawdown never exceeds the running-peak figure, provided the later
      value is not negative; the figure itself is one of those pairs. */
  lemma PairwiseDrawdown(initial: Positive, marks: seq<real>)
    ensures var d := RecordAll(initial, marks).maxPct;
            && (forall i, j :: 0 <= i <= j <= |marks| && At(initial, marks, i) > 0.0 && At(initial, marks, j) >= 0.0
                               ==> LossPct(At(initial, marks, i), At(initial, marks, j)) <= d)
            && (exists i, j :: 0 <= i <= j <= |marks| && At(initial, marks, i) > 0.0
                               && d == LossPct(At(initial, marks, i), At(initial, marks, j)))
  {
    RecordAllIsPeakDrawdown(initial, marks);
    var d := RecordAll(initial, marks).maxPct;
    forall i, j | 0 <= i <= j <= |marks| && At(initial, marks, i) > 0.0 && At(initial, marks, j) >= 0.0
      ensures LossPct(At(initial, marks, i), At(initial, marks, j)) <= d
    {
      var p := PeakUpTo(initial, marks, j);
      LossPctFromHigherPeak(At(initial, marks, i), p, At(initial, marks, j));
    }
    var j, p: Positive :| 0 <= j <= |marks| && IsPeak(initial, marks, j, p)
                          && d == LossPct(p, At(initial, marks, j));
    var i :| 0 <= i <= j && p == At(initial, marks, i);
  }

  lemma PeakUpTo(initial: Positive, marks: seq<real>, j: nat) returns (p: Positive)
    requires j <= |marks|
    ensures IsPeak(initial, marks, j, p)
  {
    RecordAllIsPeak(initial, marks[..j]);
    assert At(initial, marks[..j], 0) == initial;
    p := RecordAll(initial, marks[..j]).peak;
    assert forall i :: 0 <= i <= j ==> At(initial, marks[..j], i) == At(initial, marks, i);
  }

  /** With a negative mark the two figures part: falling from 2 to -1 is 150% of the peak,
      but the fall from the initial 1 is 200%. */
  lemma NegativeMarksBreakPairwise()
    ensures RecordAll(1.0, [2.0, -1.0]).maxPct == 150.0
    ensures LossPct(At(1.0, [2.0, -1.0], 0), At(1.0, [2.0, -1.0], 2)) == 200.0
  {
    var marks := [2.0, -1.0];
    assert marks[..1] == [2.0] && marks[..1][..0] == [];
    assert RecordAll(1.0, [2.0]) == Tracker(2.0, 0.0);
    assert RecordAll(1.0, marks) == Record(RecordAll(1.0, marks[..1]), -1.0);
  }

  // ---------- more marks can only raise the figure ----------

  /** s can be obtained from t by leaving marks out. */
  ghost predicate Subsequence<T>(s: seq<T>, t: seq<T>)
    decreases |t|
  {
    if s == [] then true
    else if t == [] then false
    else
      || (s[|s| - 1] == t[|t| - 1] && Subsequence(s[..|s| - 1], t[..|t| - 1]))
      || Subsequence(s, t[..|t| - 1])
  }

  ghost predicate Below(s: Tracker, t: Tracker) {
    s.peak <= t.peak && s.maxPct <= t.maxPct
  }

  lemma RecordIsMonotone(s: Tracker, t: Tracker, e: real)
    requires Below(s, t) && s.peak > 0.0 && e >= 0.0
    ensures Below(Record(s, e), Record(t, e)) && Below(t, Record(t, e)) && Record(s, e).peak > 0.0
  {
    if e <= s.peak {
      LossPctFromHigherPeak(s.peak, t.peak, e);
    }
  }

  /** Sampling the curve at more moments can only raise the reported drawdown. */
  lemma {:induction false} MoreMarksRaiseDrawdown(initial: Positive, s: seq<real>, t: seq<real>)
    requires Subsequence(s, t)
    requires forall e :: e in t ==> e >= 0.0
    ensures RecordAll(initial, s).peak > 0.0
    ensures Below(RecordAll(initial, s), RecordAll(initial, t))
    decreases |t|
  {
    if t != [] {
      var last := t[|t| - 1];
      var t' := t[..|t| - 1];
      assert last in t;
      assert forall e :: e in t' ==> e in t;
      if s != [] && s[|s| - 1] == last && Subsequence(s[..|s| - 1], t') {
        MoreMarksRaiseDrawdown(initial, s[..|s| - 1], t');
        RecordIsMonotone(RecordAll(initial, s[..|s| - 1]), RecordAll(initial, t'), last);
      } else {
        MoreMarksRaiseDrawdown(initial, s, t');
        RecordIsMonotone(RecordAll(initial, s), RecordAll(initial, t'), last);
      }
    }
  }
}
