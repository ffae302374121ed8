/** Why a composed account takes a trade or refuses it, said on the trades that came before. */
module PortfolioRules {
  import opened EquityGuards
  import opened Portfolio
  import opened TradeOrder

  /** How many of the trades taken so far close after a moment. */
  function StillOpen(entries: seq<Entry>, at: int): nat {
    if entries == [] then 0
    else StillOpen(entries[..|entries| - 1], at) + (if entries[|entries| - 1].trade.closedAt > at then 1 else 0)
  }

  /** What the account is worth once everything that closed by a moment has settled. */
  ghost function Worth(entries: seq<Entry>, at: int): real {
    STARTING_EQUITY + SumClosedBy(entries, at)
  }

  /** The account's worth summed second by second over [from, until). */
  ghost function WorthOver(entries: seq<Entry>, from: int, until: int): real
    decreases until - from
  {
    if until <= from then 0.0 else WorthOver(entries, from, until - 1) + Worth(entries, until - 1)
  }

  /** The account has lived through a whole window and is worth less than it was on average over it. */
  ghost predicate BelowItsMean(entries: seq<Entry>, from: int, window: int, at: int) {
    && window > 0 && from + window <= at
    && Worth(entries, at) * window as real < WorthOver(entries, at - window, at)
  }

  /** A trade is refused by a full book first, then by an account below its mean, then for want of a margin to
      post, and taken otherwise. */
  ghost predicate RuledByAccount(o: Ruling, before: seq<Entry>, from: int, slots: int, window: int, constant: real) {
    var at := o.trade.openedAt;
    var share := if constant > 0.0 then constant else o.trade.allocationPct;
    match o.verdict
    case BookFull => StillOpen(before, at) >= slots
    case Suspended => StillOpen(before, at) < slots && BelowItsMean(before, from, window, at)
    case NoMargin => StillOpen(before, at) < slots && !BelowItsMean(before, from, window, at) && Times(Worth(before, at), share) <= 0.0
    case Accepted => StillOpen(before, at) < slots && !BelowItsMean(before, from, window, at) && Times(Worth(before, at), share) > 0.0
  }

  // ---------- the settled trades at an opening ----------

  /** Exactly the trades closed by a moment have settled, each once and in order of closing. */
  ghost predicate SettledBy(entries: seq<Entry>, done: seq<nat>, at: int) {
    && DistinctIndices(done) && SettledInOrder(entries, done)
    && forall k :: 0 <= k < |entries| ==> (k in done <==> entries[k].trade.closedAt <= at)
  }

  lemma {:induction false} UndoneIsRest(entries: seq<Entry>, done: seq<nat>)
    requires DistinctIndices(done) && forall i :: 0 <= i < |done| ==> done[i] < |entries|
    ensures Undone(entries, Done(done)) + |done| == |entries|
    decreases |done|
  {
    if done == [] {
      assert Done(done) == {};
      NothingDone(entries);
    } else {
      var front, k := done[..|done| - 1], done[|done| - 1];
      assert done == front + [k];
      UndoneIsRest(entries, front);
      assert Done(done) == Done(front) + {k};
      UndoneLess(entries, Done(front), k);
    }
  }

  lemma {:induction false} NothingDone(entries: seq<Entry>)
    ensures Undone(entries, {}) == |entries|
  {
    if entries != [] {
      NothingDone(entries[..|entries| - 1]);
    }
  }

  lemma {:induction false} UndoneAreOpen(entries: seq<Entry>, done: set<nat>, at: int)
    requires forall k :: 0 <= k < |entries| ==> (k in done <==> entries[k].trade.closedAt <= at)
    ensures Undone(entries, done) == StillOpen(entries, at)
  {
    if entries != [] {
      UndoneAreOpen(entries[..|entries| - 1], done, at);
    }
  }

  lemma {:induction false} EquityIsSum(entries: seq<Entry>, done: seq<nat>)
    requires DistinctIndices(done) && forall i :: 0 <= i < |done| ==> done[i] < |entries|
    ensures EquityAfter(entries, done) == STARTING_EQUITY + SumDone(entries, Done(done))
    decreases |done|
  {
    if done == [] {
      assert Done(done) == {};
      NothingSettled(entries);
    } else {
      var front, k := done[..|done| - 1], done[|done| - 1];
      assert done == front + [k];
      EquityIsSum(entries, front);
      assert Done(done) == Done(front) + {k};
      SumOfOneMore(entries, Done(front), k);
    }
  }

  lemma {:induction false} NothingSettled(entries: seq<Entry>)
    ensures SumDone(entries, {}) == 0.0
  {
    if entries != [] {
      NothingSettled(entries[..|entries| - 1]);
    }
  }

  // ---------- the guard's samples are the account's worth ----------

  lemma LastInForce(before: seq<Sample>, last: Sample, t: int)
    ensures last.at <= t ==> EquityAt(before + [last], t) == last.equity
    ensures last.at > t && before != [] ==> EquityAt(before + [last], t) == EquityAt(before, t)
  {
    assert (before + [last])[..|before|] == before;
  }

  lemma StartIsWorth(entries: seq<Entry>, t: int)
    requires forall k :: 0 <= k < |entries| ==> entries[k].trade.closedAt > t
    ensures Worth(entries, t) == STARTING_EQUITY
  {
    hide SumClosedBy;
    DoneIsClosedBy(entries, {}, t);
    NothingSettled(entries);
  }

  lemma AllDoneBy(entries: seq<Entry>, done: seq<nat>, t: int)
    requires done != [] && SettledInOrder(entries, done) && entries[done[|done| - 1]].trade.closedAt <= t
    ensures forall k :: k in done ==> k < |entries| && entries[k].trade.closedAt <= t
  {
    forall k | k in done
      ensures k < |entries| && entries[k].trade.closedAt <= t
    {
      var i :| 0 <= i < |done| && done[i] == k;
      if i < |done| - 1 {
        assert entries[done[i]].trade.closedAt <= entries[done[|done| - 1]].trade.closedAt;
      }
    }
  }

  lemma AllSettledIsWorth(entries: seq<Entry>, done: seq<nat>, t: int)
    requires done != [] && DistinctIndices(done) && SettledInOrder(entries, done) && entries[done[|done| - 1]].trade.closedAt <= t
    requires forall k :: 0 <= k < |entries| && entries[k].trade.closedAt <= t ==> k in done
    ensures EquityAfter(entries, done) == Worth(entries, t)
  {
    hide SumClosedBy, EquityAfter;
    AllDoneBy(entries, done, t);
    DoneIsClosedBy(entries, Done(done), t);
    EquityIsSum(entries, done);
  }

  /** At every moment up to an opening, the guard's sample in force is what the account was worth. */
  lemma {:induction false} SampleIsWorth(entries: seq<Entry>, done: seq<nat>, from: int, window: int, t: int)
    requires window > 0 && DistinctIndices(done) && SettledInOrder(entries, done)
    requires forall k :: 0 <= k < |entries| && entries[k].trade.closedAt <= t ==> k in done
    ensures SamplesAfter(entries, done, from, window) != []
    ensures EquityAt(SamplesAfter(entries, done, from, window), t) == Worth(entries, t)
    decreases |done|
  {
    hide SumClosedBy, EquityAfter, Worth;
    if done == [] {
      StartIsWorth(entries, t);
    } else {
      var front, k := done[..|done| - 1], done[|done| - 1];
      var before, last := SamplesAfter(entries, front, from, window), Sample(entries[k].trade.closedAt, EquityAfter(entries, done));
      assert SamplesAfter(entries, done, from, window) == before + [last];
      assert done == front + [k];
      hide SamplesAfter;
      if entries[k].trade.closedAt <= t {
        AllSettledIsWorth(entries, done, t);
        LastInForce(before, last, t);
      } else {
        SampleIsWorth(entries, front, from, window, t);
        LastInForce(before, last, t);
      }
    }
  }

  lemma {:induction false} AreaIsWorth(entries: seq<Entry>, done: seq<nat>, from: int, window: int, a: int, b: int, at: int)
    requires window > 0 && b <= at && SettledBy(entries, done, at)
    ensures SamplesAfter(entries, done, from, window) != []
    ensures Area(SamplesAfter(entries, done, from, window), a, b) == WorthOver(entries, a, b)
    decreases b - a
  {
    hide SamplesAfter, Worth, EquityAt;
    SampleIsWorth(entries, done, from, window, b - 1);
    if a < b {
      AreaIsWorth(entries, done, from, window, a, b - 1, at);
    }
  }

  lemma {:induction false} FirstSample(entries: seq<Entry>, done: seq<nat>, from: int, window: int)
    requires window > 0 && forall i :: 0 <= i < |done| ==> done[i] < |entries|
    ensures SamplesAfter(entries, done, from, window) != [] && SamplesAfter(entries, done, from, window)[0].at == from
    decreases |done|
  {
    if done != [] {
      FirstSample(entries, done[..|done| - 1], from, window);
    }
  }

  lemma GuardMeans(entries: seq<Entry>, done: seq<nat>, from: int, window: int, at: int)
    requires SettledBy(entries, done, at)
    ensures Allowed(SamplesAfter(entries, done, from, window), window, at, Worth(entries, at)) <==> !BelowItsMean(entries, from, window, at)
  {
    hide SamplesAfter, Area, WorthOver, Worth, SettledBy;
    if window > 0 {
      SettledIndices(entries, done, at);
      FirstSample(entries, done, from, window);
      AreaIsWorth(entries, done, from, window, at - window, at, at);
      BelowMeans(SamplesAfter(entries, done, from, window), window, at, Worth(entries, at), WorthOver(entries, at - window, at));
    }
  }

  lemma SettledIndices(entries: seq<Entry>, done: seq<nat>, at: int)
    requires SettledBy(entries, done, at)
    ensures forall i :: 0 <= i < |done| ==> done[i] < |entries|
  {
  }

  lemma BelowMeans(samples: seq<Sample>, window: int, at: int, value: real, area: real)
    requires window > 0 && samples != [] && Area(samples, at - window, at) == area
    ensures Allowed(samples, window, at, value) <==> samples[0].at + window > at || value * window as real >= area
  {
    hide Area;
    MeanMeans(value, area, window);
  }

  lemma MeanMeans(value: real, area: real, window: int)
    requires window > 0
    ensures value >= area / window as real <==> !(value * window as real < area)
  {
    var n := window as real;
    assert area / n * n == area;
    assert (value - area / n) * n == value * n - area;
  }

  // ---------- every offer ----------

  lemma MarginHasSign(trade: PortfolioTrade, equity: real, constant: real)
    ensures MarginOf(trade, equity, constant) <= 0.0 <==> Times(equity, if constant > 0.0 then constant else trade.allocationPct) <= 0.0
  {
    assert ShareOf(trade, constant) == if constant > 0.0 then constant else trade.allocationPct;
  }

  lemma VerdictMeans(o: Ruling, before: seq<Entry>, done: seq<nat>, from: int, slots: int, window: int, constant: real)
    requires SettledBy(before, done, o.trade.openedAt)
    requires o.verdict == RulingOn(o.trade, |before| - |done|, SamplesAfter(before, done, from, window), EquityAfter(before, done), slots, window, constant)
    ensures RuledByAccount(o, before, from, slots, window, constant)
  {
    var at := o.trade.openedAt;
    UndoneIsRest(before, done);
    UndoneAreOpen(before, Done(done), at);
    EquityIsSum(before, done);
    DoneIsClosedBy(before, Done(done), at);
    GuardMeans(before, done, from, window, at);
    hide Undone, StillOpen, SumDone, SumClosedBy, SamplesAfter, Allowed, BelowItsMean, SettledBy, EquityAfter, MarginOf, Times, Done;
    assert EquityAfter(before, done) == Worth(before, at);
    hide Worth;
    MarginHasSign(o.trade, Worth(before, at), constant);
  }

  /** Every trade offered to a composed account was ruled on by the trades taken before it: by how many of them
      were still open, what the closed ones had made of the account and how that compares with its mean. */
  lemma EveryRulingIsTheAccounts(trades: seq<PortfolioTrade>, offers: seq<Ruling>, entries: seq<Entry>, refused: seq<PortfolioTrade>,
                                 order: seq<nat>, from: int, slots: int, window: int, constant: real)
    requires Accounted(trades, entries, refused, order, slots, constant)
    requires RuledOn(trades, offers, entries, order, from, slots, window, constant)
    ensures forall i :: 0 <= i < |offers| ==>
              && AcceptedIn(offers[..i]) <= |entries|
              && RuledByAccount(offers[i], entries[..AcceptedIn(offers[..i])], from, slots, window, constant)
  {
    hide RuledByAccount, AcceptedIn, Offered, Ruled, Accounted;
    forall i | 0 <= i < |offers|
      ensures AcceptedIn(offers[..i]) <= |entries| && RuledByAccount(offers[i], entries[..AcceptedIn(offers[..i])], from, slots, window, constant)
    {
      RulingIsTheAccounts(trades, offers[i], entries, refused, order, from, slots, window, constant);
    }
  }

  lemma RulingIsTheAccounts(trades: seq<PortfolioTrade>, o: Ruling, entries: seq<Entry>, refused: seq<PortfolioTrade>,
                            order: seq<nat>, from: int, slots: int, window: int, constant: real)
    requires Accounted(trades, entries, refused, order, slots, constant)
    requires Ruled(o, entries, order, from, slots, window, constant)
    ensures o.known <= |entries| && RuledByAccount(o, entries[..o.known], from, slots, window, constant)
  {
    hide RuledByAccount, RulingOn, EquityAfter, SamplesAfter, Compounded, SlotsRespected, TradesOf, ResultOf;
    var before, done := entries[..o.known], order[..o.settled];
    assert SettledBy(before, done, o.trade.openedAt);
    VerdictMeans(o, before, done, from, slots, window, constant);
  }
}
