/** Every position of a whole run, open or closed, is the ride of one fresh position over the bars
    that followed its opening. What is known of rides therefore holds of runs. */
module ReplayRides {
  import opened Domain
  import opened Levels
  import opened OpenTrades
  import opened TradeLedger
  import opened Ride
  import opened FundingClock
  import opened Chandelier
  import opened Replay
  import opened ReplayLedger

  /** The bars from one index up to another that the run does not skip. */
  function Replayed(candles: seq<Candle>, from: nat, end: nat, params: Params): seq<Candle>
    requires end <= |candles|
  {
    if end <= from then []
    else
      var before := Replayed(candles, from, end - 1, params);
      if candles[end - 1].openTime < params.dateFrom then before else before + [candles[end - 1]]
  }

  /** A position as the run admits it at the close of a bar. */
  ghost predicate Origin(p: Position, bar: Candle, params: Params) {
    && Fresh(p) && p.openedAt == bar.closeTime
    && (params.exitMode.TrailingAtr? ==> FreshTrailing(p))
  }

  /** p is what the bars after bar k, up to bar n, made of some position opened on bar k. */
  ghost predicate RodeFrom(origin: Position, k: nat, p: Position, n: nat, candles: seq<Candle>, params: Params, funding: map<int, real>)
    requires n <= |candles|
  {
    && k < n && Origin(origin, candles[k], params)
    && var t := RideBars(Booked(origin, 0.0), Replayed(candles, k + 1, n, params), params, funding);
       t.closedBy.None? && t.booked.position == p
  }

  ghost predicate OpenRide(p: Position, n: nat, candles: seq<Candle>, params: Params, funding: map<int, real>)
    requires n <= |candles|
  {
    exists origin: Position, k: nat :: RodeFrom(origin, k, p, n, candles, params, funding)
  }

  /** c ended the ride of some position opened on bar k, on bar j and not before. */
  ghost predicate EndedRide(origin: Position, k: nat, j: nat, c: Closing, candles: seq<Candle>, params: Params, funding: map<int, real>)
    requires j < |candles|
  {
    && k < j && Origin(origin, candles[k], params) && candles[j].openTime >= params.dateFrom
    && c.at == candles[j].closeTime
    && var before := RideBars(Booked(origin, 0.0), Replayed(candles, k + 1, j, params), params, funding);
       && before.closedBy.None?
       && var t := Update(before.booked, candles[j], params, funding);
          t.closedBy == Some(c.reason) && t.booked.position == c.position
  }

  ghost predicate ClosedRide(c: Closing, n: nat, candles: seq<Candle>, params: Params, funding: map<int, real>)
    requires n <= |candles|
  {
    exists origin: Position, k: nat, j: nat :: 0 <= j < n && EndedRide(origin, k, j, c, candles, params, funding)
  }

  ghost predicate AllRides(s: State, n: nat, candles: seq<Candle>, params: Params, funding: map<int, real>)
    requires n <= |candles|
  {
    OpenRides(s.open, n, candles, params, funding) && ClosedRides(s.closed, n, candles, params, funding)
  }

  ghost predicate OpenRides(open: seq<Position>, n: nat, candles: seq<Candle>, params: Params, funding: map<int, real>)
    requires n <= |candles|
  {
    forall i :: 0 <= i < |open| ==> OpenRide(open[i], n, candles, params, funding)
  }

  ghost predicate ClosedRides(closed: seq<Closing>, n: nat, candles: seq<Candle>, params: Params, funding: map<int, real>)
    requires n <= |candles|
  {
    forall i :: 0 <= i < |closed| ==> ClosedRide(closed[i], n, candles, params, funding)
  }

  // ---------- a bar of the run is a bar of every ride ----------

  lemma RideOneMore(p: Position, n: nat, candles: seq<Candle>, params: Params, funding: map<int, real>, cash: real)
    requires n < |candles| && candles[n].openTime >= params.dateFrom
    requires OpenRide(p, n, candles, params, funding)
    ensures var tick := Update(Booked(p, cash), candles[n], params, funding);
            match tick.closedBy
            case None => OpenRide(tick.booked.position, n + 1, candles, params, funding)
            case Some(reason) => ClosedRide(Closing(tick.booked.position, reason, candles[n].closeTime), n + 1, candles, params, funding)
  {
    hide Update, Origin;
    var origin: Position, k: nat :| RodeFrom(origin, k, p, n, candles, params, funding);
    var bars := Replayed(candles, k + 1, n, params);
    var t := RideBars(Booked(origin, 0.0), bars, params, funding);
    UpdateShift(t.booked, cash - t.booked.cash, candles[n], params, funding);
    assert t.booked == Booked(p, t.booked.cash);
    assert Shift(t.booked, cash - t.booked.cash) == Booked(p, cash);
    assert Replayed(candles, k + 1, n + 1, params) == bars + [candles[n]];
    assert (bars + [candles[n]])[..|bars|] == bars;
    var tick := Update(Booked(p, cash), candles[n], params, funding);
    match tick.closedBy {
      case None => assert RodeFrom(origin, k, tick.booked.position, n + 1, candles, params, funding);
      case Some(reason) =>
        assert EndedRide(origin, k, n, Closing(tick.booked.position, reason, candles[n].closeTime), candles, params, funding);
    }
  }

  lemma {:induction false} SweepRides(cash: real, open: seq<Position>, n: nat, candles: seq<Candle>, params: Params, funding: map<int, real>)
    requires n < |candles| && candles[n].openTime >= params.dateFrom
    requires OpenRides(open, n, candles, params, funding)
    ensures var s := SweepBook(cash, open, candles[n], params, funding);
            && OpenRides(s.survivors, n + 1, candles, params, funding)
            && ClosedRides(s.closed, n + 1, candles, params, funding)
    decreases |open|
  {
    hide Update, OpenRide, ClosedRide;
    if open != [] {
      var front, p := open[..|open| - 1], open[|open| - 1];
      var s := SweepBook(cash, front, candles[n], params, funding);
      var tick := Update(Booked(p, s.cash), candles[n], params, funding);
      assert OpenRides(front, n, candles, params, funding) && OpenRide(p, n, candles, params, funding);
      SweepRides(cash, front, n, candles, params, funding);
      RideOneMore(p, n, candles, params, funding, s.cash);
      hide OpenRides, ClosedRides;
      match tick.closedBy {
        case None => OneMoreOpenRide(s.survivors, tick.booked.position, n + 1, candles, params, funding);
        case Some(reason) =>
          OneMoreClosedRide(s.closed, Closing(tick.booked.position, reason, candles[n].closeTime), n + 1, candles, params, funding);
      }
    }
  }

  lemma OneMoreOpenRide(open: seq<Position>, p: Position, n: nat, candles: seq<Candle>, params: Params, funding: map<int, real>)
    requires n <= |candles| && OpenRides(open, n, candles, params, funding) && OpenRide(p, n, candles, params, funding)
    ensures OpenRides(open + [p], n, candles, params, funding)
  {
    hide OpenRide;
  }

  lemma OneMoreClosedRide(closed: seq<Closing>, c: Closing, n: nat, candles: seq<Candle>, params: Params, funding: map<int, real>)
    requires n <= |candles| && ClosedRides(closed, n, candles, params, funding) && ClosedRide(c, n, candles, params, funding)
    ensures ClosedRides(closed + [c], n, candles, params, funding)
  {
    hide ClosedRide;
  }

  lemma ClosedRidesKeep(closed: seq<Closing>, n: nat, candles: seq<Candle>, params: Params, funding: map<int, real>)
    requires n < |candles| && ClosedRides(closed, n, candles, params, funding)
    ensures ClosedRides(closed, n + 1, candles, params, funding)
  {
    hide EndedRide;
    forall i | 0 <= i < |closed|
      ensures ClosedRide(closed[i], n + 1, candles, params, funding)
    {
      assert ClosedRide(closed[i], n, candles, params, funding);
      var origin: Position, k: nat, j: nat :| 0 <= j < n && EndedRide(origin, k, j, closed[i], candles, params, funding);
    }
  }

  lemma SkippedBar(open: seq<Position>, n: nat, candles: seq<Candle>, params: Params, funding: map<int, real>)
    requires n < |candles| && candles[n].openTime < params.dateFrom
    requires OpenRides(open, n, candles, params, funding)
    ensures OpenRides(open, n + 1, candles, params, funding)
  {
    hide Origin, RideBars;
    forall i | 0 <= i < |open|
      ensures OpenRide(open[i], n + 1, candles, params, funding)
    {
      var origin: Position, k: nat :| RodeFrom(origin, k, open[i], n, candles, params, funding);
      assert Replayed(candles, k + 1, n + 1, params) == Replayed(candles, k + 1, n, params);
      assert RodeFrom(origin, k, open[i], n + 1, candles, params, funding);
    }
  }

  lemma TrailingPlan(signal: Signal, entry: real, feeType: FeeType, candle: Candle, params: Params,
                     a: Account, open: seq<Position>)
    ensures var r := OpenTradeAt(signal, entry, feeType, candle, params, a, open);
            r.Some? ==> Origin(r.value.position, candle, params)
  {
    hide QuantityFor, MarginFor, EntryFee, AvailableMargin, NextFundingAfter, LadderTargets;
    AdmittedIsFresh(signal, entry, feeType, candle, params, a, open);
    if params.exitMode.TrailingAtr? && signal.atr > 0.0 {
      var mult := if params.trailingAtrMult <= 0.0 then DEFAULT_TRAILING_ATR_MULT else params.trailingAtrMult;
      assert signal.atr * mult > 0.0;
    }
  }

  lemma AdmittedRides(s: State, signal: Signal, entry: real, feeType: FeeType, n: nat, candles: seq<Candle>, params: Params, funding: map<int, real>)
    requires n < |candles| && AllRides(s, n + 1, candles, params, funding)
    ensures AllRides(Admit(s, OpenTradeAt(signal, entry, feeType, candles[n], params, s.account, s.open), candles[n], params),
                     n + 1, candles, params, funding)
  {
    hide OpenTradeAt, Origin, MarkToMarket, ClosedRide;
    TrailingPlan(signal, entry, feeType, candles[n], params, s.account, s.open);
    var r := OpenTradeAt(signal, entry, feeType, candles[n], params, s.account, s.open);
    if r.Some? {
      var p := r.value.position;
      assert Replayed(candles, n + 1, n + 1, params) == [];
      assert RodeFrom(p, n, p, n + 1, candles, params, funding);
    }
  }

  lemma StepRides(s: State, n: nat, candles: seq<Candle>, inputs: Inputs, params: Params, policy: Policy)
    requires n < |candles| && AllRides(s, n, candles, params, inputs.funding)
    ensures AllRides(Step(s, n, candles[n], inputs, params, policy), n + 1, candles, params, inputs.funding)
  {
    hide SweepBook, Admit, OpenTradeAt, Fills, Shifted, Decide, ViewAt, RestingLimit, MarketEntry, MarkToMarket,
         OpenRide, ClosedRide;
    if candles[n].openTime < params.dateFrom {
      SkippedBar(s.open, n, candles, params, inputs.funding);
      ClosedRidesKeep(s.closed, n, candles, params, inputs.funding);
    } else {
      var candle := candles[n];
      var marked := MarkExtremes(s, candle, params);
      SweepRides(marked.account.cash, marked.open, n, candles, params, inputs.funding);
      ClosedRidesKeep(s.closed, n, candles, params, inputs.funding);
      var settled := Settle(marked, candle, params, inputs.funding);
      assert AllRides(settled, n + 1, candles, params, inputs.funding);
      if settled.pending.Some? {
        AdmittedRides(settled, Shifted(settled.pending.value), settled.pending.value.limit, Maker, n, candles, params, inputs.funding);
      }
      var filled := FillPending(settled, n, candle, params);
      assert AllRides(filled, n + 1, candles, params, inputs.funding);
      var counted := filled.(lastSignalIndex := n, analysisPoints := filled.analysisPoints + 1);
      var decision := Decide(policy, ViewAt(inputs, candle.closeTime, filled.open, params), params.timeframe);
      if decision.Some? {
        AdmittedRides(counted, decision.value, MarketEntry(decision.value, candle, params), Taker, n, candles, params, inputs.funding);
      }
      hide Settle, MarkExtremes;
    }
  }

  /** After every bar of every run, each open position is a ride still under way and each closed
      trade a ride that ended on an earlier bar. */
  lemma {:induction false} RunIsRides(n: nat, inputs: Inputs, params: Params, policy: Policy)
    requires n <= |SeriesOf(inputs.series, params.timeframe)|
    ensures AllRides(RunTo(n, inputs, params, policy), n, SeriesOf(inputs.series, params.timeframe), params, inputs.funding)
  {
    hide Step, OpenRide, ClosedRide;
    if n > MIN_CANDLES {
      RunIsRides(n - 1, inputs, params, policy);
      StepRides(RunTo(n - 1, inputs, params, policy), n - 1, SeriesOf(inputs.series, params.timeframe), inputs, params, policy);
    }
  }

  // ---------- consequences for whole runs ----------

  ghost predicate StrictlyLater(candles: seq<Candle>) {
    forall i, j :: 0 <= i < j < |candles| ==> candles[i].closeTime < candles[j].closeTime
  }

  /** Every trade a bar closed was closed strictly after it was opened. */
  lemma TradesCloseAfterOpening(n: nat, inputs: Inputs, params: Params, policy: Policy, c: Closing)
    requires n <= |SeriesOf(inputs.series, params.timeframe)|
    requires StrictlyLater(SeriesOf(inputs.series, params.timeframe))
    requires c in RunTo(n, inputs, params, policy).closed
    ensures c.position.openedAt < c.at
  {
    hide RunTo, RideBars, Update;
    RunIsRides(n, inputs, params, policy);
    var candles := SeriesOf(inputs.series, params.timeframe);
    var origin: Position, k: nat, j: nat :| 0 <= j < n && EndedRide(origin, k, j, c, candles, params, inputs.funding);
    EndedRideTerms(origin, k, j, c, candles, params, inputs.funding);
  }

  lemma EndedRideTerms(origin: Position, k: nat, j: nat, c: Closing, candles: seq<Candle>, params: Params, funding: map<int, real>)
    requires j < |candles| && EndedRide(origin, k, j, c, candles, params, funding)
    ensures SameTrade(origin, c.position) && Finished(c.position)
  {
    hide Update, Sound;
    FreshIsSound(origin);
    var before := RideBars(Booked(origin, 0.0), Replayed(candles, k + 1, j, params), params, funding);
    RideConserves(Booked(origin, 0.0), Replayed(candles, k + 1, j, params), params, funding);
    UpdateConserves(before.booked, candles[j], params, funding);
  }

  lemma {:induction false} SeenIsLastClose(candles: seq<Candle>, from: nat, end: nat, params: Params, at: int)
    requires from <= end <= |candles| && StrictlyLater(candles)
    requires forall i :: from <= i < end ==> at < candles[i].closeTime
    ensures var bars := Replayed(candles, from, end, params);
            && (bars == [] ==> Seen(at, bars) == at)
            && (bars != [] ==> Seen(at, bars) == bars[|bars| - 1].closeTime)
            && (forall b :: b in bars ==> exists i :: from <= i < end && candles[i] == b)
    decreases end
  {
    if from < end {
      SeenIsLastClose(candles, from, end - 1, params, at);
      var before := Replayed(candles, from, end - 1, params);
      if candles[end - 1].openTime >= params.dateFrom {
        assert (before + [candles[end - 1]])[..|before|] == before;
        if before != [] {
          assert before[|before| - 1] in before;
        }
      }
    }
  }

  /** Over whole runs, a closed trade shows funding at exactly the payable settlements after its
      opening and up to its close: none is missed, none charged twice. */
  lemma ClosedTradesPaidFundingOnce(n: nat, inputs: Inputs, params: Params, policy: Policy, c: Closing)
    requires n <= |SeriesOf(inputs.series, params.timeframe)|
    requires StrictlyLater(SeriesOf(inputs.series, params.timeframe))
    requires c in RunTo(n, inputs, params, policy).closed
    ensures FundingTimes(c.position.executions)
            == Payable(Due(NextFundingAfter(c.position.openedAt), c.at), params, inputs.funding)
  {
    hide RunTo, EndedRide;
    RunIsRides(n, inputs, params, policy);
    var candles := SeriesOf(inputs.series, params.timeframe);
    var origin: Position, k: nat, j: nat :| 0 <= j < n && EndedRide(origin, k, j, c, candles, params, inputs.funding);
    EndedRidePaidFundingOnce(origin, k, j, c, candles, params, inputs.funding);
  }

  lemma EndedRidePaidFundingOnce(origin: Position, k: nat, j: nat, c: Closing, candles: seq<Candle>, params: Params, funding: map<int, real>)
    requires j < |candles| && StrictlyLater(candles) && EndedRide(origin, k, j, c, candles, params, funding)
    ensures FundingTimes(c.position.executions) == Payable(Due(NextFundingAfter(c.position.openedAt), c.at), params, funding)
  {
    EndedRideIsRide(origin, k, j, c, candles, params, funding);
    hide EndedRide, RideBars, Replayed, FundingTimes, Payable, Due, NextFundingAfter, Fresh, Seen, StrictlyLater;
    FundingChargedOnce(Booked(origin, 0.0), Replayed(candles, k + 1, j + 1, params), params, funding);
    SeenThroughLast(candles, k, j, params);
  }

  lemma SeenThroughLast(candles: seq<Candle>, k: nat, j: nat, params: Params)
    requires k < j < |candles| && StrictlyLater(candles)
    requires var bars := Replayed(candles, k + 1, j + 1, params);
             bars != [] && bars[|bars| - 1] == candles[j]
    ensures Seen(candles[k].closeTime, Replayed(candles, k + 1, j + 1, params)) == candles[j].closeTime
  {
    hide Seen, Replayed;
    SeenIsLastClose(candles, k + 1, j + 1, params, candles[k].closeTime);
  }

  /** An ended ride is the ride over all bars up to and including the one that ended it. */
  lemma EndedRideIsRide(origin: Position, k: nat, j: nat, c: Closing, candles: seq<Candle>, params: Params, funding: map<int, real>)
    requires j < |candles| && EndedRide(origin, k, j, c, candles, params, funding)
    ensures var bars := Replayed(candles, k + 1, j + 1, params);
            && bars != [] && bars[|bars| - 1] == candles[j] && c.at == candles[j].closeTime
            && RideBars(Booked(origin, 0.0), bars[..|bars| - 1], params, funding).closedBy.None?
            && RideBars(Booked(origin, 0.0), bars, params, funding).booked.position == c.position
            && Fresh(origin) && k < j && origin.openedAt == candles[k].closeTime && c.position.openedAt == origin.openedAt
  {
    EndedRideTerms(origin, k, j, c, candles, params, funding);
    hide Update, FreshTrailing, Fresh, Finished;
    var before := Replayed(candles, k + 1, j, params);
    var bars := before + [candles[j]];
    assert Replayed(candles, k + 1, j + 1, params) == bars;
    assert bars[..|bars| - 1] == before;
  }

  /** What the clock of a position still open shows after the bars it lived through. */
  lemma OpenRidePaidFundingOnce(p: Position, n: nat, candles: seq<Candle>, params: Params, funding: map<int, real>)
    returns (seen: int)
    requires n <= |candles| && StrictlyLater(candles) && OpenRide(p, n, candles, params, funding)
    ensures FundingTimes(p.executions) == Payable(Due(NextFundingAfter(p.openedAt), seen), params, funding)
    ensures p.nextFundingAt == NextFundingAfter(seen)
    ensures p.openedAt <= seen && n > 0 && seen <= candles[n - 1].closeTime
    ensures Live(p)
  {
    hide Update, FundingTimes, Payable, Due, NextFundingAfter;
    var origin: Position, k: nat :| RodeFrom(origin, k, p, n, candles, params, funding);
    var bars := Replayed(candles, k + 1, n, params);
    FreshIsSound(origin);
    RideConserves(Booked(origin, 0.0), bars, params, funding);
    StillOpenBefore(Booked(origin, 0.0), bars, params, funding);
    FundingChargedOnce(Booked(origin, 0.0), bars, params, funding);
    SeenIsLastClose(candles, k + 1, n, params, origin.openedAt);
    SeenIsAfterOpening(origin.openedAt, bars);
    seen := Seen(origin.openedAt, bars);
    if bars != [] {
      assert bars[|bars| - 1] in bars;
    }
  }

  lemma ForcedCloseBooksDue(p: Position, cash: real, seen: int, last: Candle, params: Params, funding: map<int, real>)
    requires Live(p) && p.openedAt <= seen <= last.closeTime && p.nextFundingAt == NextFundingAfter(seen)
    requires FundingTimes(p.executions) == Payable(Due(NextFundingAfter(p.openedAt), seen), params, funding)
    ensures var q := ForceClose(Booked(p, cash), last, params, funding, END_OF_PERIOD).position;
            && q.openedAt == p.openedAt
            && FundingTimes(q.executions) == Payable(Due(NextFundingAfter(p.openedAt), last.closeTime), params, funding)
  {
    hide ApplyFunding, ExecuteExit, FundingTimes, Payable, RateSum;
    var first := NextFundingAfter(p.openedAt);
    NextFundingIsNext(p.openedAt);
    ClockAfterIsNextFunding(p.openedAt, first, seen);
    hide NextFundingAfter, Due;
    var funded := ApplyFunding(Booked(p, cash), last, params, funding);
    ApplyFundingBooksDue(Booked(p, cash), last, params, funding);
    DueSplits(first, seen, last.closeTime);
    PayableOfConcat(Due(first, seen), Due(p.nextFundingAt, last.closeTime), params, funding);
    ExitBooksNoFunding(funded, last.close, 100.0, last.closeTime, params, Taker, END_OF_PERIOD);
  }

  ghost predicate PaidFundingOnce(c: Closing, params: Params, funding: map<int, real>) {
    && c.position.openedAt <= c.at
    && FundingTimes(c.position.executions)
       == Payable(Due(NextFundingAfter(c.position.openedAt), c.at), params, funding)
  }

  lemma ForcedClosePaysFundingOnce(p: Position, cash: real, candles: seq<Candle>, params: Params, funding: map<int, real>)
    requires candles != [] && StrictlyLater(candles) && OpenRide(p, |candles|, candles, params, funding)
    ensures var last := candles[|candles| - 1];
            PaidFundingOnce(Closing(ForceClose(Booked(p, cash), last, params, funding, END_OF_PERIOD).position, END_OF_PERIOD, last.closeTime),
                            params, funding)
  {
    hide ForceClose, OpenRide, FundingTimes, Payable, Due, NextFundingAfter, StrictlyLater;
    var seen := OpenRidePaidFundingOnce(p, |candles|, candles, params, funding);
    ForcedCloseBooksDue(p, cash, seen, candles[|candles| - 1], params, funding);
  }

  lemma LastIsClosed(cash: real, open: seq<Position>, last: Candle, params: Params, funding: map<int, real>)
    requires open != []
    ensures var s := CloseBook(cash, open[..|open| - 1], last, params, funding);
            var b := ForceClose(Booked(open[|open| - 1], s.cash), last, params, funding, END_OF_PERIOD);
            CloseBook(cash, open, last, params, funding).closed == s.closed + [Closing(b.position, END_OF_PERIOD, last.closeTime)]
  {
    hide ForceClose;
  }

  lemma {:induction false} CloseBookPaysFundingOnce(cash: real, open: seq<Position>, candles: seq<Candle>, params: Params, funding: map<int, real>)
    requires candles != [] && StrictlyLater(candles) && OpenRides(open, |candles|, candles, params, funding)
    ensures forall c :: c in CloseBook(cash, open, candles[|candles| - 1], params, funding).closed ==> PaidFundingOnce(c, params, funding)
    decreases |open|
  {
    hide OpenRide, StrictlyLater, PaidFundingOnce, ForceClose;
    if open != [] {
      var front, p, last := open[..|open| - 1], open[|open| - 1], candles[|candles| - 1];
      assert OpenRides(front, |candles|, candles, params, funding) && OpenRide(p, |candles|, candles, params, funding);
      hide OpenRides, CloseBook;
      LastIsClosed(cash, open, last, params, funding);
      CloseBookPaysFundingOnce(cash, front, candles, params, funding);
      ForcedClosePaysFundingOnce(p, CloseBook(cash, front, last, params, funding).cash, candles, params, funding);
    }
  }

  /** The same for the finished run, trades closed at the end of the period included: closing on a
      bar already settled charges nothing twice. */
  lemma EveryTradePaidFundingOnce(inputs: Inputs, params: Params, policy: Policy, c: Closing)
    requires StrictlyLater(SeriesOf(inputs.series, params.timeframe))
    requires c in Run(inputs, params, policy).closed
    ensures PaidFundingOnce(c, params, inputs.funding)
  {
    hide RunTo, CloseBook, FundingTimes, Payable, Due, NextFundingAfter, MarkToMarket, OpenRide, ClosedRide;
    var candles := SeriesOf(inputs.series, params.timeframe);
    var s := RunTo(|candles|, inputs, params, policy);
    if c in s.closed {
      ClosedTradesPaidFundingOnce(|candles|, inputs, params, policy, c);
      TradesCloseAfterOpening(|candles|, inputs, params, policy, c);
    } else {
      RunIsRides(|candles|, inputs, params, policy);
      CloseBookPaysFundingOnce(s.account.cash, s.open, candles, params, inputs.funding);
    }
  }

  /** In a trailing run every closed trade left on the first bar that reached the nearer of its stop,
      as set by the bars before, and its liquidation price, in full and for the price that gives. */
  ghost predicate LeftByTrailing(origin: Position, k: nat, j: nat, c: Closing, candles: seq<Candle>, params: Params)
    requires j < |candles|
  {
    && k < j && FreshTrailing(origin) && origin.openedAt == candles[k].closeTime && c.at == candles[j].closeTime
    && SameTrade(origin, c.position)
    && var bars := Replayed(candles, k + 1, j, params);
       && (forall i :: 0 <= i < |bars| ==> !ExitsOn(origin, bars[..i], bars[i], params))
       && ExitsOn(origin, bars, candles[j], params)
       && c.reason == (if StopIsNearer(origin, StopAfter(origin, bars), params) then STOP_LOSS else LIQUIDATION)
       && c.position.exitedQty == origin.originalQty
       && c.position.exitNotional
          == ExitPrice(origin, ExitLevel(origin, bars, candles[j], params), params, Taker) * origin.originalQty
  }

  lemma TrailingRunExits(n: nat, inputs: Inputs, params: Params, policy: Policy, c: Closing)
    requires n <= |SeriesOf(inputs.series, params.timeframe)| && params.exitMode.TrailingAtr?
    requires c in RunTo(n, inputs, params, policy).closed
    ensures exists origin: Position, k: nat, j: nat :: 0 <= j < n
              && LeftByTrailing(origin, k, j, c, SeriesOf(inputs.series, params.timeframe), params)
  {
    hide RunTo, Update, ExitsOn, StopAfter, StopIsNearer, ExitLevel, ExitPrice, Trailing;
    RunIsRides(n, inputs, params, policy);
    var candles := SeriesOf(inputs.series, params.timeframe);
    var origin: Position, k: nat, j: nat :| 0 <= j < n && EndedRide(origin, k, j, c, candles, params, inputs.funding);
    EndedRideTerms(origin, k, j, c, candles, params, inputs.funding);
    var bars := Replayed(candles, k + 1, j, params);
    var before := RideBars(Booked(origin, 0.0), bars, params, inputs.funding);
    TrailingSurvives(Booked(origin, 0.0), bars, params, inputs.funding);
    StepTrailing(origin, before.booked, bars, candles[j], params, inputs.funding);
    assert LeftByTrailing(origin, k, j, c, candles, params);
  }
}
