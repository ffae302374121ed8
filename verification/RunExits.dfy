/** The exits of whole runs: each execution of each trade is one that the prices of a bar of the series explain. */
module RunExits {
  import opened Domain
  import opened Rounding
  import opened Levels
  import opened OpenTrades
  import opened TradeLedger
  import opened Ride
  import opened Chandelier
  import opened Replay
  import opened ReplayLedger
  import opened ReplayRides
  import opened BarExits

  // ---------- rides ----------

  /** An exit some bar of a ride explains, to the position as it stood before that bar. */
  ghost predicate ExplainedWithin(e: Execution, b: Booked, bars: seq<Candle>, params: Params, funding: map<int, real>) {
    exists j :: 0 <= j < |bars| && Explained(e, RideBars(b, bars[..j], params, funding).booked.position, bars[j], params)
  }

  lemma ExplainedLater(e: Execution, b: Booked, bars: seq<Candle>, bar: Candle, params: Params, funding: map<int, real>)
    requires ExplainedWithin(e, b, bars, params, funding)
    ensures ExplainedWithin(e, b, bars + [bar], params, funding)
  {
    hide Explained, RideBars;
    var j :| 0 <= j < |bars| && Explained(e, RideBars(b, bars[..j], params, funding).booked.position, bars[j], params);
    assert (bars + [bar])[..j] == bars[..j] && (bars + [bar])[j] == bars[j];
  }

  /** Over any bars, everything a position records besides its funding is an exit that a bar explains; the
      reason it closed for is the kind of its last one. */
  lemma {:induction false} RideIsExplained(b: Booked, bars: seq<Candle>, params: Params, funding: map<int, real>)
    requires Live(b.position)
    ensures var t := RideBars(b, bars, params, funding);
            var before, after := b.position.executions, t.booked.position.executions;
            && before <= after
            && (forall i :: |before| <= i < |after| ==> after[i].kind == FUNDING || ExplainedWithin(after[i], b, bars, params, funding))
            && (t.closedBy.Some? ==> EndsIn(after, t.closedBy.value))
    decreases |bars|
  {
    hide Update, Sound, Explained, EndsIn, ExplainedWithin;
    if bars != [] {
      var front, bar := bars[..|bars| - 1], bars[|bars| - 1];
      RideIsExplained(b, front, params, funding);
      RideConserves(b, front, params, funding);
      assert bars == front + [bar];
      var t := RideBars(b, front, params, funding);
      StillOpen(b, t);
      if t.closedBy.None? {
        BarIsExplained(t.booked, bar, params, funding);
      }
      var after := RideBars(b, bars, params, funding).booked.position.executions;
      forall i | |b.position.executions| <= i < |after|
        ensures after[i].kind == FUNDING || ExplainedWithin(after[i], b, bars, params, funding)
      {
        if i < |t.booked.position.executions| {
          assert after[i] == t.booked.position.executions[i];
          if after[i].kind != FUNDING {
            ExplainedLater(after[i], b, front, bar, params, funding);
          }
        } else if after[i].kind != FUNDING {
          LastBarExplains(after[i], b, bars, params, funding);
        }
      }
    }
  }

  lemma StillOpen(b: Booked, t: Tick)
    requires Conserves(b, t.booked) && (t.closedBy.Some? <==> t.booked.position.remainingQty == 0.0)
    ensures Sound(t.booked.position) && (t.closedBy.None? ==> t.booked.position.remainingQty > 0.0)
  {
  }

  lemma LastBarExplains(e: Execution, b: Booked, bars: seq<Candle>, params: Params, funding: map<int, real>)
    requires bars != []
    requires Explained(e, RideBars(b, bars[..|bars| - 1], params, funding).booked.position, bars[|bars| - 1], params)
    ensures ExplainedWithin(e, b, bars, params, funding)
  {
  }

  /** A bar gave a target its chance and no stop took it. */
  ghost predicate TargetWon(level: PriceTarget, b: Booked, bars: seq<Candle>, j: nat, params: Params, funding: map<int, real>)
    requires j < |bars|
  {
    Banks(b.position.direction, bars[j], level.price) && !StopReached(RideBars(b, bars[..j], params, funding).booked.position, bars[j])
  }

  /** The targets an open position still waits for are exactly those of its plan that no bar reached, except
      bars that reached a stop as well: such a bar spends nothing on the targets. */
  lemma {:induction false} TargetsSurvive(b: Booked, bars: seq<Candle>, params: Params, funding: map<int, real>)
    requires Live(b.position) && RideBars(b, bars, params, funding).closedBy.None?
    ensures forall level :: level in RideBars(b, bars, params, funding).booked.position.takeProfit
                       <==> level in b.position.takeProfit && forall j :: 0 <= j < |bars| ==> !TargetWon(level, b, bars, j, params, funding)
    decreases |bars|
  {
    hide Update, Sound, TargetWon;
    if bars != [] {
      var front, bar := bars[..|bars| - 1], bars[|bars| - 1];
      var t := RideBars(b, front, params, funding);
      TargetsSurvive(b, front, params, funding);
      RideConserves(b, front, params, funding);
      StillOpen(b, t);
      BarIsExplained(t.booked, bar, params, funding);
      SameDirection(b, t.booked);
      forall level: PriceTarget, j | 0 <= j < |front|
        ensures TargetWon(level, b, front, j, params, funding) <==> TargetWon(level, b, bars, j, params, funding)
      {
        WonEarlier(level, b, bars, j, params, funding);
      }
      forall level: PriceTarget
        ensures level in RideBars(b, bars, params, funding).booked.position.takeProfit
           <==> level in t.booked.position.takeProfit && !TargetWon(level, b, bars, |front|, params, funding)
      {
        WonOnBar(level, b, bars, params, funding);
      }
    }
  }

  lemma SameDirection(b: Booked, t: Booked)
    requires Conserves(b, t)
    ensures t.position.direction == b.position.direction
  {
  }

  lemma WonEarlier(level: PriceTarget, b: Booked, bars: seq<Candle>, j: nat, params: Params, funding: map<int, real>)
    requires j < |bars| - 1
    ensures TargetWon(level, b, bars[..|bars| - 1], j, params, funding) <==> TargetWon(level, b, bars, j, params, funding)
  {
    hide RideBars;
    assert bars[..|bars| - 1][..j] == bars[..j];
  }

  lemma WonOnBar(level: PriceTarget, b: Booked, bars: seq<Candle>, params: Params, funding: map<int, real>)
    requires bars != []
    requires var t := RideBars(b, bars[..|bars| - 1], params, funding);
             && t.closedBy.None? && t.booked.position.direction == b.position.direction
             && Update(t.booked, bars[|bars| - 1], params, funding).closedBy.None?
             && BarLaw(t.booked.position, bars[|bars| - 1], Update(t.booked, bars[|bars| - 1], params, funding), params)
    ensures var was := RideBars(b, bars[..|bars| - 1], params, funding).booked.position.takeProfit;
            level in RideBars(b, bars, params, funding).booked.position.takeProfit
            <==> level in was && !TargetWon(level, b, bars, |bars| - 1, params, funding)
  {
    hide Update, LeftByLevels, LevelsReason, LiquidatedFirst, LiquidationReached, StopReached, Banks;
    var t := RideBars(b, bars[..|bars| - 1], params, funding);
    var p, bar := t.booked.position, bars[|bars| - 1];
    var u := Update(t.booked, bar, params, funding);
    assert RideBars(b, bars, params, funding) == u;
    var r :| LevelsLeft(p, bar, r, params) && u.booked.position.takeProfit == r.takeProfit;
    LevelStays(level, p, bar, r, params);
  }

  lemma LevelStays(level: PriceTarget, p: Position, bar: Candle, r: Position, params: Params)
    requires LevelsLeft(p, bar, r, params)
    ensures level in r.takeProfit <==> level in p.takeProfit && !(Banks(p.direction, bar, level.price) && !StopReached(p, bar))
  {
    hide StopReached, Banks;
  }

  // ---------- whole runs ----------

  /** Bars of a series that the run does not skip. */
  ghost predicate BarsOf(bars: seq<Candle>, candles: seq<Candle>, params: Params) {
    forall bar :: bar in bars ==> bar in candles && bar.openTime >= params.dateFrom
  }

  /** A trade is the ride of a position opened on a bar, up to the bar that closed it. */
  ghost predicate RodeOut(c: Closing, origin: Position, bars: seq<Candle>, params: Params, funding: map<int, real>) {
    var t := RideBars(Booked(origin, 0.0), bars, params, funding);
    bars != [] && t.closedBy == Some(c.reason) && t.booked.position == c.position && c.at == bars[|bars| - 1].closeTime
  }

  /** A trade is the ride of a position that no bar closed and the end of the period did. */
  ghost predicate RodeToTheEnd(c: Closing, origin: Position, bars: seq<Candle>, cash: real, last: Candle, params: Params, funding: map<int, real>) {
    var t := RideBars(Booked(origin, 0.0), bars, params, funding);
    && t.closedBy.None?
    && c == Closing(ForceClose(Booked(t.booked.position, cash), last, params, funding, END_OF_PERIOD).position, END_OF_PERIOD, last.closeTime)
  }

  ghost predicate OpenedOn(origin: Position, k: nat, candles: seq<Candle>, params: Params) {
    k < |candles| && Origin(origin, candles[k], params)
  }

  lemma {:induction false} ReplayedAreBars(candles: seq<Candle>, from: nat, end: nat, params: Params)
    requires end <= |candles|
    ensures BarsOf(Replayed(candles, from, end, params), candles, params)
    decreases end
  {
    if from < end {
      ReplayedAreBars(candles, from, end - 1, params);
      assert candles[end - 1] in candles;
    }
  }

  lemma {:induction false} ForcedClosings(cash: real, open: seq<Position>, last: Candle, params: Params, funding: map<int, real>, c: Closing)
    returns (p: Position, before: real)
    requires c in CloseBook(cash, open, last, params, funding).closed
    ensures p in open && c == Closing(ForceClose(Booked(p, before), last, params, funding, END_OF_PERIOD).position, END_OF_PERIOD, last.closeTime)
    decreases |open|
  {
    hide ForceClose;
    var front := open[..|open| - 1];
    var s := CloseBook(cash, front, last, params, funding);
    if c in s.closed {
      p, before := ForcedClosings(cash, front, last, params, funding, c);
    } else {
      p, before := open[|open| - 1], s.cash;
    }
  }

  /** A trade of a finished run was closed by a bar or by the end of the period. */
  lemma ClosedInRun(inputs: Inputs, params: Params, policy: Policy, c: Closing)
    requires c in Run(inputs, params, policy).closed
    ensures var candles := SeriesOf(inputs.series, params.timeframe);
            var s := RunTo(|candles|, inputs, params, policy);
            c in s.closed || (candles != [] && c in CloseBook(s.account.cash, s.open, candles[|candles| - 1], params, inputs.funding).closed)
  {
    hide RunTo, CloseBook, MarkToMarket, SeriesOf;
  }

  /** Every trade of a finished run is such a ride. */
  lemma TradeIsRide(inputs: Inputs, params: Params, policy: Policy, c: Closing)
    returns (origin: Position, k: nat, bars: seq<Candle>, cash: real, last: Candle)
    requires c in Run(inputs, params, policy).closed
    ensures var candles := SeriesOf(inputs.series, params.timeframe);
            && OpenedOn(origin, k, candles, params) && BarsOf(bars, candles, params)
            && (RodeOut(c, origin, bars, params, inputs.funding)
                || (last in candles && RodeToTheEnd(c, origin, bars, cash, last, params, inputs.funding)))
  {
    hide Run, RunTo, CloseBook, SeriesOf, OpenRide, ClosedRide, OpenedOn, RodeOut, RodeToTheEnd;
    var candles := SeriesOf(inputs.series, params.timeframe);
    var s := RunTo(|candles|, inputs, params, policy);
    RunIsRides(|candles|, inputs, params, policy);
    ClosedInRun(inputs, params, policy, c);
    if c in s.closed {
      origin, k, bars := ClosedRideIsRodeOut(c, |candles|, candles, params, inputs.funding);
      cash, last := 0.0, candles[0];
    } else {
      last := candles[|candles| - 1];
      var p;
      p, cash := ForcedClosings(s.account.cash, s.open, last, params, inputs.funding, c);
      origin, k, bars := OpenRideRides(p, candles, params, inputs.funding);
      EndClosesIt(c, origin, p, bars, cash, last, params, inputs.funding);
    }
  }

  lemma ClosedRideIsRodeOut(c: Closing, n: nat, candles: seq<Candle>, params: Params, funding: map<int, real>)
    returns (origin: Position, k: nat, bars: seq<Candle>)
    requires n <= |candles| && ClosedRide(c, n, candles, params, funding)
    ensures candles != [] && OpenedOn(origin, k, candles, params) && BarsOf(bars, candles, params) && RodeOut(c, origin, bars, params, funding)
  {
    hide Origin, RideBars, Update, Replayed, BarsOf, RodeOut;
    var j: nat;
    origin, k, j :| 0 <= j < n && EndedRide(origin, k, j, c, candles, params, funding);
    EndedRideIsRodeOut(origin, k, j, c, candles, params, funding);
    bars := Replayed(candles, k + 1, j + 1, params);
    ReplayedAreBars(candles, k + 1, j + 1, params);
  }

  lemma OpenRideRides(p: Position, candles: seq<Candle>, params: Params, funding: map<int, real>)
    returns (origin: Position, k: nat, bars: seq<Candle>)
    requires OpenRide(p, |candles|, candles, params, funding)
    ensures OpenedOn(origin, k, candles, params) && BarsOf(bars, candles, params)
    ensures var t := RideBars(Booked(origin, 0.0), bars, params, funding); t.closedBy.None? && t.booked.position == p
  {
    hide Origin, RideBars, Replayed, BarsOf;
    origin, k :| RodeFrom(origin, k, p, |candles|, candles, params, funding);
    bars := Replayed(candles, k + 1, |candles|, params);
    ReplayedAreBars(candles, k + 1, |candles|, params);
  }

  lemma EndClosesIt(c: Closing, origin: Position, p: Position, bars: seq<Candle>, cash: real, last: Candle, params: Params, funding: map<int, real>)
    requires var t := RideBars(Booked(origin, 0.0), bars, params, funding); t.closedBy.None? && t.booked.position == p
    requires c == Closing(ForceClose(Booked(p, cash), last, params, funding, END_OF_PERIOD).position, END_OF_PERIOD, last.closeTime)
    ensures RodeToTheEnd(c, origin, bars, cash, last, params, funding)
  {
    hide RideBars, ForceClose;
  }

  lemma EndedRideIsRodeOut(origin: Position, k: nat, j: nat, c: Closing, candles: seq<Candle>, params: Params, funding: map<int, real>)
    requires j < |candles| && EndedRide(origin, k, j, c, candles, params, funding)
    ensures RodeOut(c, origin, Replayed(candles, k + 1, j + 1, params), params, funding)
  {
    var before := Replayed(candles, k + 1, j, params);
    var bars := before + [candles[j]];
    assert Replayed(candles, k + 1, j + 1, params) == bars && bars[..|before|] == before && bars[..|before| + 1] == bars;
    hide Update, Origin, RideBars, Replayed;
    NextBar(Booked(origin, 0.0), bars, |before|, params, funding);
  }

  /** The end of the period closes at the last close, less slippage, as taker. */
  ghost predicate ByTheEnd(e: Execution, p: Position, last: Candle, params: Params) {
    e.kind == END_OF_PERIOD && Receipt(e, p, last, params.takerFeePct) && Crossed(p.direction, last.close, e.price, params)
  }

  /** An exit of a trade: the prices of some bar of the series explain it, to the position as that bar found it. */
  ghost predicate ByABar(e: Execution, c: Closing, candles: seq<Candle>, params: Params) {
    exists bar, p :: bar in candles && bar.openTime >= params.dateFrom && SameTrade(p, c.position) && Explained(e, p, bar, params)
  }

  /** What an execution of a trade is. */
  ghost predicate Accounted(e: Execution, c: Closing, candles: seq<Candle>, params: Params) {
    || e.kind == ENTRY || e.kind == FUNDING || ByABar(e, c, candles, params)
    || (c.reason == END_OF_PERIOD && exists last :: last in candles && ByTheEnd(e, c.position, last, params))
  }

  lemma ForcedCloseIsExplained(b: Booked, last: Candle, params: Params, funding: map<int, real>)
    requires Live(b.position)
    ensures var p, q := b.position, ForceClose(b, last, params, funding, END_OF_PERIOD).position;
            && p.executions <= q.executions && EndsIn(q.executions, END_OF_PERIOD)
            && (forall i :: |p.executions| <= i < |q.executions| ==> q.executions[i].kind == FUNDING || ByTheEnd(q.executions[i], q, last, params))
  {
    var p := b.position;
    FundingOnlySettles(b, p, last, params, funding);
    var funded := ApplyFunding(b, last, params, funding);
    FundingBooksNoExit(b, last, params, funding);
    var e := ExitIsRecorded(funded, last.close, 100.0, last.closeTime, params, Taker, END_OF_PERIOD);
    TakerPays(funded.position, last.close, params);
    var q := ForceClose(b, last, params, funding, END_OF_PERIOD).position;
    hide ApplyFunding, ExecuteExit, Receipt, SharePct, Round10, ExitGross, ExitFee, ExitPrice, Crossed;
    assert e.quantity == funded.position.remainingQty > 0.0;
    RecordIsReceipt(e, funded.position, last, params, Taker, params.takerFeePct);
    SameReceipt(e, funded.position, q, last, params.takerFeePct);
    assert q.executions == funded.position.executions + [e];
  }

  lemma {:induction false} FundingBooksNoExit(b: Booked, bar: Candle, params: Params, funding: map<int, real>)
    ensures var before, after := b.position.executions, ApplyFunding(b, bar, params, funding).position.executions;
            before <= after && forall i :: |before| <= i < |after| ==> after[i].kind == FUNDING
    decreases bar.closeTime - b.position.nextFundingAt
  {
    hide FundingAmount, FundingRate, Round10;
    if b.position.nextFundingAt <= bar.closeTime {
      FundingBooksNoExit(SettleFunding(b, bar, params, funding), bar, params, funding);
    }
  }

  lemma RideExecutions(origin: Position, bars: seq<Candle>, c: Closing, e: Execution, candles: seq<Candle>, params: Params, funding: map<int, real>)
    requires Fresh(origin) && BarsOf(bars, candles, params)
    requires SameTrade(origin, c.position) && e in RideBars(Booked(origin, 0.0), bars, params, funding).booked.position.executions
    ensures Accounted(e, c, candles, params)
  {
    var b := Booked(origin, 0.0);
    RideIsExplained(b, bars, params, funding);
    var after := RideBars(b, bars, params, funding).booked.position.executions;
    var i :| 0 <= i < |after| && after[i] == e;
    if i == 0 {
      assert e == origin.executions[0];
    } else if e.kind != FUNDING {
      hide RideBars, Explained, Fresh;
      var j :| 0 <= j < |bars| && Explained(e, RideBars(b, bars[..j], params, funding).booked.position, bars[j], params);
      RideConserves(b, bars[..j], params, funding);
      assert bars[j] in bars;
      assert ByABar(e, c, candles, params);
    }
  }

  /** Every execution of every trade of a run is its entry, a funding settlement, the close at the end of the
      period, or an exit that the prices of a bar explain. The reason of a trade is the kind of its last execution. */
  lemma EveryExecutionIsAccounted(inputs: Inputs, params: Params, policy: Policy, c: Closing, e: Execution)
    requires c in Run(inputs, params, policy).closed && e in c.position.executions
    ensures Accounted(e, c, SeriesOf(inputs.series, params.timeframe), params)
    ensures EndsIn(c.position.executions, c.reason)
  {
    var candles, funding := SeriesOf(inputs.series, params.timeframe), inputs.funding;
    var origin, k, bars, cash, last := TradeIsRide(inputs, params, policy, c);
    hide Run, RideBars, ForceClose, Accounted, EndsIn, SeriesOf, ByTheEnd;
    var b := Booked(origin, 0.0);
    FreshIsSound(origin);
    RideConserves(b, bars, params, funding);
    RideIsExplained(b, bars, params, funding);
    var t := RideBars(b, bars, params, funding);
    if RodeOut(c, origin, bars, params, funding) {
      RideExecutions(origin, bars, c, e, candles, params, funding);
    } else {
      StillOpen(b, t);
      var p := Booked(t.booked.position, cash);
      ForcedCloseIsExplained(p, last, params, funding);
      ForceCloseConserves(p, last, params, funding, END_OF_PERIOD);
      TermsCarryOver(origin, t.booked.position, c.position);
      var i :| 0 <= i < |c.position.executions| && c.position.executions[i] == e;
      if i < |t.booked.position.executions| {
        assert e == t.booked.position.executions[i];
        RideExecutions(origin, bars, c, e, candles, params, funding);
      } else {
        EndIsAccounted(e, c, last, candles, params);
      }
    }
  }

  lemma TermsCarryOver(a: Position, b: Position, c: Position)
    requires SameTrade(a, b) && SameTrade(b, c)
    ensures SameTrade(a, c)
  {
  }

  lemma EndIsAccounted(e: Execution, c: Closing, last: Candle, candles: seq<Candle>, params: Params)
    requires last in candles && c.reason == END_OF_PERIOD && (e.kind == FUNDING || ByTheEnd(e, c.position, last, params))
    ensures Accounted(e, c, candles, params)
  {
  }

  /** In every run a take-profit is paid a price the market traded on the bar that paid it. */
  lemma TakeProfitsWereTraded(inputs: Inputs, params: Params, policy: Policy, c: Closing, e: Execution)
    returns (bar: Candle)
    requires c in Run(inputs, params, policy).closed && e in c.position.executions && e.kind == TAKE_PROFIT
    ensures bar in SeriesOf(inputs.series, params.timeframe) && bar.closeTime == e.at
    ensures if c.position.direction.Long? then e.price <= bar.high else bar.low <= e.price
  {
    hide Run, SeriesOf;
    EveryExecutionIsAccounted(inputs, params, policy, c, e);
    var candles := SeriesOf(inputs.series, params.timeframe);
    assert ByABar(e, c, candles, params);
    var p;
    bar, p :| bar in candles && bar.openTime >= params.dateFrom && SameTrade(p, c.position) && Explained(e, p, bar, params);
  }

  /** In every run a stop is paid no better than its level, which the bar traded through, and slippage on top. */
  lemma StopsWereTraded(inputs: Inputs, params: Params, policy: Policy, c: Closing, e: Execution)
    returns (bar: Candle, level: real)
    requires params.slippagePct >= 0.0
    requires c in Run(inputs, params, policy).closed && e in c.position.executions && e.kind in [STOP_LOSS, AMBIGUOUS_STOP]
    ensures bar in SeriesOf(inputs.series, params.timeframe) && bar.closeTime == e.at
    ensures if c.position.direction.Long? then bar.low <= level && (level > 0.0 ==> e.price <= level)
            else level <= bar.high && (level > 0.0 ==> level <= e.price)
  {
    hide Run, SeriesOf;
    EveryExecutionIsAccounted(inputs, params, policy, c, e);
    var candles := SeriesOf(inputs.series, params.timeframe);
    assert ByABar(e, c, candles, params);
    var p;
    bar, p :| bar in candles && bar.openTime >= params.dateFrom && SameTrade(p, c.position) && Explained(e, p, bar, params);
    var stop: PriceTarget, fill: real :| stop in p.stopLoss && Hurts(p.direction, bar, stop.price)
                             && GapFill(p.direction, bar, stop.price, fill) && Crossed(p.direction, fill, e.price, params);
    level := stop.price;
    CrossingCosts(p.direction, fill, e.price, params);
  }

  lemma CrossingCosts(direction: Direction, price: real, paid: real, params: Params)
    requires Crossed(direction, price, paid, params) && params.slippagePct >= 0.0
    ensures price > 0.0 ==> if direction.Long? then paid <= price else paid >= price
  {
    if price > 0.0 {
      assert price * (params.slippagePct / 100.0) >= 0.0;
    }
  }
}
