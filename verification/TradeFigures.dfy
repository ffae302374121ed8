/** The figures a stored trade reports: how far the market went for and against it, and its return. */
module TradeFigures {
  import opened Domain
  import opened Rounding
  import opened Levels
  import opened OpenTrades
  import opened Ride
  import opened FundingClock
  import opened Replay
  import opened ReplayRides
  import opened RunExits

  // ---------- what one bar records ----------

  /** A position would have won no more than a percentage of its entry at either extreme of a bar. */
  predicate AtMost(direction: Direction, entry: real, bar: Candle, pct: real) {
    Won(direction, entry, bar.high, 100.0) <= pct * entry && Won(direction, entry, bar.low, 100.0) <= pct * entry
  }

  predicate AtLeast(direction: Direction, entry: real, bar: Candle, pct: real) {
    pct * entry <= Won(direction, entry, bar.high, 100.0) && pct * entry <= Won(direction, entry, bar.low, 100.0)
  }

  /** It would have won exactly that at one of them. */
  predicate Exactly(direction: Direction, entry: real, bar: Candle, pct: real) {
    Won(direction, entry, bar.high, 100.0) == pct * entry || Won(direction, entry, bar.low, 100.0) == pct * entry
  }

  /** The best and the worst of some bars in percent of the entry, each attained unless it is zero. */
  ghost predicate Excursed(direction: Direction, entry: real, best: real, worst: real, bars: seq<Candle>) {
    && worst <= 0.0 <= best
    && (forall bar :: bar in bars ==> AtMost(direction, entry, bar, best) && AtLeast(direction, entry, bar, worst))
    && (best != 0.0 ==> exists bar :: bar in bars && Exactly(direction, entry, bar, best))
    && (worst != 0.0 ==> exists bar :: bar in bars && Exactly(direction, entry, bar, worst))
  }

  ghost predicate HasExcursed(p: Position, bars: seq<Candle>) {
    Excursed(p.direction, p.entryPrice, p.mfe, p.mae, bars)
  }

  function PercentAt(direction: Direction, entry: Positive, price: real): real {
    (price - entry) / entry * 100.0 * direction.Sign()
  }

  lemma PercentMeans(direction: Direction, entry: Positive, price: real)
    ensures PercentAt(direction, entry, price) * entry == Won(direction, entry, price, 100.0)
  {
    assert (price - entry) / entry * entry == price - entry;
  }

  lemma PercentsCompare(direction: Direction, entry: Positive, price: real, pct: real)
    ensures Won(direction, entry, price, 100.0) <= pct * entry <==> PercentAt(direction, entry, price) <= pct
    ensures pct * entry <= Won(direction, entry, price, 100.0) <==> pct <= PercentAt(direction, entry, price)
  {
    PercentMeans(direction, entry, price);
    hide PercentAt, Won;
    var d := PercentAt(direction, entry, price) - pct;
    assert d * entry == PercentAt(direction, entry, price) * entry - pct * entry;
    assert d > 0.0 ==> d * entry > 0.0;
    assert d < 0.0 ==> d * entry < 0.0;
  }

  lemma ExcursionIs(p: Position, bar: Candle)
    ensures var up, down := PercentAt(p.direction, p.entryPrice, bar.high), PercentAt(p.direction, p.entryPrice, bar.low);
            RecordExcursion(p, bar) == p.(mfe := Max(p.mfe, Max(up, down)), mae := Min(p.mae, Min(up, down)))
  {
  }

  lemma ExcursionWidens(p: Position, bars: seq<Candle>, bar: Candle)
    requires HasExcursed(p, bars)
    ensures HasExcursed(RecordExcursion(p, bar), bars + [bar])
  {
    ExcursionIs(p, bar);
    hide RecordExcursion, PercentAt, Won;
    var q := RecordExcursion(p, bar);
    var more := bars + [bar];
    assert bar in more && forall b :: b in bars ==> b in more;
    forall b | b in more
      ensures AtMost(q.direction, q.entryPrice, b, q.mfe) && AtLeast(q.direction, q.entryPrice, b, q.mae)
    {
      BarIsWithin(p, b);
      BarIsWithin(q, b);
    }
    if q.mfe != p.mfe {
      BarIsMet(q, bar, q.mfe);
    }
    if q.mae != p.mae {
      BarIsMet(q, bar, q.mae);
    }
  }

  lemma BarIsWithin(p: Position, bar: Candle)
    ensures var up, down := PercentAt(p.direction, p.entryPrice, bar.high), PercentAt(p.direction, p.entryPrice, bar.low);
            && (AtMost(p.direction, p.entryPrice, bar, p.mfe) <==> up <= p.mfe && down <= p.mfe)
            && (AtLeast(p.direction, p.entryPrice, bar, p.mae) <==> p.mae <= up && p.mae <= down)
  {
    hide PercentAt, Won;
    PercentsCompare(p.direction, p.entryPrice, bar.high, p.mfe);
    PercentsCompare(p.direction, p.entryPrice, bar.low, p.mfe);
    PercentsCompare(p.direction, p.entryPrice, bar.high, p.mae);
    PercentsCompare(p.direction, p.entryPrice, bar.low, p.mae);
  }

  lemma BarIsMet(p: Position, bar: Candle, pct: real)
    requires pct == PercentAt(p.direction, p.entryPrice, bar.high) || pct == PercentAt(p.direction, p.entryPrice, bar.low)
    ensures Exactly(p.direction, p.entryPrice, bar, pct)
  {
    hide PercentAt, Won;
    PercentMeans(p.direction, p.entryPrice, bar.high);
    PercentMeans(p.direction, p.entryPrice, bar.low);
  }

  // ---------- nothing else of a bar touches them ----------

  ghost predicate SameExcursion(p: Position, q: Position) {
    q.mfe == p.mfe && q.mae == p.mae && q.direction == p.direction && q.entryPrice == p.entryPrice
  }

  lemma {:induction false} WalkKeepsExcursion(b: Booked, candle: Candle, ordered: seq<PriceTarget>, takeProfit: bool, params: Params, kind: string)
    ensures SameExcursion(b.position, CloseTouched(b, candle, ordered, takeProfit, params, kind).booked.position)
    decreases |ordered|
  {
    if ordered != [] {
      hide ExitPrice, ExitFee, ExitQuantity, ExitGross, SharePct, Round10, StopFill, Touched;
      WalkKeepsExcursion(b, candle, ordered[..|ordered| - 1], takeProfit, params, kind);
    }
  }

  lemma LevelsKeepExcursion(b: Booked, candle: Candle, params: Params)
    ensures SameExcursion(b.position, TriggerLevels(b, candle, params).0.position)
  {
    hide CloseTouched, SortByPrice, Touched;
    var p := b.position;
    var kind := if AnyTouched(candle, p.takeProfit, p.direction, true) then AMBIGUOUS_STOP else STOP_LOSS;
    WalkKeepsExcursion(b, candle, SortByPrice(p.stopLoss, p.direction.Long? == false), false, params, kind);
    WalkKeepsExcursion(b, candle, SortByPrice(p.takeProfit, p.direction.Long? == true), true, params, TAKE_PROFIT);
  }

  lemma ExitKeepsExcursion(b: Booked, price: real, closePct: real, at: int, params: Params, feeType: FeeType, kind: string)
    ensures SameExcursion(b.position, ExecuteExit(b, price, closePct, at, params, feeType, kind).position)
  {
    hide ExitPrice, ExitFee, ExitQuantity, ExitGross, SharePct, Round10;
  }

  lemma LiquidationKeepsExcursion(b: Booked, candle: Candle, params: Params, price: real)
    ensures SameExcursion(b.position, Liquidate(b, candle, params, price).position)
  {
    hide ExecuteExit, LiquidationFill;
    var p := b.position;
    ExitKeepsExcursion(b, LiquidationFill(p.entryPrice, p.direction, p.leverage, candle, price), 100.0, candle.closeTime, params, Taker, LIQUIDATION);
  }

  lemma TrailKeepsExcursion(p: Position, candle: Candle)
    ensures SameExcursion(p, TrailStop(p, candle))
  {
  }

  /** A bar records its own extremes and nothing else of it changes the record. */
  lemma BarRecordsExcursion(b: Booked, candle: Candle, params: Params, funding: map<int, real>)
    requires b.position.remainingQty > 0.0
    ensures SameExcursion(RecordExcursion(b.position, candle), Update(b, candle, params, funding).booked.position)
  {
    var seen := b.(position := RecordExcursion(b.position, candle));
    assert seen.position.remainingQty == b.position.remainingQty;
    ApplyFundingKeepsExits(seen, candle, params, funding);
    hide ApplyFunding, TriggerLevels, RecordExcursion, TrailStop, LiquidationOf, Touched, StopPrecedes, Liquidate;
    var funded := ApplyFunding(seen, candle, params, funding);
    LevelsKeepExcursion(funded, candle, params);
    var triggered := TriggerLevels(funded, candle, params).0;
    TrailKeepsExcursion(triggered.position, candle);
    if LiquidationOf(funded.position, params).Some? {
      var price := LiquidationOf(funded.position, params).value;
      LiquidationKeepsExcursion(funded, candle, params, price);
      LiquidationKeepsExcursion(triggered.(position := TrailStop(triggered.position, candle)), candle, params, price);
    }
  }

  // ---------- rides and runs ----------

  lemma CarriesOver(p: Position, q: Position, bars: seq<Candle>)
    requires HasExcursed(p, bars) && SameExcursion(p, q)
    ensures HasExcursed(q, bars)
  {
  }

  /** Over the bars of a ride, up to the one that closed it, a position records how far they went. */
  lemma {:induction false} RideExcursions(b: Booked, bars: seq<Candle>, params: Params, funding: map<int, real>)
    requires Fresh(b.position)
    requires bars == [] || RideBars(b, bars[..|bars| - 1], params, funding).closedBy.None?
    ensures HasExcursed(RideBars(b, bars, params, funding).booked.position, bars)
    decreases |bars|
  {
    hide Update, Fresh, HasExcursed, RecordExcursion;
    if bars == [] {
      NothingSeen(b.position);
    } else {
      var front, bar := bars[..|bars| - 1], bars[|bars| - 1];
      var t := RideBars(b, front, params, funding);
      assert bars == front + [bar];
      StillOpenBefore(b, front, params, funding);
      RideExcursions(b, front, params, funding);
      ExcursionWidens(t.booked.position, front, bar);
      BarRecordsExcursion(t.booked, bar, params, funding);
      CarriesOver(RecordExcursion(t.booked.position, bar), RideBars(b, bars, params, funding).booked.position, bars);
    }
  }

  lemma NothingSeen(p: Position)
    requires Fresh(p)
    ensures HasExcursed(p, [])
  {
  }

  /** The stored figures of a trade. */
  lemma StoredFigures(c: Closing)
    ensures var p, trade := c.position, Finalize(c.position, c.reason, c.at);
            && trade.direction == p.direction && trade.entryPrice == p.entryPrice && trade.leverage == p.leverage
            && trade.openedAt == p.openedAt && trade.closedAt == c.at && trade.exitReason == c.reason
            && trade.quantity == p.originalQty && trade.allocationPct == p.allocationPct && trade.executions == p.executions
            && trade.mfePct == p.mfe && trade.maePct == p.mae
  {
    hide Round10, PnlPct;
  }

  /** Every stored trade of a finished run reports how far the bars went for and against it, in percent of its
      entry: exactly those after the one it was opened on, up to the one it was closed on. */
  lemma TradesReportTheirExcursions(inputs: Inputs, params: Params, policy: Policy, c: Closing)
    returns (k: nat, end: nat)
    requires c in Run(inputs, params, policy).closed
    ensures var candles := SeriesOf(inputs.series, params.timeframe);
            var trade := Finalize(c.position, c.reason, c.at);
            && k < end <= |candles| && trade.openedAt == candles[k].closeTime && trade.closedAt == candles[end - 1].closeTime
            && Excursed(trade.direction, trade.entryPrice, trade.mfePct, trade.maePct, Replayed(candles, k + 1, end, params))
  {
    hide Run, RunTo, CloseBook, SeriesOf, OpenRide, ClosedRide, Excursed, Finalize, Replayed, RideBars;
    var candles := SeriesOf(inputs.series, params.timeframe);
    var s := RunTo(|candles|, inputs, params, policy);
    RunIsRides(|candles|, inputs, params, policy);
    ClosedInRun(inputs, params, policy, c);
    StoredFigures(c);
    if c in s.closed {
      k, end := ClosedTradeExcursed(c, |candles|, candles, params, inputs.funding);
    } else {
      var p, before := ForcedClosings(s.account.cash, s.open, candles[|candles| - 1], params, inputs.funding, c);
      k := OpenTradeExcursed(p, candles, params, inputs.funding);
      end := |candles|;
      ForcedCloseKeepsFigures(p, before, candles[|candles| - 1], params, inputs.funding);
      CarriesOver(p, c.position, Replayed(candles, k + 1, end, params));
    }
  }

  lemma ClosedTradeExcursed(c: Closing, n: nat, candles: seq<Candle>, params: Params, funding: map<int, real>)
    returns (k: nat, end: nat)
    requires n <= |candles| && ClosedRide(c, n, candles, params, funding)
    ensures k < end <= |candles| && c.position.openedAt == candles[k].closeTime && c.at == candles[end - 1].closeTime
    ensures HasExcursed(c.position, Replayed(candles, k + 1, end, params))
  {
    hide RideBars, Update, Replayed, HasExcursed, EndedRide;
    var origin: Position, j: nat;
    origin, k, j :| 0 <= j < n && EndedRide(origin, k, j, c, candles, params, funding);
    EndedRideIsRide(origin, k, j, c, candles, params, funding);
    end := j + 1;
    RideExcursions(Booked(origin, 0.0), Replayed(candles, k + 1, end, params), params, funding);
  }

  lemma OpenTradeExcursed(p: Position, candles: seq<Candle>, params: Params, funding: map<int, real>) returns (k: nat)
    requires OpenRide(p, |candles|, candles, params, funding)
    ensures k < |candles| && p.openedAt == candles[k].closeTime && p.remainingQty > 0.0
    ensures HasExcursed(p, Replayed(candles, k + 1, |candles|, params))
  {
    hide RideBars, Update, Replayed, HasExcursed;
    var origin: Position;
    origin, k :| RodeFrom(origin, k, p, |candles|, candles, params, funding);
    var bars := Replayed(candles, k + 1, |candles|, params);
    StillOpenBefore(Booked(origin, 0.0), bars, params, funding);
    FreshIsSound(origin);
    RideConserves(Booked(origin, 0.0), bars, params, funding);
    RideExcursions(Booked(origin, 0.0), bars, params, funding);
  }

  lemma ForcedCloseKeepsFigures(p: Position, cash: real, last: Candle, params: Params, funding: map<int, real>)
    requires p.remainingQty > 0.0
    ensures var q := ForceClose(Booked(p, cash), last, params, funding, END_OF_PERIOD).position;
            SameExcursion(p, q) && q.openedAt == p.openedAt
  {
    hide ApplyFunding, ExecuteExit;
    ApplyFundingKeepsExits(Booked(p, cash), last, params, funding);
    var funded := ApplyFunding(Booked(p, cash), last, params, funding);
    ExitKeepsExcursion(funded, last.close, 100.0, last.closeTime, params, Taker, END_OF_PERIOD);
    ExitBooksNoFunding(funded, last.close, 100.0, last.closeTime, params, Taker, END_OF_PERIOD);
  }

  // ---------- the return of a trade ----------

  /** A return is a net result in percent of a margin, to the nearest hundredth. */
  predicate ReturnOn(pct: real, net: real, margin: real) {
    margin > 0.0 && -0.005 * margin <= pct * margin - net * 100.0 <= 0.005 * margin
  }

  /** The return a trade is stored with is its net result on the margin behind it. */
  lemma ReturnIsOnMargin(p: Position, reason: string, at: int)
    requires p.leverage > 0
    ensures var trade := Finalize(p, reason, at);
            ReturnOn(trade.pnlPct, trade.netPnL, p.entryPrice * p.originalQty / p.leverage as real)
  {
    hide Round10, PnlPct, ReturnOn;
    PnlPctMeans(p.entryPrice, p.originalQty, p.leverage, Finalize(p, reason, at).netPnL);
  }

  lemma PnlPctMeans(entry: Positive, quantity: Positive, leverage: NonZero, net: real)
    requires leverage > 0
    ensures ReturnOn(PnlPct(entry, quantity, leverage, net), net, entry * quantity / leverage as real)
  {
    hide Round2;
    assert entry * quantity > 0.0;
    MarginIsPositive(entry * quantity, leverage as real);
    PctOfMargin(entry * quantity / leverage as real, net);
  }

  lemma MarginIsPositive(notional: real, leverage: real)
    requires notional > 0.0 && leverage > 0.0
    ensures notional / leverage > 0.0
  {
  }

  lemma PctOfMargin(margin: real, net: real)
    requires margin > 0.0
    ensures ReturnOn(Round2(net / margin * 100.0), net, margin)
  {
    hide Round2;
    var pct := net / margin * 100.0;
    Round2Error(pct);
    assert net / margin * margin == net;
    var error := Round2(pct) - pct;
    assert error * margin <= 0.005 * margin && -0.005 * margin <= error * margin;
    assert Round2(pct) * margin == error * margin + net * 100.0;
  }
}
