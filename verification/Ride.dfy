/** A position carried bar by bar until one closes it, on its own and independently of the account. */
module Ride {
  import opened Domain
  import opened Levels
  import opened OpenTrades
  import opened TradeLedger

  function RideBars(b: Booked, bars: seq<Candle>, params: Params, funding: map<int, real>): Tick {
    if bars == [] then Tick(b, None)
    else
      var t := RideBars(b, bars[..|bars| - 1], params, funding);
      if t.closedBy.Some? then t else Update(t.booked, bars[|bars| - 1], params, funding)
  }

  /** A position as the admission leaves it: full size open, nothing booked but the entry fee. */
  ghost predicate Fresh(p: Position) {
    && p.remainingQty == p.originalQty
    && p.exitedQty == 0.0 && p.exitNotional == 0.0 && p.grossPnL == 0.0 && p.funding == 0.0
    && p.nextFundingAt == NextFundingAfter(p.openedAt)
    && |p.executions| == 1 && p.executions[0].kind == ENTRY
    && !p.breakEven && p.peak == p.entryPrice && p.mfe == 0.0 && p.mae == 0.0
  }

  lemma FreshIsSound(p: Position)
    requires Fresh(p)
    ensures Sound(p)
  {
  }

  lemma {:induction false} RideConserves(b: Booked, bars: seq<Candle>, params: Params, funding: map<int, real>)
    requires Sound(b.position) && b.position.remainingQty > 0.0
    ensures var t := RideBars(b, bars, params, funding);
            && Conserves(b, t.booked)
            && (t.closedBy.Some? <==> t.booked.position.remainingQty == 0.0)
    decreases |bars|
  {
    if bars != [] {
      hide Update, Sound;
      RideConserves(b, bars[..|bars| - 1], params, funding);
      var t := RideBars(b, bars[..|bars| - 1], params, funding);
      UpdateConserves(t.booked, bars[|bars| - 1], params, funding);
    }
  }

  // ---------- the account's cash does not influence a position ----------

  function Shift(b: Booked, d: real): Booked {
    b.(cash := b.cash + d)
  }

  lemma {:induction false} ApplyFundingShift(b: Booked, d: real, candle: Candle, params: Params, funding: map<int, real>)
    ensures ApplyFunding(Shift(b, d), candle, params, funding) == Shift(ApplyFunding(b, candle, params, funding), d)
    decreases candle.closeTime - b.position.nextFundingAt
  {
    if b.position.nextFundingAt <= candle.closeTime {
      ApplyFundingShift(SettleFunding(b, candle, params, funding), d, candle, params, funding);
    }
  }

  lemma ExecuteExitShift(b: Booked, d: real, price: real, closePct: real, at: int, params: Params,
                         feeType: FeeType, kind: string)
    ensures ExecuteExit(Shift(b, d), price, closePct, at, params, feeType, kind)
            == Shift(ExecuteExit(b, price, closePct, at, params, feeType, kind), d)
  {
    hide ExitQuantity, ExitPrice, ExitFee, BookExit, ExitGross;
  }

  lemma {:induction false} CloseTouchedShift(b: Booked, d: real, candle: Candle, ordered: seq<PriceTarget>,
                                             takeProfit: bool, params: Params, kind: string)
    ensures var w := CloseTouched(b, candle, ordered, takeProfit, params, kind);
            CloseTouched(Shift(b, d), candle, ordered, takeProfit, params, kind) == w.(booked := Shift(w.booked, d))
    decreases |ordered|
  {
    if ordered != [] {
      hide ExecuteExit, StopFill, Share, Touched;
      CloseTouchedShift(b, d, candle, ordered[..|ordered| - 1], takeProfit, params, kind);
      var w := CloseTouched(b, candle, ordered[..|ordered| - 1], takeProfit, params, kind);
      var level := ordered[|ordered| - 1];
      var fill := if takeProfit then level.price else StopFill(level.price, candle, w.booked.position.direction);
      ExecuteExitShift(w.booked, d, fill, Share(level), candle.closeTime, params, if takeProfit then Maker else Taker, kind);
    }
  }

  lemma TriggerLevelsShift(b: Booked, d: real, candle: Candle, params: Params)
    ensures var t := TriggerLevels(b, candle, params);
            TriggerLevels(Shift(b, d), candle, params) == (Shift(t.0, d), t.1)
  {
    hide CloseTouched, SortByPrice, Touched;
    var p := b.position;
    var tp := AnyTouched(candle, p.takeProfit, p.direction, true);
    CloseTouchedShift(b, d, candle, SortByPrice(p.stopLoss, p.direction.Short?), false, params,
                      if tp then AMBIGUOUS_STOP else STOP_LOSS);
    CloseTouchedShift(b, d, candle, SortByPrice(p.takeProfit, p.direction.Long?), true, params, TAKE_PROFIT);
  }

  /** The same bar does the same to a position whatever else the account holds. */
  lemma UpdateShift(b: Booked, d: real, candle: Candle, params: Params, funding: map<int, real>)
    ensures var t := Update(b, candle, params, funding);
            Update(Shift(b, d), candle, params, funding) == t.(booked := Shift(t.booked, d))
  {
    hide ApplyFunding, TriggerLevels, RecordExcursion, TrailStop, LiquidationOf, Touched, StopPrecedes, Liquidate;
    var seen := b.(position := RecordExcursion(b.position, candle));
    ApplyFundingShift(seen, d, candle, params, funding);
    var funded := ApplyFunding(seen, candle, params, funding);
    TriggerLevelsShift(funded, d, candle, params);
    var triggered := TriggerLevels(funded, candle, params).0;
    var trailed := triggered.(position := TrailStop(triggered.position, candle));
    if LiquidationOf(funded.position, params).Some? {
      LiquidateShift(funded, d, candle, params, LiquidationOf(funded.position, params).value);
      LiquidateShift(trailed, d, candle, params, LiquidationOf(funded.position, params).value);
    }
  }

  lemma LiquidateShift(b: Booked, d: real, candle: Candle, params: Params, liquidation: real)
    ensures Liquidate(Shift(b, d), candle, params, liquidation) == Shift(Liquidate(b, candle, params, liquidation), d)
  {
    hide ExecuteExit, LiquidationFill;
    var p := b.position;
    ExecuteExitShift(b, d, LiquidationFill(p.entryPrice, p.direction, p.leverage, candle, liquidation),
                     100.0, candle.closeTime, params, Taker, LIQUIDATION);
  }

  lemma {:induction false} RideShift(b: Booked, d: real, bars: seq<Candle>, params: Params, funding: map<int, real>)
    ensures var t := RideBars(b, bars, params, funding);
            RideBars(Shift(b, d), bars, params, funding) == t.(booked := Shift(t.booked, d))
    decreases |bars|
  {
    if bars != [] {
      hide Update;
      RideShift(b, d, bars[..|bars| - 1], params, funding);
      UpdateShift(RideBars(b, bars[..|bars| - 1], params, funding).booked, d, bars[|bars| - 1], params, funding);
    }
  }
}
