/** What the exits of whole runs mean for the margin posted: every ladder take-profit earns its percentage
    of it, and no liquidation loses more than it and the slippage. */
module MarginRuns {
  import opened Domain
  import opened Rounding
  import opened Levels
  import opened OpenTrades
  import opened ReturnOnMargin
  import opened Replay

  ghost predicate OnLadder(level: PriceTarget, t: Terms, params: Params) {
    t.leverage > 0
    && exists step :: step in params.takeProfitLadder && LadderTarget(step, t.entry, t.direction, t.leverage, true) == Some(level)
  }

  /** An execution at the price of a ladder step that booked the step's percentage of the margin on the
      share it closed, to ten places. */
  ghost predicate EarnsStep(e: Execution, t: Terms, params: Params) {
    exists step :: step in params.takeProfitLadder && LadderTarget(step, t.entry, t.direction, t.leverage, true).Some?
                   && e.price == LadderTarget(step, t.entry, t.direction, t.leverage, true).value.price
                   && e.grossPnL == Round10(StepGain(t.margin, step, e.closePct))
  }

  predicate SaneSlippage(params: Params) {
    0.0 <= params.slippagePct <= 100.0
  }

  ghost predicate Honest(e: Execution, t: Terms, params: Params) {
    && (e.kind == TAKE_PROFIT && params.exitMode.PnlLadder? ==> EarnsStep(e, t, params))
    && (e.kind == LIQUIDATION && SaneSlippage(params) ==>
          t.leverage > 0 && e.grossPnL >= -MarginLoss(t, e.quantity, params) - HALF_ULP10)
  }

  /** A position whose targets lie on the ladder and whose every execution is what it claims. */
  ghost predicate Told(p: Position, params: Params) {
    && p.remainingQty >= 0.0 && Margined(TermsOf(p))
    && Targeted(p.takeProfit, TermsOf(p), params)
    && AllHonest(p.executions, TermsOf(p), params)
  }

  ghost predicate Targeted(levels: seq<PriceTarget>, t: Terms, params: Params) {
    params.exitMode.PnlLadder? ==> forall level :: level in levels ==> OnLadder(level, t, params)
  }

  ghost predicate AllHonest(executions: seq<Execution>, t: Terms, params: Params) {
    forall e :: e in executions ==> Honest(e, t, params)
  }

  lemma OneMoreHonest(executions: seq<Execution>, e: Execution, t: Terms, params: Params)
    requires AllHonest(executions, t, params) && Honest(e, t, params)
    ensures AllHonest(executions + [e], t, params)
  {
    hide Honest;
  }

  // ---------- single bookings ----------

  /** A booking of a kind that claims nothing. */
  lemma PlainIsHonest(e: Execution, t: Terms, params: Params)
    requires e.kind != TAKE_PROFIT && e.kind != LIQUIDATION
    ensures Honest(e, t, params)
  {
  }

  lemma StepIsHonest(e: Execution, t: Terms, params: Params, level: PriceTarget)
    requires Margined(t) && OnLadder(level, t, params) && e.kind == TAKE_PROFIT
    requires e.price == level.price && e.closePct == SharePct(e.quantity, t.original)
    requires e.grossPnL == Round10(GrossOn(t.direction, t.entry, level.price, e.quantity))
    ensures Honest(e, t, params)
  {
    hide GrossOn, SharePct, Round10, StepGain, Margined;
    var step :| step in params.takeProfitLadder && LadderTarget(step, t.entry, t.direction, t.leverage, true) == Some(level);
    StepEarns(t, step, e.quantity);
    assert EarnsStep(e, t, params);
  }

  lemma ExitIsBooked(b: Booked, price: real, closePct: real, at: int, params: Params, feeType: FeeType, kind: string)
    requires b.position.remainingQty >= 0.0
    ensures var p := b.position;
            var q := ExecuteExit(b, price, closePct, at, params, feeType, kind).position;
            var qty := ExitQuantity(p, closePct);
            var exit := ExitPrice(p, price, params, feeType);
            && TermsOf(q) == TermsOf(p) && q.takeProfit == p.takeProfit && q.remainingQty >= 0.0
            && (q.executions == p.executions
                || exists fee :: q.executions == p.executions
                                 + [Execution(kind, at, exit, qty, SharePct(qty, p.originalQty), Round10(ExitGross(p, exit, qty)), fee, 0.0)])
  {
    hide ExitFee, SharePct, Round10, ExitGross, ExitPrice, Notional, ExitQuantity;
    var p := b.position;
    var qty := ExitQuantity(p, closePct);
    var exit := ExitPrice(p, price, params, feeType);
    var fee := Round10(ExitFee(exit, qty, params, feeType));
    if qty > 0.0 {
      assert ExecuteExit(b, price, closePct, at, params, feeType, kind).position.executions
          == p.executions + [Execution(kind, at, exit, qty, SharePct(qty, p.originalQty), Round10(ExitGross(p, exit, qty)), fee, 0.0)];
    }
  }

  lemma PlainExitIsTold(b: Booked, price: real, closePct: real, at: int, params: Params, feeType: FeeType, kind: string)
    requires Told(b.position, params) && kind != TAKE_PROFIT && kind != LIQUIDATION
    ensures Told(ExecuteExit(b, price, closePct, at, params, feeType, kind).position, params)
  {
    hide ExecuteExit, Targeted, AllHonest, Honest, Margined, ExitQuantity, ExitGross, ExitPrice, SharePct, Round10;
    ExitIsBooked(b, price, closePct, at, params, feeType, kind);
    var p, q := b.position, ExecuteExit(b, price, closePct, at, params, feeType, kind).position;
    if q.executions != p.executions {
      var e := q.executions[|q.executions| - 1];
      PlainIsHonest(e, TermsOf(p), params);
      OneMoreHonest(p.executions, e, TermsOf(p), params);
    }
  }

  lemma StepExitIsTold(b: Booked, level: PriceTarget, closePct: real, at: int, params: Params)
    requires Told(b.position, params) && (params.exitMode.PnlLadder? ==> OnLadder(level, TermsOf(b.position), params))
    ensures Told(ExecuteExit(b, level.price, closePct, at, params, Maker, TAKE_PROFIT).position, params)
  {
    hide ExecuteExit, Targeted, AllHonest, OnLadder, Margined, ExitQuantity, SharePct, Round10, GrossOn;
    ExitIsBooked(b, level.price, closePct, at, params, Maker, TAKE_PROFIT);
    var p, q := b.position, ExecuteExit(b, level.price, closePct, at, params, Maker, TAKE_PROFIT).position;
    if q.executions != p.executions {
      var e := q.executions[|q.executions| - 1];
      if params.exitMode.PnlLadder? {
        StepIsHonest(e, TermsOf(p), params, level);
      }
      OneMoreHonest(p.executions, e, TermsOf(p), params);
    }
  }

  lemma LiquidationIsTold(b: Booked, candle: Candle, params: Params, liquidation: real)
    requires Told(b.position, params) && b.position.leverage > 0
    ensures Told(Liquidate(b, candle, params, liquidation).position, params)
  {
    hide ExecuteExit, Targeted, AllHonest, Margined, SharePct, Round10, LiquidationFill, ExitPrice, ExitGross,
         WorstLiquidationLoss;
    var p := b.position;
    var fill := LiquidationFill(p.entryPrice, p.direction, p.leverage, candle, liquidation);
    var q := Liquidate(b, candle, params, liquidation).position;
    ExitIsBooked(b, fill, 100.0, candle.closeTime, params, Taker, LIQUIDATION);
    assert ExitQuantity(p, 100.0) == p.remainingQty;
    if q.executions != p.executions {
      var e := q.executions[|q.executions| - 1];
      if SaneSlippage(params) {
        LiquidatedUnitLoss(p, fill, candle, params, liquidation);
        LossOnQuantity(p, ExitPrice(p, fill, params, Taker), params);
        Round10Error(ExitGross(p, ExitPrice(p, fill, params, Taker), p.remainingQty));
      }
      OneMoreHonest(p.executions, e, TermsOf(p), params);
    }
  }

  // ---------- one bar ----------

  lemma {:induction false} FundingIsTold(b: Booked, candle: Candle, params: Params, funding: map<int, real>)
    requires Told(b.position, params)
    ensures Told(ApplyFunding(b, candle, params, funding).position, params)
    ensures TermsOf(ApplyFunding(b, candle, params, funding).position) == TermsOf(b.position)
    decreases candle.closeTime - b.position.nextFundingAt
  {
    if b.position.nextFundingAt <= candle.closeTime {
      var settled := SettleFunding(b, candle, params, funding);
      SettlementIsTold(b, candle, params, funding);
      hide SettleFunding, Told;
      FundingIsTold(settled, candle, params, funding);
    }
  }

  lemma SettlementIsTold(b: Booked, candle: Candle, params: Params, funding: map<int, real>)
    requires Told(b.position, params)
    ensures Told(SettleFunding(b, candle, params, funding).position, params)
    ensures TermsOf(SettleFunding(b, candle, params, funding).position) == TermsOf(b.position)
  {
    hide Targeted, AllHonest, Honest, Margined, FundingAmount, FundingRate, Round10;
    var p, q := b.position, SettleFunding(b, candle, params, funding).position;
    if q.executions != p.executions {
      var e := q.executions[|q.executions| - 1];
      PlainIsHonest(e, TermsOf(p), params);
      OneMoreHonest(p.executions, e, TermsOf(p), params);
    }
  }

  /** Meeting take-profit levels of the ladder, or stops of any kind. */
  lemma {:induction false} WalkIsTold(b: Booked, candle: Candle, ordered: seq<PriceTarget>, takeProfit: bool, params: Params, kind: string)
    requires Told(b.position, params)
    requires if takeProfit then kind == TAKE_PROFIT && Targeted(ordered, TermsOf(b.position), params)
             else kind != TAKE_PROFIT && kind != LIQUIDATION
    ensures var w := CloseTouched(b, candle, ordered, takeProfit, params, kind);
            && Told(w.booked.position, params) && TermsOf(w.booked.position) == TermsOf(b.position)
            && (forall level :: level in w.untouched ==> level in ordered)
    decreases |ordered|
  {
    if ordered != [] {
      var front, level := ordered[..|ordered| - 1], ordered[|ordered| - 1];
      assert level in ordered && forall l :: l in front ==> l in ordered;
      WalkIsTold(b, candle, front, takeProfit, params, kind);
      var w := CloseTouched(b, candle, front, takeProfit, params, kind);
      var fill := if takeProfit then level.price else StopFill(level.price, candle, w.booked.position.direction);
      hide Told, ExecuteExit, OnLadder, StopFill;
      ExitKeepsTerms(w.booked, fill, Share(level), candle.closeTime, params, if takeProfit then Maker else Taker, kind);
      if takeProfit {
        StepExitIsTold(w.booked, level, Share(level), candle.closeTime, params);
      } else {
        PlainExitIsTold(w.booked, fill, Share(level), candle.closeTime, params, Taker, kind);
      }
    }
  }

  lemma ExitKeepsTerms(b: Booked, price: real, closePct: real, at: int, params: Params, feeType: FeeType, kind: string)
    ensures TermsOf(ExecuteExit(b, price, closePct, at, params, feeType, kind).position) == TermsOf(b.position)
  {
    hide ExitFee, ExitGross, ExitQuantity, ExitPrice;
  }

  lemma SortedIsTargeted(levels: seq<PriceTarget>, ascending: bool, t: Terms, params: Params)
    requires Targeted(levels, t, params)
    ensures Targeted(SortByPrice(levels, ascending), t, params)
    ensures forall level :: level in SortByPrice(levels, ascending) ==> level in levels
  {
    hide OnLadder;
    SortByPriceIsPermutation(levels, ascending);
    forall level | level in SortByPrice(levels, ascending)
      ensures level in levels
    {
      assert level in multiset(levels);
    }
  }

  lemma TargetsAreTold(b: Booked, candle: Candle, params: Params)
    requires Told(b.position, params)
    ensures Told(TriggerTargets(b, candle, params).position, params)
    ensures TermsOf(TriggerTargets(b, candle, params).position) == TermsOf(b.position)
  {
    var p := b.position;
    var ascending := p.direction.Long? == true;
    SortedIsTargeted(p.takeProfit, ascending, TermsOf(p), params);
    WalkIsTold(b, candle, SortByPrice(p.takeProfit, ascending), true, params, TAKE_PROFIT);
    hide CloseTouched, SortByPrice, OnLadder, AllHonest, Margined;
  }

  lemma StopsAreTold(b: Booked, candle: Candle, params: Params, kind: string)
    requires Told(b.position, params) && kind != TAKE_PROFIT && kind != LIQUIDATION
    ensures Told(TriggerStops(b, candle, params, kind).position, params)
    ensures TermsOf(TriggerStops(b, candle, params, kind).position) == TermsOf(b.position)
  {
    var p := b.position;
    WalkIsTold(b, candle, SortByPrice(p.stopLoss, p.direction.Long? == false), false, params, kind);
    hide CloseTouched, SortByPrice, Targeted, AllHonest, Margined;
  }

  lemma LevelsAreTold(b: Booked, candle: Candle, params: Params)
    requires Told(b.position, params)
    ensures Told(TriggerLevels(b, candle, params).0.position, params)
    ensures TermsOf(TriggerLevels(b, candle, params).0.position) == TermsOf(b.position)
  {
    hide Told, AnyTouched, TriggerTargets, TriggerStops;
    TargetsAreTold(b, candle, params);
    StopsAreTold(b, candle, params, STOP_LOSS);
    StopsAreTold(b, candle, params, AMBIGUOUS_STOP);
  }

  lemma WatchingIsTold(p: Position, candle: Candle, params: Params)
    requires Told(p, params)
    ensures Told(RecordExcursion(p, candle), params) && TermsOf(RecordExcursion(p, candle)) == TermsOf(p)
    ensures Told(TrailStop(p, candle), params) && TermsOf(TrailStop(p, candle)) == TermsOf(p)
  {
    hide Targeted, AllHonest, Margined;
  }

  lemma UpdateIsTold(b: Booked, candle: Candle, params: Params, funding: map<int, real>)
    requires Told(b.position, params)
    ensures Told(Update(b, candle, params, funding).booked.position, params)
  {
    var watched := b.(position := RecordExcursion(b.position, candle));
    WatchingIsTold(b.position, candle, params);
    FundingIsTold(watched, candle, params, funding);
    var funded := ApplyFunding(watched, candle, params, funding);
    var liquidation := LiquidationOf(funded.position, params);
    assert liquidation.Some? ==> funded.position.leverage > 0;
    LevelsAreTold(funded, candle, params);
    var triggered := TriggerLevels(funded, candle, params).0;
    WatchingIsTold(triggered.position, candle, params);
    var trailed := triggered.(position := TrailStop(triggered.position, candle));
    if liquidation.Some? {
      LiquidationIsTold(funded, candle, params, liquidation.value);
      LiquidationIsTold(trailed, candle, params, liquidation.value);
    }
    hide Told, ApplyFunding, RecordExcursion, TriggerLevels, TrailStop, Liquidate, LiquidationOf, Touched, StopPrecedes;
  }

  lemma ForceCloseIsTold(b: Booked, candle: Candle, params: Params, funding: map<int, real>)
    requires Told(b.position, params)
    ensures Told(ForceClose(b, candle, params, funding, END_OF_PERIOD).position, params)
  {
    hide Told, ApplyFunding, ExecuteExit;
    FundingIsTold(b, candle, params, funding);
    PlainExitIsTold(ApplyFunding(b, candle, params, funding), candle.close, 100.0, candle.closeTime, params, Taker, END_OF_PERIOD);
  }

  // ---------- whole runs ----------

  lemma {:induction false} LadderIsTargeted(steps: seq<ExitStep>, t: Terms, params: Params)
    requires forall step :: step in steps ==> step in params.takeProfitLadder
    ensures forall level :: level in LadderTargets(steps, t.entry, t.direction, t.leverage, true) ==> OnLadder(level, t, params)
  {
    hide LadderTarget;
    if steps != [] && t.leverage > 0 {
      LadderIsTargeted(steps[..|steps| - 1], t, params);
      assert steps[|steps| - 1] in steps;
    }
  }

  /** A position is admitted with margin for its whole notional and its targets on the ladder. */
  lemma AdmittedIsTold(signal: Signal, entry: real, feeType: FeeType, candle: Candle, params: Params, a: Account, open: seq<Position>)
    ensures var r := OpenTradeAt(signal, entry, feeType, candle, params, a, open);
            r.Some? ==> Told(r.value.position, params)
  {
    hide EntryFee, AvailableMargin, NextFundingAfter, Honest, OnLadder;
    var r := OpenTradeAt(signal, entry, feeType, candle, params, a, open);
    if r.Some? {
      var p := r.value.position;
      assert PlanExit(signal, entry, params).Some? && p.takeProfit == PlanExit(signal, entry, params).value.takeProfit;
      if params.exitMode.PnlLadder? {
        LadderIsTargeted(params.takeProfitLadder, TermsOf(p), params);
      }
      assert Targeted(p.takeProfit, TermsOf(p), params);
      QuantityIsMargined(signal, Equity(a), entry);
      PlainIsHonest(p.executions[0], TermsOf(p), params);
      hide LadderTargets, PlanExit, MarginFor, QuantityFor;
    }
  }

  lemma QuantityIsMargined(signal: Signal, capital: real, entry: Positive)
    ensures MarginFor(signal, capital) * signal.leverage as real == entry * QuantityFor(signal, capital, entry)
  {
    hide MarginFor;
  }

  ghost predicate BookTold(open: seq<Position>, params: Params) {
    forall i :: 0 <= i < |open| ==> Told(open[i], params)
  }

  ghost predicate ClosedTold(closed: seq<Closing>, params: Params) {
    forall i :: 0 <= i < |closed| ==> Told(closed[i].position, params)
  }

  lemma {:induction false} SweepIsTold(cash: real, open: seq<Position>, candle: Candle, params: Params, funding: map<int, real>)
    requires BookTold(open, params)
    ensures var s := SweepBook(cash, open, candle, params, funding);
            BookTold(s.survivors, params) && ClosedTold(s.closed, params)
    decreases |open|
  {
    if open != [] {
      hide Told, Update;
      var front, p := open[..|open| - 1], open[|open| - 1];
      SweepIsTold(cash, front, candle, params, funding);
      UpdateIsTold(Booked(p, SweepBook(cash, front, candle, params, funding).cash), candle, params, funding);
    }
  }

  lemma AdmitIsTold(s: State, signal: Signal, entry: real, feeType: FeeType, candle: Candle, params: Params)
    requires BookTold(s.open, params)
    ensures var t := Admit(s, OpenTradeAt(signal, entry, feeType, candle, params, s.account, s.open), candle, params);
            BookTold(t.open, params) && t.closed == s.closed
  {
    hide Told, OpenTradeAt, MarkToMarket;
    AdmittedIsTold(signal, entry, feeType, candle, params, s.account, s.open);
  }

  lemma StepIsTold(s: State, i: int, candle: Candle, inputs: Inputs, params: Params, policy: Policy)
    requires BookTold(s.open, params) && ClosedTold(s.closed, params)
    ensures var t := Step(s, i, candle, inputs, params, policy);
            BookTold(t.open, params) && ClosedTold(t.closed, params)
  {
    hide Told, SweepBook, MarkToMarket, RecordPoint, Admit, OpenTradeAt, Decide, ViewAt, RestingLimit, MarketEntry,
         Shifted, Fills, StepBars;
    var marked := MarkExtremes(s, candle, params);
    SweepIsTold(marked.account.cash, marked.open, candle, params, inputs.funding);
    var settled := Settle(marked, candle, params, inputs.funding);
    assert BookTold(settled.open, params) && ClosedTold(settled.closed, params);
    if settled.pending.Some? {
      AdmitIsTold(settled, Shifted(settled.pending.value), settled.pending.value.limit, Maker, candle, params);
    }
    var filled := FillPending(settled, i, candle, params);
    assert BookTold(filled.open, params) && ClosedTold(filled.closed, params);
    var counted := filled.(lastSignalIndex := i, analysisPoints := filled.analysisPoints + 1);
    var decision := Decide(policy, ViewAt(inputs, candle.closeTime, filled.open, params), params.timeframe);
    if decision.Some? {
      AdmitIsTold(counted, decision.value, MarketEntry(decision.value, candle, params), Taker, candle, params);
    }
    hide BookTold, ClosedTold, Settle, FillPending, MarkExtremes;
  }

  lemma {:induction false} RunToIsTold(n: nat, inputs: Inputs, params: Params, policy: Policy)
    requires n <= |SeriesOf(inputs.series, params.timeframe)|
    ensures BookTold(RunTo(n, inputs, params, policy).open, params)
    ensures ClosedTold(RunTo(n, inputs, params, policy).closed, params)
  {
    hide Step, Told;
    if n > MIN_CANDLES {
      RunToIsTold(n - 1, inputs, params, policy);
      StepIsTold(RunTo(n - 1, inputs, params, policy), n - 1,
                 SeriesOf(inputs.series, params.timeframe)[n - 1], inputs, params, policy);
    }
  }

  lemma {:induction false} CloseBookIsTold(cash: real, open: seq<Position>, candle: Candle, params: Params, funding: map<int, real>)
    requires BookTold(open, params)
    ensures ClosedTold(CloseBook(cash, open, candle, params, funding).closed, params)
    decreases |open|
  {
    if open != [] {
      hide Told, ForceClose;
      var front, p := open[..|open| - 1], open[|open| - 1];
      CloseBookIsTold(cash, front, candle, params, funding);
      ForceCloseIsTold(Booked(p, CloseBook(cash, front, candle, params, funding).cash), candle, params, funding);
    }
  }

  lemma RunIsTold(inputs: Inputs, params: Params, policy: Policy)
    ensures ClosedTold(Run(inputs, params, policy).closed, params)
  {
    hide Told, RunTo, CloseBook, MarkToMarket;
    var candles := SeriesOf(inputs.series, params.timeframe);
    var s := RunTo(|candles|, inputs, params, policy);
    RunToIsTold(|candles|, inputs, params, policy);
    if s.open != [] && candles != [] {
      CloseBookIsTold(s.account.cash, s.open, candles[|candles| - 1], params, inputs.funding);
    }
  }

  /** In every run on a profit ladder, every take-profit execution of every trade happened at the level of
      a step and earned the step's percentage of the posted margin on the share of the position it closed. */
  lemma TakeProfitsEarnTheirSteps(inputs: Inputs, params: Params, policy: Policy, c: Closing, e: Execution)
    requires params.exitMode.PnlLadder?
    requires c in Run(inputs, params, policy).closed && e in c.position.executions && e.kind == TAKE_PROFIT
    ensures Margined(TermsOf(c.position)) && EarnsStep(e, TermsOf(c.position), params)
  {
    hide Run, EarnsStep, Margined, Targeted;
    RunIsTold(inputs, params, policy);
  }

  /** In every run, every liquidation of every trade lost at most the margin behind the quantity it closed
      and the slippage of closing it, to ten places, however far the bar gapped. */
  lemma LiquidationsLoseAtMostTheMargin(inputs: Inputs, params: Params, policy: Policy, c: Closing, e: Execution)
    requires SaneSlippage(params)
    requires c in Run(inputs, params, policy).closed && e in c.position.executions && e.kind == LIQUIDATION
    ensures c.position.leverage > 0
    ensures e.grossPnL >= -MarginLoss(TermsOf(c.position), e.quantity, params) - HALF_ULP10
  {
    hide Run, EarnsStep, Margined, Targeted, MarginLoss;
    RunIsTold(inputs, params, policy);
  }
}
