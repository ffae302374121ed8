/** The replay as the engine runs it: mutable trades and account state, proved to compute the run. */
module ReplayEngine {
  import opened Domain
  import opened Rounding
  import opened Drawdown
  import opened Levels
  import Spec = OpenTrades
  import opened Replay

  // ---------- price rules with loops ----------

  method AnyTargetTouched(candle: Candle, levels: seq<PriceTarget>, direction: Direction, takeProfit: bool)
    returns (touched: bool)
    ensures touched == AnyTouched(candle, levels, direction, takeProfit)
    ensures touched <==> exists level :: level in levels && if takeProfit then Banks(direction, candle, level.price) else Hurts(direction, candle, level.price)
  {
    AnyTouchedMeans(candle, levels, direction, takeProfit);
    for i := 0 to |levels|
      invariant forall k :: 0 <= k < i ==> !Touched(candle, levels[k].price, direction, takeProfit)
    {
      if Touched(candle, levels[i].price, direction, takeProfit) {
        assert levels[i] in levels;
        return true;
      }
    }
    return false;
  }

  lemma AnyTouchedMeans(candle: Candle, levels: seq<PriceTarget>, direction: Direction, takeProfit: bool)
    ensures AnyTouched(candle, levels, direction, takeProfit)
       <==> exists level :: level in levels && if takeProfit then Banks(direction, candle, level.price) else Hurts(direction, candle, level.price)
  {
    forall level: PriceTarget
      ensures Touched(candle, level.price, direction, takeProfit)
         <==> if takeProfit then Banks(direction, candle, level.price) else Hurts(direction, candle, level.price)
    {
      TouchedMeans(candle, level.price, direction);
    }
    hide Touched, Banks, Hurts;
    if level :| level in levels && Touched(candle, level.price, direction, takeProfit) {
      assert if takeProfit then Banks(direction, candle, level.price) else Hurts(direction, candle, level.price);
    }
    if level :| level in levels && if takeProfit then Banks(direction, candle, level.price) else Hurts(direction, candle, level.price) {
      assert Touched(candle, level.price, direction, takeProfit);
    }
  }

  method BuildLadder(steps: seq<ExitStep>, entry: Positive, direction: Direction, leverage: int, profit: bool)
    returns (levels: seq<PriceTarget>)
    ensures levels == LadderTargets(steps, entry, direction, leverage, profit)
  {
    levels := [];
    if leverage <= 0 {
      return;
    }
    for i := 0 to |steps|
      invariant levels == LadderTargets(steps[..i], entry, direction, leverage, profit)
    {
      assert steps[..i + 1][..i] == steps[..i];
      match LadderTarget(steps[i], entry, direction, leverage, profit) {
        case Some(target) => levels := levels + [target];
        case None =>
      }
    }
    assert steps[..|steps|] == steps;
  }

  method MoveTargets(levels: seq<PriceTarget>, shift: real) returns (moved: seq<PriceTarget>)
    ensures moved == ShiftTargets(levels, shift)
  {
    moved := [];
    for i := 0 to |levels|
      invariant moved == ShiftTargets(levels[..i], shift)
    {
      assert levels[..i + 1][..i] == levels[..i];
      var level := levels[i].(price := levels[i].price + shift);
      if level.price > 0.0 {
        moved := moved + [level];
      }
    }
    assert levels[..|levels|] == levels;
  }

  // ---------- the account ----------

  class SimState {
    var cash: real
    var lastEquity: real
    var peakEquity: real
    var maxDrawdownPct: real
    var curve: seq<EquityPoint>
    var analysisPoints: nat
    var unfilledEntries: nat
    /** Every mark ever taken, for the specification only. */
    ghost var marks: seq<real>

    ghost function View(): Account
      reads this
    {
      Account(cash, lastEquity, Tracker(peakEquity, maxDrawdownPct), marks, curve)
    }

    constructor (params: Params)
      ensures View() == NewAccount(params)
      ensures analysisPoints == 0 && unfilledEntries == 0
    {
      var initial := params.initialCapital;
      if initial <= 0.0 {
        initial := 10000.0;
      }
      cash, lastEquity, peakEquity, maxDrawdownPct := initial, initial, initial, 0.0;
      curve, marks, analysisPoints, unfilledEntries := [], [], 0, 0;
    }

    method RecordEquityPoint(at: int)
      modifies this`curve
      ensures View() == RecordPoint(old(View()), at)
    {
      curve := curve + [EquityPoint(at, lastEquity)];
    }

    method RecordEquity(equity: real)
      modifies this`lastEquity, this`peakEquity, this`maxDrawdownPct, this`marks
      ensures View() == old(View()).(lastEquity := equity, drawdown := Record(old(View()).drawdown, equity),
                                     marks := old(marks) + [equity])
    {
      lastEquity := equity;
      marks := marks + [equity];
      if equity > peakEquity {
        peakEquity := equity;
        return;
      }
      if peakEquity > 0.0 {
        var value := (peakEquity - equity) / peakEquity * 100.0;
        if value > maxDrawdownPct {
          maxDrawdownPct := value;
        }
      }
    }

    method MarkToMarket(mark: real, positions: seq<OpenTrade>, takerFeePct: real)
      modifies this`lastEquity, this`peakEquity, this`maxDrawdownPct, this`marks
      ensures View() == Replay.MarkToMarket(old(View()), mark, Views(positions), takerFeePct)
    {
      hide MarksOf, Record, Views;
      var equity := EquityWith(mark, positions, takerFeePct);
      RecordEquity(equity);
    }

    /** Cash and what closing every position at the mark would bring. */
    method EquityWith(mark: real, positions: seq<OpenTrade>, takerFeePct: real) returns (equity: real)
      ensures equity == cash + MarksOf(Views(positions), mark, takerFeePct)
    {
      hide MarkOf;
      equity := cash;
      ghost var views := Views(positions);
      for i := 0 to |positions|
        invariant equity == cash + MarksOf(views[..i], mark, takerFeePct)
      {
        assert views[..i + 1][..i] == views[..i];
        var worth := positions[i].ValueAt(mark, takerFeePct);
        equity := equity + worth;
      }
      assert views[..|positions|] == views;
    }

    method AvailableMarginFor(positions: seq<OpenTrade>) returns (available: real)
      ensures available == AvailableMargin(cash, Views(positions))
    {
      available := cash;
      ghost var views := Views(positions);
      for i := 0 to |positions|
        invariant available == cash - Reserved(views[..i])
      {
        assert views[..i + 1][..i] == views[..i];
        var p := positions[i];
        available := available - p.initialMargin * p.remainingQty / p.originalQty;
      }
      assert views[..|positions|] == views;
      if available < 0.0 {
        available := 0.0;
      }
    }
  }

  /** Points of a curve at strictly increasing positions, from its first to its last and evenly spread. */
  ghost predicate Picked(curve: seq<EquityPoint>, out: seq<EquityPoint>, picks: seq<nat>) {
    && 2 <= |out| == |picks| && curve != []
    && picks[0] == 0 && picks[|out| - 1] == |curve| - 1
    && (forall i, j :: 0 <= i < j < |out| ==> picks[i] < picks[j])
    && (forall i :: 0 <= i < |out| ==> picks[i] < |curve| && out[i] == curve[picks[i]])
    && (forall i :: 0 <= i < |out| - 1 ==> picks[i] == i * (|curve| - 1) / (|out| - 1))
  }

  /** The curve handed to the chart: at most max points, always from the first to the last sample. */
  method EquityCurve(curve: seq<EquityPoint>, max: int) returns (out: seq<EquityPoint>, ghost picks: seq<nat>)
    ensures max <= 2 || |curve| <= max ==> out == curve
    ensures max > 2 && |curve| > max ==> |out| == max && Picked(curve, out, picks)
  {
    if max <= 2 || |curve| <= max {
      return curve, [];
    }
    out, picks := [], [];
    var span, gaps := |curve| - 1, max - 1;
    for i := 0 to gaps
      invariant |out| == i == |picks|
      invariant forall k :: 0 <= k < i ==> picks[k] == k * span / gaps
      invariant forall k :: 0 <= k < i ==> picks[k] < span && out[k] == curve[picks[k]]
      invariant forall k, l :: 0 <= k < l < i ==> picks[k] < picks[l]
    {
      PickIsInside(i, span, gaps);
      forall k | 0 <= k < i
        ensures picks[k] < i * span / gaps
      {
        PicksIncrease(k, i, span, gaps);
      }
      out, picks := out + [curve[i * span / gaps]], picks + [i * span / gaps];
    }
    out, picks := out + [curve[span]], picks + [span];
  }

  lemma PickIsInside(i: nat, span: nat, gaps: nat)
    requires i < gaps < span
    ensures 0 <= i * span / gaps < span
  {
    assert (gaps - i) * span > 0;
    FloorBelow(i * span, gaps, span);
  }

  lemma FloorBelow(x: nat, d: nat, bound: nat)
    requires 0 < d && x < d * bound
    ensures 0 <= x / d < bound
  {
    var q := x / d;
    assert x == q * d + x % d;
    assert q >= bound ==> q * d >= bound * d;
  }

  lemma PicksIncrease(k: nat, i: nat, span: nat, gaps: nat)
    requires k < i && 0 < gaps < span
    ensures k * span / gaps < i * span / gaps
  {
    assert i * span >= (k + 1) * span == k * span + span;
    var q := k * span / gaps;
    assert q * gaps <= k * span;
    assert (q + 1) * gaps == q * gaps + gaps;
    var r := i * span / gaps;
    assert i * span < (r + 1) * gaps;
    assert r <= q ==> (r + 1) * gaps <= (q + 1) * gaps;
  }

  // ---------- one position ----------

  /** What an exit of some quantity changes, field by field. */
  lemma ExitIsBooked(b: Spec.Booked, price: real, closePct: real, at: int, params: Params, feeType: FeeType, kind: string)
    ensures var p := b.position;
            var qty := Spec.QuantityToClose(p.originalQty, p.remainingQty, closePct);
            var exit := Spec.Slipped(p.direction, price, params, feeType);
            var gross, fee := Spec.GrossOn(p.direction, p.entryPrice, exit, qty), Spec.ExitFee(exit, qty, params, feeType);
            Spec.ExecuteExit(b, price, closePct, at, params, feeType, kind)
            == if qty <= 0.0 then b
               else Spec.Booked(p.(grossPnL := p.grossPnL + gross, fees := p.fees + fee, exitNotional := p.exitNotional + Spec.Notional(exit, qty),
                              exitedQty := p.exitedQty + qty, remainingQty := Max(p.remainingQty - qty, 0.0),
                              executions := p.executions + [Spec.Execution(kind, at, exit, qty, Spec.SharePct(qty, p.originalQty),
                                                                           Round10(gross), Round10(fee), 0.0)]),
                           b.cash + gross - fee)
  {
  }

  /** What one settlement changes, field by field. */
  lemma SettlementIsBooked(b: Spec.Booked, candle: Candle, params: Params, schedule: map<int, real>)
    ensures var p := b.position;
            var rate := if p.nextFundingAt in schedule then schedule[p.nextFundingAt] else params.fundingRatePct;
            var amount := if rate != 0.0 && p.remainingQty > 0.0 then Spec.FundingAmount(p.direction, p.remainingQty, candle.open, rate) else 0.0;
            Spec.SettleFunding(b, candle, params, schedule)
            == Spec.Booked(p.(funding := p.funding + amount, nextFundingAt := p.nextFundingAt + Spec.FUNDING_PERIOD,
                              executions := p.executions
                                + (if rate != 0.0 && p.remainingQty > 0.0
                                   then [Spec.Execution(FUNDING, p.nextFundingAt, candle.open, p.remainingQty, 0.0, 0.0, 0.0, Round10(amount))] else [])),
                           b.cash + amount)
  {
  }

  lemma ExcursionIsSeen(p: Spec.Position, candle: Candle)
    ensures var up := (candle.high - p.entryPrice) / p.entryPrice * 100.0 * p.direction.Sign();
            var down := (candle.low - p.entryPrice) / p.entryPrice * 100.0 * p.direction.Sign();
            Spec.RecordExcursion(p, candle) == p.(mfe := Max(p.mfe, Max(up, down)), mae := Min(p.mae, Min(up, down)))
  {
  }

  class OpenTrade {
    const direction: Direction
    const openedAt: int
    const entryPrice: Positive
    const leverage: NonZero
    const allocationPct: real
    const originalQty: Positive
    const initialMargin: real
    const trailATR: real
    var takeProfit: seq<PriceTarget>
    var stopLoss: seq<PriceTarget>
    var remainingQty: real
    var grossPnL: real
    var fees: real
    var funding: real
    var exitNotional: real
    var exitedQty: real
    var executions: seq<Spec.Execution>
    var nextFundingAt: int
    var breakEven: bool
    var peak: real
    var mfe: real
    var mae: real

    ghost function View(): Spec.Position
      reads this
    {
      Spec.Position(direction, openedAt, entryPrice, leverage, allocationPct, takeProfit, stopLoss,
                    originalQty, remainingQty, initialMargin, grossPnL, fees, funding, exitNotional, exitedQty,
                    executions, nextFundingAt, breakEven, trailATR, peak, mfe, mae)
    }

    /** The position with the account it books to. */
    ghost function With(state: SimState): Spec.Booked
      reads this, state
    {
      Spec.Booked(View(), state.cash)
    }

    constructor (signal: Signal, at: int, entry: Positive, leverage: NonZero, quantity: Positive, margin: real,
                 fee: real, plan: ExitPlan)
      ensures View() == Spec.Position(signal.direction, at, entry, leverage, signal.allocationPct,
                                      plan.takeProfit, plan.stopLoss, quantity, quantity, margin,
                                      0.0, fee, 0.0, 0.0, 0.0,
                                      [Spec.Execution(ENTRY, at, entry, quantity, 0.0, 0.0, fee, 0.0)],
                                      Spec.NextFundingAfter(at), false, plan.trailATR, entry, 0.0, 0.0)
    {
      this.direction, openedAt, entryPrice, this.leverage := signal.direction, at, entry, leverage;
      allocationPct, originalQty, remainingQty, initialMargin := signal.allocationPct, quantity, quantity, margin;
      takeProfit, stopLoss, trailATR, peak := plan.takeProfit, plan.stopLoss, plan.trailATR, entry;
      grossPnL, fees, funding, exitNotional, exitedQty := 0.0, fee, 0.0, 0.0, 0.0;
      executions := [Spec.Execution(ENTRY, at, entry, quantity, 0.0, 0.0, fee, 0.0)];
      nextFundingAt, breakEven, mfe, mae := Spec.NextFundingAfter(at), false, 0.0, 0.0;
    }

    /** What closing the position at a price would bring: its open result less the taker fee. */
    method ValueAt(mark: real, takerFeePct: real) returns (worth: real)
      ensures worth == MarkOf(View(), mark, takerFeePct)
    {
      var unrealized := (mark - entryPrice) * remainingQty * direction.Sign();
      var exitFee := mark * remainingQty * takerFeePct / 100.0;
      worth := unrealized - exitFee;
    }

    method ApplyFunding(candle: Candle, params: Params, schedule: map<int, real>, state: SimState)
      modifies this, state`cash
      ensures With(state) == Spec.ApplyFunding(old(With(state)), candle, params, schedule)
    {
      hide Spec.SettleFunding, Spec.FundingAmount, Round10;
      while nextFundingAt <= candle.closeTime
        invariant Spec.ApplyFunding(With(state), candle, params, schedule)
                  == Spec.ApplyFunding(old(With(state)), candle, params, schedule)
        decreases candle.closeTime - nextFundingAt
      {
        var rate := params.fundingRatePct;
        if nextFundingAt in schedule {
          rate := schedule[nextFundingAt];
        }
        ghost var before := With(state);
        SettlementIsBooked(before, candle, params, schedule);
        if rate != 0.0 && remainingQty > 0.0 {
          var amount := Spec.FundingAmount(direction, remainingQty, candle.open, rate);
          funding := funding + amount;
          state.cash := state.cash + amount;
          executions := executions
            + [Spec.Execution(FUNDING, nextFundingAt, candle.open, remainingQty, 0.0, 0.0, 0.0, Round10(amount))];
        }
        nextFundingAt := nextFundingAt + Spec.FUNDING_PERIOD;
        assert With(state) == Spec.SettleFunding(before, candle, params, schedule);
      }
    }

    method ExecuteExit(price: real, closePct: real, at: int, params: Params, feeType: FeeType, kind: string, state: SimState)
      modifies this, state`cash
      ensures With(state) == Spec.ExecuteExit(old(With(state)), price, closePct, at, params, feeType, kind)
    {
      hide Spec.QuantityToClose, Spec.Slipped, Spec.GrossOn, FeeFor, Spec.ExitFee, Spec.Notional, Spec.SharePct,
           Round10, Spec.ExecuteExit;
      ghost var before := With(state);
      ExitIsBooked(before, price, closePct, at, params, feeType, kind);
      var qty := Spec.QuantityToClose(originalQty, remainingQty, closePct);
      if qty <= 0.0 {
        return;
      }
      var exit := Spec.Slipped(direction, price, params, feeType);
      var gross := Spec.GrossOn(direction, entryPrice, exit, qty);
      var exitFee := Spec.ExitFee(exit, qty, params, feeType);
      state.cash, grossPnL, fees := state.cash + gross - exitFee, grossPnL + gross, fees + exitFee;
      exitNotional, exitedQty := exitNotional + Spec.Notional(exit, qty), exitedQty + qty;
      remainingQty := Max(remainingQty - qty, 0.0);
      executions := executions
        + [Spec.Execution(kind, at, exit, qty, Spec.SharePct(qty, originalQty), Round10(gross), Round10(exitFee), 0.0)];
    }

    method ExecuteTouchedTargets(candle: Candle, levels: seq<PriceTarget>, takeProfit: bool, params: Params,
                                 state: SimState, kind: string) returns (remaining: seq<PriceTarget>)
      modifies this, state`cash
      ensures var w := Spec.ExecuteTouchedTargets(old(With(state)), candle, levels, takeProfit, params, kind);
              With(state) == w.booked && remaining == w.untouched
    {
      hide Spec.CloseTouched, Spec.ExecuteExit, StopFill, Touched, SortByPrice;
      var ordered := SortByPrice(levels, direction.Long? == takeProfit);
      NothingTouched(With(state), candle, takeProfit, params, kind);
      assert ordered[..0] == [];
      remaining := [];
      for i := 0 to |ordered|
        invariant Spec.CloseTouched(old(With(state)), candle, ordered[..i], takeProfit, params, kind)
                  == Spec.Walk(With(state), remaining, false)
      {
        NextLevel(old(With(state)), candle, ordered, i, takeProfit, params, kind);
        var level := ordered[i];
        if !Touched(candle, level.price, direction, takeProfit) {
          remaining := remaining + [level];
        } else {
          var closePct := level.closePct;
          if closePct <= 0.0 {
            closePct := 100.0;
          }
          var fill := level.price;
          if !takeProfit {
            fill := StopFill(level.price, candle, direction);
          }
          ExecuteExit(fill, closePct, candle.closeTime, params, if takeProfit then Maker else Taker, kind, state);
          if remainingQty == 0.0 {
            StoppedStays(old(With(state)), candle, ordered, i + 1, takeProfit, params, kind);
            return;
          }
        }
      }
      assert ordered[..|ordered|] == ordered;
    }

    method StopPrecedesLevel(candle: Candle, price: real) returns (precedes: bool)
      ensures precedes == StopPrecedes(stopLoss, direction, candle, price)
    {
      for i := 0 to |stopLoss|
        invariant forall k :: 0 <= k < i ==>
                    !(Touched(candle, stopLoss[k].price, direction, false)
                      && (if direction.Long? then stopLoss[k].price > price else stopLoss[k].price < price))
      {
        var level := stopLoss[i];
        if Touched(candle, level.price, direction, false)
           && (if direction.Long? then level.price > price else level.price < price) {
          assert level in stopLoss;
          return true;
        }
      }
      return false;
    }

    method TrailStop(candle: Candle)
      modifies this`peak, this`stopLoss
      ensures View() == Spec.TrailStop(old(View()), candle)
    {
      if trailATR <= 0.0 {
        return;
      }
      if direction.Long? {
        peak := Max(peak, candle.high);
        var level := peak - trailATR;
        if |stopLoss| == 0 || level > stopLoss[0].price {
          stopLoss := [PriceTarget(level, 100.0)];
        }
        return;
      }
      if peak == 0.0 {
        peak := candle.low;
      }
      peak := Min(peak, candle.low);
      var level := peak + trailATR;
      if |stopLoss| == 0 || level < stopLoss[0].price {
        stopLoss := [PriceTarget(level, 100.0)];
      }
    }

    method TriggerLevels(candle: Candle, params: Params, state: SimState) returns (reason: string)
      modifies this, state`cash
      ensures (With(state), reason) == Spec.TriggerLevels(old(With(state)), candle, params)
    {
      var tpTouched := AnyTargetTouched(candle, takeProfit, direction, true);
      var slTouched := AnyTargetTouched(candle, stopLoss, direction, false);
      reason := "";
      if tpTouched && slTouched {
        stopLoss := ExecuteTouchedTargets(candle, stopLoss, false, params, state, AMBIGUOUS_STOP);
        reason := AMBIGUOUS_STOP;
      } else if slTouched {
        stopLoss := ExecuteTouchedTargets(candle, stopLoss, false, params, state, STOP_LOSS);
        reason := STOP_LOSS;
      } else if tpTouched {
        takeProfit := ExecuteTouchedTargets(candle, takeProfit, true, params, state, TAKE_PROFIT);
        reason := TAKE_PROFIT;
        if params.breakEvenAfterTP && remainingQty > 0.0 && !breakEven {
          breakEven := true;
          stopLoss := [PriceTarget(entryPrice, 100.0)];
        }
      }
    }

    method Liquidate(candle: Candle, params: Params, liquidation: real, state: SimState)
      modifies this, state`cash
      ensures With(state) == Spec.Liquidate(old(With(state)), candle, params, liquidation)
    {
      ExecuteExit(LiquidationFill(entryPrice, direction, leverage, candle, liquidation), 100.0,
                  candle.closeTime, params, Taker, LIQUIDATION, state);
    }

    /** One bar. The stored trade is returned when the bar closed the position. */
    method UpdateOpenTrade(candle: Candle, params: Params, schedule: map<int, real>, state: SimState)
      returns (stored: Option<Spec.Trade>)
      modifies this, state`cash
      ensures var tick := Spec.Update(old(With(state)), candle, params, schedule);
              && With(state) == tick.booked
              && stored == Stored(tick, candle.closeTime)
    {
      hide Spec.RecordExcursion, Spec.ApplyFunding, Spec.TriggerLevels, Spec.Liquidate, Spec.TrailStop, StopPrecedes, Touched,
           LiquidationPrice, Spec.Finalize;
      ExcursionIsSeen(View(), candle);
      var up := (candle.high - entryPrice) / entryPrice * 100.0 * direction.Sign();
      var down := (candle.low - entryPrice) / entryPrice * 100.0 * direction.Sign();
      mfe := Max(mfe, Max(up, down));
      mae := Min(mae, Min(up, down));
      assert View() == Spec.RecordExcursion(old(View()), candle);
      ApplyFunding(candle, params, schedule, state);
      ghost var funded := With(state);

      var liquidation := LiquidationPrice(entryPrice, direction, leverage, params);
      assert liquidation == Spec.LiquidationOf(funded.position, params);
      var liquidated := liquidation.Some? && Touched(candle, liquidation.value, direction, false);
      if liquidated {
        var precedes := StopPrecedesLevel(candle, liquidation.value);
        if !precedes {
          Liquidate(candle, params, liquidation.value, state);
          var trade := FinalizeTrade(LIQUIDATION, candle.closeTime);
          return Some(trade);
        }
      }
      var reason := TriggerLevels(candle, params, state);
      if remainingQty == 0.0 {
        var trade := FinalizeTrade(reason, candle.closeTime);
        return Some(trade);
      }
      TrailStop(candle);
      if liquidated {
        Liquidate(candle, params, liquidation.value, state);
        var trade := FinalizeTrade(LIQUIDATION, candle.closeTime);
        return Some(trade);
      }
      return None;
    }

    method ForceClose(candle: Candle, params: Params, schedule: map<int, real>, kind: string, state: SimState)
      returns (stored: Spec.Trade)
      modifies this, state`cash
      ensures With(state) == Spec.ForceClose(old(With(state)), candle, params, schedule, kind)
      ensures stored == Spec.Finalize(View(), kind, candle.closeTime)
    {
      ApplyFunding(candle, params, schedule, state);
      ExecuteExit(candle.close, 100.0, candle.closeTime, params, Taker, kind, state);
      stored := FinalizeTrade(kind, candle.closeTime);
    }

    method FinalizeTrade(reason: string, at: int) returns (trade: Spec.Trade)
      ensures trade == Spec.Finalize(View(), reason, at)
    {
      var exitPrice: Option<real> := None;
      if exitedQty > 0.0 {
        exitPrice := Some(exitNotional / exitedQty);
      }
      var gross, paid, settled := Round10(grossPnL), Round10(fees), Round10(funding);
      var net := Round10(gross - paid + settled);
      hide Spec.PnlPct, Round10;
      var pnlPct := Spec.PnlPct(entryPrice, originalQty, leverage, net);
      trade := Spec.Trade(direction, openedAt, at, entryPrice, exitPrice, originalQty, leverage, allocationPct,
                          gross, paid, settled, net, reason, executions, mfe, mae, pnlPct);
    }
  }

  /** The trade a bar leaves behind, if it closed the position. */
  ghost function Stored(tick: Spec.Tick, at: int): Option<Spec.Trade> {
    match tick.closedBy
    case None => None
    case Some(reason) => Some(Spec.Finalize(tick.booked.position, reason, at))
  }

  lemma NothingTouched(b: Spec.Booked, candle: Candle, takeProfit: bool, params: Params, kind: string)
    ensures Spec.CloseTouched(b, candle, [], takeProfit, params, kind) == Spec.Walk(b, [], false)
  {
  }

  lemma NextLevel(b: Spec.Booked, candle: Candle, ordered: seq<PriceTarget>, i: nat, takeProfit: bool, params: Params, kind: string)
    requires i < |ordered|
    ensures var w := Spec.CloseTouched(b, candle, ordered[..i], takeProfit, params, kind);
            var direction := w.booked.position.direction;
            var fill := if takeProfit then ordered[i].price else StopFill(ordered[i].price, candle, direction);
            var booked := Spec.ExecuteExit(w.booked, fill, Spec.Share(ordered[i]), candle.closeTime, params,
                                           if takeProfit then Maker else Taker, kind);
            Spec.CloseTouched(b, candle, ordered[..i + 1], takeProfit, params, kind)
            == if w.stopped then w
               else if !Touched(candle, ordered[i].price, direction, takeProfit) then w.(untouched := w.untouched + [ordered[i]])
               else Spec.Walk(booked, w.untouched, booked.position.remainingQty == 0.0)
  {
    hide Spec.ExecuteExit, StopFill, Touched, Spec.Share;
    assert ordered[..i + 1][..i] == ordered[..i];
  }

  lemma {:induction false} StoppedStays(b: Spec.Booked, candle: Candle, ordered: seq<PriceTarget>, k: nat,
                                        takeProfit: bool, params: Params, kind: string)
    requires k <= |ordered| && Spec.CloseTouched(b, candle, ordered[..k], takeProfit, params, kind).stopped
    ensures Spec.CloseTouched(b, candle, ordered, takeProfit, params, kind)
            == Spec.CloseTouched(b, candle, ordered[..k], takeProfit, params, kind)
    decreases |ordered|
  {
    if k == |ordered| {
      assert ordered[..k] == ordered;
    } else {
      assert ordered[..|ordered| - 1][..k] == ordered[..k];
      StoppedStays(b, candle, ordered[..|ordered| - 1], k, takeProfit, params, kind);
    }
  }

  // ---------- the book ----------

  ghost function Views(trades: seq<OpenTrade>): (views: seq<Spec.Position>)
    reads trades
    ensures |views| == |trades|
    ensures forall i :: 0 <= i < |trades| ==> views[i] == trades[i].View()
  {
    if trades == [] then []
    else Views(trades[..|trades| - 1]) + [trades[|trades| - 1].View()]
  }

  ghost predicate Distinct(trades: seq<OpenTrade>) {
    forall i, j :: 0 <= i < j < |trades| ==> trades[i] != trades[j]
  }

  /** The bar either keeps a position in the book or turns it into a stored trade. */
  method KeepOrStore(trade: OpenTrade, candle: Candle, params: Params, schedule: map<int, real>, state: SimState,
                     survivors: seq<OpenTrade>, trades: seq<Spec.Trade>, ghost closed: seq<Closing>)
    returns (survivors': seq<OpenTrade>, trades': seq<Spec.Trade>, ghost closed': seq<Closing>)
    requires Distinct(survivors) && trade !in survivors && trades == Trades(closed)
    modifies trade, state`cash
    ensures var tick := Spec.Update(old(trade.With(state)), candle, params, schedule);
            && trades' == Trades(closed')
            && Sweep(state.cash, Views(survivors'), closed') == Swept(old(Views(survivors)), closed, tick, candle.closeTime)
    ensures survivors' == survivors || survivors' == survivors + [trade]
    ensures Distinct(survivors')
  {
    hide Trades, Spec.Update, Spec.Finalize, Views;
    ghost var kept := Views(survivors);
    ghost var tick := Spec.Update(trade.With(state), candle, params, schedule);
    var stored := trade.UpdateOpenTrade(candle, params, schedule, state);
    assert Views(survivors) == kept;
    match stored {
      case Some(t) =>
        ghost var closing := Closing(tick.booked.position, tick.closedBy.value, candle.closeTime);
        TradesOfOneMore(closed, closing);
        return survivors, trades + [t], closed + [closing];
      case None =>
        ViewsOfOneMore(survivors, trade);
        return survivors + [trade], trades, closed;
    }
  }

  /** The book after one more position met the bar. */
  ghost function Swept(survivors: seq<Spec.Position>, closed: seq<Closing>, tick: Spec.Tick, at: int): Sweep {
    match tick.closedBy
    case Some(reason) => Sweep(tick.booked.cash, survivors, closed + [Closing(tick.booked.position, reason, at)])
    case None => Sweep(tick.booked.cash, survivors + [tick.booked.position], closed)
  }

  /** Meets every open position with the bar, in order; each one keeps or loses its place. */
  method SweepOpen(open: seq<OpenTrade>, candle: Candle, params: Params, schedule: map<int, real>, state: SimState)
    returns (survivors: seq<OpenTrade>, trades: seq<Spec.Trade>, ghost closed: seq<Closing>)
    requires Distinct(open)
    modifies open, state`cash
    ensures SweepBook(old(state.cash), old(Views(open)), candle, params, schedule)
            == Sweep(state.cash, Views(survivors), closed)
    ensures trades == Trades(closed)
    ensures Distinct(survivors) && forall t :: t in survivors ==> t in open
  {
    hide SweepBook, Trades, Spec.Update, Spec.Finalize, Views, Swept;
    survivors, trades, closed := [], [], [];
    ghost var views := Views(open);
    NothingSwept(state.cash, candle, params, schedule);
    assert views[..0] == [];
    for i := 0 to |open|
      invariant SweepBook(old(state.cash), views[..i], candle, params, schedule)
                == Sweep(state.cash, Views(survivors), closed)
      invariant trades == Trades(closed)
      invariant forall k :: i <= k < |open| ==> open[k].View() == views[k]
      invariant forall k :: i <= k < |open| ==> open[k] !in survivors
      invariant forall t :: t in survivors ==> t in open
      invariant Distinct(survivors)
    {
      assert forall k :: i < k < |open| ==> open[k] != open[i];
      hide Distinct;
      SweepOneMore(old(state.cash), views, i, candle, params, schedule);
      survivors, trades, closed := KeepOrStore(open[i], candle, params, schedule, state, survivors, trades, closed);
    }
    assert views[..|open|] == views;
  }

  lemma NothingSwept(cash: real, candle: Candle, params: Params, schedule: map<int, real>)
    ensures SweepBook(cash, [], candle, params, schedule) == Sweep(cash, Views([]), [])
    ensures CloseBook(cash, [], candle, params, schedule) == Sweep(cash, [], [])
    ensures Trades([]) == []
  {
  }

  lemma SweepOneMore(cash: real, views: seq<Spec.Position>, i: nat, candle: Candle, params: Params, schedule: map<int, real>)
    requires i < |views|
    ensures var s := SweepBook(cash, views[..i], candle, params, schedule);
            var tick := Spec.Update(Spec.Booked(views[i], s.cash), candle, params, schedule);
            SweepBook(cash, views[..i + 1], candle, params, schedule) == Swept(s.survivors, s.closed, tick, candle.closeTime)
  {
    hide Spec.Update;
    assert views[..i + 1][..i] == views[..i];
  }

  lemma TradesOfOneMore(closed: seq<Closing>, closing: Closing)
    ensures Trades(closed + [closing]) == Trades(closed) + [Spec.Finalize(closing.position, closing.reason, closing.at)]
  {
    hide Spec.Finalize;
    assert (closed + [closing])[..|closed|] == closed;
  }

  lemma ViewsOfOneMore(trades: seq<OpenTrade>, trade: OpenTrade)
    ensures Views(trades + [trade]) == Views(trades) + [trade.View()]
  {
    assert (trades + [trade])[..|trades|] == trades;
  }

  /** Closes whatever is open at the last price of the period. */
  method CloseOpen(open: seq<OpenTrade>, candle: Candle, params: Params, schedule: map<int, real>, state: SimState)
    returns (trades: seq<Spec.Trade>, ghost closed: seq<Closing>)
    requires Distinct(open)
    modifies open, state`cash
    ensures CloseBook(old(state.cash), old(Views(open)), candle, params, schedule) == Sweep(state.cash, [], closed)
    ensures trades == Trades(closed)
  {
    hide CloseBook, Trades, Spec.ForceClose, Spec.Finalize, Views;
    trades, closed := [], [];
    ghost var views := Views(open);
    NothingSwept(state.cash, candle, params, schedule);
    assert views[..0] == [];
    for i := 0 to |open|
      invariant CloseBook(old(state.cash), views[..i], candle, params, schedule) == Sweep(state.cash, [], closed)
      invariant trades == Trades(closed)
      invariant forall k :: i <= k < |open| ==> open[k].View() == views[k]
    {
      CloseOneMore(old(state.cash), views, i, candle, params, schedule);
      assert open[i].With(state) == Spec.Booked(views[i], state.cash);
      var trade := open[i].ForceClose(candle, params, schedule, END_OF_PERIOD, state);
      ghost var closing := Closing(open[i].View(), END_OF_PERIOD, candle.closeTime);
      TradesOfOneMore(closed, closing);
      trades, closed := trades + [trade], closed + [closing];
    }
    assert views[..|open|] == views;
  }

  lemma CloseOneMore(cash: real, views: seq<Spec.Position>, i: nat, candle: Candle, params: Params, schedule: map<int, real>)
    requires i < |views|
    ensures var s := CloseBook(cash, views[..i], candle, params, schedule);
            var b := Spec.ForceClose(Spec.Booked(views[i], s.cash), candle, params, schedule, END_OF_PERIOD);
            CloseBook(cash, views[..i + 1], candle, params, schedule)
            == Sweep(b.cash, [], s.closed + [Closing(b.position, END_OF_PERIOD, candle.closeTime)])
  {
    hide Spec.ForceClose;
    assert views[..i + 1][..i] == views[..i];
  }

  method BuildExitPlan(signal: Signal, entry: Positive, params: Params) returns (plan: Option<ExitPlan>)
    ensures plan == PlanExit(signal, entry, params)
  {
    match params.exitMode {
      case SignalLevels =>
        return Some(ExitPlan(signal.takeProfit, signal.stopLoss, 0.0));
      case PnlLadder =>
        var takeProfit := BuildLadder(params.takeProfitLadder, entry, signal.direction, signal.leverage, true);
        var stopLoss := BuildLadder(params.stopLossLadder, entry, signal.direction, signal.leverage, false);
        return Some(ExitPlan(takeProfit, stopLoss, 0.0));
      case TrailingAtr =>
        hide TrailDistance;
        if signal.atr <= 0.0 {
          return None;
        }
        var trail := TrailDistance(signal, params);
        return Some(ExitPlan([], [PriceTarget(entry - signal.direction.Sign() * trail, 100.0)], trail));
    }
  }

  lemma EntryAccepted(signal: Signal, entry: real, feeType: FeeType, candle: Candle, params: Params, a: Account,
                      open: seq<Spec.Position>, plan: ExitPlan)
    requires entry > 0.0 && signal.allocationPct > 0.0 && signal.leverage != 0
    requires QuantityFor(signal, Equity(a), entry) > 0.0 && PlanExit(signal, entry, params) == Some(plan)
    ensures var capital := Equity(a);
            var fee := EntryFee(signal, capital, params, feeType);
            OpenTradeAt(signal, entry, feeType, candle, params, a, open)
            == if MarginFor(signal, capital) + fee > AvailableMargin(a.cash, open) then None
               else Some(Spec.Booked(NewPosition(signal, entry, capital, fee, plan, candle.closeTime), a.cash - fee))
  {
    hide QuantityFor, MarginFor, EntryFee, PlanExit, AvailableMargin, NewPosition;
  }

  lemma EntryRefused(signal: Signal, entry: real, feeType: FeeType, candle: Candle, params: Params, a: Account,
                     open: seq<Spec.Position>)
    requires entry > 0.0 ==>
               signal.allocationPct <= 0.0 || signal.leverage == 0
               || QuantityFor(signal, Equity(a), entry) <= 0.0 || PlanExit(signal, entry, params) == None
    ensures OpenTradeAt(signal, entry, feeType, candle, params, a, open) == None
  {
    hide QuantityFor, MarginFor, EntryFee, PlanExit, AvailableMargin, NewPosition;
  }

  /** Opens a position or refuses; a refused entry leaves the account as it was. */
  method OpenAt(signal: Signal, entry: real, feeType: FeeType, candle: Candle, params: Params, state: SimState,
                positions: seq<OpenTrade>) returns (trade: OpenTrade?)
    modifies state`cash
    ensures var r := OpenTradeAt(signal, entry, feeType, candle, params, old(state.View()), old(Views(positions)));
            && (trade == null <==> r.None?)
            && (trade == null ==> state.cash == old(state.cash))
            && (trade != null ==> fresh(trade) && trade.With(state) == r.value)
  {
    hide OpenTradeAt, MarginFor, EntryFee, PlanExit, AvailableMargin, FeeFor, Views;
    ghost var a, views := state.View(), Views(positions);
    var capital := if state.lastEquity > 0.0 then state.lastEquity else state.cash;
    assert capital == Equity(a);
    hide Equity;
    if entry <= 0.0 || signal.allocationPct <= 0.0 {
      EntryRefused(signal, entry, feeType, candle, params, a, views);
      return null;
    }
    var margin := MarginFor(signal, capital);
    var quantity := QuantityFor(signal, capital, entry);
    assert signal.leverage == 0 ==> quantity == 0.0;
    hide QuantityFor;
    if quantity <= 0.0 {
      EntryRefused(signal, entry, feeType, candle, params, a, views);
      return null;
    }
    var plan := BuildExitPlan(signal, entry, params);
    if plan.None? {
      EntryRefused(signal, entry, feeType, candle, params, a, views);
      return null;
    }
    EntryAccepted(signal, entry, feeType, candle, params, a, views, plan.value);
    var fee := EntryFee(signal, capital, params, feeType);
    var available := state.AvailableMarginFor(positions);
    if margin + fee > available {
      return null;
    }
    state.cash := state.cash - fee;
    trade := new OpenTrade(signal, candle.closeTime, entry, signal.leverage, quantity, margin, fee, plan.value);
  }

  // ---------- the run ----------

  /** Everything the loop carries from bar to bar. */
  ghost function Whole(state: SimState, open: seq<OpenTrade>, pending: Option<Pending>, closed: seq<Closing>, last: int): State
    reads state, open
  {
    State(state.View(), Views(open), pending, closed, last, state.analysisPoints, state.unfilledEntries)
  }

  lemma {:induction false} TradesConcat(a: seq<Closing>, b: seq<Closing>)
    ensures Trades(a + b) == Trades(a) + Trades(b)
    decreases |b|
  {
    hide Spec.Finalize;
    if b == [] {
      assert a + b == a;
    } else {
      assert (a + b)[..|a + b| - 1] == a + b[..|b| - 1];
      TradesConcat(a, b[..|b| - 1]);
    }
  }

  /** Funding and exits of the open positions, framed by the marks of the bar. */
  method SettleBar(open: seq<OpenTrade>, ghost pending: Option<Pending>, ghost last: int, candle: Candle, params: Params,
                   schedule: map<int, real>, state: SimState, trades: seq<Spec.Trade>, ghost closed: seq<Closing>)
    returns (survivors: seq<OpenTrade>, trades': seq<Spec.Trade>, ghost closed': seq<Closing>)
    requires Distinct(open) && trades == Trades(closed)
    modifies open, state
    ensures Whole(state, survivors, pending, closed', last)
            == Settle(MarkExtremes(old(Whole(state, open, pending, closed, last)), candle, params), candle, params, schedule)
    ensures trades' == Trades(closed')
    ensures Distinct(survivors) && forall t :: t in survivors ==> t in open
  {
    hide SweepBook, Trades, Replay.MarkToMarket, RecordPoint, Distinct, Views;
    ghost var marked := MarkExtremes(Whole(state, open, pending, closed, last), candle, params);
    if |open| > 0 {
      state.MarkToMarket(candle.low, open, params.takerFeePct);
      state.MarkToMarket(candle.high, open, params.takerFeePct);
    }
    assert Whole(state, open, pending, closed, last) == marked;
    hide MarkExtremes;
    var swept;
    ghost var ended;
    survivors, swept, ended := SweepOpen(open, candle, params, schedule, state);
    TradesConcat(closed, ended);
    trades', closed' := trades + swept, closed + ended;
    state.MarkToMarket(candle.close, survivors, params.takerFeePct);
    state.RecordEquityPoint(candle.closeTime);
  }

  /** Opens a position and, when it was accepted, adds it to the book and marks the account again. */
  method Enter(signal: Signal, entry: real, feeType: FeeType, candle: Candle, params: Params, state: SimState,
               open: seq<OpenTrade>, ghost pending: Option<Pending>, ghost last: int, ghost closed: seq<Closing>)
    returns (open': seq<OpenTrade>)
    requires Distinct(open)
    modifies state
    ensures var s := old(Whole(state, open, pending, closed, last));
            Whole(state, open', pending, closed, last)
            == Admit(s, OpenTradeAt(signal, entry, feeType, candle, params, s.account, s.open), candle, params)
    ensures Distinct(open')
    ensures forall k :: 0 <= k < |open'| ==> open'[k] in open || fresh(open'[k])
  {
    hide OpenTradeAt, Replay.MarkToMarket, Views;
    ghost var views := Views(open);
    var position := OpenAt(signal, entry, feeType, candle, params, state, open);
    assert Views(open) == views;
    if position == null {
      return open;
    }
    ViewsOfOneMore(open, position);
    open' := open + [position];
    state.MarkToMarket(candle.close, open', params.takerFeePct);
  }

  method ShiftedSignal(pending: Pending) returns (signal: Signal)
    ensures signal == Shifted(pending)
  {
    signal := pending.signal;
    var shift := pending.limit - signal.reference;
    if shift == 0.0 {
      return;
    }
    var takeProfit := MoveTargets(signal.takeProfit, shift);
    var stopLoss := MoveTargets(signal.stopLoss, shift);
    signal := signal.(reference := pending.limit, takeProfit := takeProfit, stopLoss := stopLoss);
  }

  /** The resting entry of an earlier bar meets this one. */
  method MeetPending(pending: Option<Pending>, i: int, candle: Candle, params: Params, state: SimState,
                     open: seq<OpenTrade>, ghost last: int, ghost closed: seq<Closing>)
    returns (open': seq<OpenTrade>, pending': Option<Pending>)
    requires Distinct(open)
    modifies state
    ensures Whole(state, open', pending', closed, last)
            == FillPending(old(Whole(state, open, pending, closed, last)), i, candle, params)
    ensures Distinct(open')
    ensures forall k :: 0 <= k < |open'| ==> open'[k] in open || fresh(open'[k])
  {
    hide OpenTradeAt, Admit, Shifted, Fills, Views, MaxOpen;
    open', pending' := open, pending;
    if pending.Some? {
      var resting := pending.value;
      if i > resting.expiresAt {
        state.unfilledEntries := state.unfilledEntries + 1;
        assert Views(open) == old(Views(open));
        pending' := None;
      } else if |open| >= MaxOpen(params) {
        pending' := None;
      } else if Fills(resting, candle) {
        var signal := ShiftedSignal(resting);
        open' := Enter(signal, resting.limit, Maker, candle, params, state, open, pending, last, closed);
        AdmitIgnoresPending(old(Whole(state, open, pending, closed, last)), signal, resting.limit, candle, params);
        pending' := None;
      }
    }
  }

  lemma AdmitIgnoresPending(s: State, signal: Signal, entry: real, candle: Candle, params: Params)
    ensures Admit(s, OpenTradeAt(signal, entry, Maker, candle, params, s.account, s.open), candle, params).pending == s.pending
  {
    hide OpenTradeAt, Replay.MarkToMarket;
  }

  /** A decision is taken on the bar when one is due and there is room for it. */
  method DecideOnBar(pending: Option<Pending>, last: int, i: int, candle: Candle, inputs: Inputs, params: Params, policy: Policy,
                     state: SimState, open: seq<OpenTrade>, ghost closed: seq<Closing>)
    returns (open': seq<OpenTrade>, pending': Option<Pending>, last': int)
    requires Distinct(open)
    modifies state
    ensures Whole(state, open', pending', closed, last')
            == Analyse(old(Whole(state, open, pending, closed, last)), i, candle, inputs, params, policy)
    ensures Distinct(open')
    ensures forall k :: 0 <= k < |open'| ==> open'[k] in open || fresh(open'[k])
  {
    hide OpenTradeAt, Admit, Decide, ViewAt, MarketEntry, RestingLimit, ValidBars, StepBars, MaxOpen, Views;
    open', pending', last' := open, pending, last;
    if i - last < StepBars(params) {
      return;
    }
    last' := i;
    state.analysisPoints := state.analysisPoints + 1;
    assert Views(open) == old(Views(open));
    if |open| >= MaxOpen(params) {
      return;
    }
    var positions := Snapshot(open);
    var decision := Decide(policy, ViewAt(inputs, candle.closeTime, positions, params), params.timeframe);
    if decision.Some? {
      var signal := decision.value;
      if params.entryPullbackAtr > 0.0 && signal.atr > 0.0 {
        var limit := RestingLimit(signal, params);
        if limit > 0.0 {
          pending' := Some(Pending(signal, limit, i + ValidBars(params)));
        }
        return;
      }
      open' := Enter(signal, MarketEntry(signal, candle, params), Taker, candle, params, state, open, pending, last', closed);
    }
  }

  /** What the decision is shown of the open book. */
  method Snapshot(open: seq<OpenTrade>) returns (positions: seq<Spec.Position>)
    ensures positions == Views(open)
  {
    positions := [];
    for i := 0 to |open|
      invariant positions == Views(open)[..i]
    {
      var t := open[i];
      positions := positions + [Spec.Position(t.direction, t.openedAt, t.entryPrice, t.leverage, t.allocationPct,
                                              t.takeProfit, t.stopLoss, t.originalQty, t.remainingQty, t.initialMargin,
                                              t.grossPnL, t.fees, t.funding, t.exitNotional, t.exitedQty,
                                              t.executions, t.nextFundingAt, t.breakEven, t.trailATR, t.peak, t.mfe, t.mae)];
    }
  }

  method StepBar(pending: Option<Pending>, last: int, i: int, candle: Candle, inputs: Inputs, params: Params, policy: Policy,
                 state: SimState, open: seq<OpenTrade>, trades: seq<Spec.Trade>, ghost closed: seq<Closing>)
    returns (open': seq<OpenTrade>, pending': Option<Pending>, last': int, trades': seq<Spec.Trade>, ghost closed': seq<Closing>)
    requires Distinct(open) && trades == Trades(closed)
    modifies state, open
    ensures Whole(state, open', pending', closed', last')
            == Step(old(Whole(state, open, pending, closed, last)), i, candle, inputs, params, policy)
    ensures trades' == Trades(closed')
    ensures Distinct(open')
    ensures forall k :: 0 <= k < |open'| ==> open'[k] in open || fresh(open'[k])
  {
    hide Settle, MarkExtremes, FillPending, Analyse, Trades, Views, Distinct;
    if candle.openTime < params.dateFrom {
      return open, pending, last, trades, closed;
    }
    open', trades', closed' := SettleBar(open, pending, last, candle, params, inputs.funding, state, trades, closed);
    open', pending' := MeetPending(pending, i, candle, params, state, open', last, closed');
    open', pending', last' := DecideOnBar(pending', last, i, candle, inputs, params, policy, state, open', closed');
  }

  /** Carries the account through every bar of the traded series. */
  method ReplayBars(candles: seq<Candle>, inputs: Inputs, params: Params, policy: Policy, state: SimState)
    returns (open: seq<OpenTrade>, trades: seq<Spec.Trade>, ghost pending: Option<Pending>, ghost last: int, ghost closed: seq<Closing>)
    requires candles == SeriesOf(inputs.series, params.timeframe)
    requires state.View() == NewAccount(params) && state.analysisPoints == 0 && state.unfilledEntries == 0
    modifies state
    ensures Whole(state, open, pending, closed, last) == RunTo(|candles|, inputs, params, policy)
    ensures trades == Trades(closed) && Distinct(open) && fresh(open)
  {
    hide Step, Trades, StepBars, Distinct, NewAccount;
    var resting: Option<Pending>, signalled := None, -StepBars(params);
    open, trades, closed := [], [], [];
    NothingYet();
    var i := MIN_CANDLES;
    while i < |candles|
      invariant i == MIN_CANDLES || MIN_CANDLES <= i <= |candles|
      invariant Whole(state, open, resting, closed, signalled)
                == RunTo(if i <= |candles| then i else |candles|, inputs, params, policy)
      invariant trades == Trades(closed)
      invariant Distinct(open) && fresh(open)
    {
      hide Views;
      open, resting, signalled, trades, closed :=
        StepBar(resting, signalled, i, candles[i], inputs, params, policy, state, open, trades, closed);
      i := i + 1;
    }
    pending, last := resting, signalled;
    assert i == |candles| || RunTo(|candles|, inputs, params, policy) == Initial(params);
  }

  /** Positions still open at the end are closed at the last available price. */
  method FinishPeriod(open: seq<OpenTrade>, final: Candle, params: Params, schedule: map<int, real>, state: SimState,
                      trades: seq<Spec.Trade>, ghost pending: Option<Pending>, ghost last: int, ghost closed: seq<Closing>)
    returns (trades': seq<Spec.Trade>, ghost closed': seq<Closing>)
    requires open != [] && Distinct(open) && trades == Trades(closed)
    modifies open, state
    ensures Whole(state, [], pending, closed', last)
            == Finish(old(Whole(state, open, pending, closed, last)), final, params, schedule)
    ensures trades' == Trades(closed')
  {
    hide Trades, CloseBook, Distinct;
    var swept;
    ghost var ended;
    swept, ended := CloseOpen(open, final, params, schedule, state);
    TradesConcat(closed, ended);
    trades', closed' := trades + swept, closed + ended;
    state.MarkToMarket(final.close, [], params.takerFeePct);
    state.RecordEquityPoint(final.closeTime);
  }

  lemma NothingYet()
    ensures Trades([]) == [] && Distinct([])
  {
  }

  const EQUITY_CURVE_MAX_POINTS := 1500

  /** The replay: the trades, the account and the equity curve are those of the specified run. */
  method SimulateSeries(inputs: Inputs, params: Params, policy: Policy)
    returns (trades: seq<Spec.Trade>, state: SimState, curve: seq<EquityPoint>, ghost picks: seq<nat>)
    ensures fresh(state)
    ensures var run := Run(inputs, params, policy);
            && state.View() == run.account
            && state.analysisPoints == run.analysisPoints && state.unfilledEntries == run.unfilledEntries
            && trades == Trades(run.closed)
            && (|run.account.curve| <= EQUITY_CURVE_MAX_POINTS ==> curve == run.account.curve)
            && (|run.account.curve| > EQUITY_CURVE_MAX_POINTS ==>
                  |curve| == EQUITY_CURVE_MAX_POINTS && Picked(run.account.curve, curve, picks))
  {
    hide RunTo, Trades, Finish, Distinct;
    var candles := SeriesOf(inputs.series, params.timeframe);
    state := new SimState(params);
    var open;
    ghost var pending, last, closed;
    open, trades, pending, last, closed := ReplayBars(candles, inputs, params, policy, state);
    if |open| > 0 && |candles| > 0 {
      trades, closed := FinishPeriod(open, candles[|candles| - 1], params, inputs.funding, state, trades, pending, last, closed);
    }
    curve, picks := EquityCurve(state.curve, EQUITY_CURVE_MAX_POINTS);
  }
}
