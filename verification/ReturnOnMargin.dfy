/** What an exit means for the margin posted: ladder steps, liquidation and stops that gap. */
module ReturnOnMargin {
  import opened Domain
  import opened Rounding
  import opened Reals
  import opened Levels
  import opened OpenTrades

  /** Gross result per unit of quantity, in percent of the margin behind it. */
  function ReturnPct(entry: Positive, price: real, direction: Direction, leverage: int): real {
    direction.Sign() * (price - entry) / entry * leverage as real * 100.0
  }

  lemma MoveReturns(entry: Positive, sign: real, move: real, leverage: int, pnl: real, direction: Direction)
    requires leverage > 0 && move == pnl / leverage as real / 100.0
    requires sign == direction.Sign() || sign == -direction.Sign()
    ensures ReturnPct(entry, entry * (1.0 + sign * move), direction, leverage)
            == if sign == direction.Sign() then pnl else -pnl
  {
    var price := entry * (1.0 + sign * move);
    var s := direction.Sign() * sign;
    assert price - entry == entry * (sign * move);
    assert direction.Sign() * (price - entry) == (s * move) * entry by {
      assert direction.Sign() * (entry * (sign * move)) == (direction.Sign() * sign * move) * entry;
    }
    QuotientIs(s * move, direction.Sign() * (price - entry), entry);
    assert move * leverage as real * 100.0 == pnl;
  }

  /** A ladder step sits exactly at its return on margin, whatever leverage the position opened with:
      a gain for a take-profit step, the same loss for a stop step. */
  lemma LadderStepMeansItsReturn(step: ExitStep, entry: Positive, direction: Direction, leverage: NonZero, profit: bool)
    requires leverage > 0
    requires LadderTarget(step, entry, direction, leverage, profit).Some?
    ensures var level := LadderTarget(step, entry, direction, leverage, profit).value;
            && ReturnPct(entry, level.price, direction, leverage) == (if profit then Abs(step.pnlPct) else -Abs(step.pnlPct))
            && level.closePct == step.closePct
  {
    var sign := if profit then direction.Sign() else -direction.Sign();
    MoveReturns(entry, sign, Abs(step.pnlPct) / leverage as real / 100.0, leverage, Abs(step.pnlPct), direction);
  }

  lemma GrossAtLevel(entry: Positive, price: real, direction: Direction, leverage: int, qty: real, margin: real,
                     original: real, share: real)
    requires margin * leverage as real == entry * original
    requires qty == original * share / 100.0
    ensures (price - entry) * qty * direction.Sign()
            == margin * ReturnPct(entry, price, direction, leverage) / 100.0 * share / 100.0
  {
    var s := direction.Sign() * (price - entry);
    var q := s / entry;
    assert q * entry == s;
    var lev := leverage as real;
    assert (price - entry) * qty * direction.Sign() == s * qty;
    assert s * qty == q * entry * original * share / 100.0;
    assert q * (entry * original) == q * (margin * lev);
    assert ReturnPct(entry, price, direction, leverage) == q * lev * 100.0;
    assert margin * (q * lev * 100.0) == q * (margin * lev) * 100.0;
  }

  /** What a position was opened on. */
  datatype Terms = Terms(direction: Direction, entry: Positive, leverage: NonZero, margin: real, original: Positive)

  function TermsOf(p: Position): Terms {
    Terms(p.direction, p.entryPrice, p.leverage, p.initialMargin, p.originalQty)
  }

  /** The margin carries the whole notional. */
  ghost predicate Margined(t: Terms) {
    t.margin * t.leverage as real == t.entry * t.original
  }

  /** The percentage of the margin a step promises, on a share of the position. */
  function StepGain(margin: real, step: ExitStep, share: real): real {
    margin * Abs(step.pnlPct) / 100.0 * share / 100.0
  }

  /** What a step earns on any quantity sold at its price. */
  lemma StepEarns(t: Terms, step: ExitStep, qty: real)
    requires Margined(t) && t.leverage > 0 && LadderTarget(step, t.entry, t.direction, t.leverage, true).Some?
    ensures GrossOn(t.direction, t.entry, LadderTarget(step, t.entry, t.direction, t.leverage, true).value.price, qty)
         == StepGain(t.margin, step, SharePct(qty, t.original))
  {
    hide ReturnPct, SharePct, GrossOn;
    var price := LadderTarget(step, t.entry, t.direction, t.leverage, true).value.price;
    LadderStepMeansItsReturn(step, t.entry, t.direction, t.leverage, true);
    hide LadderTarget;
    var share := SharePct(qty, t.original);
    ShareOf(t.original, qty, share);
    GrossAtLevel(t.entry, price, t.direction, t.leverage, qty, t.margin, t.original, share);
    GrossOnMeans(t.direction, t.entry, price, qty);
  }

  /** A take-profit step earns its percentage of the margin on the share of the position it closes,
      whatever that share turns out to be; it is the step's own share whenever that much is left. */
  lemma TakeProfitStepEarns(b: Booked, step: ExitStep, at: int, params: Params, kind: string)
    requires var p := b.position;
             && p.leverage > 0 && p.remainingQty >= 0.0 && Margined(TermsOf(p))
             && LadderTarget(step, p.entryPrice, p.direction, p.leverage, true).Some?
    ensures var p := b.position;
            var level := LadderTarget(step, p.entryPrice, p.direction, p.leverage, true).value;
            var q := ExecuteExit(b, level.price, level.closePct, at, params, Maker, kind).position;
            var share := SharePct(p.remainingQty - q.remainingQty, p.originalQty);
            && q.grossPnL - p.grossPnL == StepGain(p.initialMargin, step, share)
            && (step.closePct < 100.0 && p.originalQty * step.closePct / 100.0 <= p.remainingQty ==> share == step.closePct)
  {
    hide ReturnPct, ExecuteExit, SharePct, QuantityToClose, GrossOn, StepGain, Margined;
    var p := b.position;
    var level := LadderTarget(step, p.entryPrice, p.direction, p.leverage, true).value;
    assert level.closePct > 0.0 && level.closePct == step.closePct;
    hide LadderTarget;
    MakerExitCloses(b, level.price, level.closePct, at, params, kind);
    ShareOf(p.originalQty, ExitQuantity(p, level.closePct), step.closePct);
    StepEarns(TermsOf(p), step, ExitQuantity(p, level.closePct));
  }

  lemma ShareOf(original: Positive, qty: real, pct: real)
    ensures qty == original * SharePct(qty, original) / 100.0
    ensures qty == original * pct / 100.0 ==> SharePct(qty, original) == pct
  {
    if qty == original * pct / 100.0 {
      QuotientIs(pct / 100.0, qty, original);
    }
  }

  /** What a maker exit at a level takes off the position, and what it adds to its gross result. */
  lemma MakerExitCloses(b: Booked, price: real, closePct: real, at: int, params: Params, kind: string)
    requires b.position.remainingQty >= 0.0 && closePct > 0.0
    ensures var p := b.position;
            var q := ExecuteExit(b, price, closePct, at, params, Maker, kind).position;
            var qty := ExitQuantity(p, closePct);
            && p.remainingQty - q.remainingQty == qty
            && q.grossPnL - p.grossPnL == GrossOn(p.direction, p.entryPrice, price, qty)
            && (closePct < 100.0 && p.originalQty * closePct / 100.0 <= p.remainingQty ==> qty == p.originalQty * closePct / 100.0)
  {
    hide ExitFee, SharePct, Round10;
    var p := b.position;
    assert p.originalQty * closePct > 0.0;
    var qty := ExitQuantity(p, closePct);
    assert 0.0 <= qty <= p.remainingQty;
    if qty == 0.0 {
      NothingGross(p.direction, p.entryPrice, price);
    }
  }

  lemma GrossOnMeans(direction: Direction, entry: real, exit: real, qty: real)
    ensures GrossOn(direction, entry, exit, qty) == (exit - entry) * qty * direction.Sign()
  {
  }

  lemma NothingGross(direction: Direction, entry: real, exit: real)
    ensures GrossOn(direction, entry, exit, 0.0) == 0.0
  {
  }

  // ---------- liquidation never costs more than the margin, slippage aside ----------

  /** Loss per unit of notional once the position is bankrupt and slips on top. */
  function WorstLiquidationLoss(direction: Direction, leverage: NonZero, slip: real): real {
    1.0 / leverage as real
    + slip * (if direction.Long? then 1.0 - 1.0 / leverage as real else 1.0 + 1.0 / leverage as real)
  }

  lemma LiquidationFillIsCapped(entry: Positive, direction: Direction, leverage: NonZero, candle: Candle, liquidation: real)
    requires leverage > 0
    ensures var fill := LiquidationFill(entry, direction, leverage, candle, liquidation);
            if direction.Long? then fill >= BankruptcyPrice(entry, direction, leverage)
            else fill <= BankruptcyPrice(entry, direction, leverage)
  {
  }

  lemma SlippedLoss(entry: Positive, inverse: real, slip: real, fill: real, direction: Direction)
    requires 0.0 <= slip <= 1.0
    requires if direction.Long? then fill >= entry * (1.0 - inverse) else fill <= entry * (1.0 + inverse)
    ensures direction.Sign() * (fill * (1.0 - direction.Sign() * slip) - entry)
            >= -(entry * (inverse + slip * (if direction.Long? then 1.0 - inverse else 1.0 + inverse)))
  {
    if direction.Long? {
      MulMonotone(entry * (1.0 - inverse), fill, 1.0 - slip);
      assert entry * (1.0 - inverse) * (1.0 - slip) - entry == -(entry * (inverse + slip * (1.0 - inverse)));
    } else {
      MulMonotone(fill, entry * (1.0 + inverse), 1.0 + slip);
      assert entry * (1.0 + inverse) * (1.0 + slip) - entry == entry * (inverse + slip * (1.0 + inverse));
    }
  }

  /** The margin behind a quantity and the slippage of closing it bankrupt. */
  function MarginLoss(t: Terms, qty: real, params: Params): real {
    qty * t.entry * WorstLiquidationLoss(t.direction, t.leverage, params.slippagePct / 100.0)
  }

  /** The posted margin and the slippage, for the quantity still open. */
  function LiquidationBound(p: Position, params: Params): real {
    MarginLoss(TermsOf(p), p.remainingQty, params)
  }

  /** However far the bar gapped, a liquidation loses at most the posted margin and the slippage. */
  lemma LiquidationLossIsBounded(b: Booked, candle: Candle, params: Params, liquidation: real)
    requires b.position.leverage > 0 && b.position.remainingQty >= 0.0
    requires 0.0 <= params.slippagePct <= 100.0
    ensures var p := b.position;
            Liquidate(b, candle, params, liquidation).position.grossPnL >= p.grossPnL - LiquidationBound(p, params)
  {
    var p := b.position;
    var fill := LiquidationFill(p.entryPrice, p.direction, p.leverage, candle, liquidation);
    var exit := ExitPrice(p, fill, params, Taker);
    LiquidatedUnitLoss(p, fill, candle, params, liquidation);
    LossOnQuantity(p, exit, params);
    hide LiquidationFill, ExitPrice, WorstLiquidationLoss, ExitFee, ExitGross, LiquidationBound;
    assert ExitQuantity(p, 100.0) == p.remainingQty;
  }

  lemma LiquidatedUnitLoss(p: Position, fill: real, candle: Candle, params: Params, liquidation: real)
    requires p.leverage > 0 && 0.0 <= params.slippagePct <= 100.0
    requires fill == LiquidationFill(p.entryPrice, p.direction, p.leverage, candle, liquidation)
    ensures p.direction.Sign() * (ExitPrice(p, fill, params, Taker) - p.entryPrice)
            >= -(p.entryPrice * WorstLiquidationLoss(p.direction, p.leverage, params.slippagePct / 100.0))
  {
    LiquidationFillIsCapped(p.entryPrice, p.direction, p.leverage, candle, liquidation);
    SlippedLoss(p.entryPrice, 1.0 / p.leverage as real, params.slippagePct / 100.0, fill, p.direction);
  }

  lemma LossOnQuantity(p: Position, exit: real, params: Params)
    requires p.remainingQty >= 0.0
    requires p.direction.Sign() * (exit - p.entryPrice)
             >= -(p.entryPrice * WorstLiquidationLoss(p.direction, p.leverage, params.slippagePct / 100.0))
    ensures ExitGross(p, exit, p.remainingQty) >= -LiquidationBound(p, params)
    ensures p.remainingQty == 0.0 ==> LiquidationBound(p, params) == 0.0
  {
    hide WorstLiquidationLoss;
    var worst := WorstLiquidationLoss(p.direction, p.leverage, params.slippagePct / 100.0);
    MulMonotone(-(p.entryPrice * worst), p.direction.Sign() * (exit - p.entryPrice), p.remainingQty);
    assert (exit - p.entryPrice) * p.remainingQty * p.direction.Sign() == p.direction.Sign() * (exit - p.entryPrice) * p.remainingQty;
    assert p.remainingQty * p.entryPrice * worst == p.entryPrice * worst * p.remainingQty;
  }

  // ---------- a stop has no such cap ----------

  /** Per unit of quantity the margin is entry / leverage. Before slippage a stop loses more than that
      exactly when its level or the open it gapped to lies beyond the bankruptcy price. */
  lemma StopLosesMoreThanMargin(entry: Positive, level: real, candle: Candle, direction: Direction, leverage: NonZero)
    requires leverage > 0
    ensures direction.Sign() * (entry - StopFill(level, candle, direction)) * leverage as real > entry
            <==> var broke := BankruptcyPrice(entry, direction, leverage);
                 if direction.Long? then level < broke || 0.0 < candle.open < broke
                 else level > broke || (candle.open > 0.0 && candle.open > broke)
  {
    BankruptcyLosesTheMargin(entry, direction, leverage);
    LossAgainstBankruptcy(entry, StopFill(level, candle, direction), BankruptcyPrice(entry, direction, leverage),
                          direction.Sign(), leverage as real);
    hide BankruptcyPrice;
  }

  lemma BankruptcyLosesTheMargin(entry: Positive, direction: Direction, leverage: NonZero)
    requires leverage > 0
    ensures direction.Sign() * (entry - BankruptcyPrice(entry, direction, leverage)) * leverage as real == entry
  {
    var inverse := 1.0 / leverage as real;
    assert inverse * leverage as real == 1.0;
    assert direction.Sign() * (entry - BankruptcyPrice(entry, direction, leverage)) == entry * inverse;
    assert entry * inverse * leverage as real == entry * (inverse * leverage as real);
  }

  lemma LossAgainstBankruptcy(entry: real, fill: real, broke: real, sign: real, lev: Positive)
    requires sign * (entry - broke) * lev == entry
    ensures sign * (entry - fill) * lev > entry <==> sign * (broke - fill) > 0.0
  {
    var x := sign * (fill - broke);
    assert x * lev == sign * (entry - broke) * lev - sign * (entry - fill) * lev;
    ProductSign(x, lev);
  }
}
