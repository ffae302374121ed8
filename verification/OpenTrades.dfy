/** What one bar does to one simulated position: funding, exits, trailing, liquidation. */
module OpenTrades {
  import opened Domain
  import opened Rounding
  import opened Levels

  const FUNDING_PERIOD := 28800

  datatype Execution = Execution(kind: string, at: int, price: real, quantity: real, closePct: real,
                                 grossPnL: real, fee: real, funding: real)

  datatype Position = Position(
    direction: Direction, openedAt: int, entryPrice: Positive, leverage: NonZero, allocationPct: real,
    takeProfit: seq<PriceTarget>, stopLoss: seq<PriceTarget>,
    originalQty: Positive, remainingQty: real, initialMargin: real,
    grossPnL: real, fees: real, funding: real, exitNotional: real, exitedQty: real,
    executions: seq<Execution>, nextFundingAt: int, breakEven: bool,
    trailATR: real, peak: real, mfe: real, mae: real)

  /** A position together with the account cash its bookings go to. */
  datatype Booked = Booked(position: Position, cash: real)

  /** The result of one bar: the position afterwards and, when the bar closed it, why. */
  datatype Tick = Tick(booked: Booked, closedBy: Option<string>)

  datatype Trade = Trade(
    direction: Direction, openedAt: int, closedAt: int, entryPrice: real, exitPrice: Option<real>,
    quantity: real, leverage: int, allocationPct: real,
    grossPnL: real, fees: real, funding: real, netPnL: real,
    exitReason: string, executions: seq<Execution>, mfePct: real, maePct: real, pnlPct: real)

  // ---------- funding clock ----------

  /** The first settlement strictly after a moment; settlements happen at 00:00, 08:00 and 16:00 UTC. */
  function NextFundingAfter(at: int): int {
    var day := at - at % DAY;
    if day > at then day
    else if day + 28800 > at then day + 28800
    else if day + 57600 > at then day + 57600
    else day + DAY
  }

  function FundingRate(at: int, params: Params, funding: map<int, real>): real {
    if at in funding then funding[at] else params.fundingRatePct
  }

  /** Longs pay a positive rate, shorts receive it. */
  function FundingAmount(direction: Direction, qty: real, mark: real, rate: real): real {
    mark * qty * rate / 100.0 * -direction.Sign()
  }

  /** Books the settlement the position is waiting for and moves its clock on. */
  function SettleFunding(b: Booked, candle: Candle, params: Params, funding: map<int, real>): Booked {
    var p := b.position;
    var rate := FundingRate(p.nextFundingAt, params, funding);
    var advanced := p.(nextFundingAt := p.nextFundingAt + FUNDING_PERIOD);
    if rate != 0.0 && p.remainingQty > 0.0 then
      var amount := FundingAmount(p.direction, p.remainingQty, candle.open, rate);
      Booked(advanced.(funding := p.funding + amount,
                       executions := p.executions
                       + [Execution(FUNDING, p.nextFundingAt, candle.open, p.remainingQty, 0.0, 0.0, 0.0, Round10(amount))]),
             b.cash + amount)
    else Booked(advanced, b.cash)
  }

  function ApplyFunding(b: Booked, candle: Candle, params: Params, funding: map<int, real>): Booked
    decreases candle.closeTime - b.position.nextFundingAt
  {
    if b.position.nextFundingAt > candle.closeTime then b
    else ApplyFunding(SettleFunding(b, candle, params, funding), candle, params, funding)
  }

  // ---------- exits ----------

  function QuantityToClose(original: real, remaining: real, closePct: real): real {
    var qty := original * closePct / 100.0;
    if closePct >= 100.0 || qty > remaining then remaining else qty
  }

  function ExitQuantity(p: Position, closePct: real): real {
    QuantityToClose(p.originalQty, p.remainingQty, closePct)
  }

  /** What a market exit is really paid; a resting maker order pays its own price. */
  function Slipped(direction: Direction, price: real, params: Params, feeType: FeeType): real {
    if feeType.Maker? then price else price * (1.0 - direction.Sign() * (params.slippagePct / 100.0))
  }

  function ExitPrice(p: Position, price: real, params: Params, feeType: FeeType): real {
    Slipped(p.direction, price, params, feeType)
  }

  function GrossOn(direction: Direction, entry: real, exit: real, qty: real): real {
    (exit - entry) * qty * direction.Sign()
  }

  function ExitGross(p: Position, exit: real, qty: real): real {
    GrossOn(p.direction, p.entryPrice, exit, qty)
  }

  function Notional(price: real, qty: real): real {
    price * qty
  }

  function SharePct(qty: real, original: Positive): real {
    qty / original * 100.0
  }

  function ExitFee(exit: real, qty: real, params: Params, feeType: FeeType): real {
    FeeFor(Notional(exit, qty), params, feeType)
  }

  function BookExit(p: Position, qty: real, exit: real, fee: real, at: int, kind: string): Position {
    var gross := ExitGross(p, exit, qty);
    p.(grossPnL := p.grossPnL + gross,
       fees := p.fees + fee,
       exitNotional := p.exitNotional + Notional(exit, qty),
       exitedQty := p.exitedQty + qty,
       remainingQty := Max(p.remainingQty - qty, 0.0),
       executions := p.executions
       + [Execution(kind, at, exit, qty, SharePct(qty, p.originalQty), Round10(gross), Round10(fee), 0.0)])
  }

  function ExecuteExit(b: Booked, price: real, closePct: real, at: int, params: Params,
                       feeType: FeeType, kind: string): Booked {
    var p := b.position;
    var qty := ExitQuantity(p, closePct);
    if qty <= 0.0 then b
    else
      var exit := ExitPrice(p, price, params, feeType);
      var fee := ExitFee(exit, qty, params, feeType);
      Booked(BookExit(p, qty, exit, fee, at, kind), b.cash + ExitGross(p, exit, qty) - fee)
  }

  /** A missing share means the whole position. */
  function Share(level: PriceTarget): real {
    if level.closePct <= 0.0 then 100.0 else level.closePct
  }

  /** The levels left and the booking after the first n levels of a sorted list met the bar;
      the walk stops once nothing is left to close. */
  datatype Walk = Walk(booked: Booked, untouched: seq<PriceTarget>, stopped: bool)

  function CloseTouched(b: Booked, candle: Candle, ordered: seq<PriceTarget>, takeProfit: bool,
                        params: Params, kind: string): Walk
  {
    if ordered == [] then Walk(b, [], false)
    else
      var w := CloseTouched(b, candle, ordered[..|ordered| - 1], takeProfit, params, kind);
      var level := ordered[|ordered| - 1];
      var p := w.booked.position;
      if w.stopped then w
      else if !Touched(candle, level.price, p.direction, takeProfit) then w.(untouched := w.untouched + [level])
      else
        var fill := if takeProfit then level.price else StopFill(level.price, candle, p.direction);
        var booked := ExecuteExit(w.booked, fill, Share(level), candle.closeTime, params,
                                  if takeProfit then Maker else Taker, kind);
        Walk(booked, w.untouched, booked.position.remainingQty == 0.0)
  }

  /** Nearest level first. */
  function ExecuteTouchedTargets(b: Booked, candle: Candle, levels: seq<PriceTarget>, takeProfit: bool,
                                 params: Params, kind: string): Walk {
    CloseTouched(b, candle, SortByPrice(levels, b.position.direction.Long? == takeProfit), takeProfit, params, kind)
  }

  // ---------- one bar ----------

  function RecordExcursion(p: Position, candle: Candle): Position {
    var up := (candle.high - p.entryPrice) / p.entryPrice * 100.0 * p.direction.Sign();
    var down := (candle.low - p.entryPrice) / p.entryPrice * 100.0 * p.direction.Sign();
    p.(mfe := Max(p.mfe, Max(up, down)), mae := Min(p.mae, Min(up, down)))
  }

  function LiquidationOf(p: Position, params: Params): Option<real> {
    LiquidationPrice(p.entryPrice, p.direction, p.leverage, params)
  }

  function Liquidate(b: Booked, candle: Candle, params: Params, liquidation: real): Booked {
    var p := b.position;
    ExecuteExit(b, LiquidationFill(p.entryPrice, p.direction, p.leverage, candle, liquidation),
                100.0, candle.closeTime, params, Taker, LIQUIDATION)
  }

  function TriggerStops(b: Booked, candle: Candle, params: Params, kind: string): Booked {
    var w := ExecuteTouchedTargets(b, candle, b.position.stopLoss, false, params, kind);
    w.booked.(position := w.booked.position.(stopLoss := w.untouched))
  }

  /** Once part of the position is banked the rest may be protected at the entry price. */
  function TriggerTargets(b: Booked, candle: Candle, params: Params): Booked {
    var w := ExecuteTouchedTargets(b, candle, b.position.takeProfit, true, params, TAKE_PROFIT);
    var banked := w.booked.position.(takeProfit := w.untouched);
    if params.breakEvenAfterTP && banked.remainingQty > 0.0 && !banked.breakEven
    then w.booked.(position := banked.(breakEven := true, stopLoss := [PriceTarget(banked.entryPrice, 100.0)]))
    else w.booked.(position := banked)
  }

  /** The target and stop levels against the bar; a bar reaching both takes the stops. */
  function TriggerLevels(b: Booked, candle: Candle, params: Params): (Booked, string) {
    var p := b.position;
    var tp := AnyTouched(candle, p.takeProfit, p.direction, true);
    if AnyTouched(candle, p.stopLoss, p.direction, false) then
      var kind := if tp then AMBIGUOUS_STOP else STOP_LOSS;
      (TriggerStops(b, candle, params, kind), kind)
    else if tp then (TriggerTargets(b, candle, params), TAKE_PROFIT)
    else (b, "")
  }

  /** The Chandelier stop follows the extreme reached since entry and never retreats. */
  function TrailStop(p: Position, candle: Candle): Position {
    if p.trailATR <= 0.0 then p
    else if p.direction.Long? then
      var peak := Max(p.peak, candle.high);
      var level := peak - p.trailATR;
      if p.stopLoss == [] || level > p.stopLoss[0].price
      then p.(peak := peak, stopLoss := [PriceTarget(level, 100.0)]) else p.(peak := peak)
    else
      var peak := Min(if p.peak == 0.0 then candle.low else p.peak, candle.low);
      var level := peak + p.trailATR;
      if p.stopLoss == [] || level < p.stopLoss[0].price
      then p.(peak := peak, stopLoss := [PriceTarget(level, 100.0)]) else p.(peak := peak)
  }

  function Update(b: Booked, candle: Candle, params: Params, funding: map<int, real>): Tick {
    var funded := ApplyFunding(b.(position := RecordExcursion(b.position, candle)), candle, params, funding);
    var p := funded.position;
    var liquidation := LiquidationOf(p, params);
    var liquidated := liquidation.Some? && Touched(candle, liquidation.value, p.direction, false);
    if liquidated && !StopPrecedes(p.stopLoss, p.direction, candle, liquidation.value)
    then Tick(Liquidate(funded, candle, params, liquidation.value), Some(LIQUIDATION))
    else
      var (triggered, reason) := TriggerLevels(funded, candle, params);
      if triggered.position.remainingQty == 0.0 then Tick(triggered, Some(reason))
      else
        var trailed := triggered.(position := TrailStop(triggered.position, candle));
        if liquidated then Tick(Liquidate(trailed, candle, params, liquidation.value), Some(LIQUIDATION))
        else Tick(trailed, None)
  }

  function ForceClose(b: Booked, candle: Candle, params: Params, funding: map<int, real>, kind: string): Booked {
    ExecuteExit(ApplyFunding(b, candle, params, funding), candle.close, 100.0, candle.closeTime, params, Taker, kind)
  }

  /** Net result in percent of the margin at entry, to two places. */
  function PnlPct(entry: real, quantity: real, leverage: NonZero, net: real): real {
    var margin := entry * quantity / leverage as real;
    if margin > 0.0 then Round2(net / margin * 100.0) else 0.0
  }

  /** The stored trade: amounts rounded to ten places, the exit price averaged over all exits. */
  function Finalize(p: Position, reason: string, at: int): Trade {
    var gross, fees, funding := Round10(p.grossPnL), Round10(p.fees), Round10(p.funding);
    var net := Round10(gross - fees + funding);
    Trade(p.direction, p.openedAt, at, p.entryPrice,
          if p.exitedQty > 0.0 then Some(p.exitNotional / p.exitedQty) else None,
          p.originalQty, p.leverage, p.allocationPct, gross, fees, funding, net,
          reason, p.executions, p.mfe, p.mae, PnlPct(p.entryPrice, p.originalQty, p.leverage, net))
  }
}
