/** What one bar does to a position, said in its prices alone: which side wins, what is paid, what is left. */
module BarExits {
  import opened Domain
  import opened Rounding
  import opened Reals
  import opened Levels
  import opened OpenTrades
  import opened TradeLedger

  // ---------- the prices of a bar ----------

  ghost predicate TargetReached(p: Position, bar: Candle) {
    exists level :: level in p.takeProfit && Banks(p.direction, bar, level.price)
  }

  ghost predicate StopReached(p: Position, bar: Candle) {
    exists level :: level in p.stopLoss && Hurts(p.direction, bar, level.price)
  }

  /** A reached stop on the entry's side of a price. */
  ghost predicate StopReachedBefore(p: Position, bar: Candle, price: real) {
    exists level :: level in p.stopLoss && Hurts(p.direction, bar, level.price)
                    && match p.direction { case Long => price < level.price case Short => level.price < price }
  }

  /** The worse of a triggered level and the open, for a bar that opened beyond it. */
  predicate GapFill(direction: Direction, bar: Candle, level: real, fill: real) {
    var gapped := bar.open > 0.0 && match direction { case Long => bar.open < level case Short => level < bar.open };
    fill == if gapped then bar.open else level
  }

  /** What is paid at a price by crossing the spread: less for a sale, more for a purchase. */
  predicate Crossed(direction: Direction, price: real, paid: real, params: Params) {
    match direction
    case Long => paid == price - price * (params.slippagePct / 100.0)
    case Short => paid == price + price * (params.slippagePct / 100.0)
  }

  /** Where the margin left is the maintenance margin on the entry's notional, or the entry once the
      maintenance margin exceeds what was posted. */
  ghost predicate LiquidatesAt(p: Position, params: Params, price: real) {
    p.leverage > 0
    && var room := p.entryPrice / p.leverage as real - p.entryPrice * params.maintenanceMarginPct / 100.0;
       var distance := if room > 0.0 then room else 0.0;
       match p.direction
       case Long => price == p.entryPrice - distance
       case Short => price == p.entryPrice + distance
  }

  ghost predicate BankruptAt(p: Position, price: real)
    requires p.leverage != 0
  {
    match p.direction
    case Long => p.entryPrice - price == p.entryPrice / p.leverage as real
    case Short => price - p.entryPrice == p.entryPrice / p.leverage as real
  }

  // ---------- executions ----------

  /** An exit's record adds up: share of the position, result and fee at the rate, to ten places. */
  ghost predicate Receipt(e: Execution, p: Position, bar: Candle, feePct: real) {
    && e.at == bar.closeTime && e.quantity > 0.0 && e.funding == 0.0
    && e.closePct * p.originalQty == e.quantity * 100.0
    && e.grossPnL == Round10(Won(p.direction, p.entryPrice, e.price, e.quantity))
    && e.fee == Round10(PctOfNotional(e.price, e.quantity, feePct))
  }

  /** A take-profit is paid the price of a reached target, as maker, on a bar that reached no stop. */
  ghost predicate ByTarget(e: Execution, p: Position, bar: Candle, params: Params) {
    && e.kind == TAKE_PROFIT && Receipt(e, p, bar, params.makerFeePct)
    && !StopReached(p, bar)
    && exists level :: level in p.takeProfit && Banks(p.direction, bar, level.price) && e.price == level.price
  }

  /** A stop is paid its level or the open that gapped past it, less slippage, as taker; it is called ambiguous
      exactly when a target was reached too. */
  ghost predicate ByStop(e: Execution, p: Position, bar: Candle, params: Params) {
    && e.kind == (if TargetReached(p, bar) then AMBIGUOUS_STOP else STOP_LOSS) && Receipt(e, p, bar, params.takerFeePct)
    && exists level, fill :: level in p.stopLoss && Hurts(p.direction, bar, level.price)
                             && GapFill(p.direction, bar, level.price, fill) && Crossed(p.direction, fill, e.price, params)
  }

  /** A liquidation happens at a reached liquidation price or the open beyond it, never worse than bankruptcy, less slippage. */
  ghost predicate ByLiquidation(e: Execution, p: Position, bar: Candle, params: Params) {
    && e.kind == LIQUIDATION && Receipt(e, p, bar, params.takerFeePct)
    && exists price, fill, broke, capped ::
         LiquidatesAt(p, params, price) && Hurts(p.direction, bar, price)
         && GapFill(p.direction, bar, price, fill) && BankruptAt(p, broke)
         && capped == (match p.direction case Long => Max(fill, broke) case Short => Min(fill, broke))
         && Crossed(p.direction, capped, e.price, params)
  }

  ghost predicate Explained(e: Execution, p: Position, bar: Candle, params: Params) {
    ByTarget(e, p, bar, params) || ByStop(e, p, bar, params) || ByLiquidation(e, p, bar, params)
  }

  /** Everything recorded since is a funding settlement or an exit the bar explains. */
  ghost predicate Extends(before: seq<Execution>, after: seq<Execution>, p: Position, bar: Candle, params: Params) {
    && before <= after
    && forall i :: |before| <= i < |after| ==> after[i].kind == FUNDING || Explained(after[i], p, bar, params)
  }

  /** The same position as far as its exits on this bar are concerned. */
  ghost predicate SamePlan(p: Position, q: Position) {
    && q.direction == p.direction && q.entryPrice == p.entryPrice && q.leverage == p.leverage && q.originalQty == p.originalQty
  }

  lemma ExtendsByOne(before: seq<Execution>, after: seq<Execution>, e: Execution, p: Position, bar: Candle, params: Params)
    requires Extends(before, after, p, bar, params) && (e.kind == FUNDING || Explained(e, p, bar, params))
    ensures Extends(before, after + [e], p, bar, params)
  {
    hide Explained;
  }

  lemma ExtendsTwice(a: seq<Execution>, b: seq<Execution>, c: seq<Execution>, p: Position, bar: Candle, params: Params)
    requires Extends(a, b, p, bar, params) && Extends(b, c, p, bar, params)
    ensures Extends(a, c, p, bar, params) && |a| <= |b| <= |c|
  {
    hide Explained;
    forall i | |a| <= i < |c|
      ensures c[i].kind == FUNDING || Explained(c[i], p, bar, params)
    {
      if i < |b| {
        assert c[i] == b[i];
      }
    }
  }

  // ---------- one exit ----------

  /** The record of an exit and what else it changes. */
  lemma ExitIsRecorded(b: Booked, price: real, closePct: real, at: int, params: Params, feeType: FeeType, kind: string)
    returns (e: Execution)
    ensures var p := b.position;
            var q := ExecuteExit(b, price, closePct, at, params, feeType, kind).position;
            var qty := ExitQuantity(p, closePct);
            && e == Execution(kind, at, ExitPrice(p, price, params, feeType), qty, SharePct(qty, p.originalQty),
                              Round10(ExitGross(p, ExitPrice(p, price, params, feeType), qty)),
                              Round10(ExitFee(ExitPrice(p, price, params, feeType), qty, params, feeType)), 0.0)
            && q.executions == (if qty > 0.0 then p.executions + [e] else p.executions)
            && q.takeProfit == p.takeProfit && q.stopLoss == p.stopLoss && SamePlan(p, q)
            && q.trailATR == p.trailATR && q.breakEven == p.breakEven
  {
    hide ExitFee, SharePct, Round10, ExitGross, ExitPrice, Notional, ExitQuantity;
    var p := b.position;
    var qty, exit := ExitQuantity(p, closePct), ExitPrice(p, price, params, feeType);
    e := Execution(kind, at, exit, qty, SharePct(qty, p.originalQty), Round10(ExitGross(p, exit, qty)),
                   Round10(ExitFee(exit, qty, params, feeType)), 0.0);
  }

  lemma RecordIsReceipt(e: Execution, p: Position, bar: Candle, params: Params, feeType: FeeType, feePct: real)
    requires feePct == if feeType.Maker? then params.makerFeePct else params.takerFeePct
    requires e.quantity > 0.0 && e.at == bar.closeTime && e.funding == 0.0
    requires e.closePct == SharePct(e.quantity, p.originalQty) && e.grossPnL == Round10(ExitGross(p, e.price, e.quantity))
    requires e.fee == Round10(ExitFee(e.price, e.quantity, params, feeType))
    ensures Receipt(e, p, bar, feePct)
  {
    hide Round10;
    ShareMeans(e.quantity, p.originalQty);
    GrossMeans(p, e.price, e.quantity);
    FeeMeans(e.price, e.quantity, params, feeType, feePct);
    hide SharePct, ExitGross, ExitFee, Won, PctOfNotional;
  }

  lemma ShareMeans(qty: real, original: Positive)
    ensures SharePct(qty, original) * original == qty * 100.0
  {
    assert qty / original * original == qty;
  }

  lemma GrossMeans(p: Position, price: real, qty: real)
    ensures ExitGross(p, price, qty) == Won(p.direction, p.entryPrice, price, qty)
  {
    assert (price - p.entryPrice) * qty == -((p.entryPrice - price) * qty);
  }

  lemma FeeMeans(price: real, qty: real, params: Params, feeType: FeeType, feePct: real)
    requires feePct == if feeType.Maker? then params.makerFeePct else params.takerFeePct
    ensures ExitFee(price, qty, params, feeType) == PctOfNotional(price, qty, feePct)
  {
  }

  // ---------- the three kinds of exit ----------

  lemma StopFillMeans(level: real, bar: Candle, direction: Direction)
    ensures GapFill(direction, bar, level, StopFill(level, bar, direction))
  {
  }

  lemma TakerPays(p: Position, price: real, params: Params)
    ensures Crossed(p.direction, price, ExitPrice(p, price, params, Taker), params)
  {
    var slip := params.slippagePct / 100.0;
    assert price * (1.0 - slip) == price - price * slip && price * (1.0 + slip) == price + price * slip;
  }

  lemma TargetExplains(b: Booked, p: Position, level: PriceTarget, closePct: real, bar: Candle, params: Params)
    requires SamePlan(p, b.position) && level in p.takeProfit && Banks(p.direction, bar, level.price) && !StopReached(p, bar)
    ensures Extends(b.position.executions, ExecuteExit(b, level.price, closePct, bar.closeTime, params, Maker, TAKE_PROFIT).position.executions,
                    p, bar, params)
  {
    var e := ExitIsRecorded(b, level.price, closePct, bar.closeTime, params, Maker, TAKE_PROFIT);
    hide ExecuteExit, Receipt, SharePct, Round10, ExitGross, ExitFee, ExitQuantity;
    if e.quantity > 0.0 {
      RecordIsReceipt(e, b.position, bar, params, Maker, params.makerFeePct);
      SameReceipt(e, b.position, p, bar, params.makerFeePct);
      assert ByTarget(e, p, bar, params);
    }
  }

  lemma SameReceipt(e: Execution, q: Position, p: Position, bar: Candle, feePct: real)
    requires SamePlan(p, q) && Receipt(e, q, bar, feePct)
    ensures Receipt(e, p, bar, feePct)
  {
  }

  lemma StopExplains(b: Booked, p: Position, level: PriceTarget, closePct: real, bar: Candle, params: Params, kind: string)
    requires SamePlan(p, b.position) && level in p.stopLoss && Hurts(p.direction, bar, level.price)
    requires kind == if TargetReached(p, bar) then AMBIGUOUS_STOP else STOP_LOSS
    ensures Extends(b.position.executions,
                    ExecuteExit(b, StopFill(level.price, bar, p.direction), closePct, bar.closeTime, params, Taker, kind).position.executions,
                    p, bar, params)
  {
    var fill := StopFill(level.price, bar, p.direction);
    var e := ExitIsRecorded(b, fill, closePct, bar.closeTime, params, Taker, kind);
    StopFillMeans(level.price, bar, p.direction);
    TakerPays(b.position, fill, params);
    hide ExecuteExit, Receipt, SharePct, Round10, ExitGross, ExitFee, ExitQuantity, ExitPrice, StopFill, GapFill, Crossed;
    if e.quantity > 0.0 {
      RecordIsReceipt(e, b.position, bar, params, Taker, params.takerFeePct);
      SameReceipt(e, b.position, p, bar, params.takerFeePct);
      assert ByStop(e, p, bar, params);
    }
  }

  lemma LiquidationMeans(p: Position, params: Params)
    requires LiquidationOf(p, params).Some?
    ensures LiquidatesAt(p, params, LiquidationOf(p, params).value)
  {
    var inverse, mm := 1.0 / p.leverage as real, params.maintenanceMarginPct / 100.0;
    RoomMeans(p.entryPrice, inverse, mm, p.entryPrice / p.leverage as real - p.entryPrice * params.maintenanceMarginPct / 100.0);
    Spread(p.entryPrice, Max(inverse - mm, 0.0));
  }

  /** With a maintenance margin of zero or more, liquidation lies between the entry and bankruptcy: at bankruptcy
      exactly without a maintenance margin, and at the entry exactly once it takes up the whole margin posted. */
  lemma LiquidationLiesBetween(p: Position, params: Params)
    requires LiquidationOf(p, params).Some? && params.maintenanceMarginPct >= 0.0
    ensures var price := LiquidationOf(p, params).value;
            var margin := p.entryPrice / p.leverage as real;
            && (p.direction.Long? ==> p.entryPrice - margin <= price <= p.entryPrice)
            && (p.direction.Short? ==> p.entryPrice <= price <= p.entryPrice + margin)
            && (BankruptAt(p, price) <==> params.maintenanceMarginPct == 0.0)
            && (price == p.entryPrice <==> p.entryPrice * params.maintenanceMarginPct / 100.0 >= margin)
  {
    LiquidationMeans(p, params);
    hide LiquidationOf;
    ProductSign(p.entryPrice, params.maintenanceMarginPct / 100.0);
    MarginIsPosted(p.entryPrice, p.leverage as real);
  }

  lemma MarginIsPosted(entry: Positive, leverage: real)
    requires leverage > 0.0
    ensures entry / leverage > 0.0
  {
  }

  lemma RoomMeans(entry: Positive, inverse: real, mm: real, room: real)
    requires room == entry * inverse - entry * mm
    ensures entry * Max(inverse - mm, 0.0) == if room > 0.0 then room else 0.0
  {
    var d := inverse - mm;
    assert entry * d == room;
    if d > 0.0 {
      assert entry * d > 0.0;
    } else {
      assert entry * d <= 0.0;
    }
  }

  lemma Spread(entry: real, distance: real)
    ensures entry * (1.0 - distance) == entry - entry * distance && entry * (1.0 + distance) == entry + entry * distance
  {
  }

  lemma BankruptcyMeans(p: Position)
    ensures BankruptAt(p, BankruptcyPrice(p.entryPrice, p.direction, p.leverage))
  {
    var entry, inverse := p.entryPrice, 1.0 / p.leverage as real;
    assert entry / p.leverage as real == entry * inverse;
    assert entry * (1.0 - inverse) == entry - entry * inverse && entry * (1.0 + inverse) == entry + entry * inverse;
  }

  lemma LiquidationExplains(b: Booked, p: Position, bar: Candle, params: Params, price: real)
    requires SamePlan(p, b.position) && LiquidationOf(p, params) == Some(price) && Hurts(p.direction, bar, price)
    ensures Extends(b.position.executions, Liquidate(b, bar, params, price).position.executions, p, bar, params)
  {
    var q := b.position;
    var fill, broke := StopFill(price, bar, p.direction), BankruptcyPrice(p.entryPrice, p.direction, p.leverage);
    var capped := LiquidationFill(p.entryPrice, p.direction, p.leverage, bar, price);
    assert capped == match p.direction case Long => Max(fill, broke) case Short => Min(fill, broke);
    var e := ExitIsRecorded(b, capped, 100.0, bar.closeTime, params, Taker, LIQUIDATION);
    LiquidationMeans(p, params);
    BankruptcyMeans(p);
    StopFillMeans(price, bar, p.direction);
    TakerPays(q, capped, params);
    hide ExecuteExit, Receipt, SharePct, Round10, ExitGross, ExitFee, ExitQuantity, ExitPrice, StopFill, GapFill, Crossed, LiquidatesAt,
         LiquidationFill, BankruptcyPrice, LiquidationOf, Hurts, BankruptAt;
    if e.quantity > 0.0 {
      RecordIsReceipt(e, q, bar, params, Taker, params.takerFeePct);
      SameReceipt(e, q, p, bar, params.takerFeePct);
      assert ByLiquidation(e, p, bar, params);
    }
  }

  // ---------- a whole bar ----------

  ghost predicate Reached(p: Position, bar: Candle, level: PriceTarget, takeProfit: bool) {
    if takeProfit then Banks(p.direction, bar, level.price) else Hurts(p.direction, bar, level.price)
  }

  ghost predicate EndsIn(executions: seq<Execution>, kind: string) {
    executions != [] && executions[|executions| - 1].kind == kind
  }

  /** What an exit leaves alone. */
  ghost predicate SameLevels(p: Position, q: Position) {
    SamePlan(p, q) && q.takeProfit == p.takeProfit && q.stopLoss == p.stopLoss && q.trailATR == p.trailATR && q.breakEven == p.breakEven
  }

  lemma ExitEndsInItsKind(b: Booked, price: real, closePct: real, at: int, params: Params, feeType: FeeType, kind: string)
    ensures var p, q := b.position, ExecuteExit(b, price, closePct, at, params, feeType, kind).position;
            && SameLevels(p, q)
            && (q == p || (|q.executions| > |p.executions| && EndsIn(q.executions, kind)))
  {
    hide ExitFee, SharePct, Round10, ExitGross, ExitPrice, Notional, ExitQuantity;
  }

  lemma StepExplains(b: Booked, p: Position, bar: Candle, level: PriceTarget, takeProfit: bool, params: Params, kind: string)
    requires SamePlan(p, b.position) && Reached(p, bar, level, takeProfit)
    requires if takeProfit then kind == TAKE_PROFIT && level in p.takeProfit && !StopReached(p, bar)
             else kind == (if TargetReached(p, bar) then AMBIGUOUS_STOP else STOP_LOSS) && level in p.stopLoss
    ensures var fill := if takeProfit then level.price else StopFill(level.price, bar, b.position.direction);
            Extends(b.position.executions,
                    ExecuteExit(b, fill, Share(level), bar.closeTime, params, if takeProfit then Maker else Taker, kind).position.executions,
                    p, bar, params)
  {
    hide Extends, ExecuteExit, StopFill, StopReached, TargetReached;
    if takeProfit {
      TargetExplains(b, p, level, Share(level), bar, params);
    } else {
      StopExplains(b, p, level, Share(level), bar, params, kind);
    }
  }

  /** A level is still listed exactly when it was and the bar did not reach it. */
  ghost predicate Unreached(p: Position, bar: Candle, was: seq<PriceTarget>, now: seq<PriceTarget>, takeProfit: bool) {
    forall level :: level in now <==> level in was && !Reached(p, bar, level, takeProfit)
  }

  /** The walk over the levels of one side. */
  lemma {:induction false} WalkExplains(b: Booked, p: Position, bar: Candle, ordered: seq<PriceTarget>, takeProfit: bool, params: Params, kind: string)
    requires SamePlan(p, b.position)
    requires if takeProfit then kind == TAKE_PROFIT && !StopReached(p, bar)
             else kind == (if TargetReached(p, bar) then AMBIGUOUS_STOP else STOP_LOSS)
    requires forall level :: level in ordered ==> level in if takeProfit then p.takeProfit else p.stopLoss
    ensures var w := CloseTouched(b, bar, ordered, takeProfit, params, kind);
            var q := w.booked.position;
            && Extends(b.position.executions, q.executions, p, bar, params) && SameLevels(b.position, q)
            && (q == b.position || (|q.executions| > |b.position.executions| && EndsIn(q.executions, kind)))
            && (!w.stopped ==> Unreached(p, bar, ordered, w.untouched, takeProfit))
    decreases |ordered|
  {
    hide Extends, ExecuteExit, StopFill, StopReached, TargetReached, EndsIn, Reached, Touched, Unreached;
    NothingExtends(b.position.executions, p, bar, params);
    NothingUnreached(p, bar, takeProfit);
    if ordered != [] {
      var front, level := ordered[..|ordered| - 1], ordered[|ordered| - 1];
      assert ordered == front + [level] && level in ordered && forall l :: l in front ==> l in ordered;
      WalkExplains(b, p, bar, front, takeProfit, params, kind);
      var w := CloseTouched(b, bar, front, takeProfit, params, kind);
      TouchedIsReached(p, bar, level, takeProfit);
      if !w.stopped {
        UnreachedOfOneMore(p, bar, front, level, w.untouched, takeProfit);
      }
      if !w.stopped && Touched(bar, level.price, p.direction, takeProfit) {
        var fill := if takeProfit then level.price else StopFill(level.price, bar, p.direction);
        var feeType := if takeProfit then Maker else Taker;
        var x := ExecuteExit(w.booked, fill, Share(level), bar.closeTime, params, feeType, kind);
        StepExplains(w.booked, p, bar, level, takeProfit, params, kind);
        ExitEndsInItsKind(w.booked, fill, Share(level), bar.closeTime, params, feeType, kind);
        ExtendsTwice(b.position.executions, w.booked.position.executions, x.position.executions, p, bar, params);
      }
    }
  }

  lemma NothingUnreached(p: Position, bar: Candle, takeProfit: bool)
    ensures Unreached(p, bar, [], [], takeProfit)
  {
  }

  lemma UnreachedOfOneMore(p: Position, bar: Candle, front: seq<PriceTarget>, level: PriceTarget, untouched: seq<PriceTarget>, takeProfit: bool)
    requires Unreached(p, bar, front, untouched, takeProfit)
    ensures Unreached(p, bar, front + [level], if Reached(p, bar, level, takeProfit) then untouched else untouched + [level], takeProfit)
  {
    hide Reached;
  }

  lemma NothingExtends(executions: seq<Execution>, p: Position, bar: Candle, params: Params)
    ensures Extends(executions, executions, p, bar, params)
  {
  }

  lemma TouchedIsReached(p: Position, bar: Candle, level: PriceTarget, takeProfit: bool)
    ensures Touched(bar, level.price, p.direction, takeProfit) <==> Reached(p, bar, level, takeProfit)
  {
    TouchedMeans(bar, level.price, p.direction);
  }

  /** The shares, in percent of the original size, of the levels a bar reached; a missing share is all of it. */
  ghost function ReachedShare(p: Position, bar: Candle, levels: seq<PriceTarget>, takeProfit: bool): real {
    if levels == [] then 0.0
    else
      var last := levels[|levels| - 1];
      ReachedShare(p, bar, levels[..|levels| - 1], takeProfit)
      + if !Reached(p, bar, last, takeProfit) then 0.0 else if last.closePct > 0.0 then last.closePct else 100.0
  }

  lemma {:induction false} ReachedShareIsTouched(p: Position, bar: Candle, levels: seq<PriceTarget>, takeProfit: bool)
    ensures ReachedShare(p, bar, levels, takeProfit) == TouchedShare(bar, levels, p.direction, takeProfit)
  {
    if levels != [] {
      ReachedShareIsTouched(p, bar, levels[..|levels| - 1], takeProfit);
      TouchedIsReached(p, bar, levels[|levels| - 1], takeProfit);
      hide Reached, Touched;
    }
  }

  /** What is left of a position once some percentage of its original size has gone. */
  function Remainder(p: Position, share: real): real {
    var left := p.remainingQty - p.originalQty * share / 100.0;
    if left > 0.0 then left else 0.0
  }

  /** One side of the levels, met nearest first. */
  lemma SideIsMet(b: Booked, p: Position, bar: Candle, takeProfit: bool, params: Params, kind: string)
    requires SameLevels(p, b.position) && Sound(b.position) && b.position.remainingQty > 0.0
    requires if takeProfit then kind == TAKE_PROFIT && !StopReached(p, bar)
             else kind == (if TargetReached(p, bar) then AMBIGUOUS_STOP else STOP_LOSS)
    ensures var levels := if takeProfit then p.takeProfit else p.stopLoss;
            var w := ExecuteTouchedTargets(b, bar, levels, takeProfit, params, kind);
            var q := w.booked.position;
            && Extends(b.position.executions, q.executions, p, bar, params) && SameLevels(p, q)
            && q.remainingQty == Remainder(b.position, ReachedShare(p, bar, levels, takeProfit))
            && (q.remainingQty == 0.0 ==> |q.executions| > |b.position.executions| && EndsIn(q.executions, kind))
            && (q.remainingQty > 0.0 ==> Unreached(p, bar, levels, w.untouched, takeProfit))
  {
    hide Extends, CloseTouched, StopReached, TargetReached, EndsIn, Unreached, SortByPrice, Sound;
    var levels := if takeProfit then p.takeProfit else p.stopLoss;
    var ascending := p.direction.Long? == takeProfit;
    var ordered := SortByPrice(levels, ascending);
    SortedIsListed(levels, ascending, if takeProfit then p.takeProfit else p.stopLoss);
    WalkExplains(b, p, bar, ordered, takeProfit, params, kind);
    CloseTouchedLeaves(b, bar, ordered, takeProfit, params, kind);
    TouchedShareOfSorted(bar, levels, ascending, p.direction, takeProfit);
    ReachedShareIsTouched(p, bar, levels, takeProfit);
    hide TouchedShare, ReachedShare;
    var w := CloseTouched(b, bar, ordered, takeProfit, params, kind);
    if !w.stopped {
      UnreachedOfSorted(p, bar, levels, ascending, w.untouched, takeProfit);
    }
    RemainderIsLeft(b.position, TouchedShare(bar, levels, p.direction, takeProfit));
  }

  lemma RemainderIsLeft(p: Position, share: real)
    ensures LeftAfter(p.originalQty, p.remainingQty, share) == Remainder(p, share) >= 0.0
  {
  }

  lemma SortedIsListed(levels: seq<PriceTarget>, ascending: bool, all: seq<PriceTarget>)
    requires levels == all
    ensures forall level :: level in SortByPrice(levels, ascending) ==> level in all
  {
    SortedHasTheSame(levels, ascending);
  }

  lemma UnreachedOfSorted(p: Position, bar: Candle, levels: seq<PriceTarget>, ascending: bool, untouched: seq<PriceTarget>, takeProfit: bool)
    requires Unreached(p, bar, SortByPrice(levels, ascending), untouched, takeProfit)
    ensures Unreached(p, bar, levels, untouched, takeProfit)
  {
    hide Reached, SortByPrice;
    SortedHasTheSame(levels, ascending);
  }

  lemma SortedHasTheSame(levels: seq<PriceTarget>, ascending: bool)
    ensures forall level :: level in SortByPrice(levels, ascending) <==> level in levels
  {
    SortByPriceIsPermutation(levels, ascending);
    forall level
      ensures level in SortByPrice(levels, ascending) <==> level in levels
    {
      assert level in SortByPrice(levels, ascending) <==> level in multiset(SortByPrice(levels, ascending));
      assert level in levels <==> level in multiset(levels);
    }
  }

  lemma TouchedSides(p: Position, bar: Candle)
    ensures AnyTouched(bar, p.takeProfit, p.direction, true) <==> TargetReached(p, bar)
    ensures AnyTouched(bar, p.stopLoss, p.direction, false) <==> StopReached(p, bar)
  {
    forall level: PriceTarget
      ensures Touched(bar, level.price, p.direction, true) <==> Banks(p.direction, bar, level.price)
      ensures Touched(bar, level.price, p.direction, false) <==> Hurts(p.direction, bar, level.price)
    {
      TouchedMeans(bar, level.price, p.direction);
    }
    hide Touched, Banks, Hurts;
    if level :| level in p.takeProfit && Touched(bar, level.price, p.direction, true) {
      assert Banks(p.direction, bar, level.price);
    }
    if level :| level in p.takeProfit && Banks(p.direction, bar, level.price) {
      assert Touched(bar, level.price, p.direction, true);
    }
    if level :| level in p.stopLoss && Touched(bar, level.price, p.direction, false) {
      assert Hurts(p.direction, bar, level.price);
    }
    if level :| level in p.stopLoss && Hurts(p.direction, bar, level.price) {
      assert Touched(bar, level.price, p.direction, false);
    }
  }

  /** The quantity a bar's levels leave: the reached stops take theirs, and only without one the reached targets. */
  ghost function LeftByLevels(p: Position, bar: Candle): real {
    if StopReached(p, bar) then Remainder(p, ReachedShare(p, bar, p.stopLoss, false))
    else if TargetReached(p, bar) then Remainder(p, ReachedShare(p, bar, p.takeProfit, true))
    else p.remainingQty
  }

  /** The levels that stay for the next bar. A first banked target may protect the rest at the entry price. */
  ghost predicate LevelsLeft(p: Position, bar: Candle, q: Position, params: Params) {
    if StopReached(p, bar) then
      q.takeProfit == p.takeProfit && q.breakEven == p.breakEven && Unreached(p, bar, p.stopLoss, q.stopLoss, false)
    else if TargetReached(p, bar) then
      && Unreached(p, bar, p.takeProfit, q.takeProfit, true)
      && if params.breakEvenAfterTP && !p.breakEven then q.breakEven && q.stopLoss == [PriceTarget(p.entryPrice, 100.0)]
         else q.breakEven == p.breakEven && q.stopLoss == p.stopLoss
    else q.takeProfit == p.takeProfit && q.stopLoss == p.stopLoss && q.breakEven == p.breakEven
  }

  /** Why a bar's levels closed a position. */
  ghost function LevelsReason(p: Position, bar: Candle): string {
    if StopReached(p, bar) then (if TargetReached(p, bar) then AMBIGUOUS_STOP else STOP_LOSS)
    else if TargetReached(p, bar) then TAKE_PROFIT else ""
  }

  lemma LevelsAreMet(b: Booked, p: Position, bar: Candle, params: Params)
    requires SameLevels(p, b.position) && Sound(b.position) && b.position.remainingQty > 0.0 && p.remainingQty == b.position.remainingQty
    ensures var t := TriggerLevels(b, bar, params);
            var q := t.0.position;
            && t.1 == LevelsReason(p, bar) && SamePlan(p, q) && q.trailATR == p.trailATR
            && Extends(b.position.executions, q.executions, p, bar, params)
            && q.remainingQty == LeftByLevels(p, bar) >= 0.0 && (q.remainingQty > 0.0 ==> LevelsLeft(p, bar, q, params))
            && (q.remainingQty == 0.0 ==> |q.executions| > |b.position.executions| && EndsIn(q.executions, t.1))
  {
    hide Extends, ExecuteTouchedTargets, StopReached, TargetReached, EndsIn, Unreached, Remainder, ReachedShare, AnyTouched, Sound;
    TouchedSides(b.position, bar);
    SameSides(p, b.position, bar);
    NothingExtends(b.position.executions, p, bar, params);
    RemainderIsOf(p, b.position);
    if StopReached(p, bar) {
      SideIsMet(b, p, bar, false, params, if TargetReached(p, bar) then AMBIGUOUS_STOP else STOP_LOSS);
    } else if TargetReached(p, bar) {
      SideIsMet(b, p, bar, true, params, TAKE_PROFIT);
    }
  }

  lemma RemainderIsOf(p: Position, q: Position)
    requires SamePlan(p, q) && p.remainingQty == q.remainingQty
    ensures forall share :: Remainder(q, share) == Remainder(p, share) >= 0.0
  {
  }

  lemma SameSides(p: Position, q: Position, bar: Candle)
    requires SameLevels(p, q)
    ensures TargetReached(q, bar) == TargetReached(p, bar) && StopReached(q, bar) == StopReached(p, bar)
  {
  }

  ghost predicate LiquidationReached(p: Position, bar: Candle, params: Params) {
    exists price :: LiquidatesAt(p, params, price) && Hurts(p.direction, bar, price)
  }

  /** The bar reached the liquidation price and no stop on the way to it. */
  ghost predicate LiquidatedFirst(p: Position, bar: Candle, params: Params) {
    exists price :: LiquidatesAt(p, params, price) && Hurts(p.direction, bar, price) && !StopReachedBefore(p, bar, price)
  }

  /** How a bar ends for a position: liquidated first of all, else by its levels, else by the liquidation that
      the levels left something to; otherwise open, with what the levels left. */
  ghost predicate BarLaw(p: Position, bar: Candle, t: Tick, params: Params) {
    var q := t.booked.position;
    if LiquidatedFirst(p, bar, params) then t.closedBy == Some(LIQUIDATION) && q.remainingQty == 0.0
    else if LeftByLevels(p, bar) == 0.0 then t.closedBy == Some(LevelsReason(p, bar)) && q.remainingQty == 0.0
    else if LiquidationReached(p, bar, params) then t.closedBy == Some(LIQUIDATION) && q.remainingQty == 0.0
    else
      && t.closedBy.None? && q.remainingQty == LeftByLevels(p, bar)
      && exists r :: LevelsLeft(p, bar, r, params) && q.takeProfit == r.takeProfit && q.breakEven == r.breakEven
                     && (p.trailATR <= 0.0 ==> q.stopLoss == r.stopLoss)
  }

  lemma FundingOnlySettles(b: Booked, p: Position, bar: Candle, params: Params, funding: map<int, real>)
    requires SameLevels(p, b.position)
    ensures var q := ApplyFunding(b, bar, params, funding).position;
            && Extends(b.position.executions, q.executions, p, bar, params)
            && SameLevels(p, q) && q.remainingQty == b.position.remainingQty
    decreases bar.closeTime - b.position.nextFundingAt
  {
    NothingExtends(b.position.executions, p, bar, params);
    if b.position.nextFundingAt <= bar.closeTime {
      var settled := SettleFunding(b, bar, params, funding);
      SettlementOnlySettles(b, p, bar, params, funding);
      assert ApplyFunding(b, bar, params, funding) == ApplyFunding(settled, bar, params, funding);
      hide SettleFunding, ApplyFunding, Extends;
      FundingOnlySettles(settled, p, bar, params, funding);
      ExtendsTwice(b.position.executions, settled.position.executions, ApplyFunding(settled, bar, params, funding).position.executions, p, bar, params);
    }
  }

  lemma SettlementOnlySettles(b: Booked, p: Position, bar: Candle, params: Params, funding: map<int, real>)
    requires SameLevels(p, b.position)
    ensures var q := SettleFunding(b, bar, params, funding).position;
            && Extends(b.position.executions, q.executions, p, bar, params)
            && SameLevels(p, q) && q.remainingQty == b.position.remainingQty && q.nextFundingAt > b.position.nextFundingAt
  {
    hide FundingAmount, FundingRate, Round10, Explained;
    var q := SettleFunding(b, bar, params, funding).position;
    NothingExtends(b.position.executions, p, bar, params);
    if q.executions != b.position.executions {
      ExtendsByOne(b.position.executions, b.position.executions, q.executions[|b.position.executions|], p, bar, params);
    }
  }

  lemma StopPrecedesMeans(p: Position, bar: Candle, price: real)
    ensures StopPrecedes(p.stopLoss, p.direction, bar, price) <==> StopReachedBefore(p, bar, price)
  {
    forall level: PriceTarget
      ensures Touched(bar, level.price, p.direction, false) <==> Hurts(p.direction, bar, level.price)
    {
      TouchedMeans(bar, level.price, p.direction);
    }
    hide Touched, Hurts;
    if level :| level in p.stopLoss && Touched(bar, level.price, p.direction, false)
                && (if p.direction.Long? then level.price > price else level.price < price) {
      assert Hurts(p.direction, bar, level.price);
    }
    if level :| level in p.stopLoss && Hurts(p.direction, bar, level.price)
                && match p.direction { case Long => price < level.price case Short => level.price < price } {
      assert Touched(bar, level.price, p.direction, false);
    }
  }

  lemma LiquidationIsReached(p: Position, bar: Candle, params: Params)
    ensures var l := LiquidationOf(p, params);
            && (LiquidationReached(p, bar, params) <==> l.Some? && Touched(bar, l.value, p.direction, false))
            && (LiquidatedFirst(p, bar, params)
                <==> l.Some? && Touched(bar, l.value, p.direction, false) && !StopPrecedes(p.stopLoss, p.direction, bar, l.value))
  {
    hide StopReachedBefore, StopPrecedes, LiquidatesAt, Hurts, Touched;
    var l := LiquidationOf(p, params);
    if l.Some? {
      LiquidationMeans(p, params);
      TouchedMeans(bar, l.value, p.direction);
      StopPrecedesMeans(p, bar, l.value);
      forall price | LiquidatesAt(p, params, price)
        ensures price == l.value
      {
        OneLiquidation(p, params, price, l.value);
      }
    } else {
      NeverLiquidates(p, params);
    }
  }

  lemma OneLiquidation(p: Position, params: Params, a: real, b: real)
    requires LiquidatesAt(p, params, a) && LiquidatesAt(p, params, b)
    ensures a == b
  {
  }

  lemma NeverLiquidates(p: Position, params: Params)
    requires LiquidationOf(p, params).None?
    ensures forall price :: !LiquidatesAt(p, params, price)
  {
  }

  lemma LiquidationCloses(b: Booked, p: Position, bar: Candle, params: Params, price: real)
    requires SamePlan(p, b.position) && LiquidationOf(p, params) == Some(price) && Touched(bar, price, p.direction, false)
    requires b.position.remainingQty > 0.0
    ensures var q := Liquidate(b, bar, params, price).position;
            && Extends(b.position.executions, q.executions, p, bar, params)
            && |q.executions| > |b.position.executions| && EndsIn(q.executions, LIQUIDATION) && q.remainingQty == 0.0
  {
    TouchedMeans(bar, price, p.direction);
    LiquidationExplains(b, p, bar, params, price);
    hide LiquidationFill, Extends, LiquidationOf, Touched;
    var fill := LiquidationFill(b.position.entryPrice, b.position.direction, b.position.leverage, bar, price);
    ExitEndsInItsKind(b, fill, 100.0, bar.closeTime, params, Taker, LIQUIDATION);
    WholeExitLeavesNothing(b, fill, bar.closeTime, params, LIQUIDATION);
  }

  lemma WholeExitLeavesNothing(b: Booked, price: real, at: int, params: Params, kind: string)
    requires b.position.remainingQty > 0.0
    ensures ExecuteExit(b, price, 100.0, at, params, Taker, kind).position.remainingQty == 0.0
  {
    hide ExitFee, SharePct, Round10, ExitGross, ExitPrice, Notional;
  }

  /** The bar in full: every exit it books is one its prices explain, it ends as the law says, and the reason a
      position was closed for is the kind of its last execution. */
  lemma BarIsExplained(b: Booked, bar: Candle, params: Params, funding: map<int, real>)
    requires Sound(b.position) && b.position.remainingQty > 0.0
    ensures var p, t := b.position, Update(b, bar, params, funding);
            var q := t.booked.position;
            && Extends(p.executions, q.executions, p, bar, params)
            && BarLaw(p, bar, t, params)
            && (t.closedBy.Some? ==> |q.executions| > |p.executions| && EndsIn(q.executions, t.closedBy.value))
  {
    hide RecordExcursion, ApplyFunding, TriggerLevels, Liquidate, TrailStop, Touched, StopPrecedes, LiquidationOf, Sound, Extends, EndsIn,
         LevelsLeft, LeftByLevels, LevelsReason, LiquidatedFirst, LiquidationReached;
    var p := b.position;
    var watched := b.(position := RecordExcursion(p, bar));
    WatchingKeeps(p, bar);
    WatchingConserves(b, bar);
    ConservedIsSound(b, watched);
    FundingOnlySettles(watched, p, bar, params, funding);
    ApplyFundingConserves(watched, bar, params, funding);
    var funded := ApplyFunding(watched, bar, params, funding);
    ConservedIsSound(watched, funded);
    LiquidationIsReached(p, bar, params);
    SameLiquidation(p, funded.position, params);
    LevelsAreMet(funded, p, bar, params);
    var triggered := TriggerLevels(funded, bar, params).0;
    ExtendsTwice(p.executions, funded.position.executions, triggered.position.executions, p, bar, params);
    var trailed := triggered.(position := TrailStop(triggered.position, bar));
    TrailingKeeps(triggered.position, bar);
    if LiquidatedFirst(p, bar, params) {
      var l := LiquidationOf(p, params).value;
      LiquidationCloses(funded, p, bar, params, l);
      ExtendsTwice(p.executions, funded.position.executions, Liquidate(funded, bar, params, l).position.executions, p, bar, params);
    } else if triggered.position.remainingQty > 0.0 && LiquidationReached(p, bar, params) {
      var l := LiquidationOf(p, params).value;
      LiquidationCloses(trailed, p, bar, params, l);
      ExtendsTwice(p.executions, trailed.position.executions, Liquidate(trailed, bar, params, l).position.executions, p, bar, params);
    }
  }

  lemma WatchingKeeps(p: Position, bar: Candle)
    ensures SameLevels(p, RecordExcursion(p, bar)) && RecordExcursion(p, bar).executions == p.executions
    ensures RecordExcursion(p, bar).remainingQty == p.remainingQty
  {
  }

  lemma SameLiquidation(p: Position, q: Position, params: Params)
    requires SamePlan(p, q)
    ensures LiquidationOf(q, params) == LiquidationOf(p, params)
  {
  }

  lemma TrailingKeeps(p: Position, bar: Candle)
    ensures var q := TrailStop(p, bar);
            && SamePlan(p, q) && q.executions == p.executions && q.remainingQty == p.remainingQty
            && q.takeProfit == p.takeProfit && q.breakEven == p.breakEven && (p.trailATR <= 0.0 ==> q == p)
  {
  }

  /** A bar that reaches a stop banks nothing and leaves the targets alone; what its stops book is called ambiguous
      exactly when it reached a target too. A bar that reaches targets only books no stop. */
  lemma StopsWinTheBar(b: Booked, bar: Candle, params: Params, funding: map<int, real>, i: nat)
    requires Sound(b.position) && b.position.remainingQty > 0.0
    requires |b.position.executions| <= i < |Update(b, bar, params, funding).booked.position.executions|
    ensures var p, t := b.position, Update(b, bar, params, funding);
            var e := t.booked.position.executions[i];
            && (StopReached(p, bar) ==> e.kind != TAKE_PROFIT)
            && (StopReached(p, bar) && TargetReached(p, bar) ==> e.kind != STOP_LOSS)
            && (!(StopReached(p, bar) && TargetReached(p, bar)) ==> e.kind != AMBIGUOUS_STOP)
            && (!StopReached(p, bar) ==> e.kind != STOP_LOSS)
            && (!TargetReached(p, bar) ==> e.kind != TAKE_PROFIT)
            && (StopReached(p, bar) && t.closedBy.None? ==> t.booked.position.takeProfit == p.takeProfit)
  {
    hide Update, Sound, StopReached, TargetReached, EndsIn, Receipt, LeftByLevels, LiquidatedFirst, LiquidationReached;
    BarIsExplained(b, bar, params, funding);
    KindsMean(Update(b, bar, params, funding).booked.position.executions[i], b.position, bar, params);
  }

  lemma KindsMean(e: Execution, p: Position, bar: Candle, params: Params)
    requires e.kind == FUNDING || Explained(e, p, bar, params)
    ensures e.kind == TAKE_PROFIT ==> TargetReached(p, bar) && !StopReached(p, bar)
    ensures e.kind == STOP_LOSS ==> StopReached(p, bar) && !TargetReached(p, bar)
    ensures e.kind == AMBIGUOUS_STOP ==> StopReached(p, bar) && TargetReached(p, bar)
  {
    hide Receipt, GapFill, Crossed;
  }
}
