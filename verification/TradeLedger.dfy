/** Conservation for one position: quantity, average exit price and the cash it moved. */
module TradeLedger {
  import opened Domain
  import opened Rounding
  import opened Reals
  import opened Levels
  import opened OpenTrades

  /** Nothing is lost between the open and the exited part, and the booked gross is what the
      exits earned over the entry price. */
  ghost predicate Sound(p: Position) {
    && 0.0 <= p.remainingQty <= p.originalQty
    && p.exitedQty + p.remainingQty == p.originalQty
    && p.grossPnL == p.direction.Sign() * (p.exitNotional - p.entryPrice * p.exitedQty)
  }

  /** Unrounded result of the position so far. */
  function Net(p: Position): real {
    p.grossPnL - p.fees + p.funding
  }

  /** The terms fixed when the position was opened. */
  ghost predicate SameTrade(p: Position, q: Position) {
    && p.direction == q.direction && p.openedAt == q.openedAt && p.entryPrice == q.entryPrice
    && p.leverage == q.leverage && p.allocationPct == q.allocationPct
    && p.originalQty == q.originalQty && p.initialMargin == q.initialMargin && p.trailATR == q.trailATR
  }

  /** Every change of the account's cash is a change of the position's own result. */
  ghost predicate Conserves(b: Booked, b': Booked) {
    && Sound(b'.position)
    && SameTrade(b.position, b'.position)
    && b'.position.remainingQty <= b.position.remainingQty
    && b'.cash - Net(b'.position) == b.cash - Net(b.position)
  }

  lemma ExecuteExitConserves(b: Booked, price: real, closePct: real, at: int, params: Params,
                             feeType: FeeType, kind: string)
    requires Sound(b.position)
    ensures Conserves(b, ExecuteExit(b, price, closePct, at, params, feeType, kind))
    ensures closePct >= 100.0 ==> ExecuteExit(b, price, closePct, at, params, feeType, kind).position.remainingQty == 0.0
  {
    hide ExitFee, SharePct, Round10, Slipped;
    var p := b.position;
    var qty := ExitQuantity(p, closePct);
    if qty > 0.0 {
      var exit := ExitPrice(p, price, params, feeType);
      GrossOfExit(p.direction.Sign(), exit, p.entryPrice, qty, p.exitNotional, p.exitedQty);
    }
  }

  lemma GrossOfExit(sign: real, exit: real, entry: real, qty: real, notional: real, exited: real)
    ensures sign * (notional + exit * qty - entry * (exited + qty))
            == sign * (notional - entry * exited) + (exit - entry) * qty * sign
  {
    assert entry * (exited + qty) == entry * exited + entry * qty;
    assert (exit - entry) * qty == exit * qty - entry * qty;
    var a, c := notional - entry * exited, (exit - entry) * qty;
    assert notional + exit * qty - entry * (exited + qty) == a + c;
    assert sign * (a + c) == sign * a + c * sign;
  }

  lemma {:induction false} ApplyFundingConserves(b: Booked, candle: Candle, params: Params, funding: map<int, real>)
    requires Sound(b.position)
    ensures Conserves(b, ApplyFunding(b, candle, params, funding))
    ensures ApplyFunding(b, candle, params, funding).position.remainingQty == b.position.remainingQty
    decreases candle.closeTime - b.position.nextFundingAt
  {
    if b.position.nextFundingAt <= candle.closeTime {
      ApplyFundingConserves(SettleFunding(b, candle, params, funding), candle, params, funding);
    }
  }

  lemma {:induction false} CloseTouchedConserves(b: Booked, candle: Candle, ordered: seq<PriceTarget>, takeProfit: bool,
                                                 params: Params, kind: string)
    requires Sound(b.position)
    ensures Conserves(b, CloseTouched(b, candle, ordered, takeProfit, params, kind).booked)
    decreases |ordered|
  {
    if ordered != [] {
      CloseTouchedConserves(b, candle, ordered[..|ordered| - 1], takeProfit, params, kind);
      var w := CloseTouched(b, candle, ordered[..|ordered| - 1], takeProfit, params, kind);
      var level := ordered[|ordered| - 1];
      var fill := if takeProfit then level.price else StopFill(level.price, candle, b.position.direction);
      ExecuteExitConserves(w.booked, fill, Share(level), candle.closeTime, params,
                           if takeProfit then Maker else Taker, kind);
    }
  }

  lemma TriggerLevelsConserves(b: Booked, candle: Candle, params: Params)
    requires Sound(b.position)
    ensures Conserves(b, TriggerLevels(b, candle, params).0)
  {
    hide SortByPrice, CloseTouched;
    var p := b.position;
    var tp := AnyTouched(candle, p.takeProfit, p.direction, true);
    CloseTouchedConserves(b, candle, SortByPrice(p.stopLoss, p.direction.Short?), false, params,
                          if tp then AMBIGUOUS_STOP else STOP_LOSS);
    CloseTouchedConserves(b, candle, SortByPrice(p.takeProfit, p.direction.Long?), true, params, TAKE_PROFIT);
  }

  lemma ConservesChain(a: Booked, b: Booked, c: Booked)
    requires Conserves(a, b) && Conserves(b, c)
    ensures Conserves(a, c)
  {
  }

  lemma SameBooks(b: Booked, q: Position)
    requires Sound(b.position) && SameTrade(b.position, q) && q.remainingQty == b.position.remainingQty
    requires q.grossPnL == b.position.grossPnL && q.fees == b.position.fees && q.funding == b.position.funding
    requires q.exitNotional == b.position.exitNotional && q.exitedQty == b.position.exitedQty
    ensures Conserves(b, b.(position := q))
  {
  }

  /** Watching the extremes and moving the stop books nothing. */
  lemma WatchingConserves(b: Booked, candle: Candle)
    requires Sound(b.position)
    ensures Conserves(b, b.(position := RecordExcursion(b.position, candle)))
    ensures Conserves(b, b.(position := TrailStop(b.position, candle)))
    ensures TrailStop(b.position, candle).remainingQty == b.position.remainingQty
  {
    hide Sound, Conserves;
    SameBooks(b, RecordExcursion(b.position, candle));
    SameBooks(b, TrailStop(b.position, candle));
  }

  /** One bar conserves value; a position is reported closed exactly when nothing of it is left. */
  lemma UpdateConserves(b: Booked, candle: Candle, params: Params, funding: map<int, real>)
    requires Sound(b.position)
    ensures var t := Update(b, candle, params, funding);
            && Conserves(b, t.booked)
            && (t.closedBy.Some? <==> t.booked.position.remainingQty == 0.0)
  {
    hide Sound, Conserves, ApplyFunding, TriggerLevels, Liquidate, RecordExcursion, TrailStop, LiquidationOf, Touched,
         StopPrecedes;
    var seen := b.(position := RecordExcursion(b.position, candle));
    WatchingConserves(b, candle);
    ConservedIsSound(b, seen);
    ApplyFundingConserves(seen, candle, params, funding);
    var funded := ApplyFunding(seen, candle, params, funding);
    ConservesChain(b, seen, funded);
    ConservedIsSound(seen, funded);
    var liquidation := LiquidationOf(funded.position, params);
    TriggerLevelsConserves(funded, candle, params);
    var triggered := TriggerLevels(funded, candle, params).0;
    ConservesChain(b, funded, triggered);
    ConservedIsSound(funded, triggered);
    WatchingConserves(triggered, candle);
    var trailed := triggered.(position := TrailStop(triggered.position, candle));
    ConservesChain(b, triggered, trailed);
    ConservedIsSound(triggered, trailed);
    if liquidation.Some? {
      LiquidateConserves(funded, candle, params, liquidation.value);
      ConservesChain(b, funded, Liquidate(funded, candle, params, liquidation.value));
      LiquidateConserves(trailed, candle, params, liquidation.value);
      ConservesChain(b, trailed, Liquidate(trailed, candle, params, liquidation.value));
    }
  }

  lemma ConservedIsSound(b: Booked, b': Booked)
    requires Conserves(b, b')
    ensures Sound(b'.position)
  {
  }

  lemma LiquidateConserves(b: Booked, candle: Candle, params: Params, liquidation: real)
    requires Sound(b.position)
    ensures Conserves(b, Liquidate(b, candle, params, liquidation))
    ensures Liquidate(b, candle, params, liquidation).position.remainingQty == 0.0
  {
    var p := b.position;
    ExecuteExitConserves(b, LiquidationFill(p.entryPrice, p.direction, p.leverage, candle, liquidation),
                         100.0, candle.closeTime, params, Taker, LIQUIDATION);
  }

  lemma ForceCloseConserves(b: Booked, candle: Candle, params: Params, funding: map<int, real>, kind: string)
    requires Sound(b.position)
    ensures Conserves(b, ForceClose(b, candle, params, funding, kind))
    ensures ForceClose(b, candle, params, funding, kind).position.remainingQty == 0.0
  {
    ApplyFundingConserves(b, candle, params, funding);
    ExecuteExitConserves(ApplyFunding(b, candle, params, funding), candle.close, 100.0, candle.closeTime, params, Taker, kind);
  }

  // ---------- what the touched levels close ----------

  function TouchedShare(candle: Candle, levels: seq<PriceTarget>, direction: Direction, takeProfit: bool): real {
    if levels == [] then 0.0
    else
      var last := levels[|levels| - 1];
      TouchedShare(candle, levels[..|levels| - 1], direction, takeProfit)
      + if Touched(candle, last.price, direction, takeProfit) then Share(last) else 0.0
  }

  lemma TouchedShareOfOneMore(candle: Candle, levels: seq<PriceTarget>, last: PriceTarget, direction: Direction, takeProfit: bool)
    ensures TouchedShare(candle, levels + [last], direction, takeProfit)
         == TouchedShare(candle, levels, direction, takeProfit) + if Touched(candle, last.price, direction, takeProfit) then Share(last) else 0.0
  {
    assert (levels + [last])[..|levels|] == levels;
    hide Share, Touched;
  }

  lemma {:induction false} TouchedShareOfInsert(candle: Candle, sorted: seq<PriceTarget>, level: PriceTarget,
                                                ascending: bool, direction: Direction, takeProfit: bool)
    ensures TouchedShare(candle, InsertByPrice(sorted, level, ascending), direction, takeProfit)
            == TouchedShare(candle, sorted + [level], direction, takeProfit)
  {
    assert (sorted + [level])[..|sorted|] == sorted;
    if sorted != [] {
      var front, last := sorted[..|sorted| - 1], sorted[|sorted| - 1];
      TouchedShareOfInsert(candle, front, level, ascending, direction, takeProfit);
      assert (front + [level])[..|front|] == front;
      var inserted := InsertByPrice(front, level, ascending);
      assert (inserted + [last])[..|inserted|] == inserted;
    }
  }

  lemma {:induction false} TouchedShareOfSorted(candle: Candle, levels: seq<PriceTarget>, ascending: bool,
                                                direction: Direction, takeProfit: bool)
    ensures TouchedShare(candle, SortByPrice(levels, ascending), direction, takeProfit)
            == TouchedShare(candle, levels, direction, takeProfit)
  {
    if levels != [] {
      var front, last := levels[..|levels| - 1], levels[|levels| - 1];
      TouchedShareOfSorted(candle, front, ascending, direction, takeProfit);
      var sorted := SortByPrice(front, ascending);
      TouchedShareOfInsert(candle, sorted, last, ascending, direction, takeProfit);
      assert (sorted + [last])[..|sorted|] == sorted;
    }
  }

  /** What remains open once a further share (in percent of the original size) has been closed. */
  function LeftAfter(original: real, remaining: real, share: real): real {
    Max(remaining - original * share / 100.0, 0.0)
  }

  lemma ExitLeaves(b: Booked, price: real, closePct: real, at: int, params: Params, feeType: FeeType, kind: string)
    requires Sound(b.position) && closePct >= 0.0
    ensures ExecuteExit(b, price, closePct, at, params, feeType, kind).position.remainingQty
            == LeftAfter(b.position.originalQty, b.position.remainingQty, closePct)
  {
    hide ExecuteExit;
    QuantityIsTheLesser(b.position.originalQty, b.position.remainingQty, closePct);
    ExitTakes(b, price, closePct, at, params, feeType, kind);
  }

  lemma ShareOfSize(original: real, closePct: real)
    requires original >= 0.0 && closePct >= 0.0
    ensures original * closePct / 100.0 >= 0.0
    ensures closePct >= 100.0 ==> original * closePct / 100.0 >= original
  {
    if closePct >= 100.0 {
      MulMonotone(100.0, closePct, original);
    }
  }

  lemma QuantityIsTheLesser(original: real, remaining: real, closePct: real)
    requires 0.0 <= remaining <= original && closePct >= 0.0
    ensures QuantityToClose(original, remaining, closePct) == Min(original * closePct / 100.0, remaining)
    ensures LeftAfter(original, remaining, closePct) == Max(remaining - QuantityToClose(original, remaining, closePct), 0.0)
    ensures QuantityToClose(original, remaining, closePct) >= 0.0
  {
    ShareOfSize(original, closePct);
  }

  lemma ExitTakes(b: Booked, price: real, closePct: real, at: int, params: Params, feeType: FeeType, kind: string)
    ensures ExecuteExit(b, price, closePct, at, params, feeType, kind).position.remainingQty
            == var p := b.position; if ExitQuantity(p, closePct) <= 0.0 then p.remainingQty else Max(p.remainingQty - ExitQuantity(p, closePct), 0.0)
  {
    hide ExitQuantity, ExitPrice, ExitFee, SharePct;
  }

  lemma ShareIsPositive(level: PriceTarget)
    ensures Share(level) > 0.0
  {
  }

  lemma SharesAddUp(original: Positive, remaining: real, share: real, more: Positive)
    ensures LeftAfter(original, LeftAfter(original, remaining, share), more)
            == LeftAfter(original, remaining, share + more)
    ensures LeftAfter(original, remaining, share) == 0.0 ==> LeftAfter(original, remaining, share + more) == 0.0
  {
    assert original * (share + more) == original * share + original * more;
  }

  /** One more level of a sorted list. */
  lemma CloseTouchedStep(b: Booked, candle: Candle, ordered: seq<PriceTarget>, takeProfit: bool,
                         params: Params, kind: string)
    requires ordered != []
    requires Sound(CloseTouched(b, candle, ordered[..|ordered| - 1], takeProfit, params, kind).booked.position)
    requires CloseTouched(b, candle, ordered[..|ordered| - 1], takeProfit, params, kind).booked.position.direction == b.position.direction
    ensures var w := CloseTouched(b, candle, ordered[..|ordered| - 1], takeProfit, params, kind);
            var w' := CloseTouched(b, candle, ordered, takeProfit, params, kind);
            var level := ordered[|ordered| - 1];
            var p := w.booked.position;
            && (w.stopped ==> w' == w)
            && (!w.stopped && !Touched(candle, level.price, b.position.direction, takeProfit)
                ==> w'.booked == w.booked && !w'.stopped)
            && (!w.stopped && Touched(candle, level.price, b.position.direction, takeProfit)
                ==> && w'.booked.position.remainingQty == LeftAfter(p.originalQty, p.remainingQty, Share(level))
                    && (w'.stopped <==> w'.booked.position.remainingQty == 0.0))
  {
    hide ExecuteExit, StopFill, Share, Touched, LeftAfter;
    ShareIsPositive(ordered[|ordered| - 1]);
    var w := CloseTouched(b, candle, ordered[..|ordered| - 1], takeProfit, params, kind);
    var level := ordered[|ordered| - 1];
    var fill := if takeProfit then level.price else StopFill(level.price, candle, b.position.direction);
    ExitLeaves(w.booked, fill, Share(level), candle.closeTime, params, if takeProfit then Maker else Taker, kind);
  }

  lemma {:induction false} CloseTouchedLeaves(b: Booked, candle: Candle, ordered: seq<PriceTarget>, takeProfit: bool,
                                              params: Params, kind: string)
    requires Sound(b.position) && b.position.remainingQty > 0.0
    ensures var w := CloseTouched(b, candle, ordered, takeProfit, params, kind);
            var share := TouchedShare(candle, ordered, b.position.direction, takeProfit);
            && share >= 0.0
            && w.booked.position.remainingQty == LeftAfter(b.position.originalQty, b.position.remainingQty, share)
            && (w.stopped <==> w.booked.position.remainingQty == 0.0)
    decreases |ordered|
  {
    if ordered != [] {
      var front, level := ordered[..|ordered| - 1], ordered[|ordered| - 1];
      CloseTouchedLeaves(b, candle, front, takeProfit, params, kind);
      CloseTouchedConserves(b, candle, front, takeProfit, params, kind);
      hide CloseTouched, Sound, LeftAfter, Share;
      ShareIsPositive(level);
      CloseTouchedStep(b, candle, ordered, takeProfit, params, kind);
      SharesAddUp(b.position.originalQty, b.position.remainingQty,
                  TouchedShare(candle, front, b.position.direction, takeProfit), Share(level));
    }
  }

  /** One bar closes the sum of the touched shares, or everything when they add up to more. */
  lemma TouchedTargetsLeave(b: Booked, candle: Candle, levels: seq<PriceTarget>, takeProfit: bool,
                            params: Params, kind: string)
    requires Sound(b.position) && b.position.remainingQty > 0.0
    ensures ExecuteTouchedTargets(b, candle, levels, takeProfit, params, kind).booked.position.remainingQty
            == LeftAfter(b.position.originalQty, b.position.remainingQty,
                         TouchedShare(candle, levels, b.position.direction, takeProfit))
  {
    hide CloseTouched, SortByPrice, TouchedShare;
    var ascending := b.position.direction.Long? == takeProfit;
    CloseTouchedLeaves(b, candle, SortByPrice(levels, ascending), takeProfit, params, kind);
    TouchedShareOfSorted(candle, levels, ascending, b.position.direction, takeProfit);
  }

  lemma {:induction false} TouchedShareWithout(candle: Candle, levels: seq<PriceTarget>, i: nat,
                                               direction: Direction, takeProfit: bool)
    requires i < |levels|
    ensures TouchedShare(candle, levels, direction, takeProfit)
            == TouchedShare(candle, levels[..i] + levels[i + 1..] + [levels[i]], direction, takeProfit)
    decreases |levels|
  {
    hide TouchedShare;
    var front, last := levels[..|levels| - 1], levels[|levels| - 1];
    if i == |levels| - 1 {
      assert levels[..i] + levels[i + 1..] + [levels[i]] == levels;
    } else {
      var without := front[..i] + front[i + 1..];
      assert levels == front + [last] && levels[..i] + levels[i + 1..] == without + [last];
      TouchedShareWithout(candle, front, i, direction, takeProfit);
      TouchedShareOfOneMore(candle, front, last, direction, takeProfit);
      TouchedShareOfOneMore(candle, without, levels[i], direction, takeProfit);
      TouchedShareOfOneMore(candle, without, last, direction, takeProfit);
      TouchedShareOfOneMore(candle, without + [last], levels[i], direction, takeProfit);
    }
  }

  /** The order in which the levels are listed does not matter. */
  lemma {:induction false} TouchedShareOfPermutation(candle: Candle, s: seq<PriceTarget>, t: seq<PriceTarget>,
                                                     direction: Direction, takeProfit: bool)
    requires multiset(s) == multiset(t)
    ensures TouchedShare(candle, s, direction, takeProfit) == TouchedShare(candle, t, direction, takeProfit)
    decreases |s|
  {
    if s == [] {
      assert |multiset(t)| == 0;
    } else {
      var front, last := s[..|s| - 1], s[|s| - 1];
      var i := Removed(front, last, t) by {
        assert s == front + [last];
      }
      var without := t[..i] + t[i + 1..];
      TouchedShareWithout(candle, t, i, direction, takeProfit);
      assert (without + [last])[..|without|] == without;
      TouchedShareOfPermutation(candle, front, without, direction, takeProfit);
    }
  }

  lemma Removed<T>(front: seq<T>, last: T, t: seq<T>) returns (i: nat)
    requires multiset(front + [last]) == multiset(t)
    ensures i < |t| && t[i] == last
    ensures multiset(front) == multiset(t[..i] + t[i + 1..])
  {
    assert last in multiset(t);
    i :| 0 <= i < |t| && t[i] == last;
    assert t == t[..i] + [last] + t[i + 1..];
    assert multiset(front) == multiset(front + [last]) - multiset{last};
    assert multiset(t[..i] + t[i + 1..]) == multiset(t) - multiset{last};
  }

  // ---------- the finished trade ----------

  /** A finished trade has exited its full size, its exit price is the average over all exits, and
      its booked gross is that price against the entry, on the full size. */
  lemma FinishedTrade(p: Position, reason: string, at: int)
    requires Sound(p) && p.remainingQty == 0.0
    ensures p.exitedQty == p.originalQty
    ensures var t := Finalize(p, reason, at);
            && t.exitPrice.Some?
            && p.grossPnL == p.direction.Sign() * (t.exitPrice.value - p.entryPrice) * p.originalQty
            && t.netPnL == t.grossPnL - t.fees + t.funding
            && -3.0 * HALF_ULP10 <= t.netPnL - Net(p) <= 3.0 * HALF_ULP10
  {
    hide Round10, PnlPct;
    AveragePriceMeans(p.direction.Sign(), p.exitNotional, p.exitedQty, p.entryPrice);
    Round10Error(p.grossPnL);
    Round10Error(p.fees);
    Round10Error(p.funding);
    Round10OfRoundedSum(p.grossPnL, p.fees, p.funding);
  }

  lemma AveragePriceMeans(sign: real, notional: real, quantity: Positive, entry: real)
    ensures sign * (notional / quantity - entry) * quantity == sign * (notional - entry * quantity)
  {
    var average := notional / quantity;
    assert average * quantity == notional;
    assert (average - entry) * quantity == notional - entry * quantity;
  }
}
