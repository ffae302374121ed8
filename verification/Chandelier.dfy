/** The trailing exit in declarative form: which bar closes a trailing position, at what price and why. */
module Chandelier {
  import opened Domain
  import opened Levels
  import opened OpenTrades
  import opened TradeLedger
  import opened FundingClock
  import opened Ride

  /** The most favourable price since entry: the highest high of a long, the lowest low of a short. */
  function Extreme(p: Position, bars: seq<Candle>): real {
    if bars == [] then p.entryPrice
    else if p.direction.Long? then Max(Extreme(p, bars[..|bars| - 1]), bars[|bars| - 1].high)
    else Min(Extreme(p, bars[..|bars| - 1]), bars[|bars| - 1].low)
  }

  /** Where the stop stands for the bar that follows the given ones. */
  function StopAfter(p: Position, bars: seq<Candle>): real {
    Extreme(p, bars) - p.direction.Sign() * p.trailATR
  }

  /** The adverse price the market meets first: the stop or the liquidation, whichever is nearer. */
  function NearerAdverse(p: Position, stop: real, params: Params): real {
    match LiquidationOf(p, params)
    case None => stop
    case Some(liquidation) => if p.direction.Long? then Max(stop, liquidation) else Min(stop, liquidation)
  }

  predicate StopIsNearer(p: Position, stop: real, params: Params) {
    match LiquidationOf(p, params)
    case None => true
    case Some(liquidation) => if p.direction.Long? then stop > liquidation else stop < liquidation
  }

  predicate Reaches(p: Position, bar: Candle, price: real) {
    if p.direction.Long? then bar.low <= price else bar.high >= price
  }

  /** Whether a position opened in trailing mode leaves on this bar, given the bars it lived through. */
  predicate ExitsOn(p: Position, before: seq<Candle>, bar: Candle, params: Params) {
    Reaches(p, bar, NearerAdverse(p, StopAfter(p, before), params))
  }

  /** What the exit is paid before slippage. */
  function ExitLevel(p: Position, before: seq<Candle>, bar: Candle, params: Params): real {
    var stop := StopAfter(p, before);
    if StopIsNearer(p, stop, params) then StopFill(stop, bar, p.direction)
    else LiquidationFill(p.entryPrice, p.direction, p.leverage, bar, LiquidationOf(p, params).value)
  }

  /** A position as trailing mode opens it. */
  ghost predicate FreshTrailing(p: Position) {
    && Fresh(p) && p.trailATR > 0.0 && p.takeProfit == []
    && p.stopLoss == [PriceTarget(StopAfter(p, []), 100.0)]
  }

  /** What the bars lived through leave behind, apart from funding and excursions. */
  ghost predicate Trailing(p: Position, q: Position, bars: seq<Candle>) {
    && SameTrade(p, q) && Sound(q)
    && q.takeProfit == [] && q.stopLoss == [PriceTarget(StopAfter(p, bars), 100.0)]
    && q.remainingQty == q.originalQty && q.exitNotional == 0.0
    && (if q.direction.Long? then q.peak == Extreme(p, bars) else q.peak >= Extreme(p, bars))
  }

  /** What one bar does to the position of a trailing run. */
  ghost predicate Stepped(p: Position, before: seq<Candle>, bar: Candle, t: Tick, params: Params) {
    var q := t.booked.position;
    if ExitsOn(p, before, bar, params) then
      && t.closedBy == Some(if StopIsNearer(p, StopAfter(p, before), params) then STOP_LOSS else LIQUIDATION)
      && q.exitedQty == p.originalQty
      && q.exitNotional == ExitPrice(p, ExitLevel(p, before, bar, params), params, Taker) * p.originalQty
    else
      t.closedBy.None? && Trailing(p, q, before + [bar])
  }

  lemma TrailMovesWithExtreme(p: Position, q: Position, before: seq<Candle>, bar: Candle)
    requires p.trailATR > 0.0 && Trailing(p, q, before)
    ensures Trailing(p, TrailStop(q, bar), before + [bar])
  {
    assert (before + [bar])[..|before|] == before;
    hide Sound;
    SameBooks(Booked(q, 0.0), TrailStop(q, bar));
    ConservedIsSound(Booked(q, 0.0), Booked(TrailStop(q, bar), 0.0));
  }

  lemma SingleStop(b: Booked, bar: Candle, price: real, params: Params)
    requires b.position.takeProfit == [] && b.position.stopLoss == [PriceTarget(price, 100.0)]
    ensures AnyTouched(bar, b.position.takeProfit, b.position.direction, true) == false
    ensures AnyTouched(bar, b.position.stopLoss, b.position.direction, false) == Touched(bar, price, b.position.direction, false)
    ensures Touched(bar, price, b.position.direction, false) ==>
              var w := ExecuteTouchedTargets(b, bar, b.position.stopLoss, false, params, STOP_LOSS);
              && w.booked == ExecuteExit(b, StopFill(price, bar, b.position.direction), 100.0, bar.closeTime, params, Taker, STOP_LOSS)
              && w.untouched == []
  {
    var level := PriceTarget(price, 100.0);
    assert b.position.stopLoss[0] == level;
    assert InsertByPrice([], level, b.position.direction.Short?) == [level];
    assert [level][..0] == [];
    assert SortByPrice([level], b.position.direction.Short?) == [level];
    hide ExecuteExit, StopFill, SortByPrice;
    assert CloseTouched(b, bar, [], false, params, STOP_LOSS) == Walk(b, [], false);
  }

  /** An exit of everything, at once, from an untouched position. */
  lemma FullExit(p: Position, b: Booked, price: real, at: int, params: Params, kind: string)
    requires SameTrade(p, b.position) && Sound(b.position)
    requires b.position.remainingQty == b.position.originalQty && b.position.exitNotional == 0.0
    ensures var q := ExecuteExit(b, price, 100.0, at, params, Taker, kind).position;
            && q.remainingQty == 0.0 && q.exitedQty == p.originalQty
            && q.exitNotional == ExitPrice(p, price, params, Taker) * p.originalQty
  {
    hide ExitFee, ExitGross;
    assert ExitPrice(b.position, price, params, Taker) == ExitPrice(p, price, params, Taker);
  }

  lemma StepTrailing(p: Position, b: Booked, before: seq<Candle>, bar: Candle, params: Params, funding: map<int, real>)
    requires p.trailATR > 0.0 && Trailing(p, b.position, before)
    ensures Stepped(p, before, bar, Update(b, bar, params, funding), params)
  {
    hide StopFill, LiquidationFill, ExitPrice, LiquidationPrice, ApplyFunding, RecordExcursion, TrailStop, ExecuteExit,
         Extreme, Sound, FundingTimes, RateSum, Due, Payable;
    var funded := Funded(p, b, before, bar, params, funding);
    var q := funded.position;
    var stop := StopAfter(p, before);
    var liquidation := LiquidationOf(q, params);
    assert liquidation == LiquidationOf(p, params);
    SingleStop(funded, bar, stop, params);
    FullExit(p, funded, StopFill(stop, bar, p.direction), bar.closeTime, params, STOP_LOSS);
    assert q.stopLoss[0] == PriceTarget(stop, 100.0);
    if liquidation.Some? {
      FullExit(p, funded, LiquidationFill(q.entryPrice, q.direction, q.leverage, bar, liquidation.value),
               bar.closeTime, params, LIQUIDATION);
    }
    TrailMovesWithExtreme(p, q, before, bar);
  }

  lemma Funded(p: Position, b: Booked, before: seq<Candle>, bar: Candle, params: Params, funding: map<int, real>)
    returns (funded: Booked)
    requires p.trailATR > 0.0 && Trailing(p, b.position, before)
    ensures funded == ApplyFunding(b.(position := RecordExcursion(b.position, bar)), bar, params, funding)
    ensures Trailing(p, funded.position, before)
  {
    hide StopAfter, Sound, FundingTimes, RateSum, Due, Payable, ApplyFunding, FundingAmount;
    var seen := b.(position := RecordExcursion(b.position, bar));
    WatchingConserves(b, bar);
    ConservedIsSound(b, seen);
    funded := ApplyFunding(seen, bar, params, funding);
    ApplyFundingConserves(seen, bar, params, funding);
    ConservedIsSound(seen, funded);
    ApplyFundingBooksDue(seen, bar, params, funding);
  }

  lemma NextBar(b: Booked, bars: seq<Candle>, j: nat, params: Params, funding: map<int, real>)
    requires j < |bars|
    ensures var t := RideBars(b, bars[..j], params, funding);
            RideBars(b, bars[..j + 1], params, funding) == if t.closedBy.Some? then t else Update(t.booked, bars[j], params, funding)
  {
    hide Update;
    assert bars[..j + 1][..j] == bars[..j];
  }

  /** A trailing position survives exactly the bars none of which reached the nearer of the stop set
      by the bars before it and the liquidation price. */
  lemma {:induction false} TrailingSurvives(b: Booked, bars: seq<Candle>, params: Params, funding: map<int, real>)
    requires FreshTrailing(b.position)
    ensures var p := b.position;
            var t := RideBars(b, bars, params, funding);
            && (t.closedBy.None? <==> forall j :: 0 <= j < |bars| ==> !ExitsOn(p, bars[..j], bars[j], params))
            && (t.closedBy.None? ==> Trailing(p, t.booked.position, bars))
    decreases |bars|
  {
    hide Update, ExitsOn, Sound, StopAfter, RideBars, Trailing, FreshTrailing;
    var p := b.position;
    if bars == [] {
      NoBars(b, params, funding);
      StartsTrailing(p);
    } else {
      var n := |bars| - 1;
      var front := bars[..n];
      TrailingSurvives(b, front, params, funding);
      NextBar(b, bars, n, params, funding);
      assert bars[..n + 1] == bars == front + [bars[n]];
      assert forall j :: 0 <= j < n ==> front[..j] == bars[..j];
      var t := RideBars(b, front, params, funding);
      if t.closedBy.None? {
        TrailingHasStop(p);
        StepTrailing(p, t.booked, front, bars[n], params, funding);
      }
    }
  }

  lemma NoBars(b: Booked, params: Params, funding: map<int, real>)
    ensures RideBars(b, [], params, funding) == Tick(b, None)
  {
  }

  lemma TrailingHasStop(p: Position)
    requires FreshTrailing(p)
    ensures p.trailATR > 0.0
  {
  }

  lemma StartsTrailing(p: Position)
    requires FreshTrailing(p)
    ensures Trailing(p, p, [])
  {
    FreshIsSound(p);
  }

  /** The exit itself: at the first bar that reaches the nearer adverse price, for the whole position,
      at the stop if the stop was nearer than liquidation and as a liquidation otherwise. */
  lemma TrailingExit(b: Booked, bars: seq<Candle>, j: nat, params: Params, funding: map<int, real>)
    requires FreshTrailing(b.position) && j < |bars|
    requires ExitsOn(b.position, bars[..j], bars[j], params)
    requires forall i :: 0 <= i < j ==> !ExitsOn(b.position, bars[..i], bars[i], params)
    ensures var p := b.position;
            var t := RideBars(b, bars, params, funding);
            && t.closedBy == Some(if StopIsNearer(p, StopAfter(p, bars[..j]), params) then STOP_LOSS else LIQUIDATION)
            && t.booked.position.exitedQty == p.originalQty
            && t.booked.position.exitNotional
               == ExitPrice(p, ExitLevel(p, bars[..j], bars[j], params), params, Taker) * p.originalQty
  {
    hide Update, ExitsOn, StopAfter, ExitLevel, ExitPrice, StopIsNearer, RideBars;
    assert forall i :: 0 <= i < j ==> bars[..j][..i] == bars[..i];
    TrailingSurvives(b, bars[..j], params, funding);
    StepTrailing(b.position, RideBars(b, bars[..j], params, funding).booked, bars[..j], bars[j], params, funding);
    NextBar(b, bars, j, params, funding);
    ClosedStaysClosed(b, bars, j + 1, params, funding);
  }

  lemma {:induction false} ClosedStaysClosed(b: Booked, bars: seq<Candle>, k: nat, params: Params, funding: map<int, real>)
    requires k <= |bars| && RideBars(b, bars[..k], params, funding).closedBy.Some?
    ensures RideBars(b, bars, params, funding) == RideBars(b, bars[..k], params, funding)
    decreases |bars|
  {
    if k == |bars| {
      assert bars[..k] == bars;
    } else {
      assert bars[..|bars| - 1][..k] == bars[..k];
      ClosedStaysClosed(b, bars[..|bars| - 1], k, params, funding);
    }
  }

  /** The stop never moves away from the price. */
  lemma {:induction false} StopNeverRetreats(p: Position, bars: seq<Candle>, i: nat, j: nat)
    requires i <= j <= |bars|
    ensures if p.direction.Long? then StopAfter(p, bars[..i]) <= StopAfter(p, bars[..j])
            else StopAfter(p, bars[..i]) >= StopAfter(p, bars[..j])
    decreases j
  {
    if i < j {
      assert bars[..j][..j - 1] == bars[..j - 1];
      StopNeverRetreats(p, bars, i, j - 1);
    }
  }
}
