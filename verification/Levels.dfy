/** Price rules of the replay: which level a bar reaches, where it fills, where a position is liquidated. */
module Levels {
  import opened Domain

  datatype ExitMode = SignalLevels | PnlLadder | TrailingAtr

  /** Closes closePct of the position at a return on margin of pnlPct. */
  datatype ExitStep = ExitStep(pnlPct: real, closePct: real)

  datatype Params = Params(
    timeframe: string, barSeconds: int, analysisInterval: Option<int>, dateFrom: int,
    initialCapital: real, slippagePct: real, makerFeePct: real, takerFeePct: real,
    fundingRatePct: real, maintenanceMarginPct: real, maxOpenPositions: int, historyLimit: int,
    breakEvenAfterTP: bool, exitMode: ExitMode, trailingAtrMult: real,
    takeProfitLadder: seq<ExitStep>, stopLossLadder: seq<ExitStep>,
    entryPullbackAtr: real, entryValidBars: int)

  const DEFAULT_TRAILING_ATR_MULT := 2.5

  predicate AnyTouched(candle: Candle, levels: seq<PriceTarget>, direction: Direction, takeProfit: bool) {
    exists level :: level in levels && Touched(candle, level.price, direction, takeProfit)
  }

  function FeeFor(notional: real, params: Params, feeType: FeeType): real {
    notional * (if feeType.Maker? then params.makerFeePct else params.takerFeePct) / 100.0
  }

  /** The first price a triggered stop can get: its level, or the open when the bar gapped past it. */
  function StopFill(level: real, candle: Candle, direction: Direction): real {
    if candle.open <= 0.0 then level
    else if direction.Long? then Min(level, candle.open)
    else Max(level, candle.open)
  }

  function LiquidationPrice(entry: Positive, direction: Direction, leverage: int, params: Params): Option<real> {
    if leverage <= 0 then None
    else
      var distance := Max(1.0 / leverage as real - params.maintenanceMarginPct / 100.0, 0.0);
      Some(if direction.Long? then entry * (1.0 - distance) else entry * (1.0 + distance))
  }

  /** The price at which the posted margin is exactly gone. */
  function BankruptcyPrice(entry: Positive, direction: Direction, leverage: NonZero): real {
    if direction.Long? then entry * (1.0 - 1.0 / leverage as real) else entry * (1.0 + 1.0 / leverage as real)
  }

  function LiquidationFill(entry: Positive, direction: Direction, leverage: NonZero,
                           candle: Candle, liquidation: real): real {
    var fill := StopFill(liquidation, candle, direction);
    if leverage <= 0 then fill
    else if direction.Long? then Max(fill, BankruptcyPrice(entry, direction, leverage))
    else Min(fill, BankruptcyPrice(entry, direction, leverage))
  }

  /** A stop this bar also reached lies between the entry and the given adverse price. */
  predicate StopPrecedes(stops: seq<PriceTarget>, direction: Direction, candle: Candle, price: real) {
    exists level :: level in stops && Touched(candle, level.price, direction, false)
                    && (if direction.Long? then level.price > price else level.price < price)
  }

  /** The price level of one return-on-margin step, unless the step is unusable. */
  function LadderTarget(step: ExitStep, entry: Positive, direction: Direction, leverage: NonZero,
                        profit: bool): Option<PriceTarget> {
    var sign := if profit then direction.Sign() else -direction.Sign();
    var move := Abs(step.pnlPct) / leverage as real / 100.0;
    var price := entry * (1.0 + sign * move);
    if move <= 0.0 || (!profit && move >= 1.0) || step.closePct <= 0.0 || price <= 0.0 then None
    else Some(PriceTarget(price, step.closePct))
  }

  function LadderTargets(steps: seq<ExitStep>, entry: Positive, direction: Direction, leverage: int,
                         profit: bool): seq<PriceTarget> {
    if steps == [] || leverage <= 0 then []
    else
      var before := LadderTargets(steps[..|steps| - 1], entry, direction, leverage, profit);
      match LadderTarget(steps[|steps| - 1], entry, direction, leverage, profit)
      case Some(target) => before + [target]
      case None => before
  }

  /** Every level moved by the same amount; a level pushed to zero or below is dropped. */
  function ShiftTargets(levels: seq<PriceTarget>, shift: real): seq<PriceTarget> {
    if levels == [] then []
    else
      var last := levels[|levels| - 1];
      var before := ShiftTargets(levels[..|levels| - 1], shift);
      if last.price + shift > 0.0 then before + [last.(price := last.price + shift)] else before
  }

  /** The levels a shift leaves above zero, where they were. */
  function Surviving(levels: seq<PriceTarget>, shift: real): seq<PriceTarget> {
    if levels == [] then []
    else
      Surviving(levels[..|levels| - 1], shift)
      + (if levels[|levels| - 1].price + shift > 0.0 then [levels[|levels| - 1]] else [])
  }

  /** A shift moves each surviving level by the same distance and keeps its share, in order. */
  lemma {:induction false} ShiftMovesSurvivors(levels: seq<PriceTarget>, shift: real)
    ensures var moved, kept := ShiftTargets(levels, shift), Surviving(levels, shift);
            && |moved| == |kept|
            && (forall i :: 0 <= i < |kept| ==> moved[i].price - kept[i].price == shift && moved[i].closePct == kept[i].closePct && moved[i].price > 0.0)
    ensures (forall level :: level in levels ==> level.price + shift > 0.0) ==> Surviving(levels, shift) == levels
    decreases |levels|
  {
    if levels != [] {
      var front, last := levels[..|levels| - 1], levels[|levels| - 1];
      assert levels == front + [last];
      ShiftMovesSurvivors(front, shift);
      ShiftOneMore(front, last, shift);
      hide ShiftTargets, Surviving;
    }
  }

  lemma ShiftOneMore(front: seq<PriceTarget>, last: PriceTarget, shift: real)
    ensures ShiftTargets(front + [last], shift)
         == ShiftTargets(front, shift) + if last.price + shift > 0.0 then [last.(price := last.price + shift)] else []
    ensures Surviving(front + [last], shift) == Surviving(front, shift) + if last.price + shift > 0.0 then [last] else []
  {
    assert (front + [last])[..|front|] == front;
  }

  /** Orders exit levels by price; equal prices keep the order they came in. */
  function SortByPrice(levels: seq<PriceTarget>, ascending: bool): seq<PriceTarget> {
    if levels == [] then []
    else InsertByPrice(SortByPrice(levels[..|levels| - 1], ascending), levels[|levels| - 1], ascending)
  }

  function InsertByPrice(sorted: seq<PriceTarget>, level: PriceTarget, ascending: bool): seq<PriceTarget> {
    if sorted == [] then [level]
    else
      var last := sorted[|sorted| - 1];
      if (if ascending then level.price < last.price else level.price > last.price)
      then InsertByPrice(sorted[..|sorted| - 1], level, ascending) + [last]
      else sorted + [level]
  }

  lemma {:induction false} InsertByPriceIsPermutation(sorted: seq<PriceTarget>, level: PriceTarget, ascending: bool)
    ensures multiset(InsertByPrice(sorted, level, ascending)) == multiset(sorted) + multiset{level}
  {
    if sorted != [] {
      assert sorted == sorted[..|sorted| - 1] + [sorted[|sorted| - 1]];
      InsertByPriceIsPermutation(sorted[..|sorted| - 1], level, ascending);
    }
  }

  lemma {:induction false} SortByPriceIsPermutation(levels: seq<PriceTarget>, ascending: bool)
    ensures multiset(SortByPrice(levels, ascending)) == multiset(levels)
  {
    if levels != [] {
      assert levels == levels[..|levels| - 1] + [levels[|levels| - 1]];
      SortByPriceIsPermutation(levels[..|levels| - 1], ascending);
      InsertByPriceIsPermutation(SortByPrice(levels[..|levels| - 1], ascending), levels[|levels| - 1], ascending);
    }
  }

  ghost predicate Ordered(levels: seq<PriceTarget>, ascending: bool) {
    forall i, j :: 0 <= i < j < |levels| ==>
      if ascending then levels[i].price <= levels[j].price else levels[i].price >= levels[j].price
  }

  /** No level lies past the price in the sorting direction. */
  ghost predicate UpTo(levels: seq<PriceTarget>, price: real, ascending: bool) {
    forall i :: 0 <= i < |levels| ==> if ascending then levels[i].price <= price else levels[i].price >= price
  }

  lemma AppendKeepsOrder(levels: seq<PriceTarget>, level: PriceTarget, ascending: bool)
    requires Ordered(levels, ascending) && UpTo(levels, level.price, ascending)
    ensures Ordered(levels + [level], ascending)
  {
  }

  lemma OrderedIsUpTo(levels: seq<PriceTarget>, price: real, ascending: bool)
    requires levels != [] && Ordered(levels, ascending)
    requires if ascending then levels[|levels| - 1].price <= price else levels[|levels| - 1].price >= price
    ensures UpTo(levels, price, ascending) && UpTo(levels[..|levels| - 1], price, ascending) && Ordered(levels[..|levels| - 1], ascending)
  {
  }

  lemma {:induction false} InsertByPriceKeepsOrder(sorted: seq<PriceTarget>, level: PriceTarget, ascending: bool, price: real)
    requires Ordered(sorted, ascending) && UpTo(sorted, price, ascending) && UpTo([level], price, ascending)
    ensures Ordered(InsertByPrice(sorted, level, ascending), ascending) && UpTo(InsertByPrice(sorted, level, ascending), price, ascending)
  {
    assert [level][0] == level;
    if sorted != [] {
      var front, last := sorted[..|sorted| - 1], sorted[|sorted| - 1];
      if if ascending then level.price < last.price else level.price > last.price {
        OrderedIsUpTo(sorted, last.price, ascending);
        InsertByPriceKeepsOrder(front, level, ascending, last.price);
        AppendKeepsOrder(InsertByPrice(front, level, ascending), last, ascending);
      } else {
        OrderedIsUpTo(sorted, level.price, ascending);
        AppendKeepsOrder(sorted, level, ascending);
      }
    }
  }

  lemma {:induction false} SortByPriceIsOrdered(levels: seq<PriceTarget>, ascending: bool)
    ensures Ordered(SortByPrice(levels, ascending), ascending)
  {
    if levels != [] {
      SortByPriceIsOrdered(levels[..|levels| - 1], ascending);
      var sorted, level := SortByPrice(levels[..|levels| - 1], ascending), levels[|levels| - 1];
      var price := level.price;
      if sorted != [] && (if ascending then sorted[|sorted| - 1].price > price else sorted[|sorted| - 1].price < price) {
        price := sorted[|sorted| - 1].price;
      }
      if sorted != [] {
        OrderedIsUpTo(sorted, price, ascending);
      }
      InsertByPriceKeepsOrder(sorted, level, ascending, price);
    }
  }
}
