/** Every funding settlement a position lives through is charged exactly once. */
module FundingClock {
  import opened Domain
  import opened Levels
  import opened OpenTrades
  import opened Ride

  /** The clock jumps to the next of the three daily settlements and skips none. */
  lemma NextFundingIsNext(at: int)
    ensures at < NextFundingAfter(at) <= at + FUNDING_PERIOD
    ensures NextFundingAfter(at) % FUNDING_PERIOD == 0
  {
    assert at == at / DAY * DAY + at % DAY;
    assert (at / DAY * DAY) % FUNDING_PERIOD == 0;
  }

  /** Settlements every eight hours from the first one up to and including a moment. */
  function Due(first: int, until: int): seq<int>
    decreases until - first
  {
    if first > until then [] else [first] + Due(first + FUNDING_PERIOD, until)
  }

  /** Exactly the settlement instants of (after, until], in order and without repetition. */
  lemma {:induction false} DueIsExact(after: int, first: int, until: int)
    requires after < first <= after + FUNDING_PERIOD && first % FUNDING_PERIOD == 0
    ensures forall t :: t in Due(first, until) <==> after < t <= until && t % FUNDING_PERIOD == 0
    ensures forall i, j :: 0 <= i < j < |Due(first, until)| ==> Due(first, until)[i] < Due(first, until)[j]
    decreases until - first
  {
    if first <= until {
      DueIsExact(first, first + FUNDING_PERIOD, until);
      forall t | after < t <= until && t % FUNDING_PERIOD == 0
        ensures t == first || first < t
      {
      }
      var rest := Due(first + FUNDING_PERIOD, until);
      forall j | 0 < j < |Due(first, until)|
        ensures first < Due(first, until)[j] == rest[j - 1]
      {
        assert rest[j - 1] in rest;
      }
    }
  }

  /** Where the clock stands once everything up to a moment has been settled. */
  function ClockAfter(next: int, until: int): int
    decreases until - next
  {
    if next > until then next else ClockAfter(next + FUNDING_PERIOD, until)
  }

  lemma OnlySettlement(at: int, t: int)
    requires at < t <= at + FUNDING_PERIOD && t % FUNDING_PERIOD == 0
    ensures t == NextFundingAfter(at)
  {
    NextFundingIsNext(at);
  }

  lemma {:induction false} ClockAfterIsNextFunding(at: int, next: int, until: int)
    requires at < next <= at + FUNDING_PERIOD && next % FUNDING_PERIOD == 0
    ensures ClockAfter(next, until) == NextFundingAfter(if until > at then until else at)
    decreases until - next
  {
    hide NextFundingAfter;
    if next <= until {
      ClockAfterIsNextFunding(next, next + FUNDING_PERIOD, until);
    } else {
      OnlySettlement(if until > at then until else at, next);
    }
  }

  lemma {:induction false} DueSplits(first: int, middle: int, until: int)
    requires middle <= until
    ensures Due(first, middle) + Due(ClockAfter(first, middle), until) == Due(first, until)
    decreases middle - first
  {
    if first <= middle {
      DueSplits(first + FUNDING_PERIOD, middle, until);
    }
  }

  lemma DueFromFirst(first: int, until: int)
    requires first <= until
    ensures Due(first, until) != [] && Due(first, until)[0] == first
    ensures Due(first, until)[1..] == Due(first + FUNDING_PERIOD, until)
  {
  }

  /** The settlements with a rate to pay. */
  function Payable(due: seq<int>, params: Params, funding: map<int, real>): seq<int> {
    if due == [] then []
    else (if FundingRate(due[0], params, funding) != 0.0 then [due[0]] else []) + Payable(due[1..], params, funding)
  }

  lemma {:induction false} PayableOfConcat(a: seq<int>, b: seq<int>, params: Params, funding: map<int, real>)
    ensures Payable(a + b, params, funding) == Payable(a, params, funding) + Payable(b, params, funding)
  {
    if a == [] {
      assert a + b == b;
    } else {
      assert (a + b)[1..] == a[1..] + b;
      PayableOfConcat(a[1..], b, params, funding);
    }
  }

  function RateSum(due: seq<int>, params: Params, funding: map<int, real>): real {
    if due == [] then 0.0 else FundingRate(due[0], params, funding) + RateSum(due[1..], params, funding)
  }

  /** The instants at which an execution history shows funding. */
  function FundingTimes(executions: seq<Execution>): seq<int> {
    if executions == [] then []
    else
      var last := executions[|executions| - 1];
      FundingTimes(executions[..|executions| - 1]) + (if last.kind == FUNDING then [last.at] else [])
  }

  lemma FundingTimesOfOneMore(executions: seq<Execution>, e: Execution)
    ensures FundingTimes(executions + [e]) == FundingTimes(executions) + (if e.kind == FUNDING then [e.at] else [])
  {
    assert (executions + [e])[..|executions|] == executions;
  }

  lemma {:induction false} ApplyFundingKeepsExits(b: Booked, candle: Candle, params: Params, funding: map<int, real>)
    requires b.position.remainingQty > 0.0
    ensures var p, p' := b.position, ApplyFunding(b, candle, params, funding).position;
            && p'.nextFundingAt == ClockAfter(p.nextFundingAt, candle.closeTime) && p'.nextFundingAt > candle.closeTime
            && SameExits(p, p')
    decreases candle.closeTime - b.position.nextFundingAt
  {
    if b.position.nextFundingAt <= candle.closeTime {
      SettlementBooksOne(b, candle, params, funding);
      hide SettleFunding;
      ApplyFundingKeepsExits(SettleFunding(b, candle, params, funding), candle, params, funding);
    }
  }

  lemma {:induction false} ApplyFundingBooksTimes(b: Booked, candle: Candle, params: Params, funding: map<int, real>)
    requires b.position.remainingQty > 0.0
    ensures FundingTimes(ApplyFunding(b, candle, params, funding).position.executions)
         == FundingTimes(b.position.executions) + Payable(Due(b.position.nextFundingAt, candle.closeTime), params, funding)
    decreases candle.closeTime - b.position.nextFundingAt
  {
    if b.position.nextFundingAt <= candle.closeTime {
      var first, due := SettleFunding(b, candle, params, funding), Due(b.position.nextFundingAt, candle.closeTime);
      assert ApplyFunding(b, candle, params, funding) == ApplyFunding(first, candle, params, funding);
      DueFromFirst(b.position.nextFundingAt, candle.closeTime);
      hide ApplyFunding, SettleFunding, FundingTimes, Payable, FundingRate, Due;
      SettlementBooksOne(b, candle, params, funding);
      ApplyFundingBooksTimes(first, candle, params, funding);
      FirstDue(due, params, funding);
    }
  }

  lemma {:induction false} ApplyFundingBooksAmount(b: Booked, candle: Candle, params: Params, funding: map<int, real>)
    requires b.position.remainingQty > 0.0
    ensures var p := b.position;
            ApplyFunding(b, candle, params, funding).position.funding
            == p.funding + FundingAmount(p.direction, p.remainingQty, candle.open, RateSum(Due(p.nextFundingAt, candle.closeTime), params, funding))
    decreases candle.closeTime - b.position.nextFundingAt
  {
    var p := b.position;
    AmountsAddUp(p.direction, p.remainingQty, candle.open, 0.0, 0.0);
    if p.nextFundingAt <= candle.closeTime {
      var first, due := SettleFunding(b, candle, params, funding), Due(p.nextFundingAt, candle.closeTime);
      SettlementBooksOne(b, candle, params, funding);
      hide SettleFunding, FundingTimes, FundingAmount, RateSum, FundingRate;
      ApplyFundingBooksAmount(first, candle, params, funding);
      assert due[0] == p.nextFundingAt && due[1..] == Due(first.position.nextFundingAt, candle.closeTime);
      FirstDue(due, params, funding);
      AmountsAddUp(p.direction, p.remainingQty, candle.open, FundingRate(p.nextFundingAt, params, funding), RateSum(due[1..], params, funding));
    }
  }

  /** One call books each due settlement once, at the open price of the bar, and leaves the clock
      past the bar. */
  lemma ApplyFundingBooksDue(b: Booked, candle: Candle, params: Params, funding: map<int, real>)
    requires b.position.remainingQty > 0.0
    ensures var p := b.position;
            var p' := ApplyFunding(b, candle, params, funding).position;
            var due := Due(p.nextFundingAt, candle.closeTime);
            && FundingTimes(p'.executions) == FundingTimes(p.executions) + Payable(due, params, funding)
            && p'.funding
               == p.funding + FundingAmount(p.direction, p.remainingQty, candle.open, RateSum(due, params, funding))
            && p'.nextFundingAt == ClockAfter(p.nextFundingAt, candle.closeTime)
            && p'.nextFundingAt > candle.closeTime
            && SameExits(p, p')
  {
    hide ApplyFunding, FundingTimes, FundingAmount, RateSum, Payable, Due, ClockAfter;
    ApplyFundingKeepsExits(b, candle, params, funding);
    ApplyFundingBooksTimes(b, candle, params, funding);
    ApplyFundingBooksAmount(b, candle, params, funding);
  }

  lemma FirstDue(due: seq<int>, params: Params, funding: map<int, real>)
    requires due != []
    ensures Payable(due, params, funding)
         == (if FundingRate(due[0], params, funding) != 0.0 then [due[0]] else []) + Payable(due[1..], params, funding)
    ensures RateSum(due, params, funding) == FundingRate(due[0], params, funding) + RateSum(due[1..], params, funding)
  {
  }

  lemma AmountsAddUp(direction: Direction, qty: real, mark: real, rate: real, rest: real)
    ensures FundingAmount(direction, qty, mark, rate + rest)
            == FundingAmount(direction, qty, mark, rate) + FundingAmount(direction, qty, mark, rest)
    ensures FundingAmount(direction, qty, mark, 0.0) == 0.0
  {
    assert mark * qty * (rate + rest) == mark * qty * rate + mark * qty * rest;
  }

  lemma SettlementBooksOne(b: Booked, candle: Candle, params: Params, funding: map<int, real>)
    requires b.position.remainingQty > 0.0
    ensures var p := b.position;
            var p' := SettleFunding(b, candle, params, funding).position;
            var rate := FundingRate(p.nextFundingAt, params, funding);
            && FundingTimes(p'.executions)
               == FundingTimes(p.executions) + (if rate != 0.0 then [p.nextFundingAt] else [])
            && p'.funding == p.funding + FundingAmount(p.direction, p.remainingQty, candle.open, rate)
            && p'.nextFundingAt == p.nextFundingAt + FUNDING_PERIOD
            && SameExits(p, p')
  {
    hide FundingTimes, FundingAmount, FundingRate;
    var p := b.position;
    AmountsAddUp(p.direction, p.remainingQty, candle.open, 0.0, 0.0);
    var p' := SettleFunding(b, candle, params, funding).position;
    if p'.executions != p.executions {
      FundingTimesOfOneMore(p.executions, p'.executions[|p.executions|]);
    }
  }

  lemma AmountMeans(direction: Direction, qty: real, mark: real, rate: real)
    ensures FundingAmount(direction, qty, mark, rate)
         == match direction { case Long => -PctOfNotional(mark, qty, rate) case Short => PctOfNotional(mark, qty, rate) }
  {
  }

  /** At a positive rate longs pay and shorts receive: over one bar the notional at its open times the sum of
      the rates due, so that what one side pays the other of the same size is paid. */
  lemma ShortsReceiveWhatLongsPay(b: Booked, candle: Candle, params: Params, funding: map<int, real>)
    requires b.position.remainingQty > 0.0
    ensures var p := b.position;
            var owed := PctOfNotional(candle.open, p.remainingQty, RateSum(Due(p.nextFundingAt, candle.closeTime), params, funding));
            && ApplyFunding(b.(position := p.(direction := Long)), candle, params, funding).position.funding == p.funding - owed
            && ApplyFunding(b.(position := p.(direction := Short)), candle, params, funding).position.funding == p.funding + owed
  {
    hide ApplyFunding, FundingAmount, RateSum, Due, PctOfNotional;
    var p := b.position;
    var rate := RateSum(Due(p.nextFundingAt, candle.closeTime), params, funding);
    ApplyFundingBooksAmount(b.(position := p.(direction := Long)), candle, params, funding);
    ApplyFundingBooksAmount(b.(position := p.(direction := Short)), candle, params, funding);
    AmountMeans(Long, p.remainingQty, candle.open, rate);
    AmountMeans(Short, p.remainingQty, candle.open, rate);
  }

  /** Published rates count where there are any, and the configured one elsewhere. */
  lemma {:induction false} RatesAddUp(due: seq<int>, params: Params, funding: map<int, real>, rate: real)
    requires forall t :: t in due ==> if t in funding then funding[t] == rate else params.fundingRatePct == rate
    ensures RateSum(due, params, funding) == |due| as real * rate
  {
    if due != [] {
      assert due[0] in due;
      RatesAddUp(due[1..], params, funding, rate);
    }
  }

  /** Everything about a position that funding leaves alone. */
  ghost predicate SameExits(p: Position, p': Position) {
    p' == p.(funding := p'.funding, executions := p'.executions, nextFundingAt := p'.nextFundingAt)
  }

  /** Settling the same bar again, as closing at the end of the period does, charges nothing. */
  lemma RepeatedFundingIsFree(b: Booked, candle: Candle, params: Params, funding: map<int, real>)
    requires b.position.remainingQty > 0.0
    ensures var once := ApplyFunding(b, candle, params, funding);
            ApplyFunding(once, candle, params, funding) == once
  {
    ApplyFundingBooksDue(b, candle, params, funding);
  }

  // ---------- the exits of a bar book no funding ----------

  ghost predicate SameFunding(p: Position, p': Position) {
    && FundingTimes(p'.executions) == FundingTimes(p.executions)
    && p'.nextFundingAt == p.nextFundingAt && p'.openedAt == p.openedAt
  }

  lemma ExitBooksNoFunding(b: Booked, price: real, closePct: real, at: int, params: Params, feeType: FeeType, kind: string)
    requires kind != FUNDING
    ensures SameFunding(b.position, ExecuteExit(b, price, closePct, at, params, feeType, kind).position)
  {
    hide ExitPrice, ExitFee, FundingTimes;
    var p := b.position;
    var p' := ExecuteExit(b, price, closePct, at, params, feeType, kind).position;
    if p'.executions != p.executions {
      FundingTimesOfOneMore(p.executions, p'.executions[|p.executions|]);
    }
  }

  lemma {:induction false} CloseTouchedBooksNoFunding(b: Booked, candle: Candle, ordered: seq<PriceTarget>,
                                                      takeProfit: bool, params: Params, kind: string)
    requires kind != FUNDING
    ensures SameFunding(b.position, CloseTouched(b, candle, ordered, takeProfit, params, kind).booked.position)
    decreases |ordered|
  {
    if ordered != [] {
      hide ExecuteExit;
      CloseTouchedBooksNoFunding(b, candle, ordered[..|ordered| - 1], takeProfit, params, kind);
      var w := CloseTouched(b, candle, ordered[..|ordered| - 1], takeProfit, params, kind);
      var level := ordered[|ordered| - 1];
      var fill := if takeProfit then level.price else StopFill(level.price, candle, w.booked.position.direction);
      ExitBooksNoFunding(w.booked, fill, Share(level), candle.closeTime, params, if takeProfit then Maker else Taker, kind);
    }
  }

  lemma TriggerLevelsBookNoFunding(b: Booked, candle: Candle, params: Params)
    ensures SameFunding(b.position, TriggerLevels(b, candle, params).0.position)
  {
    hide CloseTouched, SortByPrice, Touched, FundingTimes;
    var p := b.position;
    var tp := AnyTouched(candle, p.takeProfit, p.direction, true);
    CloseTouchedBooksNoFunding(b, candle, SortByPrice(p.stopLoss, p.direction.Short?), false, params,
                               if tp then AMBIGUOUS_STOP else STOP_LOSS);
    CloseTouchedBooksNoFunding(b, candle, SortByPrice(p.takeProfit, p.direction.Long?), true, params, TAKE_PROFIT);
  }

  /** One bar adds the settlements due by its close to the history and nothing else. */
  lemma UpdateBooksDue(b: Booked, candle: Candle, params: Params, funding: map<int, real>)
    requires b.position.remainingQty > 0.0
    ensures var p := b.position;
            var p' := Update(b, candle, params, funding).booked.position;
            && FundingTimes(p'.executions)
               == FundingTimes(p.executions) + Payable(Due(p.nextFundingAt, candle.closeTime), params, funding)
            && p'.nextFundingAt == ClockAfter(p.nextFundingAt, candle.closeTime)
            && p'.openedAt == p.openedAt
  {
    hide ApplyFunding, TriggerLevels, ExecuteExit, LiquidationOf, LiquidationFill, Touched, StopPrecedes, FundingTimes,
         Payable, RateSum;
    var seen := b.(position := RecordExcursion(b.position, candle));
    ApplyFundingBooksDue(seen, candle, params, funding);
    var funded := ApplyFunding(seen, candle, params, funding);
    var p := funded.position;
    var liquidation := LiquidationOf(p, params);
    TriggerLevelsBookNoFunding(funded, candle, params);
    var triggered := TriggerLevels(funded, candle, params).0;
    var trailed := triggered.(position := TrailStop(triggered.position, candle));
    if liquidation.Some? {
      var q := trailed.position;
      ExitBooksNoFunding(funded, LiquidationFill(p.entryPrice, p.direction, p.leverage, candle, liquidation.value),
                         100.0, candle.closeTime, params, Taker, LIQUIDATION);
      ExitBooksNoFunding(trailed, LiquidationFill(q.entryPrice, q.direction, q.leverage, candle, liquidation.value),
                         100.0, candle.closeTime, params, Taker, LIQUIDATION);
    }
  }

  /** The latest close a position has seen, its own opening included. */
  function Seen(openedAt: int, bars: seq<Candle>): int {
    if bars == [] then openedAt
    else
      var before := Seen(openedAt, bars[..|bars| - 1]);
      var close := bars[|bars| - 1].closeTime;
      if close > before then close else before
  }

  /** Over any bars, of any length and with any gaps, the funding history of a position is exactly
      the payable settlements between its opening and the last close it saw. */
  lemma {:induction false} FundingChargedOnce(b: Booked, bars: seq<Candle>, params: Params, funding: map<int, real>)
    requires Fresh(b.position)
    requires bars != [] ==> RideBars(b, bars[..|bars| - 1], params, funding).closedBy.None?
    ensures var start := b.position.openedAt;
            var p := RideBars(b, bars, params, funding).booked.position;
            && FundingTimes(p.executions)
               == Payable(Due(NextFundingAfter(start), Seen(start, bars)), params, funding)
            && p.nextFundingAt == NextFundingAfter(Seen(start, bars))
            && p.openedAt == start
    decreases |bars|
  {
    var start := b.position.openedAt;
    NextFundingIsNext(start);
    if bars == [] {
      FundingTimesOfOneMore([], b.position.executions[0]);
      assert b.position.executions == [] + [b.position.executions[0]];
    } else {
      hide Update, Fresh, Payable, FundingTimes, NextFundingAfter;
      var front, bar := bars[..|bars| - 1], bars[|bars| - 1];
      StillOpenBefore(b, front, params, funding);
      FundingChargedOnce(b, front, params, funding);
      var p := RideBars(b, front, params, funding).booked.position;
      var seen := Seen(start, front);
      UpdateBooksDue(RideBars(b, front, params, funding).booked, bar, params, funding);
      NextFundingIsNext(seen);
      ClockAfterIsNextFunding(seen, p.nextFundingAt, bar.closeTime);
      ClockAfterIsNextFunding(start, NextFundingAfter(start), seen);
      SeenIsAfterOpening(start, front);
      if bar.closeTime >= seen {
        DueSplits(NextFundingAfter(start), seen, bar.closeTime);
        PayableOfConcat(Due(NextFundingAfter(start), seen), Due(p.nextFundingAt, bar.closeTime), params, funding);
      } else {
        NothingPayable(params, funding);
      }
    }
  }

  lemma NothingPayable(params: Params, funding: map<int, real>)
    ensures Payable([], params, funding) == []
  {
  }

  lemma {:induction false} SeenIsAfterOpening(openedAt: int, bars: seq<Candle>)
    ensures Seen(openedAt, bars) >= openedAt
  {
    if bars != [] {
      SeenIsAfterOpening(openedAt, bars[..|bars| - 1]);
    }
  }

  /** A position still open after some bars was open after each of them. */
  lemma StillOpenBefore(b: Booked, bars: seq<Candle>, params: Params, funding: map<int, real>)
    requires Fresh(b.position) && RideBars(b, bars, params, funding).closedBy.None?
    ensures bars != [] ==> RideBars(b, bars[..|bars| - 1], params, funding).closedBy.None?
    ensures RideBars(b, bars, params, funding).booked.position.remainingQty > 0.0
  {
    hide Update;
    FreshIsSound(b.position);
    RideConserves(b, bars, params, funding);
  }
}
