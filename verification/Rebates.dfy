/** How large a fee rebate may be before an accepted entry can outgrow the cash. */
module Rebates {
  import opened Domain
  import opened Drawdown
  import opened Levels
  import opened OpenTrades
  import opened Replay
  import opened ReplaySafety
  import opened NoLookAhead

  /** Whatever the account and the book, an entry that is accepted leaves the book covered. */
  ghost predicate AlwaysCovers(leverage: int, params: Params, feeType: FeeType) {
    forall signal: Signal, entry, candle, a, open ::
      signal.leverage == leverage && OpenTradeAt(signal, entry, feeType, candle, params, a, open).Some? ==>
        var b := OpenTradeAt(signal, entry, feeType, candle, params, a, open).value;
        Covered(b.cash, open + [b.position])
  }

  /** Accepted entries are covered on every account exactly when the rebate is smaller than the margin. */
  lemma CoveredExactlyBelowMargin(leverage: int, params: Params, feeType: FeeType)
    requires leverage > 0
    ensures AlwaysCovers(leverage, params, feeType) <==> RebateBelowMargin(leverage, params, feeType)
  {
    hide OpenTradeAt, Covered;
    if RebateBelowMargin(leverage, params, feeType) {
      forall signal: Signal, entry, candle, a, open |
        signal.leverage == leverage && OpenTradeAt(signal, entry, feeType, candle, params, a, open).Some?
        ensures Covered(OpenTradeAt(signal, entry, feeType, candle, params, a, open).value.cash,
                        open + [OpenTradeAt(signal, entry, feeType, candle, params, a, open).value.position])
      {
        SaneEntryIsCovered(signal, entry, feeType, candle, params, a, open);
      }
    } else {
      var signal, candle, a, open := UncoveredEntry(leverage, params, feeType);
    }
  }

  function Flat(k: nat): Candle {
    Candle(3600 * k, 3600 * (k + 1), 1.0, 1.0, 1.0, 1.0, 0.0)
  }

  /** A position of a given margin, whole. */
  function Whole(margin: real): Position {
    Position(Long, 0, 1.0, 1, 100.0, [], [], 1.0, 1.0, margin, 0.0, 0.0, 0.0, 0.0, 0.0, [], 28800, false, 0.0, 1.0, 0.0, 0.0)
  }

  /** With a larger rebate, an account without free margin still accepts an entry. */
  lemma UncoveredEntry(leverage: int, params: Params, feeType: FeeType)
    returns (signal: Signal, candle: Candle, a: Account, open: seq<Position>)
    requires leverage > 0 && !RebateBelowMargin(leverage, params, feeType)
    ensures signal.leverage == leverage
    ensures var r := OpenTradeAt(signal, 1.0, feeType, candle, params, a, open);
            r.Some? && !Covered(r.value.cash, open + [r.value.position])
  {
    signal, candle := Signal(Long, 1.0, leverage, 1.0, [], [], 1.0), Flat(0);
    a := Account(0.0, 100.0, Tracker(100.0, 0.0), [], []);
    var cost := EntryCost(signal, 100.0, params, feeType);
    CostIsShareOfMargin(signal, 100.0, params, feeType);
    assert MarginFor(signal, 100.0) == 1.0;
    assert cost <= 0.0;
    open := [Whole(1.0 - cost)];
    assert open[..0] == [];
    assert Reserved(open) == 1.0 - cost;
    QuantityIsPositive(signal, 100.0);
    hide Reserved, EntryFee, FeeFor, QuantityFor, MarginFor, NewPosition, EntryCost, CostFactor, LadderTargets,
         TrailDistance;
    EntryCostIs(signal, 100.0, params, feeType);
    var r := OpenTradeAt(signal, 1.0, feeType, candle, params, a, open);
    assert PlanExit(signal, 1.0, params).Some?;
    assert r.Some?;
    EntryTakesItsCost(signal, 1.0, feeType, candle, params, a, open);
  }

  lemma EntryCostIs(signal: Signal, capital: real, params: Params, feeType: FeeType)
    ensures EntryCost(signal, capital, params, feeType) == MarginFor(signal, capital) + EntryFee(signal, capital, params, feeType)
  {
  }

  lemma QuantityIsPositive(signal: Signal, capital: real)
    requires MarginFor(signal, capital) > 0.0 && signal.leverage > 0
    ensures QuantityFor(signal, capital, 1.0) > 0.0
  {
    assert MarginFor(signal, capital) * signal.leverage as real > 0.0;
  }

  // ---------- a whole run that ends uncovered ----------

  /** A market that never moves, a fee that pays back the whole notional and one heavy funding settlement. */
  function RebateParams(): Params {
    Params("1h", 3600, None, 0, 100.0, 0.0, 0.0, -100.0, 0.0, 0.0, 5, 500, false, SignalLevels, 2.5, [], [], 0.0, 3)
  }

  function FlatBars(n: nat): seq<Candle> {
    seq(n, k requires 0 <= k => Flat(k))
  }

  function RebateInputs(): Inputs {
    Inputs(map["1h" := FlatBars(32)], [], map[115200 := 150.0])
  }

  function AllIn(): Signal {
    Signal(Long, 1.0, 1, 100.0, [], [], 1.0)
  }

  function AlwaysIn(): Policy {
    _ => Some(AllIn())
  }

  function StateAfter(n: nat): State
    requires n <= 32
  {
    RunTo(n, RebateInputs(), RebateParams(), AlwaysIn())
  }

  lemma EnoughBarsAreVisible(at: int, open: seq<Position>)
    requires at >= 3600 * 31
    ensures Decide(AlwaysIn(), ViewAt(RebateInputs(), at, open, RebateParams()), "1h") == Some(AllIn())
  {
    ThirtyBarsAreClosed(at);
    hide FirstAfter, FlatBars;
  }

  lemma ThirtyBarsAreClosed(at: int)
    requires at >= 3600 * 31
    ensures FirstAfter(FlatBars(32), at, 0, 32) >= 31
  {
    var bars := FlatBars(32);
    FirstAfterCuts(bars, at, 0, 32);
    assert bars[30].closeTime == 3600 * 31;
  }

  /** A bar on which the policy enters at the market and is accepted. */
  lemma EnteringBar(s: State, settled: State, i: nat, candle: Candle, b: Booked)
    requires candle.openTime >= 0 && settled == Settle(MarkExtremes(s, candle, RebateParams()), candle, RebateParams(), RebateInputs().funding)
    requires settled.pending == None && settled.lastSignalIndex < i && |settled.open| < 5
    requires Decide(AlwaysIn(), ViewAt(RebateInputs(), candle.closeTime, settled.open, RebateParams()), "1h") == Some(AllIn())
    requires OpenTradeAt(AllIn(), MarketEntry(AllIn(), candle, RebateParams()), Taker, candle, RebateParams(), settled.account, settled.open) == Some(b)
    ensures var t := Step(s, i, candle, RebateInputs(), RebateParams(), AlwaysIn());
            && t.open == settled.open + [b.position] && t.account.cash == b.cash
            && t.pending == None && t.lastSignalIndex == i
  {
    hide Settle, MarkExtremes, Decide, OpenTradeAt, MarketEntry, MarkToMarket, ViewAt, RebateInputs;
    var account := settled.account;
    MarkingKeepsCash(account.(cash := b.cash), candle.close, settled.open + [b.position], -100.0);
  }

  lemma MarkingKeepsCash(a: Account, price: real, open: seq<Position>, takerFeePct: real)
    ensures MarkToMarket(a, price, open, takerFeePct).cash == a.cash
    ensures MarkToMarket(a, price, open, takerFeePct).lastEquity == a.cash + MarksOf(open, price, takerFeePct)
  {
  }

  /** At price one, everything of the account staked at leverage one, and the stake rebated in full. */
  lemma AllInAt(bar: Candle, a: Account, open: seq<Position>)
    requires a.lastEquity > 0.0
    ensures var b := Booked(NewPosition(AllIn(), 1.0, a.lastEquity, -a.lastEquity, ExitPlan([], [], 0.0), bar.closeTime), a.cash + a.lastEquity);
            QuantityFor(AllIn(), a.lastEquity, 1.0) == a.lastEquity
            && OpenTradeAt(AllIn(), 1.0, Taker, bar, RebateParams(), a, open) == Some(b)
            && b.position.initialMargin == a.lastEquity == b.position.originalQty == b.position.remainingQty
            && ReservedBy(b.position) == a.lastEquity
  {
    var e := a.lastEquity;
    assert MarginFor(AllIn(), e) == e;
    assert QuantityFor(AllIn(), e, 1.0) == e;
    assert EntryFee(AllIn(), e, RebateParams(), Taker) == -e;
    hide MarginFor, QuantityFor, EntryFee, NextFundingAfter, Reserved;
  }

  lemma OneStep(n: nat)
    requires 30 <= n < 32
    ensures StateAfter(n + 1)
         == Step(StateAfter(n), n, Flat(n), RebateInputs(), RebateParams(), AlwaysIn())
    ensures n == 30 ==> StateAfter(n) == Initial(RebateParams())
  {
    hide Step;
  }

  /** The position the first bar opens. */
  function FirstPosition(): Position {
    assert QuantityFor(AllIn(), 100.0, 1.0) == 100.0;
    NewPosition(AllIn(), 1.0, 100.0, -100.0, ExitPlan([], [], 0.0), 111600)
  }

  /** What a bar that closes nothing leaves of the account. */
  lemma QuietSettlement(s: State, bar: Candle, cash: real, survivors: seq<Position>, marks: real)
    requires SweepBook(s.account.cash, s.open, bar, RebateParams(), RebateInputs().funding) == Sweep(cash, survivors, [])
    requires MarksOf(survivors, bar.close, -100.0) == marks
    ensures var t := Settle(MarkExtremes(s, bar, RebateParams()), bar, RebateParams(), RebateInputs().funding);
            && t.account.cash == cash && t.account.lastEquity == cash + marks && t.open == survivors
            && t.pending == s.pending && t.lastSignalIndex == s.lastSignalIndex
  {
    hide MarksOf, SweepBook, RebateInputs;
    var marked := MarkExtremes(s, bar, RebateParams());
    assert marked.account.cash == s.account.cash && marked.open == s.open;
    hide MarkExtremes;
  }

  lemma StartIsEmpty(bar: Candle)
    ensures var start := Initial(RebateParams());
            start.account.cash == 100.0 && start.open == [] && start.pending == None && start.lastSignalIndex == -1
    ensures SweepBook(100.0, [], bar, RebateParams(), RebateInputs().funding) == Sweep(100.0, [], [])
    ensures MarksOf([], 1.0, -100.0) == 0.0
  {
    hide Update, RebateInputs;
  }

  lemma EntersAtOne(k: nat)
    ensures MarketEntry(AllIn(), Flat(k), RebateParams()) == 1.0
  {
  }

  /** The first entry takes its rebate: 100 of margin against 200 of cash. */
  lemma FirstEntry()
    ensures var t := StateAfter(31);
            t.open == [FirstPosition()] && t.account.cash == 200.0 && t.lastSignalIndex == 30 && t.pending == None
  {
    hide Settle, MarkExtremes, SweepBook, StateAfter, Step, Decide, OpenTradeAt, MarketEntry, QuantityFor, NewPosition,
         Initial, RebateInputs, ViewAt, AlwaysIn, MarksOf, RebateParams;
    var params, bar := RebateParams(), Flat(30);
    var start := Initial(params);
    StartIsEmpty(bar);
    EntersAtOne(30);
    OneStep(30);
    EnoughBarsAreVisible(bar.closeTime, []);
    QuietSettlement(start, bar, 100.0, [], 0.0);
    var settled := Settle(MarkExtremes(start, bar, params), bar, params, RebateInputs().funding);
    AllInAt(bar, settled.account, []);
    EnteringBar(start, settled, 30, bar, OpenTradeAt(AllIn(), 1.0, Taker, bar, params, settled.account, []).value);
  }

  /** A bar that reaches no level of a position without trailing does nothing but settle its funding. */
  lemma QuietBar(b: Booked, bar: Candle, params: Params, funding: map<int, real>)
    requires var p := ApplyFunding(b.(position := RecordExcursion(b.position, bar)), bar, params, funding).position;
             && p.takeProfit == [] && p.stopLoss == [] && p.trailATR == 0.0 && p.remainingQty != 0.0
             && LiquidationOf(p, params).Some? && !Touched(bar, LiquidationOf(p, params).value, p.direction, false)
    ensures Update(b, bar, params, funding)
         == Tick(ApplyFunding(b.(position := RecordExcursion(b.position, bar)), bar, params, funding), None)
  {
    hide ApplyFunding, RecordExcursion, LiquidationOf, Touched;
  }

  lemma OneSettlement(b: Booked, bar: Candle, params: Params, funding: map<int, real>)
    requires b.position.nextFundingAt == bar.closeTime
    ensures ApplyFunding(b, bar, params, funding) == SettleFunding(b, bar, params, funding)
  {
  }

  /** The settlement at the close of the next bar takes 150 of the 200; nothing closes. */
  lemma SecondSettlement()
    ensures var tick := Update(Booked(FirstPosition(), 200.0), Flat(31), RebateParams(), RebateInputs().funding);
            && tick.closedBy == None && tick.booked.cash == 50.0
            && tick.booked.position.remainingQty == 100.0 && tick.booked.position.originalQty == 100.0
            && tick.booked.position.initialMargin == 100.0 && tick.booked.position.entryPrice == 1.0 && tick.booked.position.direction.Long?
  {
    hide FirstPosition, RecordExcursion, SettleFunding, LiquidationOf, ApplyFunding, RebateParams, RebateInputs, Update;
    var params, bar, funding := RebateParams(), Flat(31), RebateInputs().funding;
    FirstPositionIsStaked();
    var first := FirstPosition();
    WatchingKeepsStake(first, bar);
    var p := RecordExcursion(first, bar);
    HeavySettlement(p, 200.0);
    OneSettlement(Booked(p, 200.0), bar, params, funding);
    NeverLiquidated(SettleFunding(Booked(p, 200.0), bar, params, funding).position);
    QuietBar(Booked(first, 200.0), bar, params, funding);
  }

  /** A long of a hundred at price one and leverage one, without exits. */
  ghost predicate Staked(p: Position) {
    && p.remainingQty == 100.0 && p.originalQty == 100.0 && p.initialMargin == 100.0
    && p.direction.Long? && p.entryPrice == 1.0 && p.leverage == 1
    && p.takeProfit == [] && p.stopLoss == [] && p.trailATR == 0.0
  }

  lemma FirstPositionIsStaked()
    ensures Staked(FirstPosition()) && FirstPosition().nextFundingAt == 115200
  {
    assert QuantityFor(AllIn(), 100.0, 1.0) == 100.0 && MarginFor(AllIn(), 100.0) == 100.0 && NextFundingAfter(111600) == 115200;
    hide QuantityFor, MarginFor, NextFundingAfter;
  }

  lemma WatchingKeepsStake(p: Position, bar: Candle)
    requires Staked(p)
    ensures Staked(RecordExcursion(p, bar)) && RecordExcursion(p, bar).nextFundingAt == p.nextFundingAt
  {
  }

  lemma HeavySettlement(p: Position, cash: real)
    requires Staked(p) && p.nextFundingAt == 115200
    ensures var settled := SettleFunding(Booked(p, cash), Flat(31), RebateParams(), RebateInputs().funding);
            settled.cash == cash - 150.0 && Staked(settled.position)
  {
    assert FundingRate(115200, RebateParams(), RebateInputs().funding) == 150.0;
    assert FundingAmount(Long, 100.0, 1.0, 150.0) == -150.0;
    hide FundingRate, FundingAmount;
  }

  lemma NeverLiquidated(p: Position)
    requires Staked(p)
    ensures LiquidationOf(p, RebateParams()) == Some(0.0) && !Touched(Flat(31), 0.0, p.direction, false)
  {
  }

  lemma SecondMark(p: Position)
    requires p.remainingQty == 100.0 && p.originalQty == 100.0 && p.initialMargin == 100.0 && p.entryPrice == 1.0 && p.direction.Long?
    ensures MarksOf([p], 1.0, -100.0) == 100.0 && Reserved([p]) == 100.0
  {
    assert [p][..0] == [];
    assert MarkOf(p, 1.0, -100.0) == 100.0;
    assert ReservedBy(p) == 100.0;
    hide MarkOf, ReservedBy;
  }

  lemma SweepOfOne(cash: real, p: Position, bar: Candle, params: Params, funding: map<int, real>)
    requires Update(Booked(p, cash), bar, params, funding).closedBy.None?
    ensures var tick := Update(Booked(p, cash), bar, params, funding);
            SweepBook(cash, [p], bar, params, funding) == Sweep(tick.booked.cash, [tick.booked.position], [])
  {
    hide Update;
    assert [p][..0] == [];
  }

  lemma RebateIsTheMargin()
    ensures !RebateBelowMargin(1, RebateParams(), Taker)
  {
  }

  /** A run whose second accepted entry leaves 250 reserved against 200 of cash. */
  lemma RunEndsUncovered()
    ensures !RebateBelowMargin(1, RebateParams(), Taker)
    ensures var before, t := StateAfter(31), StateAfter(32);
            |before.open| == 1 && |t.open| == 2 && Reserved(t.open) == 250.0 && t.account.cash == 200.0
  {
    hide StateAfter, Update, Step, Decide, OpenTradeAt, NewPosition, FirstPosition, SweepBook, MarksOf, Reserved,
         ReservedBy, MarkExtremes, Settle;
    hide MarketEntry, RebateInputs, AlwaysIn, ViewAt, RebateBelowMargin, RebateParams, QuantityFor;
    var params, bar, funding := RebateParams(), Flat(31), RebateInputs().funding;
    RebateIsTheMargin();
    EntersAtOne(31);
    FirstEntry();
    SecondSettlement();
    OneStep(31);
    var s := StateAfter(31);
    var p := Update(Booked(FirstPosition(), 200.0), bar, params, funding).booked.position;
    SweepOfOne(200.0, FirstPosition(), bar, params, funding);
    SecondMark(p);
    QuietSettlement(s, bar, 50.0, [p], 100.0);
    var settled := Settle(MarkExtremes(s, bar, params), bar, params, funding);
    EnoughBarsAreVisible(bar.closeTime, [p]);
    AllInAt(bar, settled.account, [p]);
    var b := OpenTradeAt(AllIn(), 1.0, Taker, bar, params, settled.account, [p]).value;
    EnteringBar(s, settled, 31, bar, b);
    ReservedOfOneMore([p], b.position);
  }
}
