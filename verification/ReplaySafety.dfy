/** Limits every reachable state of a run respects: the book, the margin, the reported drawdown. */
module ReplaySafety {
  import opened Domain
  import opened Drawdown
  import opened Levels
  import opened OpenTrades
  import opened TradeLedger
  import opened FundingClock
  import opened Rounding
  import opened Replay
  import opened ReplayLedger

  // ---------- the book is never overfull ----------

  lemma {:induction false} SweepShrinks(cash: real, open: seq<Position>, candle: Candle, params: Params, funding: map<int, real>)
    ensures var s := SweepBook(cash, open, candle, params, funding);
            |s.survivors| + |s.closed| == |open|
    decreases |open|
  {
    if open != [] {
      hide Update;
      SweepShrinks(cash, open[..|open| - 1], candle, params, funding);
    }
  }

  lemma AdmitAddsOne(s: State, r: Option<Booked>, candle: Candle, params: Params)
    ensures |Admit(s, r, candle, params).open| <= |s.open| + 1
  {
    hide MarkToMarket;
  }

  lemma StepIsBounded(s: State, i: int, candle: Candle, inputs: Inputs, params: Params, policy: Policy)
    requires |s.open| <= MaxOpen(params)
    ensures |Step(s, i, candle, inputs, params, policy).open| <= MaxOpen(params)
  {
    hide SweepBook, MarkToMarket, RecordPoint, Admit, OpenTradeAt, Decide, ViewAt, RestingLimit, MarketEntry, Shifted,
         Fills, StepBars, MaxOpen;
    var marked := MarkExtremes(s, candle, params);
    SweepShrinks(marked.account.cash, marked.open, candle, params, inputs.funding);
    var settled := Settle(marked, candle, params, inputs.funding);
    assert |settled.open| <= |s.open|;
    if settled.pending.Some? {
      AdmitAddsOne(settled, OpenTradeAt(Shifted(settled.pending.value), settled.pending.value.limit, Maker, candle, params, settled.account, settled.open), candle, params);
    }
    var filled := FillPending(settled, i, candle, params);
    assert |filled.open| <= MaxOpen(params);
    var counted := filled.(lastSignalIndex := i, analysisPoints := filled.analysisPoints + 1);
    var decision := Decide(policy, ViewAt(inputs, candle.closeTime, filled.open, params), params.timeframe);
    if decision.Some? {
      AdmitAddsOne(counted, OpenTradeAt(decision.value, MarketEntry(decision.value, candle, params), Taker, candle, params, counted.account, counted.open), candle, params);
    }
    hide Settle, MarkExtremes, FillPending;
  }

  /** No reachable state holds more positions than the run allows. */
  lemma {:induction false} BookIsBounded(n: nat, inputs: Inputs, params: Params, policy: Policy)
    requires n <= |SeriesOf(inputs.series, params.timeframe)|
    ensures |RunTo(n, inputs, params, policy).open| <= MaxOpen(params)
    ensures |RunTo(n, inputs, params, policy).open| <= if params.maxOpenPositions >= 1 then params.maxOpenPositions else 1
  {
    hide Step;
    if n > MIN_CANDLES {
      BookIsBounded(n - 1, inputs, params, policy);
      StepIsBounded(RunTo(n - 1, inputs, params, policy), n - 1,
                    SeriesOf(inputs.series, params.timeframe)[n - 1], inputs, params, policy);
    }
  }

  // ---------- an accepted entry is covered by cash ----------

  lemma ReservedOfOneMore(open: seq<Position>, p: Position)
    ensures Reserved(open + [p]) == Reserved(open) + ReservedBy(p)
  {
    assert (open + [p])[..|open|] == open;
  }

  lemma ReservedByFull(p: Position)
    requires p.remainingQty == p.originalQty
    ensures ReservedBy(p) == p.initialMargin
  {
  }

  /** What the open positions tie up is covered by the cash. */
  predicate Covered(cash: real, open: seq<Position>) {
    Reserved(open) <= cash
  }

  /** An entry moves the room between cash and reserved margin by exactly what it costs. */
  lemma EntryTakesItsCost(signal: Signal, entry: real, feeType: FeeType, candle: Candle, params: Params,
                          a: Account, open: seq<Position>)
    requires OpenTradeAt(signal, entry, feeType, candle, params, a, open).Some?
    ensures var b := OpenTradeAt(signal, entry, feeType, candle, params, a, open).value;
            b.cash - Reserved(open + [b.position]) == a.cash - Reserved(open) - EntryCost(signal, Equity(a), params, feeType)
  {
    hide QuantityFor, MarginFor, EntryFee, PlanExit, NextFundingAfter, ReservedBy, Reserved;
    var b := OpenTradeAt(signal, entry, feeType, candle, params, a, open).value;
    ReservedOfOneMore(open, b.position);
    ReservedByFull(b.position);
  }

  /** Margin and fee. */
  function EntryCost(signal: Signal, capital: real, params: Params, feeType: FeeType): real {
    MarginFor(signal, capital) + EntryFee(signal, capital, params, feeType)
  }

  lemma PositiveMargin(signal: Signal, capital: real, entry: Positive)
    requires signal.leverage > 0 && QuantityFor(signal, capital, entry) > 0.0
    ensures MarginFor(signal, capital) > 0.0
  {
    var margin := MarginFor(signal, capital);
    assert QuantityFor(signal, capital, entry) * entry == margin * signal.leverage as real;
  }

  function FeeRate(params: Params, feeType: FeeType): real {
    if feeType.Maker? then params.makerFeePct else params.takerFeePct
  }

  /** A rebate, if the rate is one, is smaller than the margin of an entry at this leverage. */
  predicate RebateBelowMargin(leverage: int, params: Params, feeType: FeeType) {
    CostFactor(leverage, params, feeType) > 0.0
  }

  /** What an entry costs in percent of its margin. */
  function CostFactor(leverage: int, params: Params, feeType: FeeType): real {
    100.0 + leverage as real * FeeRate(params, feeType)
  }

  lemma CostIsShareOfMargin(signal: Signal, capital: real, params: Params, feeType: FeeType)
    ensures EntryCost(signal, capital, params, feeType)
         == MarginFor(signal, capital) * CostFactor(signal.leverage, params, feeType) / 100.0
  {
    hide MarginFor;
    var margin, lev, rate := MarginFor(signal, capital), signal.leverage as real, FeeRate(params, feeType);
    assert margin * lev * rate == margin * (lev * rate);
  }

  lemma ProductIsPositive(x: real, y: real)
    requires x > 0.0
    ensures x * y / 100.0 > 0.0 <==> y > 0.0
  {
  }

  /** Leverage as the risk engine gives it, and no rebate that outweighs the margin. */
  ghost predicate SanePolicy(policy: Policy, params: Params) {
    forall view :: policy(view).Some? ==> SaneSignal(policy(view).value, params)
  }

  predicate SaneSignal(signal: Signal, params: Params) {
    signal.leverage > 0 && RebateBelowMargin(signal.leverage, params, Maker) && RebateBelowMargin(signal.leverage, params, Taker)
  }

  /** Every fee the configuration accepts is sane at any leverage. */
  lemma FeesAreSane(signal: Signal, params: Params)
    requires signal.leverage > 0 && params.makerFeePct >= 0.0 && params.takerFeePct >= 0.0
    ensures SaneSignal(signal, params)
  {
    var lev := signal.leverage as real;
    assert lev * params.makerFeePct >= 0.0 && lev * params.takerFeePct >= 0.0;
  }

  lemma SaneEntryIsCovered(signal: Signal, entry: real, feeType: FeeType, candle: Candle, params: Params,
                           a: Account, open: seq<Position>)
    requires signal.leverage > 0 && RebateBelowMargin(signal.leverage, params, feeType)
    ensures var r := OpenTradeAt(signal, entry, feeType, candle, params, a, open);
            r.Some? ==> Covered(r.value.cash, open + [r.value.position])
  {
    hide QuantityFor, MarginFor, EntryFee, PlanExit, NextFundingAfter, ReservedBy, Reserved, NewPosition, Equity;
    var r := OpenTradeAt(signal, entry, feeType, candle, params, a, open);
    if r.Some? {
      EntryTakesItsCost(signal, entry, feeType, candle, params, a, open);
      PositiveMargin(signal, Equity(a), entry);
      CostIsShareOfMargin(signal, Equity(a), params, feeType);
      hide CostFactor;
      ProductIsPositive(MarginFor(signal, Equity(a)), CostFactor(signal.leverage, params, feeType));
    }
  }

  /** The resting entry of a state came from a sane signal, too. */
  ghost predicate SanePending(s: State, params: Params) {
    s.pending.Some? ==> SaneSignal(s.pending.value.signal, params)
  }

  lemma ShiftedKeepsLeverage(pending: Pending)
    ensures Shifted(pending).leverage == pending.signal.leverage
  {
  }

  lemma SignalIsSane(signal: Signal, original: Signal, params: Params)
    requires SaneSignal(original, params) && signal.leverage == original.leverage
    ensures signal.leverage > 0
    ensures RebateBelowMargin(signal.leverage, params, Maker) && RebateBelowMargin(signal.leverage, params, Taker)
  {
  }

  /** A bar that changes the book beyond what its exits left ends with all reserved margin covered. */
  lemma StepAdmitsCovered(s: State, i: int, candle: Candle, inputs: Inputs, params: Params, policy: Policy)
    requires SanePolicy(policy, params) && SanePending(s, params)
    ensures var t := Step(s, i, candle, inputs, params, policy);
            var exited := Settle(MarkExtremes(s, candle, params), candle, params, inputs.funding);
            && SanePending(t, params)
            && (candle.openTime >= params.dateFrom && t.open != exited.open ==> Covered(t.account.cash, t.open))
  {
    hide SweepBook, MarkToMarket, OpenTradeAt, ViewAt, RestingLimit, MarketEntry, Shifted, Fills, StepBars, Covered,
         SaneSignal;
    if candle.openTime >= params.dateFrom {
      var exited := Settle(MarkExtremes(s, candle, params), candle, params, inputs.funding);
      if exited.pending.Some? {
        ShiftedKeepsLeverage(exited.pending.value);
        SignalIsSane(Shifted(exited.pending.value), exited.pending.value.signal, params);
        SaneEntryIsCovered(Shifted(exited.pending.value), exited.pending.value.limit, Maker, candle, params, exited.account, exited.open);
        MarkKeepsCash(exited, Shifted(exited.pending.value), exited.pending.value.limit, Maker, candle, params);
      }
      var filled := FillPending(exited, i, candle, params);
      assert filled.open != exited.open ==> Covered(filled.account.cash, filled.open);
      var counted := filled.(lastSignalIndex := i, analysisPoints := filled.analysisPoints + 1);
      var decision := Decide(policy, ViewAt(inputs, candle.closeTime, filled.open, params), params.timeframe);
      if decision.Some? {
        SignalIsSane(decision.value, decision.value, params);
        SaneEntryIsCovered(decision.value, MarketEntry(decision.value, candle, params), Taker, candle, params, counted.account, counted.open);
        MarkKeepsCash(counted, decision.value, MarketEntry(decision.value, candle, params), Taker, candle, params);
      }
      hide Settle, MarkExtremes;
    }
  }

  lemma MarkKeepsCash(s: State, signal: Signal, entry: real, feeType: FeeType, candle: Candle, params: Params)
    ensures var r := OpenTradeAt(signal, entry, feeType, candle, params, s.account, s.open);
            var t := Admit(s, r, candle, params);
            && (r.Some? ==> t.account.cash == r.value.cash && t.open == s.open + [r.value.position])
            && (r.None? ==> t == s)
            && t.pending == s.pending
  {
    hide OpenTradeAt, MarksOf;
  }

  /** In every reachable state right after an accepted entry the margin reserved by all open positions
      is at most the cash. */
  lemma {:induction false} RunAdmitsCovered(n: nat, inputs: Inputs, params: Params, policy: Policy)
    requires n <= |SeriesOf(inputs.series, params.timeframe)|
    requires SanePolicy(policy, params)
    ensures SanePending(RunTo(n, inputs, params, policy), params)
    ensures n > MIN_CANDLES ==>
              var candle := SeriesOf(inputs.series, params.timeframe)[n - 1];
              var exited := Settle(MarkExtremes(RunTo(n - 1, inputs, params, policy), candle, params), candle, params, inputs.funding);
              var t := RunTo(n, inputs, params, policy);
              candle.openTime >= params.dateFrom && t.open != exited.open ==> Covered(t.account.cash, t.open)
  {
    hide Step, SanePolicy, SaneSignal, Settle, MarkExtremes, Covered;
    if n > MIN_CANDLES {
      RunAdmitsCovered(n - 1, inputs, params, policy);
      StepAdmitsCovered(RunTo(n - 1, inputs, params, policy), n - 1,
                        SeriesOf(inputs.series, params.timeframe)[n - 1], inputs, params, policy);
    }
  }

  // ---------- drawdown over a whole run ----------

  /** The tracker has seen exactly the marks, and the curve shows some of them in order. */
  ghost predicate Tracked(a: Account, params: Params) {
    && a.drawdown == RecordAll(InitialCapital(params), a.marks)
    && Subsequence(Equities(a.curve), a.marks)
    && (a.marks != [] ==> a.lastEquity == a.marks[|a.marks| - 1])
  }

  function Equities(curve: seq<EquityPoint>): seq<real> {
    if curve == [] then [] else Equities(curve[..|curve| - 1]) + [curve[|curve| - 1].equity]
  }

  lemma MarkIsTracked(a: Account, price: real, open: seq<Position>, params: Params)
    requires Tracked(a, params)
    ensures Tracked(MarkToMarket(a, price, open, params.takerFeePct), params)
    ensures MarkToMarket(a, price, open, params.takerFeePct).marks != []
  {
    hide MarksOf;
    var equity := a.cash + MarksOf(open, price, params.takerFeePct);
    assert (a.marks + [equity])[..|a.marks|] == a.marks;
  }

  /** The close of a bar is both marked and drawn. */
  lemma CloseIsTracked(a: Account, price: real, open: seq<Position>, at: int, params: Params)
    requires Tracked(a, params)
    ensures Tracked(RecordPoint(MarkToMarket(a, price, open, params.takerFeePct), at), params)
  {
    hide MarksOf;
    MarkIsTracked(a, price, open, params);
    var m := MarkToMarket(a, price, open, params.takerFeePct);
    var r := RecordPoint(m, at);
    assert m.marks[..|a.marks|] == a.marks;
    assert r.curve[..|a.curve|] == a.curve;
    var equities := Equities(a.curve);
    assert Equities(r.curve) == equities + [m.lastEquity];
    assert (equities + [m.lastEquity])[..|equities|] == equities;
  }

  lemma AdmitIsTracked(s: State, r: Option<Booked>, candle: Candle, params: Params)
    requires Tracked(s.account, params)
    ensures Tracked(Admit(s, r, candle, params).account, params)
  {
    hide MarkToMarket;
    if r.Some? {
      MarkIsTracked(s.account.(cash := r.value.cash), candle.close, s.open + [r.value.position], params);
    }
  }

  lemma StepIsTracked(s: State, i: int, candle: Candle, inputs: Inputs, params: Params, policy: Policy)
    requires Tracked(s.account, params)
    ensures Tracked(Step(s, i, candle, inputs, params, policy).account, params)
  {
    hide SweepBook, MarkToMarket, RecordPoint, Admit, OpenTradeAt, Decide, ViewAt, RestingLimit, MarketEntry, Shifted,
         Fills, StepBars, Subsequence, Equities, RecordAll;
    MarkIsTracked(s.account, candle.low, s.open, params);
    MarkIsTracked(MarkToMarket(s.account, candle.low, s.open, params.takerFeePct), candle.high, s.open, params);
    var marked := MarkExtremes(s, candle, params);
    var sweep := SweepBook(marked.account.cash, marked.open, candle, params, inputs.funding);
    CloseIsTracked(marked.account.(cash := sweep.cash), candle.close, sweep.survivors, candle.closeTime, params);
    var settled := Settle(marked, candle, params, inputs.funding);
    assert Tracked(settled.account, params);
    if settled.pending.Some? {
      AdmitIsTracked(settled, OpenTradeAt(Shifted(settled.pending.value), settled.pending.value.limit, Maker, candle, params, settled.account, settled.open), candle, params);
    }
    var filled := FillPending(settled, i, candle, params);
    assert Tracked(filled.account, params);
    var counted := filled.(lastSignalIndex := i, analysisPoints := filled.analysisPoints + 1);
    var decision := Decide(policy, ViewAt(inputs, candle.closeTime, filled.open, params), params.timeframe);
    if decision.Some? {
      AdmitIsTracked(counted, OpenTradeAt(decision.value, MarketEntry(decision.value, candle, params), Taker, candle, params, counted.account, counted.open), candle, params);
    }
    hide Settle, MarkExtremes, FillPending, Tracked;
  }

  lemma {:induction false} RunIsTracked(n: nat, inputs: Inputs, params: Params, policy: Policy)
    requires n <= |SeriesOf(inputs.series, params.timeframe)|
    ensures Tracked(RunTo(n, inputs, params, policy).account, params)
  {
    hide Step;
    if n > MIN_CANDLES {
      RunIsTracked(n - 1, inputs, params, policy);
      StepIsTracked(RunTo(n - 1, inputs, params, policy), n - 1,
                    SeriesOf(inputs.series, params.timeframe)[n - 1], inputs, params, policy);
    }
  }

  /** The drawdown a finished run reports is the largest loss from a running peak over all its marks,
      and never below the drawdown of the close-only curve while the marks are not negative. */
  lemma ReportedDrawdown(inputs: Inputs, params: Params, policy: Policy)
    ensures var a := Run(inputs, params, policy).account;
            var initial := InitialCapital(params);
            && Attained(initial, a.marks, a.drawdown.maxPct)
            && Bounding(initial, a.marks, a.drawdown.maxPct)
            && ((forall e :: e in a.marks ==> e >= 0.0)
                ==> RecordAll(initial, Equities(a.curve)).maxPct <= a.drawdown.maxPct)
  {
    hide RunTo, CloseBook, MarkToMarket, RecordPoint, Subsequence, Equities, RecordAll, Attained, Bounding;
    var candles := SeriesOf(inputs.series, params.timeframe);
    var s := RunTo(|candles|, inputs, params, policy);
    var initial := InitialCapital(params);
    RunIsTracked(|candles|, inputs, params, policy);
    if s.open != [] && candles != [] {
      var last := candles[|candles| - 1];
      var sweep := CloseBook(s.account.cash, s.open, last, params, inputs.funding);
      CloseIsTracked(s.account.(cash := sweep.cash), last.close, [], last.closeTime, params);
    }
    var a := Run(inputs, params, policy).account;
    assert Tracked(a, params);
    RecordAllIsPeakDrawdown(initial, a.marks);
    if forall e :: e in a.marks ==> e >= 0.0 {
      MoreMarksRaiseDrawdown(initial, Equities(a.curve), a.marks);
    }
  }

  // ---------- what the marks are worth ----------

  /** What crossing the spread takes off a closing position, the fee on the difference included. */
  function SlippagePaid(p: Position, price: real, params: Params): real {
    price * p.remainingQty * (params.slippagePct / 100.0) * (1.0 - p.direction.Sign() * params.takerFeePct / 100.0)
  }

  /** The funding a position still owes or is owed at the close of a bar. */
  function FundingOwed(p: Position, candle: Candle, params: Params, funding: map<int, real>): real {
    FundingAmount(p.direction, p.remainingQty, candle.open, RateSum(Due(p.nextFundingAt, candle.closeTime), params, funding))
  }

  /** Slippage and funding of a whole book: what closing it costs beyond its marks. */
  function ClosingCosts(open: seq<Position>, candle: Candle, params: Params, funding: map<int, real>): real {
    if open == [] then 0.0
    else
      var p := open[|open| - 1];
      ClosingCosts(open[..|open| - 1], candle, params, funding)
      + SlippagePaid(p, candle.close, params) - FundingOwed(p, candle, params, funding)
  }

  /** An exit of everything at a price is worth its mark there less the slippage. */
  lemma ExitAtMark(p: Position, cash: real, candle: Candle, params: Params)
    requires Live(p)
    ensures ExecuteExit(Booked(p, cash), candle.close, 100.0, candle.closeTime, params, Taker, END_OF_PERIOD).cash
            == cash + MarkOf(p, candle.close, params.takerFeePct) - SlippagePaid(p, candle.close, params)
  {
    hide MarkOf, SlippagePaid, Slipped, GrossOn, Notional, FeeFor, SharePct, Round10;
    assert ExitQuantity(p, 100.0) == p.remainingQty;
    SlippedMark(p, candle.close, params);
  }

  lemma SlippedMark(p: Position, price: real, params: Params)
    ensures var exit := Slipped(p.direction, price, params, Taker);
            GrossOn(p.direction, p.entryPrice, exit, p.remainingQty) - FeeFor(Notional(exit, p.remainingQty), params, Taker)
            == MarkOf(p, price, params.takerFeePct) - SlippagePaid(p, price, params)
  {
    var s, q, fee, slip := p.direction.Sign(), p.remainingQty, params.takerFeePct, params.slippagePct / 100.0;
    var lost := price * (s * slip);
    var exit := price - lost;
    assert Slipped(p.direction, price, params, Taker) == exit;
    assert (exit - p.entryPrice) * q * s == (price - p.entryPrice) * q * s - lost * q * s;
    assert exit * q * fee / 100.0 == price * q * fee / 100.0 - lost * q * fee / 100.0;
    SlippageTerms(price, q, slip, fee, p.direction);
  }

  lemma SlippageTerms(price: real, q: real, slip: real, fee: real, direction: Direction)
    ensures var s := direction.Sign();
            price * (s * slip) * q * s - price * (s * slip) * q * fee / 100.0 == price * q * slip * (1.0 - s * fee / 100.0)
  {
    var x := price * q * slip;
    if direction.Long? {
      assert price * (1.0 * slip) * q == x;
    } else {
      assert price * (-1.0 * slip) * q == -x;
    }
  }

  lemma FundingReachesCash(b: Booked, candle: Candle, params: Params, funding: map<int, real>)
    requires Live(b.position)
    ensures var f := ApplyFunding(b, candle, params, funding);
            && f.cash == b.cash + FundingOwed(b.position, candle, params, funding)
            && Live(f.position) && SameExits(b.position, f.position)
  {
    hide ApplyFunding, FundingAmount, RateSum, Due, FundingTimes, Payable;
    ApplyFundingConserves(b, candle, params, funding);
    ApplyFundingBooksDue(b, candle, params, funding);
  }

  lemma SameMark(p: Position, q: Position, price: real, params: Params)
    requires SameExits(p, q)
    ensures MarkOf(q, price, params.takerFeePct) == MarkOf(p, price, params.takerFeePct)
    ensures SlippagePaid(q, price, params) == SlippagePaid(p, price, params)
  {
  }

  /** The equity mark is the cash that closing the whole book leaves, but for the slippage of closing it and
      the funding due by then. */
  lemma {:induction false} MarkIsClosingValue(cash: real, open: seq<Position>, candle: Candle, params: Params, funding: map<int, real>)
    requires BookIsLive(open)
    ensures CloseBook(cash, open, candle, params, funding).cash
            == cash + MarksOf(open, candle.close, params.takerFeePct) - ClosingCosts(open, candle, params, funding)
    decreases |open|
  {
    if open != [] {
      hide Live, ApplyFunding, ExecuteExit, MarkOf, SlippagePaid, FundingOwed, SameExits;
      var front, p := open[..|open| - 1], open[|open| - 1];
      assert p in open && forall q :: q in front ==> q in open;
      MarkIsClosingValue(cash, front, candle, params, funding);
      var b := Booked(p, CloseBook(cash, front, candle, params, funding).cash);
      FundingReachesCash(b, candle, params, funding);
      var funded := ApplyFunding(b, candle, params, funding);
      ExitAtMark(funded.position, funded.cash, candle, params);
      SameMark(p, funded.position, candle.close, params);
    }
  }
}
