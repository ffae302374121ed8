/** How the positions of whole runs were entered: on a signal, at the market or by a resting order that the bar
    reached in time. */
module EntryRuns {
  import opened Domain
  import opened Levels
  import opened OpenTrades
  import opened TradeLedger
  import opened Replay
  import opened ReplayLedger
  import opened BarExits
  import opened RunExits

  /** The policy gave this signal at the close of a bar, shown enough of what had closed by then. */
  ghost predicate Signalled(signal: Signal, i: nat, inputs: Inputs, params: Params, policy: Policy)
    requires i < |SeriesOf(inputs.series, params.timeframe)|
  {
    exists view: View ::
      && view.at == SeriesOf(inputs.series, params.timeframe)[i].closeTime
      && view.visible == VisibleAt(inputs.series, view.at, params.historyLimit) && view.market == MarketAt(inputs.benchmark, view.at)
      && |SeriesOf(view.visible, params.timeframe)| >= MIN_CANDLES && policy(view) == Some(signal)
  }

  /** A resting order stands on the cheaper side of the signal's reference, the asked share of its range away. */
  predicate RestsAt(signal: Signal, limit: real, params: Params) {
    && params.entryPullbackAtr > 0.0 && signal.atr > 0.0 && limit > 0.0
    && match signal.direction
       case Long => limit == signal.reference - params.entryPullbackAtr * signal.atr
       case Short => limit == signal.reference + params.entryPullbackAtr * signal.atr
  }

  /** How many bars an order rests: as many as asked, or three. */
  function Patience(params: Params): nat {
    if params.entryValidBars > 0 then params.entryValidBars else 3
  }

  ghost predicate Resting(pending: Pending, n: nat, inputs: Inputs, params: Params, policy: Policy)
    requires n <= |SeriesOf(inputs.series, params.timeframe)|
  {
    exists i: nat :: i < n && Signalled(pending.signal, i, inputs, params, policy) && RestsAt(pending.signal, pending.limit, params)
                     && pending.expiresAt == i + Patience(params)
  }

  /** Buying crosses the spread upwards, selling downwards. */
  predicate CrossedToOpen(direction: Direction, price: real, paid: real, params: Params) {
    match direction
    case Long => paid == price + price * (params.slippagePct / 100.0)
    case Short => paid == price - price * (params.slippagePct / 100.0)
  }

  /** The margin posted carries the notional, and the entry cost its share in fees. */
  ghost predicate OpenedOnTerms(p: Position, signal: Signal, bar: Candle, feePct: real) {
    && p.direction == signal.direction && p.leverage == signal.leverage && p.openedAt == bar.closeTime
    && p.originalQty * p.entryPrice == p.initialMargin * signal.leverage as real
    && p.executions != []
    && p.executions[0] == Execution(ENTRY, bar.closeTime, p.entryPrice, p.originalQty, 0.0, 0.0,
                                    PctOfNotional(p.initialMargin, signal.leverage as real, feePct), 0.0)
  }

  ghost predicate EnteredAtMarket(p: Position, signal: Signal, k: nat, inputs: Inputs, params: Params, policy: Policy)
    requires k < |SeriesOf(inputs.series, params.timeframe)|
  {
    var bar := SeriesOf(inputs.series, params.timeframe)[k];
    && Signalled(signal, k, inputs, params, policy) && !(params.entryPullbackAtr > 0.0 && signal.atr > 0.0)
    && CrossedToOpen(signal.direction, bar.close, p.entryPrice, params) && OpenedOnTerms(p, signal, bar, params.takerFeePct)
  }

  /** Filled at its limit, on a bar that reached it, some bars after the signal and no later than its patience. */
  ghost predicate EnteredByLimit(p: Position, signal: Signal, i: nat, k: nat, inputs: Inputs, params: Params, policy: Policy)
    requires k < |SeriesOf(inputs.series, params.timeframe)|
  {
    var bar := SeriesOf(inputs.series, params.timeframe)[k];
    && i < k <= i + Patience(params)
    && Signalled(signal, i, inputs, params, policy) && RestsAt(signal, p.entryPrice, params)
    && Hurts(signal.direction, bar, p.entryPrice) && OpenedOnTerms(p, signal, bar, params.makerFeePct)
  }

  ghost predicate EnteredOn(p: Position, signal: Signal, i: nat, k: nat, inputs: Inputs, params: Params, policy: Policy)
    requires k < |SeriesOf(inputs.series, params.timeframe)|
  {
    EnteredAtMarket(p, signal, k, inputs, params, policy) || EnteredByLimit(p, signal, i, k, inputs, params, policy)
  }

  ghost predicate Entered(p: Position, n: nat, inputs: Inputs, params: Params, policy: Policy)
    requires n <= |SeriesOf(inputs.series, params.timeframe)|
  {
    exists signal: Signal, i: nat, k: nat :: k < n && EnteredOn(p, signal, i, k, inputs, params, policy)
  }

  // ---------- one admission ----------

  /** What an accepted entry is opened on: its share of the equity as margin, all of it levered. */
  lemma EntryTerms(signal: Signal, entry: real, feeType: FeeType, candle: Candle, params: Params, a: Account, open: seq<Position>, feePct: real)
    requires feePct == if feeType.Maker? then params.makerFeePct else params.takerFeePct
    requires OpenTradeAt(signal, entry, feeType, candle, params, a, open).Some?
    ensures var b := OpenTradeAt(signal, entry, feeType, candle, params, a, open).value;
            var p, capital := b.position, if a.lastEquity > 0.0 then a.lastEquity else a.cash;
            && p.entryPrice == entry && p.initialMargin == capital * signal.allocationPct / 100.0
            && OpenedOnTerms(p, signal, candle, feePct)
            && b.cash == a.cash - p.executions[0].fee
            && p.initialMargin + p.executions[0].fee <= AvailableMargin(a.cash, open)
            && (params.exitMode.SignalLevels? ==> p.takeProfit == signal.takeProfit && p.stopLoss == signal.stopLoss)
            && (params.exitMode.TrailingAtr? ==>
                  && p.trailATR == signal.atr * (if params.trailingAtrMult > 0.0 then params.trailingAtrMult else 2.5)
                  && p.takeProfit == [] && |p.stopLoss| == 1 && p.stopLoss[0].closePct == 100.0
                  && p.stopLoss[0].price == (match p.direction case Long => entry - p.trailATR case Short => entry + p.trailATR))
  {
    hide AvailableMargin, LadderTargets, NextFundingAfter;
    var capital := Equity(a);
    QuantityMeans(signal, capital, entry);
    EntryFeeMeans(signal, capital, params, feeType, feePct);
    hide QuantityFor, EntryFee, PctOfNotional;
  }

  /** A levered margin that buys anything. */
  predicate Buys(margin: real, leverage: real) {
    margin * leverage > 0.0
  }

  /** An entry is refused without a price, a share or a quantity, when its mode cannot trail, and when its margin
      and fee exceed the cash less the margins tied up, pro rata to what is still open; and only then. */
  lemma EntryIsRefused(signal: Signal, entry: real, feeType: FeeType, candle: Candle, params: Params, a: Account, open: seq<Position>,
                       feePct: real, capital: real, margin: real)
    requires feePct == if feeType.Maker? then params.makerFeePct else params.takerFeePct
    requires capital == if a.lastEquity > 0.0 then a.lastEquity else a.cash
    requires margin == capital * signal.allocationPct / 100.0
    ensures var leverage, room := signal.leverage as real, a.cash - TiedUp(open);
            OpenTradeAt(signal, entry, feeType, candle, params, a, open).None?
            <==> || entry <= 0.0 || signal.allocationPct <= 0.0 || !Buys(margin, leverage)
                 || (params.exitMode.TrailingAtr? && signal.atr <= 0.0)
                 || margin + PctOfNotional(margin, leverage, feePct) > (if room > 0.0 then room else 0.0)
  {
    hide OpenTradeAt, QuantityFor, EntryFee, PctOfNotional, Reserved, TiedUp, Buys;
    RefusedByStep(signal, entry, feeType, candle, params, a, open);
    ReservedIsTiedUp(open);
    EntryFeeMeans(signal, capital, params, feeType, feePct);
    if entry > 0.0 {
      QuantityHasSign(signal, capital, entry);
    }
  }

  lemma RefusedByStep(signal: Signal, entry: real, feeType: FeeType, candle: Candle, params: Params, a: Account, open: seq<Position>)
    ensures OpenTradeAt(signal, entry, feeType, candle, params, a, open).None?
       <==> || entry <= 0.0 || signal.allocationPct <= 0.0 || signal.leverage == 0 || QuantityFor(signal, Equity(a), entry) <= 0.0
            || (params.exitMode.TrailingAtr? && signal.atr <= 0.0)
            || MarginFor(signal, Equity(a)) + EntryFee(signal, Equity(a), params, feeType) > AvailableMargin(a.cash, open)
  {
    hide QuantityFor, EntryFee, MarginFor, AvailableMargin, LadderTargets, NewPosition, Equity;
  }

  lemma QuantityHasSign(signal: Signal, capital: real, entry: real)
    requires entry > 0.0
    ensures QuantityFor(signal, capital, entry) <= 0.0 <==> !Buys(MarginFor(signal, capital), signal.leverage as real)
    ensures signal.leverage == 0 ==> QuantityFor(signal, capital, entry) <= 0.0
  {
    QuantityMeans(signal, capital, entry);
    QuotientSign(MarginFor(signal, capital) * signal.leverage as real, entry, QuantityFor(signal, capital, entry));
  }

  lemma QuotientSign(x: real, p: real, q: real)
    requires p > 0.0 && q * p == x
    ensures x <= 0.0 <==> q <= 0.0
  {
    assert q > 0.0 ==> q * p > 0.0;
    assert q <= 0.0 ==> q * p <= 0.0;
  }

  /** The margins of open positions, each pro rata to what is left of it. */
  function TiedUp(open: seq<Position>): real {
    if open == [] then 0.0
    else
      var p := open[|open| - 1];
      TiedUp(open[..|open| - 1]) + p.initialMargin * (p.remainingQty / p.originalQty)
  }

  lemma {:induction false} ReservedIsTiedUp(open: seq<Position>)
    ensures Reserved(open) == TiedUp(open)
  {
    if open != [] {
      ReservedIsTiedUp(open[..|open| - 1]);
      var p := open[|open| - 1];
      assert p.initialMargin * p.remainingQty / p.originalQty == p.initialMargin * (p.remainingQty / p.originalQty);
    }
  }

  lemma QuantityMeans(signal: Signal, capital: real, entry: real)
    requires entry > 0.0
    ensures QuantityFor(signal, capital, entry) * entry == MarginFor(signal, capital) * signal.leverage as real
  {
    var notional := MarginFor(signal, capital) * signal.leverage as real;
    assert notional / entry * entry == notional;
  }

  lemma EntryFeeMeans(signal: Signal, capital: real, params: Params, feeType: FeeType, feePct: real)
    requires feePct == if feeType.Maker? then params.makerFeePct else params.takerFeePct
    ensures EntryFee(signal, capital, params, feeType) == PctOfNotional(MarginFor(signal, capital), signal.leverage as real, feePct)
  {
    hide MarginFor;
  }

  lemma MarketEntryCrosses(signal: Signal, candle: Candle, params: Params)
    ensures CrossedToOpen(signal.direction, candle.close, MarketEntry(signal, candle, params), params)
  {
    var slip := params.slippagePct / 100.0;
    assert candle.close * (1.0 + slip) == candle.close + candle.close * slip;
    assert candle.close * (1.0 - slip) == candle.close - candle.close * slip;
  }

  lemma LimitRests(signal: Signal, params: Params)
    requires params.entryPullbackAtr > 0.0 && signal.atr > 0.0 && RestingLimit(signal, params) > 0.0
    ensures RestsAt(signal, RestingLimit(signal, params), params)
    ensures params.entryPullbackAtr * signal.atr > 0.0
  {
  }

  /** A limit is paid even when the whole bar was better: it is a price the bar traded exactly when the bar did not
      open and stay beyond it. */
  lemma LimitWasTraded(pending: Pending, candle: Candle)
    requires Fills(pending, candle)
    ensures candle.low <= pending.limit <= candle.high
       <==> if pending.signal.direction.Long? then pending.limit <= candle.high else candle.low <= pending.limit
  {
  }

  // ---------- whole runs ----------

  ghost predicate BookEntered(open: seq<Position>, n: nat, inputs: Inputs, params: Params, policy: Policy)
    requires n <= |SeriesOf(inputs.series, params.timeframe)|
  {
    forall p :: p in open ==> Live(p) && Entered(p, n, inputs, params, policy)
  }

  ghost predicate ClosedEntered(closed: seq<Closing>, n: nat, inputs: Inputs, params: Params, policy: Policy)
    requires n <= |SeriesOf(inputs.series, params.timeframe)|
  {
    forall c :: c in closed ==> Entered(c.position, n, inputs, params, policy)
  }

  ghost predicate AllEntered(s: State, n: nat, inputs: Inputs, params: Params, policy: Policy)
    requires n <= |SeriesOf(inputs.series, params.timeframe)|
  {
    && BookEntered(s.open, n, inputs, params, policy) && ClosedEntered(s.closed, n, inputs, params, policy)
    && (s.pending.Some? ==> Resting(s.pending.value, n, inputs, params, policy))
  }

  lemma EnteredStays(p: Position, q: Position, n: nat, inputs: Inputs, params: Params, policy: Policy)
    requires n <= |SeriesOf(inputs.series, params.timeframe)| && Entered(p, n, inputs, params, policy)
    requires SameTrade(p, q) && p.executions <= q.executions
    ensures Entered(q, n, inputs, params, policy)
  {
    hide Signalled, PctOfNotional, SeriesOf;
    var signal: Signal, i: nat, k: nat :| k < n && EnteredOn(p, signal, i, k, inputs, params, policy);
    assert EnteredOn(q, signal, i, k, inputs, params, policy);
  }

  lemma EnteredLater(p: Position, n: nat, inputs: Inputs, params: Params, policy: Policy)
    requires n < |SeriesOf(inputs.series, params.timeframe)| && Entered(p, n, inputs, params, policy)
    ensures Entered(p, n + 1, inputs, params, policy)
  {
    hide EnteredOn, SeriesOf;
  }

  lemma RestingLater(pending: Pending, n: nat, inputs: Inputs, params: Params, policy: Policy)
    requires n < |SeriesOf(inputs.series, params.timeframe)| && Resting(pending, n, inputs, params, policy)
    ensures Resting(pending, n + 1, inputs, params, policy)
  {
    hide Signalled, SeriesOf;
  }

  lemma AllLater(s: State, n: nat, inputs: Inputs, params: Params, policy: Policy)
    requires n < |SeriesOf(inputs.series, params.timeframe)| && AllEntered(s, n, inputs, params, policy)
    ensures AllEntered(s, n + 1, inputs, params, policy)
  {
    hide Entered, Resting, SeriesOf, Live;
    forall p | p in s.open
      ensures Entered(p, n + 1, inputs, params, policy)
    {
      EnteredLater(p, n, inputs, params, policy);
    }
    forall c | c in s.closed
      ensures Entered(c.position, n + 1, inputs, params, policy)
    {
      EnteredLater(c.position, n, inputs, params, policy);
    }
    if s.pending.Some? {
      RestingLater(s.pending.value, n, inputs, params, policy);
    }
  }

  lemma BarKeepsEntered(b: Booked, candle: Candle, n: nat, inputs: Inputs, params: Params, policy: Policy)
    requires n <= |SeriesOf(inputs.series, params.timeframe)| && Live(b.position) && Entered(b.position, n, inputs, params, policy)
    ensures var t := Update(b, candle, params, inputs.funding);
            Entered(t.booked.position, n, inputs, params, policy) && (t.closedBy.None? ==> Live(t.booked.position))
  {
    hide Update, Entered, Sound, Explained, SeriesOf;
    UpdateConserves(b, candle, params, inputs.funding);
    BarIsExplained(b, candle, params, inputs.funding);
    EnteredStays(b.position, Update(b, candle, params, inputs.funding).booked.position, n, inputs, params, policy);
  }

  lemma {:induction false} SweepKeepsEntered(cash: real, open: seq<Position>, candle: Candle, n: nat, inputs: Inputs, params: Params, policy: Policy)
    requires n <= |SeriesOf(inputs.series, params.timeframe)| && BookEntered(open, n, inputs, params, policy)
    ensures var s := SweepBook(cash, open, candle, params, inputs.funding);
            BookEntered(s.survivors, n, inputs, params, policy) && ClosedEntered(s.closed, n, inputs, params, policy)
    decreases |open|
  {
    hide Update, Entered, Live, SeriesOf;
    if open != [] {
      var front, p := open[..|open| - 1], open[|open| - 1];
      assert p in open && forall q :: q in front ==> q in open;
      SweepKeepsEntered(cash, front, candle, n, inputs, params, policy);
      BarKeepsEntered(Booked(p, SweepBook(cash, front, candle, params, inputs.funding).cash), candle, n, inputs, params, policy);
    }
  }

  lemma {:induction false} CloseKeepsEntered(cash: real, open: seq<Position>, last: Candle, n: nat, inputs: Inputs, params: Params, policy: Policy)
    requires n <= |SeriesOf(inputs.series, params.timeframe)| && BookEntered(open, n, inputs, params, policy)
    ensures ClosedEntered(CloseBook(cash, open, last, params, inputs.funding).closed, n, inputs, params, policy)
    decreases |open|
  {
    hide ForceClose, Entered, Live, SeriesOf;
    if open != [] {
      var front, p := open[..|open| - 1], open[|open| - 1];
      assert p in open && forall q :: q in front ==> q in open;
      CloseKeepsEntered(cash, front, last, n, inputs, params, policy);
      ForcedCloseKeepsEntered(Booked(p, CloseBook(cash, front, last, params, inputs.funding).cash), last, n, inputs, params, policy);
    }
  }

  lemma ForcedCloseKeepsEntered(b: Booked, last: Candle, n: nat, inputs: Inputs, params: Params, policy: Policy)
    requires n <= |SeriesOf(inputs.series, params.timeframe)| && Live(b.position) && Entered(b.position, n, inputs, params, policy)
    ensures Entered(ForceClose(b, last, params, inputs.funding, END_OF_PERIOD).position, n, inputs, params, policy)
  {
    hide ForceClose, Entered, Sound, ByTheEnd, SeriesOf;
    ForceCloseConserves(b, last, params, inputs.funding, END_OF_PERIOD);
    ForcedCloseIsExplained(b, last, params, inputs.funding);
    EnteredStays(b.position, ForceClose(b, last, params, inputs.funding, END_OF_PERIOD).position, n, inputs, params, policy);
  }

  lemma AdmittedByLimit(s: State, pending: Pending, n: nat, inputs: Inputs, params: Params, policy: Policy)
    requires n < |SeriesOf(inputs.series, params.timeframe)| && Resting(pending, n, inputs, params, policy)
    requires n <= pending.expiresAt && Fills(pending, SeriesOf(inputs.series, params.timeframe)[n])
    ensures var r := OpenTradeAt(Shifted(pending), pending.limit, Maker, SeriesOf(inputs.series, params.timeframe)[n], params, s.account, s.open);
            r.Some? ==> Live(r.value.position) && Entered(r.value.position, n + 1, inputs, params, policy)
  {
    hide OpenTradeAt, Signalled, PctOfNotional, SeriesOf, AvailableMargin;
    var candle := SeriesOf(inputs.series, params.timeframe)[n];
    var r := OpenTradeAt(Shifted(pending), pending.limit, Maker, candle, params, s.account, s.open);
    AdmittedIsFresh(Shifted(pending), pending.limit, Maker, candle, params, s.account, s.open);
    if r.Some? {
      EntryTerms(Shifted(pending), pending.limit, Maker, candle, params, s.account, s.open, params.makerFeePct);
      var i: nat :| i < n && Signalled(pending.signal, i, inputs, params, policy) && RestsAt(pending.signal, pending.limit, params)
                    && pending.expiresAt == i + Patience(params);
      ShiftedKeepsDistances(pending);
      hide Shifted;
      assert EnteredByLimit(r.value.position, pending.signal, i, n, inputs, params, policy);
      assert EnteredOn(r.value.position, pending.signal, i, n, inputs, params, policy);
    }
  }

  lemma AdmittedAtMarket(s: State, signal: Signal, n: nat, inputs: Inputs, params: Params, policy: Policy)
    requires n < |SeriesOf(inputs.series, params.timeframe)| && Signalled(signal, n, inputs, params, policy)
    requires !(params.entryPullbackAtr > 0.0 && signal.atr > 0.0)
    ensures var candle := SeriesOf(inputs.series, params.timeframe)[n];
            var r := OpenTradeAt(signal, MarketEntry(signal, candle, params), Taker, candle, params, s.account, s.open);
            r.Some? ==> Live(r.value.position) && Entered(r.value.position, n + 1, inputs, params, policy)
  {
    hide OpenTradeAt, Signalled, PctOfNotional, SeriesOf, AvailableMargin, MarketEntry, CrossedToOpen;
    var candle := SeriesOf(inputs.series, params.timeframe)[n];
    var entry := MarketEntry(signal, candle, params);
    var r := OpenTradeAt(signal, entry, Taker, candle, params, s.account, s.open);
    AdmittedIsFresh(signal, entry, Taker, candle, params, s.account, s.open);
    MarketEntryCrosses(signal, candle, params);
    if r.Some? {
      EntryTerms(signal, entry, Taker, candle, params, s.account, s.open, params.takerFeePct);
      assert EnteredAtMarket(r.value.position, signal, n, inputs, params, policy);
      assert EnteredOn(r.value.position, signal, 0, n, inputs, params, policy);
    }
  }

  lemma AdmitKeepsEntered(s: State, r: Option<Booked>, n: nat, inputs: Inputs, params: Params, policy: Policy)
    requires n < |SeriesOf(inputs.series, params.timeframe)| && AllEntered(s, n + 1, inputs, params, policy)
    requires r.Some? ==> Live(r.value.position) && Entered(r.value.position, n + 1, inputs, params, policy)
    ensures AllEntered(Admit(s, r, SeriesOf(inputs.series, params.timeframe)[n], params), n + 1, inputs, params, policy)
  {
    hide Entered, Live, SeriesOf, MarkToMarket, Resting;
  }

  lemma FillKeepsEntered(s: State, n: nat, inputs: Inputs, params: Params, policy: Policy)
    requires n < |SeriesOf(inputs.series, params.timeframe)| && AllEntered(s, n + 1, inputs, params, policy)
    requires s.pending.Some? ==> Resting(s.pending.value, n, inputs, params, policy)
    ensures AllEntered(FillPending(s, n, SeriesOf(inputs.series, params.timeframe)[n], params), n + 1, inputs, params, policy)
  {
    hide Entered, Live, SeriesOf, MarkToMarket, Resting, OpenTradeAt, Fills, Shifted, Admit;
    var candle := SeriesOf(inputs.series, params.timeframe)[n];
    if s.pending.Some? {
      var pending := s.pending.value;
      if n <= pending.expiresAt && Fills(pending, candle) {
        var r := OpenTradeAt(Shifted(pending), pending.limit, Maker, candle, params, s.account, s.open);
        AdmittedByLimit(s, pending, n, inputs, params, policy);
        AdmitKeepsEntered(s, r, n, inputs, params, policy);
      }
    }
  }

  lemma ActKeepsEntered(s: State, signal: Signal, n: nat, inputs: Inputs, params: Params, policy: Policy)
    requires n < |SeriesOf(inputs.series, params.timeframe)| && AllEntered(s, n + 1, inputs, params, policy)
    requires Signalled(signal, n, inputs, params, policy)
    ensures AllEntered(Act(s, signal, n, SeriesOf(inputs.series, params.timeframe)[n], params), n + 1, inputs, params, policy)
  {
    hide Entered, Live, SeriesOf, OpenTradeAt, Admit, Signalled, MarketEntry, RestingLimit, RestsAt;
    var candle := SeriesOf(inputs.series, params.timeframe)[n];
    if params.entryPullbackAtr > 0.0 && signal.atr > 0.0 {
      if RestingLimit(signal, params) > 0.0 {
        LimitRests(signal, params);
        assert ValidBars(params) == Patience(params);
        assert Resting(Pending(signal, RestingLimit(signal, params), n + ValidBars(params)), n + 1, inputs, params, policy);
      }
    } else {
      AdmittedAtMarket(s, signal, n, inputs, params, policy);
      AdmitKeepsEntered(s, OpenTradeAt(signal, MarketEntry(signal, candle, params), Taker, candle, params, s.account, s.open), n, inputs, params, policy);
    }
  }

  lemma DecisionIsSignal(n: nat, open: seq<Position>, inputs: Inputs, params: Params, policy: Policy)
    requires n < |SeriesOf(inputs.series, params.timeframe)|
    ensures var candle := SeriesOf(inputs.series, params.timeframe)[n];
            var decision := Decide(policy, ViewAt(inputs, candle.closeTime, open, params), params.timeframe);
            decision.Some? ==> Signalled(decision.value, n, inputs, params, policy)
  {
    hide VisibleAt, MarketAt, SeriesOf;
    var view := ViewAt(inputs, SeriesOf(inputs.series, params.timeframe)[n].closeTime, open, params);
    assert view.visible == VisibleAt(inputs.series, view.at, params.historyLimit);
  }

  lemma SettleKeepsEntered(s: State, n: nat, inputs: Inputs, params: Params, policy: Policy)
    requires n < |SeriesOf(inputs.series, params.timeframe)| && AllEntered(s, n + 1, inputs, params, policy)
    ensures var candle := SeriesOf(inputs.series, params.timeframe)[n];
            var t := Settle(MarkExtremes(s, candle, params), candle, params, inputs.funding);
            AllEntered(t, n + 1, inputs, params, policy) && t.pending == s.pending
  {
    hide Entered, Live, SeriesOf, SweepBook, MarkToMarket, Resting;
    var candle := SeriesOf(inputs.series, params.timeframe)[n];
    var marked := MarkExtremes(s, candle, params);
    SweepKeepsEntered(marked.account.cash, marked.open, candle, n + 1, inputs, params, policy);
  }

  lemma AnalyseKeepsEntered(s: State, n: nat, inputs: Inputs, params: Params, policy: Policy)
    requires n < |SeriesOf(inputs.series, params.timeframe)| && AllEntered(s, n + 1, inputs, params, policy)
    ensures AllEntered(Analyse(s, n, SeriesOf(inputs.series, params.timeframe)[n], inputs, params, policy), n + 1, inputs, params, policy)
  {
    hide BookEntered, ClosedEntered, SeriesOf, Resting, Act, Decide, ViewAt, Signalled, StepBars, MaxOpen;
    var candle := SeriesOf(inputs.series, params.timeframe)[n];
    DecisionIsSignal(n, s.open, inputs, params, policy);
    var counted := s.(lastSignalIndex := n, analysisPoints := s.analysisPoints + 1);
    var decision := Decide(policy, ViewAt(inputs, candle.closeTime, s.open, params), params.timeframe);
    if decision.Some? {
      ActKeepsEntered(counted, decision.value, n, inputs, params, policy);
    }
  }

  lemma StepKeepsEntered(s: State, n: nat, inputs: Inputs, params: Params, policy: Policy)
    requires n < |SeriesOf(inputs.series, params.timeframe)| && AllEntered(s, n, inputs, params, policy)
    ensures AllEntered(Step(s, n, SeriesOf(inputs.series, params.timeframe)[n], inputs, params, policy), n + 1, inputs, params, policy)
  {
    hide AllEntered, Settle, MarkExtremes, FillPending, Analyse, SeriesOf;
    var candle := SeriesOf(inputs.series, params.timeframe)[n];
    AllLater(s, n, inputs, params, policy);
    PendingRests(s, n, inputs, params, policy);
    SettleKeepsEntered(s, n, inputs, params, policy);
    var settled := Settle(MarkExtremes(s, candle, params), candle, params, inputs.funding);
    FillKeepsEntered(settled, n, inputs, params, policy);
    AnalyseKeepsEntered(FillPending(settled, n, candle, params), n, inputs, params, policy);
  }

  lemma PendingRests(s: State, n: nat, inputs: Inputs, params: Params, policy: Policy)
    requires n <= |SeriesOf(inputs.series, params.timeframe)| && AllEntered(s, n, inputs, params, policy)
    ensures s.pending.Some? ==> Resting(s.pending.value, n, inputs, params, policy)
  {
  }

  lemma {:induction false} RunToEntered(n: nat, inputs: Inputs, params: Params, policy: Policy)
    requires n <= |SeriesOf(inputs.series, params.timeframe)|
    ensures AllEntered(RunTo(n, inputs, params, policy), n, inputs, params, policy)
  {
    hide Step, Entered, Resting, Live;
    if n > MIN_CANDLES {
      RunToEntered(n - 1, inputs, params, policy);
      StepKeepsEntered(RunTo(n - 1, inputs, params, policy), n - 1, inputs, params, policy);
    }
  }

  /** Every trade of every run was entered on a signal the policy gave on what had closed: at the market at the
      signal's own close, crossing the spread against itself, or by an order resting on the cheaper side of the
      reference, filled at its limit within its patience on a bar that reached it. */
  lemma EveryTradeWasEntered(inputs: Inputs, params: Params, policy: Policy, c: Closing)
    requires c in Run(inputs, params, policy).closed
    ensures var candles := SeriesOf(inputs.series, params.timeframe);
            Entered(c.position, |candles|, inputs, params, policy)
  {
    hide Run, RunTo, CloseBook, Entered, BookEntered, SeriesOf, Resting;
    var candles := SeriesOf(inputs.series, params.timeframe);
    var s := RunTo(|candles|, inputs, params, policy);
    RunToEntered(|candles|, inputs, params, policy);
    ClosedInRun(inputs, params, policy, c);
    if c !in s.closed {
      CloseKeepsEntered(s.account.cash, s.open, candles[|candles| - 1], |candles|, inputs, params, policy);
    }
  }
}
