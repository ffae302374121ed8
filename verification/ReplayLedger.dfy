/** The cash of a whole run is the initial capital plus the result of every position, to the last unit. */
module ReplayLedger {
  import opened Domain
  import opened Rounding
  import opened Levels
  import opened OpenTrades
  import opened TradeLedger
  import opened Ride
  import opened Replay

  function NetOf(open: seq<Position>): real {
    if open == [] then 0.0 else NetOf(open[..|open| - 1]) + Net(open[|open| - 1])
  }

  function NetOfClosed(closed: seq<Closing>): real {
    if closed == [] then 0.0 else NetOfClosed(closed[..|closed| - 1]) + Net(closed[|closed| - 1].position)
  }

  lemma NetOfOneMore(open: seq<Position>, p: Position)
    ensures NetOf(open + [p]) == NetOf(open) + Net(p)
  {
    assert (open + [p])[..|open|] == open;
  }

  lemma {:induction false} NetOfClosedConcat(a: seq<Closing>, b: seq<Closing>)
    ensures NetOfClosed(a + b) == NetOfClosed(a) + NetOfClosed(b)
    decreases |b|
  {
    if b == [] {
      assert a + b == a;
    } else {
      assert (a + b)[..|a + b| - 1] == a + b[..|b| - 1];
      NetOfClosedConcat(a, b[..|b| - 1]);
    }
  }

  ghost predicate Live(p: Position) {
    Sound(p) && p.remainingQty > 0.0
  }

  ghost predicate Finished(p: Position) {
    Sound(p) && p.remainingQty == 0.0
  }

  ghost predicate BookIsLive(open: seq<Position>) {
    forall p :: p in open ==> Live(p)
  }

  ghost predicate AllFinished(closed: seq<Closing>) {
    forall c :: c in closed ==> Finished(c.position)
  }

  /** Cash holds the initial capital and the result so far of every position, closed or open. */
  ghost predicate Balanced(s: State, params: Params) {
    && BookIsLive(s.open) && AllFinished(s.closed)
    && s.account.cash == InitialCapital(params) + NetOfClosed(s.closed) + NetOf(s.open)
  }

  lemma {:induction false} SweepConserves(cash: real, open: seq<Position>, candle: Candle, params: Params, funding: map<int, real>)
    requires BookIsLive(open)
    ensures var s := SweepBook(cash, open, candle, params, funding);
            && BookIsLive(s.survivors) && AllFinished(s.closed)
            && s.cash - NetOf(s.survivors) - NetOfClosed(s.closed) == cash - NetOf(open)
    decreases |open|
  {
    if open != [] {
      hide Update, Sound, Net;
      var front, p := open[..|open| - 1], open[|open| - 1];
      assert p in open && forall q :: q in front ==> q in open;
      SweepConserves(cash, front, candle, params, funding);
      var s := SweepBook(cash, front, candle, params, funding);
      UpdateConserves(Booked(p, s.cash), candle, params, funding);
      var tick := Update(Booked(p, s.cash), candle, params, funding);
      NetOfOneMore(s.survivors, tick.booked.position);
      NetOfClosedConcat(s.closed, [Closing(tick.booked.position, "", 0)]);
      if tick.closedBy.Some? {
        var c := Closing(tick.booked.position, tick.closedBy.value, candle.closeTime);
        NetOfSingle(c);
        NetOfClosedConcat(s.closed, [c]);
      }
    }
  }

  lemma NetOfSingle(c: Closing)
    ensures NetOfClosed([c]) == Net(c.position)
  {
    assert [c][..0] == [];
  }

  /** A new position is fresh and its entry fee is all it has cost. */
  lemma AdmittedIsFresh(signal: Signal, entry: real, feeType: FeeType, candle: Candle, params: Params,
                        a: Account, open: seq<Position>)
    ensures var r := OpenTradeAt(signal, entry, feeType, candle, params, a, open);
            r.Some? ==>
              && Fresh(r.value.position) && Live(r.value.position)
              && r.value.position.openedAt == candle.closeTime
              && r.value.cash == a.cash + Net(r.value.position)
  {
    hide QuantityFor, MarginFor, EntryFee, PlanExit, AvailableMargin, NextFundingAfter;
  }

  lemma SettleBalances(s: State, candle: Candle, params: Params, funding: map<int, real>)
    requires Balanced(s, params)
    ensures Balanced(Settle(MarkExtremes(s, candle, params), candle, params, funding), params)
  {
    hide SweepBook, Sound, Net;
    SweepConserves(s.account.cash, s.open, candle, params, funding);
    var sweep := SweepBook(s.account.cash, s.open, candle, params, funding);
    NetOfClosedConcat(s.closed, sweep.closed);
  }

  lemma AdmitBalances(s: State, signal: Signal, entry: real, feeType: FeeType, candle: Candle, params: Params)
    requires Balanced(s, params)
    ensures Balanced(Admit(s, OpenTradeAt(signal, entry, feeType, candle, params, s.account, s.open), candle, params), params)
  {
    hide OpenTradeAt, Sound, Net, MarkOf;
    AdmittedIsFresh(signal, entry, feeType, candle, params, s.account, s.open);
    var r := OpenTradeAt(signal, entry, feeType, candle, params, s.account, s.open);
    if r.Some? {
      NetOfOneMore(s.open, r.value.position);
    }
  }

  lemma StepBalances(s: State, i: int, candle: Candle, inputs: Inputs, params: Params, policy: Policy)
    requires Balanced(s, params)
    ensures Balanced(Step(s, i, candle, inputs, params, policy), params)
  {
    hide Settle, MarkExtremes, Admit, OpenTradeAt, Fills, Shifted, Decide, ViewAt, RestingLimit, MarketEntry, NetOf,
         NetOfClosed, BookIsLive, AllFinished;
    var settled := Settle(MarkExtremes(s, candle, params), candle, params, inputs.funding);
    SettleBalances(s, candle, params, inputs.funding);
    if settled.pending.Some? {
      AdmitBalances(settled, Shifted(settled.pending.value), settled.pending.value.limit, Maker, candle, params);
    }
    var filled := FillPending(settled, i, candle, params);
    assert Balanced(filled, params);
    var counted := filled.(lastSignalIndex := i, analysisPoints := filled.analysisPoints + 1);
    var decision := Decide(policy, ViewAt(inputs, candle.closeTime, filled.open, params), params.timeframe);
    if decision.Some? {
      AdmitBalances(counted, decision.value, MarketEntry(decision.value, candle, params), Taker, candle, params);
    }
  }

  /** After every bar of every run the ledger balances. */
  lemma {:induction false} LedgerBalances(n: nat, inputs: Inputs, params: Params, policy: Policy)
    requires n <= |SeriesOf(inputs.series, params.timeframe)|
    ensures Balanced(RunTo(n, inputs, params, policy), params)
  {
    hide Step;
    if n > MIN_CANDLES {
      LedgerBalances(n - 1, inputs, params, policy);
      StepBalances(RunTo(n - 1, inputs, params, policy), n - 1, SeriesOf(inputs.series, params.timeframe)[n - 1],
                   inputs, params, policy);
    }
  }

  lemma {:induction false} CloseBookConserves(cash: real, open: seq<Position>, candle: Candle, params: Params, funding: map<int, real>)
    requires BookIsLive(open)
    ensures var s := CloseBook(cash, open, candle, params, funding);
            && s.survivors == [] && |s.closed| == |open| && AllFinished(s.closed)
            && s.cash - NetOfClosed(s.closed) == cash - NetOf(open)
    decreases |open|
  {
    if open != [] {
      hide ForceClose, Sound, Net;
      var front, p := open[..|open| - 1], open[|open| - 1];
      assert p in open && forall q :: q in front ==> q in open;
      CloseBookConserves(cash, front, candle, params, funding);
      var s := CloseBook(cash, front, candle, params, funding);
      ForceCloseConserves(Booked(p, s.cash), candle, params, funding, END_OF_PERIOD);
      var b := ForceClose(Booked(p, s.cash), candle, params, funding, END_OF_PERIOD);
      var c := Closing(b.position, END_OF_PERIOD, candle.closeTime);
      NetOfSingle(c);
      NetOfClosedConcat(s.closed, [c]);
    }
  }

  function NetOfTrades(trades: seq<Trade>): real {
    if trades == [] then 0.0 else NetOfTrades(trades[..|trades| - 1]) + trades[|trades| - 1].netPnL
  }

  /** Storing a trade rounds three amounts to ten places, so the stored results drift from the booked
      ones by at most three half units each. */
  lemma {:induction false} StoredResultsAreClose(closed: seq<Closing>)
    requires AllFinished(closed)
    ensures |Trades(closed)| == |closed|
    ensures -3.0 * HALF_ULP10 * |closed| as real
            <= NetOfTrades(Trades(closed)) - NetOfClosed(closed)
            <= 3.0 * HALF_ULP10 * |closed| as real
    decreases |closed|
  {
    if closed != [] {
      hide Finalize, Sound, Net;
      var front, last := closed[..|closed| - 1], closed[|closed| - 1];
      assert last in closed && forall c :: c in front ==> c in closed;
      StoredResultsAreClose(front);
      FinishedTrade(last.position, last.reason, last.at);
      assert Trades(closed)[..|front|] == Trades(front);
    }
  }

  /** At the end of a run no position is left, the cash is the initial capital plus every result, and
      it differs from what the stored trades add up to only by their rounding. */
  lemma FinalCash(inputs: Inputs, params: Params, policy: Policy)
    ensures var s := Run(inputs, params, policy);
            var trades := Trades(s.closed);
            && s.open == []
            && AllFinished(s.closed)
            && s.account.cash == InitialCapital(params) + NetOfClosed(s.closed)
            && |trades| == |s.closed|
            && -0.00000000015 * |trades| as real
               <= s.account.cash - InitialCapital(params) - NetOfTrades(trades)
               <= 0.00000000015 * |trades| as real
  {
    hide RunTo, CloseBook, Sound, Net, Trades;
    var candles := SeriesOf(inputs.series, params.timeframe);
    var s := RunTo(|candles|, inputs, params, policy);
    LedgerBalances(|candles|, inputs, params, policy);
    if s.open != [] {
      if candles == [] {
        NothingOpensBeforeWarmup(inputs, params, policy);
      } else {
        CloseBookConserves(s.account.cash, s.open, candles[|candles| - 1], params, inputs.funding);
        var sweep := CloseBook(s.account.cash, s.open, candles[|candles| - 1], params, inputs.funding);
        NetOfClosedConcat(s.closed, sweep.closed);
      }
    }
    StoredResultsAreClose(Run(inputs, params, policy).closed);
  }

  lemma NothingOpensBeforeWarmup(inputs: Inputs, params: Params, policy: Policy)
    ensures RunTo(0, inputs, params, policy).open == []
  {
  }
}
