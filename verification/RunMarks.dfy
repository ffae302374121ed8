/** What a run marks its account at, when it looks for an entry and what becomes of a resting one. */
module RunMarks {
  import opened Domain
  import opened Drawdown
  import opened Levels
  import opened OpenTrades
  import opened Replay
  import opened ReplaySafety
  import opened NoLookAhead

  // ---------- what a mark is ----------

  /** What an account would be worth at a price: its cash and what each open position would win there, less
      the taker's fee for closing it. */
  function WorthAt(cash: real, open: seq<Position>, price: real, takerFeePct: real): real {
    if open == [] then cash
    else
      var p := open[|open| - 1];
      WorthAt(cash, open[..|open| - 1], price, takerFeePct)
      + Won(p.direction, p.entryPrice, price, p.remainingQty) - PctOfNotional(price, p.remainingQty, takerFeePct)
  }

  lemma MarkMeans(p: Position, price: real, takerFeePct: real)
    ensures MarkOf(p, price, takerFeePct)
         == Won(p.direction, p.entryPrice, price, p.remainingQty) - PctOfNotional(price, p.remainingQty, takerFeePct)
  {
    assert (p.entryPrice - price) * p.remainingQty == -((price - p.entryPrice) * p.remainingQty);
  }

  lemma {:induction false} MarksAddUp(cash: real, open: seq<Position>, price: real, takerFeePct: real)
    ensures cash + MarksOf(open, price, takerFeePct) == WorthAt(cash, open, price, takerFeePct)
    decreases |open|
  {
    if open != [] {
      MarksAddUp(cash, open[..|open| - 1], price, takerFeePct);
      MarkMeans(open[|open| - 1], price, takerFeePct);
      hide MarkOf, Won, PctOfNotional;
    }
  }

  /** The account is marked at what it is worth at the price. */
  lemma MarkIsWorth(a: Account, price: real, open: seq<Position>, takerFeePct: real)
    ensures var worth, marked := WorthAt(a.cash, open, price, takerFeePct), MarkToMarket(a, price, open, takerFeePct);
            marked.lastEquity == worth && marked.marks == a.marks + [worth] && marked.cash == a.cash && marked.curve == a.curve
  {
    hide MarksOf, WorthAt, Record;
    MarksAddUp(a.cash, open, price, takerFeePct);
  }

  // ---------- what every bar marks ----------

  /** A bar that finds positions open marks the account at both its extremes before any of them changes, and
      every bar marks and draws it at its close, after its exits. */
  ghost predicate BarIsMarked(s: State, t: State, candle: Candle, params: Params, funding: map<int, real>) {
    var sweep := SweepBook(s.account.cash, s.open, candle, params, funding);
    var closing := WorthAt(sweep.cash, sweep.survivors, candle.close, params.takerFeePct);
    && (s.open != [] ==>
          && WorthAt(s.account.cash, s.open, candle.low, params.takerFeePct) in t.account.marks
          && WorthAt(s.account.cash, s.open, candle.high, params.takerFeePct) in t.account.marks)
    && closing in t.account.marks
    && t.account.curve == s.account.curve + [EquityPoint(candle.closeTime, closing)]
  }

  lemma SettledIsMarked(s: State, candle: Candle, params: Params, funding: map<int, real>)
    ensures BarIsMarked(s, Settle(MarkExtremes(s, candle, params), candle, params, funding), candle, params, funding)
  {
    hide SweepBook, MarkToMarket, WorthAt;
    var low := MarkToMarket(s.account, candle.low, s.open, params.takerFeePct);
    MarkIsWorth(s.account, candle.low, s.open, params.takerFeePct);
    MarkIsWorth(low, candle.high, s.open, params.takerFeePct);
    var marked := MarkExtremes(s, candle, params);
    assert marked.account.cash == s.account.cash && marked.open == s.open && marked.account.curve == s.account.curve;
    var sweep := SweepBook(s.account.cash, s.open, candle, params, funding);
    MarkIsWorth(marked.account.(cash := sweep.cash), candle.close, sweep.survivors, params.takerFeePct);
  }

  lemma MoreMarks(s: State, t: State, u: State, candle: Candle, params: Params, funding: map<int, real>)
    requires BarIsMarked(s, t, candle, params, funding)
    requires t.account.marks <= u.account.marks && t.account.curve == u.account.curve
    ensures BarIsMarked(s, u, candle, params, funding)
  {
    hide SweepBook, WorthAt;
  }

  lemma StepIsMarked(s: State, i: int, candle: Candle, inputs: Inputs, params: Params, policy: Policy)
    requires candle.openTime >= params.dateFrom
    ensures BarIsMarked(s, Step(s, i, candle, inputs, params, policy), candle, params, inputs.funding)
  {
    hide BarIsMarked, MarkToMarket, OpenTradeAt, Decide, ViewAt, RestingLimit, MarketEntry, Shifted, Fills, StepBars, SweepBook;
    SettledIsMarked(s, candle, params, inputs.funding);
    var settled := Settle(MarkExtremes(s, candle, params), candle, params, inputs.funding);
    hide Settle, MarkExtremes;
    var t := Step(s, i, candle, inputs, params, policy);
    FilledKeepsCurve(settled, i, candle, params);
    AnalysedKeepsCurve(FillPending(settled, i, candle, params), i, candle, inputs, params, policy);
    MoreMarks(s, settled, t, candle, params, inputs.funding);
  }

  lemma AdmittedKeepsCurve(s: State, entered: Option<Booked>, candle: Candle, params: Params)
    ensures var t := Admit(s, entered, candle, params); s.account.marks <= t.account.marks && t.account.curve == s.account.curve
  {
    hide MarksOf, Record;
  }

  lemma FilledKeepsCurve(s: State, i: int, candle: Candle, params: Params)
    ensures var t := FillPending(s, i, candle, params); s.account.marks <= t.account.marks && t.account.curve == s.account.curve
  {
    hide Admit, OpenTradeAt, Fills, Shifted;
    if s.pending.Some? {
      AdmittedKeepsCurve(s, OpenTradeAt(Shifted(s.pending.value), s.pending.value.limit, Maker, candle, params, s.account, s.open), candle, params);
    }
  }

  lemma AnalysedKeepsCurve(s: State, i: int, candle: Candle, inputs: Inputs, params: Params, policy: Policy)
    ensures var t := Analyse(s, i, candle, inputs, params, policy); s.account.marks <= t.account.marks && t.account.curve == s.account.curve
  {
    hide Admit, OpenTradeAt, Decide, ViewAt, RestingLimit, MarketEntry, StepBars;
    var counted := s.(lastSignalIndex := i, analysisPoints := s.analysisPoints + 1);
    var decision := Decide(policy, ViewAt(inputs, candle.closeTime, s.open, params), params.timeframe);
    if decision.Some? {
      var price := MarketEntry(decision.value, candle, params);
      AdmittedKeepsCurve(counted, OpenTradeAt(decision.value, price, Taker, candle, params, counted.account, counted.open), candle, params);
    }
  }

  /** The drawdown a finished run reports takes in both extremes of every bar that found positions open: what the
      account was worth there is among its marks, and no loss from an earlier peak to a mark exceeds the figure. */
  lemma ExtremesCountForDrawdown(i: nat, inputs: Inputs, params: Params, policy: Policy)
    requires MIN_CANDLES <= i < |SeriesOf(inputs.series, params.timeframe)|
    requires SeriesOf(inputs.series, params.timeframe)[i].openTime >= params.dateFrom
    ensures var bar := SeriesOf(inputs.series, params.timeframe)[i];
            var s, a := RunTo(i, inputs, params, policy), Run(inputs, params, policy).account;
            && Bounding(InitialCapital(params), a.marks, a.drawdown.maxPct)
            && (s.open != [] ==>
                  && WorthAt(s.account.cash, s.open, bar.low, params.takerFeePct) in a.marks
                  && WorthAt(s.account.cash, s.open, bar.high, params.takerFeePct) in a.marks)
  {
    hide Run, Step, WorthAt, SweepBook, Bounding;
    var candles := SeriesOf(inputs.series, params.timeframe);
    var s := RunTo(i, inputs, params, policy);
    assert RunTo(i + 1, inputs, params, policy) == Step(s, i, candles[i], inputs, params, policy);
    hide RunTo;
    StepIsMarked(s, i, candles[i], inputs, params, policy);
    HistoryOnlyGrows(i + 1, |candles|, inputs, params, policy);
    MarkKeepsCurve(inputs, params, policy);
    ReportedDrawdown(inputs, params, policy);
  }

  // ---------- when a run looks for an entry ----------

  /** Enough bars have passed for another analysis: as many as fit the interval, or one without a longer interval. */
  predicate Spaced(bars: int, params: Params) {
    match params.analysisInterval
    case Some(interval) =>
      if interval > params.barSeconds > 0 then bars * params.barSeconds > interval - params.barSeconds else bars >= 1
    case None => bars >= 1
  }

  lemma SpacingMeans(bars: int, params: Params)
    ensures bars >= StepBars(params) <==> Spaced(bars, params)
  {
    if params.analysisInterval.Some? && params.analysisInterval.value > params.barSeconds > 0 {
      WholeBars(bars, params.analysisInterval.value, params.barSeconds);
    }
  }

  lemma WholeBars(bars: int, interval: int, seconds: int)
    requires seconds > 0
    ensures bars >= interval / seconds <==> bars * seconds > interval - seconds
  {
    var n := interval / seconds;
    assert n * seconds <= interval < n * seconds + seconds;
    if bars >= n {
      assert (bars - n) * seconds >= 0;
    } else {
      assert (n - 1 - bars) * seconds >= 0;
    }
  }

  /** A bar of a run is analysed exactly when it is not skipped and enough bars have passed since the last one
      that was; without an earlier one it is the first. */
  lemma AnalysesAreSpaced(i: nat, inputs: Inputs, params: Params, policy: Policy)
    requires MIN_CANDLES <= i < |SeriesOf(inputs.series, params.timeframe)|
    ensures var s, t := RunTo(i, inputs, params, policy), RunTo(i + 1, inputs, params, policy);
            var bar := SeriesOf(inputs.series, params.timeframe)[i];
            var analysed := bar.openTime >= params.dateFrom && Spaced(i - s.lastSignalIndex, params);
            && t.analysisPoints == s.analysisPoints + (if analysed then 1 else 0)
            && t.lastSignalIndex == (if analysed then i else s.lastSignalIndex)
    ensures RunTo(i, inputs, params, policy).analysisPoints == 0 ==> Spaced(i - RunTo(i, inputs, params, policy).lastSignalIndex, params)
  {
    hide Step, Settle, MarkExtremes, FillPending, StepBars, Spaced;
    var s, bar := RunTo(i, inputs, params, policy), SeriesOf(inputs.series, params.timeframe)[i];
    assert RunTo(i + 1, inputs, params, policy) == Step(s, i, bar, inputs, params, policy);
    NothingAnalysedYet(i, inputs, params, policy);
    hide RunTo;
    SpacingMeans(i - s.lastSignalIndex, params);
    StepAnalyses(s, i, bar, inputs, params, policy);
  }

  lemma StepAnalyses(s: State, i: int, candle: Candle, inputs: Inputs, params: Params, policy: Policy)
    ensures var t := Step(s, i, candle, inputs, params, policy);
            var analysed := candle.openTime >= params.dateFrom && i - s.lastSignalIndex >= StepBars(params);
            && t.analysisPoints == s.analysisPoints + (if analysed then 1 else 0)
            && t.lastSignalIndex == (if analysed then i else s.lastSignalIndex)
  {
    hide SweepBook, MarkToMarket, OpenTradeAt, Decide, ViewAt, RestingLimit, MarketEntry, Shifted, Fills, StepBars;
    var settled := Settle(MarkExtremes(s, candle, params), candle, params, inputs.funding);
    assert settled.lastSignalIndex == s.lastSignalIndex && settled.analysisPoints == s.analysisPoints;
    hide Settle, MarkExtremes;
    var filled := FillPending(settled, i, candle, params);
    assert filled.lastSignalIndex == s.lastSignalIndex && filled.analysisPoints == s.analysisPoints;
    hide FillPending;
  }

  lemma {:induction false} NothingAnalysedYet(n: nat, inputs: Inputs, params: Params, policy: Policy)
    requires n <= |SeriesOf(inputs.series, params.timeframe)|
    ensures var s := RunTo(n, inputs, params, policy);
            s.analysisPoints == 0 ==> s.lastSignalIndex == -StepBars(params)
  {
    hide Step, StepBars;
    if n > MIN_CANDLES {
      NothingAnalysedYet(n - 1, inputs, params, policy);
      StepAnalyses(RunTo(n - 1, inputs, params, policy), n - 1, SeriesOf(inputs.series, params.timeframe)[n - 1], inputs, params, policy);
    }
  }

  /** A run starts with its capital, or ten thousand where none is given, and nothing else. */
  lemma RunsStartEmpty(n: nat, inputs: Inputs, params: Params, policy: Policy)
    requires n <= 30 && n <= |SeriesOf(inputs.series, params.timeframe)|
    ensures var s := RunTo(n, inputs, params, policy);
            && s.account.cash == (if params.initialCapital > 0.0 then params.initialCapital else 10000.0)
            && s.account.lastEquity == s.account.cash && s.account.marks == [] && s.account.curve == []
            && s.open == [] && s.closed == [] && s.pending.None? && s.analysisPoints == 0 && s.unfilledEntries == 0
  {
    hide Step;
  }

  /** A resting order counts as unfilled exactly when a bar past its patience finds it still there. */
  lemma UnfilledAreCounted(i: nat, inputs: Inputs, params: Params, policy: Policy)
    requires MIN_CANDLES <= i < |SeriesOf(inputs.series, params.timeframe)|
    ensures var s, t := RunTo(i, inputs, params, policy), RunTo(i + 1, inputs, params, policy);
            var bar := SeriesOf(inputs.series, params.timeframe)[i];
            var expired := bar.openTime >= params.dateFrom && s.pending.Some? && s.pending.value.expiresAt < i;
            t.unfilledEntries == s.unfilledEntries + (if expired then 1 else 0)
  {
    hide Step;
    var s, bar := RunTo(i, inputs, params, policy), SeriesOf(inputs.series, params.timeframe)[i];
    assert RunTo(i + 1, inputs, params, policy) == Step(s, i, bar, inputs, params, policy);
    hide RunTo;
    StepCountsUnfilled(s, i, bar, inputs, params, policy);
  }

  lemma StepCountsUnfilled(s: State, i: int, candle: Candle, inputs: Inputs, params: Params, policy: Policy)
    ensures var expired := candle.openTime >= params.dateFrom && s.pending.Some? && s.pending.value.expiresAt < i;
            Step(s, i, candle, inputs, params, policy).unfilledEntries == s.unfilledEntries + (if expired then 1 else 0)
  {
    hide SweepBook, MarkToMarket, OpenTradeAt, Decide, ViewAt, RestingLimit, MarketEntry, Shifted, Fills, StepBars;
    var settled := Settle(MarkExtremes(s, candle, params), candle, params, inputs.funding);
    assert settled.unfilledEntries == s.unfilledEntries && settled.pending == s.pending;
    hide Settle, MarkExtremes;
  }

  /** What a bar makes of a resting order once its exits are done. Past its patience it is given up; a full book
      drops it; a bar that reaches the limit takes it off, opening at most one position, at the limit; and any
      other bar leaves it resting and everything else as it is. */
  lemma OrderFates(s: State, i: int, candle: Candle, params: Params)
    requires s.pending.Some?
    ensures var order, t := s.pending.value, FillPending(s, i, candle, params);
            var full := |s.open| >= if params.maxOpenPositions >= 1 then params.maxOpenPositions else 1;
            if order.expiresAt < i then t == s.(pending := None, unfilledEntries := s.unfilledEntries + 1)
            else if full then t == s.(pending := None)
            else if Hurts(order.signal.direction, candle, order.limit) then
              && t.pending.None?
              && (t.open == s.open || (|t.open| == |s.open| + 1 && t.open[..|s.open|] == s.open && t.open[|s.open|].entryPrice == order.limit))
            else t == s
  {
    hide PlanExit, AvailableMargin, QuantityFor, EntryFee, MarginFor, MarkToMarket, Shifted;
  }
}
