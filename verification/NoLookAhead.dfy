/** A technical replay never acts on what had not closed yet, stated as non-interference. */
module NoLookAhead {
  import opened Domain
  import opened Levels
  import opened OpenTrades
  import opened Replay

  ghost predicate Sorted(candles: seq<Candle>) {
    forall i, j :: 0 <= i < j < |candles| ==> candles[i].closeTime <= candles[j].closeTime
  }

  lemma {:induction false} FirstAfterCuts(candles: seq<Candle>, at: int, lo: nat, hi: nat)
    requires lo <= hi <= |candles| && Sorted(candles)
    requires forall i :: 0 <= i < lo ==> candles[i].closeTime <= at
    requires forall i :: hi <= i < |candles| ==> candles[i].closeTime > at
    ensures var end := FirstAfter(candles, at, lo, hi);
            && (forall i :: 0 <= i < end ==> candles[i].closeTime <= at)
            && (forall i :: end <= i < |candles| ==> candles[i].closeTime > at)
    decreases hi - lo
  {
    if lo < hi {
      var mid := (lo + hi) / 2;
      if candles[mid].closeTime > at {
        FirstAfterCuts(candles, at, lo, mid);
      } else {
        FirstAfterCuts(candles, at, mid + 1, hi);
      }
    }
  }

  lemma {:induction false} KnownByOfCut(candles: seq<Candle>, at: int, end: nat)
    requires end <= |candles|
    requires forall i :: 0 <= i < end ==> candles[i].closeTime <= at
    requires forall i :: end <= i < |candles| ==> candles[i].closeTime > at
    ensures KnownBy(candles, at) == candles[..end]
    decreases |candles|
  {
    if candles != [] {
      var n := |candles| - 1;
      var front := candles[..n];
      if end == n + 1 {
        KnownByOfCut(front, at, n);
        assert candles == front + [candles[n]];
      } else {
        KnownByOfCut(front, at, end);
        assert front[..end] == candles[..end];
      }
    }
  }

  lemma ClosedByIsKnown(candles: seq<Candle>, at: int)
    requires Sorted(candles)
    ensures ClosedBy(candles, at) == KnownBy(candles, at)
  {
    FirstAfterCuts(candles, at, 0, |candles|);
    KnownByOfCut(candles, at, FirstAfter(candles, at, 0, |candles|));
  }

  lemma {:induction false} KnownEarlier(candles: seq<Candle>, at: int, later: int)
    requires at <= later
    ensures KnownBy(KnownBy(candles, later), at) == KnownBy(candles, at)
    decreases |candles|
  {
    if candles != [] {
      var n := |candles| - 1;
      var front := KnownBy(candles[..n], later);
      KnownEarlier(candles[..n], at, later);
      if candles[n].closeTime <= later {
        assert (front + [candles[n]])[..|front|] == front;
      }
    }
  }

  // ---------- inputs that agree through a moment ----------

  ghost predicate WellOrdered(x: Inputs) {
    && (forall tf :: tf in x.series ==> Sorted(x.series[tf]))
    && Sorted(x.benchmark)
  }

  ghost predicate FundingAgrees(f: map<int, real>, g: map<int, real>, through: int) {
    forall t :: t <= through ==> (t in f <==> t in g) && (t in f ==> f[t] == g[t])
  }

  /** The same timeframes, and in each of them, in the benchmark and in the funding history the same
      facts up to a moment; whatever lies later may differ in any way. */
  ghost predicate AgreeThrough(x: Inputs, y: Inputs, through: int) {
    && x.series.Keys == y.series.Keys
    && (forall tf :: tf in x.series ==> KnownBy(x.series[tf], through) == KnownBy(y.series[tf], through))
    && KnownBy(x.benchmark, through) == KnownBy(y.benchmark, through)
    && FundingAgrees(x.funding, y.funding, through)
  }

  lemma ViewsAgree(x: Inputs, y: Inputs, through: int, at: int, open: seq<Position>, params: Params)
    requires WellOrdered(x) && WellOrdered(y) && AgreeThrough(x, y, through) && at <= through
    ensures ViewAt(x, at, open, params) == ViewAt(y, at, open, params)
  {
    hide FirstAfter, KnownBy, ClosedBy;
    forall tf | tf in x.series
      ensures ClosedBy(x.series[tf], at) == ClosedBy(y.series[tf], at)
    {
      CutsAgree(x.series[tf], y.series[tf], through, at);
    }
    CutsAgree(x.benchmark, y.benchmark, through, at);
  }

  /** A decision is shown the latest bars of each timeframe closed by its moment, as many as asked for or five
      hundred; the market proxy counts once two hundred of its bars have closed; and no signal comes out of
      fewer than thirty bars of the traded timeframe. */
  lemma ViewShowsTheLatest(x: Inputs, at: int, open: seq<Position>, params: Params, policy: Policy)
    requires WellOrdered(x)
    ensures var view := ViewAt(x, at, open, params);
            var limit := if params.historyLimit > 0 then params.historyLimit else 500;
            var market := KnownBy(x.benchmark, at);
            && view.at == at && view.open == open && view.visible.Keys == x.series.Keys
            && (forall tf :: tf in x.series ==>
                  var known, shown := KnownBy(x.series[tf], at), view.visible[tf];
                  && |shown| == (if |known| <= limit then |known| else limit)
                  && shown == known[|known| - |shown|..])
            && view.market == (if |market| >= 200 then Measured(market) else UnknownMarket)
            && (Decide(policy, view, params.timeframe).Some? ==>
                  params.timeframe in x.series && |KnownBy(x.series[params.timeframe], at)| >= 30 && Decide(policy, view, params.timeframe) == policy(view))
  {
    hide ClosedBy, KnownBy, Sorted;
    ClosedByIsKnown(x.benchmark, at);
    forall tf | tf in x.series
      ensures ClosedBy(x.series[tf], at) == KnownBy(x.series[tf], at)
    {
      ClosedByIsKnown(x.series[tf], at);
    }
  }

  lemma CutsAgree(a: seq<Candle>, b: seq<Candle>, through: int, at: int)
    requires Sorted(a) && Sorted(b) && at <= through && KnownBy(a, through) == KnownBy(b, through)
    ensures ClosedBy(a, at) == ClosedBy(b, at)
  {
    hide KnownBy, ClosedBy;
    ClosedByIsKnown(a, at);
    ClosedByIsKnown(b, at);
    KnownEarlier(a, at, through);
    KnownEarlier(b, at, through);
  }

  lemma {:induction false} ApplyFundingAgrees(b: Booked, candle: Candle, params: Params, f: map<int, real>, g: map<int, real>)
    requires FundingAgrees(f, g, candle.closeTime)
    ensures ApplyFunding(b, candle, params, f) == ApplyFunding(b, candle, params, g)
    decreases candle.closeTime - b.position.nextFundingAt
  {
    if b.position.nextFundingAt <= candle.closeTime {
      assert SettleFunding(b, candle, params, f) == SettleFunding(b, candle, params, g);
      ApplyFundingAgrees(SettleFunding(b, candle, params, f), candle, params, f, g);
    }
  }

  lemma UpdateAgrees(b: Booked, candle: Candle, params: Params, f: map<int, real>, g: map<int, real>)
    requires FundingAgrees(f, g, candle.closeTime)
    ensures Update(b, candle, params, f) == Update(b, candle, params, g)
  {
    hide ApplyFunding, TriggerLevels, Liquidate, TrailStop, RecordExcursion, LiquidationOf, StopPrecedes, Touched;
    ApplyFundingAgrees(b.(position := RecordExcursion(b.position, candle)), candle, params, f, g);
  }

  lemma {:induction false} SweepAgrees(cash: real, open: seq<Position>, candle: Candle, params: Params, f: map<int, real>, g: map<int, real>)
    requires FundingAgrees(f, g, candle.closeTime)
    ensures SweepBook(cash, open, candle, params, f) == SweepBook(cash, open, candle, params, g)
    decreases |open|
  {
    if open != [] {
      hide Update;
      SweepAgrees(cash, open[..|open| - 1], candle, params, f, g);
      UpdateAgrees(Booked(open[|open| - 1], SweepBook(cash, open[..|open| - 1], candle, params, f).cash), candle, params, f, g);
    }
  }

  lemma StepAgrees(s: State, i: int, candle: Candle, x: Inputs, y: Inputs, through: int, params: Params, policy: Policy)
    requires WellOrdered(x) && WellOrdered(y) && AgreeThrough(x, y, through) && candle.closeTime <= through
    ensures Step(s, i, candle, x, params, policy) == Step(s, i, candle, y, params, policy)
  {
    hide SweepBook, ViewAt, Decide, Act, FillPending, MarkToMarket, MarkExtremes, KnownBy, Sorted;
    var marked := MarkExtremes(s, candle, params);
    SweepAgrees(marked.account.cash, marked.open, candle, params, x.funding, y.funding);
    var settled := Settle(marked, candle, params, x.funding);
    var filled := FillPending(settled, i, candle, params);
    ViewsAgree(x, y, through, candle.closeTime, filled.open, params);
  }

  /** The bars of the traded series that are known by a moment. */
  function BarsThrough(x: Inputs, params: Params, through: int): (bars: seq<Candle>)
    ensures |bars| <= |SeriesOf(x.series, params.timeframe)|
  {
    KnownBy(SeriesOf(x.series, params.timeframe), through)
  }

  lemma KnownIsPrefix(candles: seq<Candle>, through: int)
    requires Sorted(candles)
    ensures KnownBy(candles, through) <= candles
    ensures forall i :: 0 <= i < |KnownBy(candles, through)| ==> candles[i].closeTime <= through
  {
    FirstAfterCuts(candles, through, 0, |candles|);
    KnownByOfCut(candles, through, FirstAfter(candles, through, 0, |candles|));
  }

  /** Two histories that agree through a moment drive the replay to the same cash, open positions,
      resting entry, closed trades and equity curve at every bar closed by then, for every policy. */
  lemma {:induction false} NoLookAhead(n: nat, x: Inputs, y: Inputs, through: int, params: Params, policy: Policy)
    requires WellOrdered(x) && WellOrdered(y) && AgreeThrough(x, y, through)
    requires n <= |BarsThrough(x, params, through)|
    ensures n <= |SeriesOf(x.series, params.timeframe)| && n <= |SeriesOf(y.series, params.timeframe)|
    ensures RunTo(n, x, params, policy) == RunTo(n, y, params, policy)
  {
    hide Step, KnownBy;
    var a, b := SeriesOf(x.series, params.timeframe), SeriesOf(y.series, params.timeframe);
    assert KnownBy([], through) == [] by { NothingKnown(through); }
    KnownIsPrefix(a, through);
    KnownIsPrefix(b, through);
    if n > MIN_CANDLES {
      NoLookAhead(n - 1, x, y, through, params, policy);
      assert a[n - 1] == KnownBy(a, through)[n - 1] == b[n - 1];
      StepAgrees(RunTo(n - 1, x, params, policy), n - 1, a[n - 1], x, y, through, params, policy);
    }
  }

  lemma NothingKnown(through: int)
    ensures KnownBy([], through) == []
  {
  }

  // ---------- what has happened is never rewritten ----------

  lemma StepKeepsHistory(s: State, i: int, candle: Candle, inputs: Inputs, params: Params, policy: Policy)
    ensures var t := Step(s, i, candle, inputs, params, policy);
            s.closed <= t.closed && s.account.curve <= t.account.curve && s.account.marks <= t.account.marks
  {
    hide SweepBook, Decide, ViewAt, OpenTradeAt, Fills, Shifted, MarksOf, RestingLimit, MarketEntry;
    var settled := Settle(MarkExtremes(s, candle, params), candle, params, inputs.funding);
    assert s.closed <= settled.closed && s.account.curve <= settled.account.curve && s.account.marks <= settled.account.marks;
    var filled := FillPending(settled, i, candle, params);
    assert settled.closed == filled.closed && settled.account.curve == filled.account.curve && settled.account.marks <= filled.account.marks;
    hide Settle, MarkExtremes, FillPending;
  }

  lemma {:induction false} HistoryOnlyGrows(n: nat, m: nat, inputs: Inputs, params: Params, policy: Policy)
    requires n <= m <= |SeriesOf(inputs.series, params.timeframe)|
    ensures RunTo(n, inputs, params, policy).closed <= RunTo(m, inputs, params, policy).closed
    ensures RunTo(n, inputs, params, policy).account.curve <= RunTo(m, inputs, params, policy).account.curve
    ensures RunTo(n, inputs, params, policy).account.marks <= RunTo(m, inputs, params, policy).account.marks
    decreases m
  {
    hide Step;
    if n < m {
      HistoryOnlyGrows(n, m - 1, inputs, params, policy);
      if m > MIN_CANDLES {
        StepKeepsHistory(RunTo(m - 1, inputs, params, policy), m - 1,
                         SeriesOf(inputs.series, params.timeframe)[m - 1], inputs, params, policy);
      }
    }
  }

  lemma {:induction false} TradesOfPrefix(a: seq<Closing>, b: seq<Closing>)
    requires a <= b
    ensures Trades(a) <= Trades(b)
    decreases |b|
  {
    if a == b {
    } else {
      TradesOfPrefix(a, b[..|b| - 1]);
    }
  }

  /** Seen from the final reports: the trades and the equity curve of everything closed by a moment
      open both reports alike, whatever the two histories do afterwards. */
  lemma ReportsShareTheirPast(x: Inputs, y: Inputs, through: int, params: Params, policy: Policy)
    requires WellOrdered(x) && WellOrdered(y) && AgreeThrough(x, y, through)
    ensures var past := RunTo(|BarsThrough(x, params, through)|, x, params, policy);
            && Trades(past.closed) <= Trades(Run(x, params, policy).closed)
            && Trades(past.closed) <= Trades(Run(y, params, policy).closed)
            && past.account.curve <= Run(x, params, policy).account.curve
            && past.account.curve <= Run(y, params, policy).account.curve
  {
    hide RunTo, Trades, CloseBook, MarkToMarket;
    var n := |BarsThrough(x, params, through)|;
    NoLookAhead(n, x, y, through, params, policy);
    HistoryOnlyGrows(n, |SeriesOf(x.series, params.timeframe)|, x, params, policy);
    HistoryOnlyGrows(n, |SeriesOf(y.series, params.timeframe)|, y, params, policy);
    MarkKeepsCurve(x, params, policy);
    MarkKeepsCurve(y, params, policy);
    TradesOfPrefix(RunTo(n, x, params, policy).closed, Run(x, params, policy).closed);
    TradesOfPrefix(RunTo(n, x, params, policy).closed, Run(y, params, policy).closed);
  }

  lemma MarkKeepsCurve(x: Inputs, params: Params, policy: Policy)
    ensures var candles := SeriesOf(x.series, params.timeframe);
            var s := RunTo(|candles|, x, params, policy);
            && s.closed <= Run(x, params, policy).closed && s.account.curve <= Run(x, params, policy).account.curve
            && s.account.marks <= Run(x, params, policy).account.marks
  {
    hide RunTo, CloseBook;
  }
}
