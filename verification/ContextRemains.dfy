/** What a reduced payload still holds, and what its tokens and its rows mean. */
module ContextRemains {
  import opened Domain
  import opened Rounding
  import opened ContextBudget

  // ---------- tokens ----------

  /** The positions of a text's ASCII letters. */
  ghost function AsciiAt(s: string): set<int> {
    set i | 0 <= i < |s| && s[i] as int < 128
  }

  lemma {:induction false} AsciiAreCounted(s: string)
    ensures AsciiRunes(s) == |AsciiAt(s)|
    decreases |s|
  {
    if s != [] {
      var front := s[..|s| - 1];
      AsciiAreCounted(front);
      if s[|s| - 1] as int < 128 {
        assert AsciiAt(s) == AsciiAt(front) + {|s| - 1};
      } else {
        assert AsciiAt(s) == AsciiAt(front);
      }
    }
  }

  /** A text is estimated at one token for each letter beyond ASCII and the fewest that hold its ASCII letters
      at 2.4 apiece. */
  lemma TokensMean(s: string)
    ensures var ascii := |AsciiAt(s)|;
            var held := Tokens(s) - (|s| - ascii);
            2.4 * (held - 1) as real < ascii as real <= 2.4 * held as real
  {
    AsciiAreCounted(s);
    hide AsciiRunes, AsciiAt;
    CeilMeans(AsciiRunes(s) as real / 2.4);
  }

  lemma CeilMeans(x: real)
    ensures (Ceil(x) - 1) as real < x <= Ceil(x) as real
  {
  }

  // ---------- rows ----------

  /** A row holds the four prices of its candle, each to the nearest hundredth. */
  lemma RowHoldsPrices(c: Candle)
    ensures var row := Row(c);
            && |row| == 4
            && -0.005 <= row[0] - c.open <= 0.005 && -0.005 <= row[1] - c.high <= 0.005
            && -0.005 <= row[2] - c.low <= 0.005 && -0.005 <= row[3] - c.close <= 0.005
  {
    hide Round2;
    Round2Error(c.open);
    Round2Error(c.high);
    Round2Error(c.low);
    Round2Error(c.close);
  }

  /** The rows of a payload are those of the latest candles, in their order, as many as were asked for. */
  lemma RowsAreTheLatest(candles: seq<Candle>, n: int)
    ensures var rows := Rows(Tail(candles, n));
            && |rows| == (if n <= 0 then 0 else if |candles| <= n then |candles| else n)
            && var dropped := |candles| - |rows|;
               forall i :: 0 <= i < |rows| ==> rows[i] == Row(candles[dropped + i])
  {
  }

  // ---------- what n reductions leave ----------

  /** The first few of a list, or all of it. */
  ghost predicate FirstOf<T>(kept: seq<T>, all: seq<T>, most: nat) {
    kept <= all && |kept| == if |all| <= most then |all| else most
  }

  /** Fewer of what was already the first few. */
  lemma FewerStill<T>(kept: seq<T>, all: seq<T>, most: nat, fewer: nat)
    requires FirstOf(kept, all, most) && fewer <= most
    ensures FirstOf(Head(kept, fewer), all, fewer)
  {
  }

  lemma Fewer<T>(all: seq<T>, most: nat)
    ensures FirstOf(Head(all, most), all, most)
  {
  }

  /** Similar cases are cut to three at the first reduction and gone at the sixth; candle rows to ten at the
      fourth and gone at the seventh; levels to four at the tenth and gone at the thirteenth; the details of
      data quality are shortened at the last. */
  lemma ListsThatRemain(v: View, n: nat)
    requires n <= STEPS
    ensures var r := Reduced(v, n);
            && (if n < 1 then r.cases == v.cases else FirstOf(r.cases, v.cases, if n < 6 then 3 else 0))
            && (if n < 4 then r.candles == v.candles else FirstOf(r.candles, v.candles, if n < 7 then 10 else 0))
            && (if n < 10 then r.levels == v.levels else FirstOf(r.levels, v.levels, if n < 13 then 4 else 0))
            && (if n < 15 then r.missing == v.missing && r.notes == v.notes else FirstOf(r.missing, v.missing, 6) && FirstOf(r.notes, v.notes, 3))
  {
    hide Reduce, Head, FirstOf;
    if n > 0 {
      ListsThatRemain(v, n - 1);
      ReducedByOne(v, n - 1);
      ReduceTouchesLists(n - 1, Reduced(v, n - 1));
      hide Reduced;
      var was := Reduced(v, n - 1);
      Fewer(was.cases, if n < 6 then 3 else 0);
      Fewer(was.candles, if n < 7 then 10 else 0);
      Fewer(was.levels, if n < 13 then 4 else 0);
      Fewer(was.missing, 6);
      Fewer(was.notes, 3);
      if n == 6 { FewerStill(was.cases, v.cases, 3, 0); }
      if n == 7 { FewerStill(was.candles, v.candles, 10, 0); }
      if n == 13 { FewerStill(was.levels, v.levels, 4, 0); }
    }
  }

  lemma ReduceTouchesLists(k: nat, v: View)
    requires k < STEPS
    ensures var r := Reduce(k, v);
            && r.cases == (if k == 0 then Head(v.cases, 3) else if k == 5 then Head(v.cases, 0) else v.cases)
            && r.candles == (if k == 3 then Head(v.candles, 10) else if k == 6 then Head(v.candles, 0) else v.candles)
            && r.levels == (if k == 9 then Head(v.levels, 4) else if k == 12 then Head(v.levels, 0) else v.levels)
            && r.missing == (if k == 14 then Head(v.missing, 6) else v.missing)
            && r.notes == (if k == 14 then Head(v.notes, 3) else v.notes)
  {
  }

  const SECONDARY_GO := 8

  /** The eight indicators that stay. */
  predicate Stays(indicator: string) {
    || indicator == "rsi" || indicator == "rsi_state" || indicator == "macd_state" || indicator == "adx"
    || indicator == "trend_strength" || indicator == "atr_pct" || indicator == "price_vs_ema_200_pct" || indicator == "bb_percent_b"
  }

  /** A timeframe after n reductions: its patterns are cut to two at the fifth and gone at the twelfth, and its
      indicators are down to the eight at the eighth, each with its value. */
  ghost predicate TimeframeAfter(now: Timeframe, was: Timeframe, n: nat) {
    && now.close == was.close && now.structure == was.structure && now.bias == was.bias
    && PatternsAfter(now, was, n) && IndicatorsAfter(now.indicators, was.indicators, n)
  }

  ghost predicate PatternsAfter(now: Timeframe, was: Timeframe, n: nat) {
    if n < 5 then now.patterns == was.patterns && now.chart == was.chart && now.divergence == was.divergence
    else
      var most := if n < 12 then 2 else 0;
      FirstOf(now.patterns, was.patterns, most) && FirstOf(now.chart, was.chart, most) && FirstOf(now.divergence, was.divergence, most)
  }

  ghost predicate IndicatorsAfter(now: map<string, Value>, was: map<string, Value>, n: nat) {
    if n < SECONDARY_GO then now == was
    else (forall k :: k in now <==> k in was && Stays(k)) && forall k :: k in now ==> now[k] == was[k]
  }

  /** The timeframe a reduction makes of one. */
  function ReduceTimeframe(k: nat, t: Timeframe): Timeframe {
    if k == 4 then FewerPatterns(t, 2) else if k == 7 then PrimaryOnly(t) else if k == 11 then FewerPatterns(t, 0) else t
  }

  lemma ReduceTouchesTimeframes(k: nat, v: View)
    requires k < STEPS
    ensures Reduce(k, v).timeframes.Keys
         == v.timeframes.Keys - (if k == 8 then {"1m"} else if k == 10 then {"5m"} else if k == 13 then {"1d"} else {})
    ensures forall t :: t in Reduce(k, v).timeframes ==> Reduce(k, v).timeframes[t] == ReduceTimeframe(k, v.timeframes[t])
  {
    hide FewerPatterns, PrimaryOnly;
  }

  lemma StaysMeans(indicator: string)
    ensures Primary(indicator) <==> Stays(indicator)
  {
  }

  lemma PrimaryStay(now: Timeframe, was: Timeframe, n: nat)
    requires n < SECONDARY_GO && IndicatorsAfter(now.indicators, was.indicators, n)
    ensures IndicatorsAfter(PrimaryOnly(now).indicators, was.indicators, SECONDARY_GO)
  {
    hide Primary, Stays;
    forall k
      ensures Primary(k) <==> Stays(k)
    {
      StaysMeans(k);
    }
  }

  lemma TimeframeReduces(now: Timeframe, was: Timeframe, k: nat)
    requires TimeframeAfter(now, was, k)
    ensures TimeframeAfter(ReduceTimeframe(k, now), was, k + 1)
  {
    hide FirstOf, Head, Primary, Stays;
    if k == 4 {
      Fewer(was.patterns, 2);
      Fewer(was.chart, 2);
      Fewer(was.divergence, 2);
    } else if k == 7 {
      PrimaryStay(now, was, 7);
    } else if k == 11 {
      FewerStill(now.patterns, was.patterns, 2, 0);
      FewerStill(now.chart, was.chart, 2, 0);
      FewerStill(now.divergence, was.divergence, 2, 0);
    }
  }

  /** The timeframes gone after n reductions: one minute at the ninth, five at the eleventh, a day at the fourteenth. */
  function Gone(n: nat): set<string> {
    (if n < 9 then {} else {"1m"}) + (if n < 11 then {} else {"5m"}) + (if n < 14 then {} else {"1d"})
  }

  lemma GoneByOne(k: nat)
    ensures Gone(k + 1) == Gone(k) + if k == 8 then {"1m"} else if k == 10 then {"5m"} else if k == 13 then {"1d"} else {}
  {
  }

  /** Every timeframe but those gone is still there, reduced as far as that. */
  lemma TimeframesThatRemain(v: View, n: nat)
    requires n <= STEPS
    ensures var r := Reduced(v, n);
            && r.timeframes.Keys == v.timeframes.Keys - Gone(n)
            && forall t :: t in r.timeframes ==> TimeframeAfter(r.timeframes[t], v.timeframes[t], n)
  {
    hide Reduce, TimeframeAfter, Gone, ReduceTimeframe;
    if n == 0 {
      TimeframesToStart(v);
    } else {
      TimeframesThatRemain(v, n - 1);
      ReducedByOne(v, n - 1);
      hide Reduced;
      var was := Reduced(v, n - 1);
      ReduceTouchesTimeframes(n - 1, was);
      GoneByOne(n - 1);
      forall t | t in Reduced(v, n).timeframes
        ensures TimeframeAfter(Reduced(v, n).timeframes[t], v.timeframes[t], n)
      {
        TimeframeReduces(was.timeframes[t], v.timeframes[t], n - 1);
      }
    }
  }

  lemma TimeframesToStart(v: View)
    ensures Gone(0) == {} && forall t :: t in v.timeframes ==> TimeframeAfter(v.timeframes[t], v.timeframes[t], 0)
  {
  }

  /** The news lose their summaries at the second reduction, and at the third all but three ordinary items of
      the asset's and two of the market's. */
  lemma NewsThatRemains(v: View, n: nat)
    requires n <= STEPS
    ensures var r := Reduced(v, n);
            var asset, global := WithoutSummaries(v.assetNews), WithoutSummaries(v.globalNews);
            && (n < 2 ==> r.assetNews == v.assetNews && r.globalNews == v.globalNews)
            && (n == 2 ==> r.assetNews == asset && r.globalNews == global)
            && (n > 2 ==> && Critical(r.assetNews) == Critical(asset) && FirstOf(NonCritical(r.assetNews), NonCritical(asset), 3)
                          && Critical(r.globalNews) == Critical(global) && FirstOf(NonCritical(r.globalNews), NonCritical(global), 2))
  {
    hide CriticalAndHead, WithoutSummaries, Critical, NonCritical, FirstOf, Reduce;
    if n > 0 {
      NewsThatRemains(v, n - 1);
      ReducedByOne(v, n - 1);
      ReduceTouchesNews(n - 1, Reduced(v, n - 1));
      hide Reduced;
      if n == 3 {
        NewsKept(WithoutSummaries(v.assetNews), 3);
        NewsKept(WithoutSummaries(v.globalNews), 2);
      }
    }
  }

  lemma NewsKept(items: seq<NewsItem>, limit: nat)
    ensures Critical(CriticalAndHead(items, limit)) == Critical(items)
    ensures FirstOf(NonCritical(CriticalAndHead(items, limit)), NonCritical(items), limit)
  {
    hide CriticalAndHead, Critical, NonCritical;
    RetainedNews(items, limit);
  }

  lemma ReduceTouchesNews(k: nat, v: View)
    requires k < STEPS
    ensures var r := Reduce(k, v);
            && r.assetNews == (if k == 1 then WithoutSummaries(v.assetNews) else if k == 2 then CriticalAndHead(v.assetNews, 3) else v.assetNews)
            && r.globalNews == (if k == 1 then WithoutSummaries(v.globalNews) else if k == 2 then CriticalAndHead(v.globalNews, 2) else v.globalNews)
  {
    hide WithoutSummaries, CriticalAndHead;
  }

  // ---------- room in the window ----------

  /** Room is left for a payload exactly when at least 512 tokens remain of the window beside the response, the
      prompt around the payload and the reserve, which is a sixteenth of the window and at least 512. */
  lemma OptionsLeaveRoom(base: BuildOptions, cfg: ModelConfig, systemPrompt: string, window: int, response: int, reserve: int, room: int)
    requires window == (if cfg.contextSize > 0 then cfg.contextSize else 16384) && response == (if cfg.maxTokens > 0 then cfg.maxTokens else 1800)
    requires reserve >= 512 && window < 16 * (reserve + 1) && (reserve > 512 ==> 16 * reserve <= window)
    requires window == Tokens(systemPrompt) + Tokens(SNAPSHOT_PREFIX) + room + response + reserve
    ensures OptionsFor(base, cfg, systemPrompt).Ok? <==> room >= 512
    ensures room >= 512 ==> var most := OptionsFor(base, cfg, systemPrompt).value.maxTokens;
                            most == if cfg.snapshotMaxTokens > 0 && cfg.snapshotMaxTokens < room then cfg.snapshotMaxTokens else room
    ensures room < 512 ==> OptionsFor(base, cfg, systemPrompt).error == ContextTooSmall(room)
  {
    hide Tokens;
  }
}
