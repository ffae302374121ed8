/** What the figures of a market reaction mean: each return, rise and fall against the prices of the stored candles. */
module ReactionPrices {
  import opened Domain
  import opened Reactions

  /** A price some percentage away from the baseline. */
  predicate Away(baseline: real, price: real, pct: real) {
    price == baseline * (1.0 + pct / 100.0)
  }

  predicate Within(c: Candle, after: int, until: int) {
    after < c.closeTime <= until
  }

  /** The last moment whose candles count for the extremes: now, or a day after the baseline. */
  function Until(start: int, now: int): int {
    if now < start + DAY then now else start + DAY
  }

  // ---------- percentages ----------

  lemma PercentMeans(baseline: Positive, price: real)
    ensures Away(baseline, price, PercentChange(baseline, price))
  {
    assert price / baseline * baseline == price;
    assert baseline * (1.0 + PercentChange(baseline, price) / 100.0) == baseline * (price / baseline);
  }

  /** A higher percentage is a higher price. */
  lemma PercentOrders(baseline: Positive, a: real, b: real, price: real, bound: real)
    requires Away(baseline, price, a) && Away(baseline, bound, b)
    ensures price <= bound <==> a <= b
  {
    assert bound - price == baseline * ((b - a) / 100.0);
    if a <= b {
      assert baseline * ((b - a) / 100.0) >= 0.0;
    } else {
      assert baseline * ((b - a) / 100.0) < 0.0;
    }
  }

  // ---------- what a reaction says of a store ----------

  /** The baseline is the close of a stored candle that closed at or after the news was first seen. */
  ghost predicate Based(r: Reaction, firstSeen: int, store: seq<Candle>) {
    r.baselineTime.Some? && r.baselinePrice.Some? ==>
      exists c :: c in store && c.closeTime == r.baselineTime.value && c.close == r.baselinePrice.value && firstSeen <= c.closeTime
  }

  ghost predicate ReturnOf(store: seq<Candle>, baseline: real, change: real, at: int) {
    exists c :: c in store && c.closeTime == at && Away(baseline, c.close, change)
  }

  /** Each return is that of the stored candle that closed at its observation. */
  ghost predicate Returned(r: Reaction, store: seq<Candle>)
    requires Shaped(r)
  {
    r.baselinePrice.Some? ==>
      forall i :: 0 <= i < 5 && r.changes[i].Some? ==>
        r.observedAt[i].Some? && ReturnOf(store, r.baselinePrice.value, r.changes[i].value, r.observedAt[i].value)
  }

  ghost predicate Reaching(store: seq<Candle>, after: int, until: int, through: int) {
    exists c :: c in store && Within(c, after, until) && c.closeTime == through
  }

  /** No candle of the window rose above the recorded rise or fell below the recorded fall or closed later. */
  ghost predicate Bounds(store: seq<Candle>, after: int, until: int, baseline: real, up: real, down: real, through: int) {
    forall c :: c in store && Within(c, after, until) ==>
      && c.high <= baseline * (1.0 + up / 100.0) && c.low >= baseline * (1.0 + down / 100.0) && c.closeTime <= through
  }

  /** A recorded rise or fall other than none is that of some candle of the window. */
  ghost predicate Attained(store: seq<Candle>, after: int, until: int, baseline: real, up: real, down: real) {
    && up >= 0.0 >= down
    && (up > 0.0 ==> exists c :: c in store && Within(c, after, until) && Away(baseline, c.high, up))
    && (down < 0.0 ==> exists c :: c in store && Within(c, after, until) && Away(baseline, c.low, down))
  }

  ghost predicate Extremal(r: Reaction, store: seq<Candle>, now: int) {
    match (r.baselineTime, r.baselinePrice)
    case (Some(start), Some(baseline)) =>
      if r.maxUpPct.Some? && r.maxDownPct.Some? && r.observedThrough.Some? then
        && Bounds(store, start, Until(start, now), baseline, r.maxUpPct.value, r.maxDownPct.value, r.observedThrough.value)
        && Attained(store, start, Until(start, now), baseline, r.maxUpPct.value, r.maxDownPct.value)
        && Reaching(store, start, Until(start, now), r.observedThrough.value)
      else
        && r.maxUpPct.None? && r.maxDownPct.None? && r.observedThrough.None?
        && forall c :: c in store ==> !Within(c, start, Until(start, now))
    case _ => r.maxUpPct.None? && r.maxDownPct.None? && r.observedThrough.None?
  }

  ghost predicate Priced(r: Reaction, firstSeen: int, store: seq<Candle>, now: int) {
    && Shaped(r) && (r.baselineTime.Some? <==> r.baselinePrice.Some?) && (r.baselineTime.None? ==> Blank(r.changes, r.observedAt))
    && Based(r, firstSeen, store) && Returned(r, store) && Extremal(r, store, now)
  }

  // ---------- the extremes of a store ----------

  ghost predicate Extreme(e: Extremes, store: seq<Candle>, after: int, until: int) {
    if e.high.Some? && e.low.Some? && e.through.Some? then
      && (forall c :: c in store && Within(c, after, until) ==> c.high <= e.high.value && e.low.value <= c.low && c.closeTime <= e.through.value)
      && (exists c :: c in store && Within(c, after, until) && c.high == e.high.value)
      && (exists c :: c in store && Within(c, after, until) && c.low == e.low.value)
      && (exists c :: c in store && Within(c, after, until) && c.closeTime == e.through.value)
    else e == Extremes(None, None, None) && forall c :: c in store ==> !Within(c, after, until)
  }

  lemma {:induction false} ExtremesMean(store: seq<Candle>, after: int, until: int)
    ensures Extreme(ExtremesOf(store, after, until), store, after, until)
  {
    if store != [] {
      var front, c := store[..|store| - 1], store[|store| - 1];
      assert store == front + [c];
      ExtremesMean(front, after, until);
      ExtremeOfOneMore(ExtremesOf(front, after, until), front, c, after, until);
      hide Extreme;
    }
  }

  lemma ExtremeOfOneMore(e: Extremes, front: seq<Candle>, c: Candle, after: int, until: int)
    requires Extreme(e, front, after, until)
    ensures Extreme(if Within(c, after, until) then Widen(e, c) else e, front + [c], after, until)
  {
    var store := front + [c];
    assert forall x :: x in store <==> x in front || x == c;
    assert c in store;
    if e.high.Some? {
      var h :| h in front && Within(h, after, until) && h.high == e.high.value;
      var l :| l in front && Within(l, after, until) && l.low == e.low.value;
      var t :| t in front && Within(t, after, until) && t.closeTime == e.through.value;
      assert h in store && l in store && t in store;
    }
  }

  // ---------- one evaluation ----------

  lemma ObserveIsExtremal(r: Reaction, firstSeen: int, before: seq<Candle>, since: int, store: seq<Candle>, now: int)
    requires r.baselineTime.Some? && r.baselinePrice.Some? && Extremal(r, before, since) && since <= now && Grows(before, store)
    ensures Extremal(Observe(r, r.baselineTime.value, r.baselinePrice.value, store, now), store, now)
  {
    var start, baseline := r.baselineTime.value, r.baselinePrice.value;
    var e := ExtremesOf(store, start, Until(start, now));
    ExtremesMean(store, start, Until(start, now));
    hide ExtremesOf, PercentChange;
    if e.high.Some? {
      SeenIsExtremal(r, e, start, baseline, store, now);
    } else {
      QuietBefore(before, store, start, Until(start, since), Until(start, now));
    }
  }

  lemma QuietBefore(before: seq<Candle>, store: seq<Candle>, after: int, until: int, later: int)
    requires Grows(before, store) && until <= later && forall c :: c in store ==> !Within(c, after, later)
    ensures forall c :: c in before ==> !Within(c, after, until)
  {
    forall c | c in before
      ensures !Within(c, after, until)
    {
      assert c in store;
    }
  }

  lemma SeenIsExtremal(r: Reaction, e: Extremes, start: int, baseline: Positive, store: seq<Candle>, now: int)
    requires r.baselineTime == Some(start) && r.baselinePrice == Some(baseline)
    requires e.high.Some? && Extreme(e, store, start, Until(start, now)) && e == ExtremesOf(store, start, Until(start, now))
    ensures Extremal(Observe(r, start, baseline, store, now), store, now)
  {
    hide ExtremesOf, PercentChange;
    var until := Until(start, now);
    var rise, fall := PercentChange(baseline, e.high.value), PercentChange(baseline, e.low.value);
    var up, down := Max(rise, 0.0), Min(fall, 0.0);
    PercentMeans(baseline, e.high.value);
    PercentMeans(baseline, e.low.value);
    var top, bottom := baseline * (1.0 + up / 100.0), baseline * (1.0 + down / 100.0);
    PercentOrders(baseline, rise, up, e.high.value, top);
    PercentOrders(baseline, down, fall, bottom, e.low.value);
    assert Bounds(store, start, until, baseline, up, down, e.through.value);
    assert Attained(store, start, until, baseline, up, down);
    assert Reaching(store, start, until, e.through.value);
    hide Bounds, Attained, Reaching, Extreme;
  }

  lemma {:induction false} FillReturns(r: Reaction, start: int, baseline: Positive, store: seq<Candle>, now: int, n: nat)
    requires Shaped(r) && n <= 5 && r.baselinePrice == Some(baseline) && Returned(r, store)
    ensures Returned(Fill(r, start, baseline, store, now, n), store)
  {
    hide PercentChange, FirstClosed, ReturnOf;
    if n > 0 {
      FillReturns(r, start, baseline, store, now, n - 1);
      var f := Fill(r, start, baseline, store, now, n - 1);
      var c := FirstClosed(store, start + Horizon(n - 1), now);
      if r.changes[n - 1].None? && now >= start + Horizon(n - 1) && c.Some? {
        NewReturn(store, baseline, c.value);
      }
    }
  }

  lemma NewReturn(store: seq<Candle>, baseline: Positive, c: Candle)
    requires c in store
    ensures ReturnOf(store, baseline, PercentChange(baseline, c.close), c.closeTime)
  {
    PercentMeans(baseline, c.close);
    hide PercentChange;
  }

  lemma GrowingKeeps(r: Reaction, firstSeen: int, before: seq<Candle>, store: seq<Candle>)
    requires Shaped(r) && Grows(before, store)
    ensures Returned(r, before) ==> Returned(r, store)
    ensures Based(r, firstSeen, before) ==> Based(r, firstSeen, store)
  {
    if r.baselinePrice.Some? && Returned(r, before) {
      forall i | 0 <= i < 5 && r.changes[i].Some?
        ensures r.observedAt[i].Some? && ReturnOf(store, r.baselinePrice.value, r.changes[i].value, r.observedAt[i].value)
      {
        var c :| c in before && c.closeTime == r.observedAt[i].value && Away(r.baselinePrice.value, c.close, r.changes[i].value);
        assert c in store;
      }
    }
  }

  lemma MeasureIsPriced(r: Reaction, firstSeen: int, before: seq<Candle>, since: int, store: seq<Candle>, cfg: Config, now: int)
    requires Priced(r, firstSeen, before, since) && r.baselineTime.Some? && since <= now && Grows(before, store)
    ensures Priced(Measure(r, store, cfg, now), firstSeen, store, now)
  {
    var start, baseline := r.baselineTime.value, r.baselinePrice.value;
    GrowingKeeps(r, firstSeen, before, store);
    FillReturns(r, start, baseline, store, now, 5);
    var f := Fill(r, start, baseline, store, now, 5);
    hide Fill, Based, Grows, NextDue;
    SameExtremes(r, f, before, since);
    ObserveIsExtremal(f, firstSeen, before, since, store, now);
    ObserveTouchesExtremesOnly(f, start, baseline, store, now);
    var o := Observe(f, start, baseline, store, now);
    hide Observe;
    SameFigures(f, o, firstSeen, store);
    var m := Conclude(o, start, cfg, now);
    assert m == o.(status := m.status, completedAt := m.completedAt, nextEvaluationAt := m.nextEvaluationAt, lastError := m.lastError);
    hide Conclude;
    SameFigures(o, m, firstSeen, store);
    SameExtremes(o, m, store, now);
  }

  lemma SameExtremes(r: Reaction, s: Reaction, store: seq<Candle>, now: int)
    requires Extremal(r, store, now) && s.baselineTime == r.baselineTime && s.baselinePrice == r.baselinePrice
    requires s.maxUpPct == r.maxUpPct && s.maxDownPct == r.maxDownPct && s.observedThrough == r.observedThrough
    ensures Extremal(s, store, now)
  {
    hide Bounds, Attained, Reaching;
  }

  lemma SameFigures(r: Reaction, s: Reaction, firstSeen: int, store: seq<Candle>)
    requires Shaped(r) && s.changes == r.changes && s.observedAt == r.observedAt
    requires s.baselineTime == r.baselineTime && s.baselinePrice == r.baselinePrice
    ensures Based(r, firstSeen, store) ==> Based(s, firstSeen, store)
    ensures Returned(r, store) ==> Returned(s, store)
  {
    hide ReturnOf;
  }

  /** A reaction that has just found its baseline says what the baseline candle alone allows. */
  lemma BaselineIsPriced(c: Candle, r: Reaction, firstSeen: int, store: seq<Candle>, since: int)
    requires Priced(r, firstSeen, store, since) && r.baselineTime.None? && c.close > 0.0 && firstSeen <= c.closeTime
    ensures Priced(r.(baselineTime := Some(c.closeTime), baselinePrice := Some(c.close)), firstSeen, [c], since)
  {
    assert c in [c];
  }

  lemma WaitingIsPriced(r: Reaction, firstSeen: int, store: seq<Candle>, later: seq<Candle>, since: int, cfg: Config, now: int)
    requires Priced(r, firstSeen, store, since) && r.baselineTime.None?
    ensures Priced(Waiting(r, firstSeen, cfg, now), firstSeen, later, now)
  {
  }

  lemma StartIsPriced(stored: Option<Reaction>, firstSeen: int, store: seq<Candle>, now: int)
    requires stored.Some? ==> Priced(stored.value, firstSeen, store, now)
    ensures Priced(StartFrom(stored), firstSeen, store, now)
  {
    hide Bounds, Attained, Reaching, ReturnOf;
  }

  lemma EvaluatedIsPriced(stored: Option<Reaction>, before: seq<Candle>, since: int, firstSeen: int, pass: Pass)
    requires stored.Some? ==> Priced(stored.value, firstSeen, before, since)
    requires since <= pass.now && Grows(before, pass.store) && Evaluated(stored, firstSeen, pass.store, pass.cfg, pass.now).Ok?
    ensures Priced(Evaluated(stored, firstSeen, pass.store, pass.cfg, pass.now).value, firstSeen, pass.store, pass.now)
  {
    var r := StartFrom(stored);
    StartIsPriced(stored, firstSeen, before, since);
    assert r.baselineTime.Some? <==> r.baselinePrice.Some?;
    hide FirstClosed, Measure, Priced, Grows, StartFrom, Waiting;
    if r.baselineTime.Some? {
      MeasureIsPriced(r, firstSeen, before, since, pass.store, pass.cfg, pass.now);
    } else {
      var c := FirstClosed(pass.store, firstSeen, pass.now);
      if c.None? {
        WaitingIsPriced(r, firstSeen, before, pass.store, since, pass.cfg, pass.now);
      } else {
        BaselineIsPriced(c.value, r, firstSeen, before, since);
        OneGrows(c.value, pass.store);
        MeasureIsPriced(r.(baselineTime := Some(c.value.closeTime), baselinePrice := Some(c.value.close)), firstSeen, [c.value], since,
                        pass.store, pass.cfg, pass.now);
      }
    }
  }

  lemma OneGrows(c: Candle, store: seq<Candle>)
    requires c in store
    ensures Grows([c], store)
  {
  }

  // ---------- runs ----------

  /** After any passes over growing candles, for the last pass that evaluated: the baseline is the close of the candle
      it names; each return leads from it to the close of the candle its observation names; and over the candles
      from the baseline to a day later none rose above the recorded rise or fell below the recorded fall, each of
      which some candle reached unless it is nought. */
  lemma {:induction false} RunIsPriced(firstSeen: int, passes: seq<Pass>) returns (last: Pass)
    requires passes != [] && Progressing(passes) && RunPasses(firstSeen, passes).Some?
    ensures last in passes && Priced(RunPasses(firstSeen, passes).value, firstSeen, last.store, last.now)
    ensures last.now <= passes[|passes| - 1].now && Grows(last.store, passes[|passes| - 1].store)
    decreases |passes|
  {
    hide Evaluated, Consistent, Priced, Upsert, RunPasses;
    var n := |passes| - 1;
    var front, pass := passes[..n], passes[n];
    var stored := RunPasses(firstSeen, front);
    LastPass(firstSeen, passes);
    var before: seq<Candle>, since := [], pass.now;
    last := pass;
    if stored.Some? {
      NothingRun(firstSeen);
      var prev := RunIsPriced(firstSeen, front);
      before, since := prev.store, prev.now;
      var k :| 0 <= k < n && passes[k] == prev;
      if !Due(stored, pass.now) || Evaluated(stored, firstSeen, pass.store, pass.cfg, pass.now).Err? {
        last := prev;
        return;
      }
      var consistent := RunIsConsistent(firstSeen, front);
      UpsertIsPlain(stored.value, consistent.store, consistent.now, firstSeen, pass);
    } else {
      FirstUpsert(firstSeen, pass);
    }
    EvaluatedIsPriced(stored, before, since, firstSeen, pass);
  }

  lemma LastPass(firstSeen: int, passes: seq<Pass>)
    requires passes != []
    ensures RunPasses(firstSeen, passes) == RunPass(RunPasses(firstSeen, passes[..|passes| - 1]), firstSeen, passes[|passes| - 1])
  {
  }

  lemma FirstUpsert(firstSeen: int, pass: Pass)
    ensures var e := Evaluated(None, firstSeen, pass.store, pass.cfg, pass.now);
            RunPass(None, firstSeen, pass) == if e.Ok? then Some(e.value) else None
  {
    hide Evaluated;
  }
}
