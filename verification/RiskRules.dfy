/** What the risk engine's figures mean: its caps, its factors, and what each circumstance does to a plan. */
module RiskRules {
  import opened Domain
  import opened Rounding
  import opened Risk

  // ---------- news and volatility ----------

  ghost predicate CriticalNewsIsFresh(cfg: Config, s: Snapshot) {
    exists item :: item in s.assetNews + s.globalNews && item.critical && item.ageMinutes <= cfg.criticalMaxAge
  }

  lemma FreshMeans(cfg: Config, s: Snapshot)
    ensures CriticalNewsIsFresh(cfg, s) <==> FreshCritical(s.assetNews, cfg.criticalMaxAge) || FreshCritical(s.globalNews, cfg.criticalMaxAge)
  {
    if FreshCritical(s.assetNews, cfg.criticalMaxAge) {
      var i :| 0 <= i < |s.assetNews| && s.assetNews[i].critical && s.assetNews[i].ageMinutes <= cfg.criticalMaxAge;
      assert s.assetNews[i] in s.assetNews + s.globalNews;
    }
    if FreshCritical(s.globalNews, cfg.criticalMaxAge) {
      var i :| 0 <= i < |s.globalNews| && s.globalNews[i].critical && s.globalNews[i].ageMinutes <= cfg.criticalMaxAge;
      assert s.globalNews[i] in s.assetNews + s.globalNews;
    }
  }

  /** The reading used is that of the first timeframe of the order that has one. */
  lemma {:induction false} FirstAtrIsFirst(s: Snapshot, order: seq<Timeframe>)
    ensures FirstAtr(s, order).None? <==> forall t :: t in order ==> t !in s.timeframes || s.timeframes[t].atrPct.None?
    ensures FirstAtr(s, order).Some? ==>
              exists i :: && 0 <= i < |order| && order[i] in s.timeframes && s.timeframes[order[i]].atrPct == FirstAtr(s, order)
                          && forall j :: 0 <= j < i ==> order[j] !in s.timeframes || s.timeframes[order[j]].atrPct.None?
  {
    if order != [] && !(order[0] in s.timeframes && s.timeframes[order[0]].atrPct.Some?) {
      var rest := order[1..];
      FirstAtrIsFirst(s, rest);
      assert order == [order[0]] + rest;
      if FirstAtr(s, rest).Some? {
        var i :| && 0 <= i < |rest| && rest[i] in s.timeframes && s.timeframes[rest[i]].atrPct == FirstAtr(s, rest)
                 && forall j :: 0 <= j < i ==> rest[j] !in s.timeframes || s.timeframes[rest[j]].atrPct.None?;
        assert order[i + 1] == rest[i];
      }
    }
  }

  /** An hourly reading is the one that counts; without any there is none. */
  lemma HourlyReadingCounts(s: Snapshot)
    ensures H1 in s.timeframes && s.timeframes[H1].atrPct.Some? ==> PrimaryAtr(s) == s.timeframes[H1].atrPct
    ensures (forall t :: t in s.timeframes && !t.M1? ==> s.timeframes[t].atrPct.None?) <==> PrimaryAtr(s).None?
  {
    var order := [H1, M15, H4, M5, D1];
    FirstAtrIsFirst(s, order);
    assert order[0] == H1 && order[1] == M15 && order[2] == H4 && order[3] == M5 && order[4] == D1;
    assert forall t: Timeframe :: t in order <==> !t.M1?;
  }

  /** While critical news is fresh no entry may use more than the critical cap, nor more than the smaller one
      while the market is volatile. */
  lemma CriticalNewsCaps(cfg: Config, plan: Input)
    requires Validated(cfg) && !plan.action.NoEntry? && CriticalNewsIsFresh(cfg, plan.snapshot)
    ensures var s, most := plan.snapshot, Assess(cfg, plan).leverage.riskMaximum;
            && most <= cfg.criticalCap
            && (s.highVolatilityTag || (PrimaryAtr(s).Some? && PrimaryAtr(s).value >= cfg.highVolatilityAtr) ==> most <= cfg.criticalHighVolCap)
  {
    FreshMeans(cfg, plan.snapshot);
    LeverageInBounds(cfg, plan);
    hide Assess, PrimaryAtr, FreshCritical;
  }

  /** At least as volatile by every reading: the range, its percentile and the tag. */
  ghost predicate AsVolatile(calm: Snapshot, rough: Snapshot) {
    && PrimaryAtr(calm).Some? && PrimaryAtr(rough).Some? && PrimaryAtr(calm).value <= PrimaryAtr(rough).value
    && (VolatilityPercentile(calm).Some? ==>
          VolatilityPercentile(rough).Some? && VolatilityPercentile(calm).value <= VolatilityPercentile(rough).value)
    && (calm.highVolatilityTag ==> rough.highVolatilityTag)
  }

  /** More volatility never raises the risk maximum. */
  lemma VolatilityNeverRaises(cfg: Config, plan: Input, rough: Snapshot)
    requires Validated(cfg) && AsVolatile(plan.snapshot, rough)
    requires rough == plan.snapshot.(timeframes := rough.timeframes, highVolatilityTag := rough.highVolatilityTag)
    ensures RiskMaximum(cfg, plan.(snapshot := rough)) <= RiskMaximum(cfg, plan)
  {
    hide ByStop, ByVolatility, ByRegime, ByQuality, StopDistance, ByConfidence, PrimaryAtr, VolatilityPercentile;
    var s, stop := plan.snapshot, StopDistance(plan.referencePrice, plan.stops);
    NewsCapInBounds(cfg, s);
    NewsCapInBounds(cfg, rough);
    assert NewsCap(cfg, rough) <= NewsCap(cfg, s);
    var m, n := ByNews(cfg, NewsCap(cfg, rough)), ByNews(cfg, NewsCap(cfg, s));
    assert 0.0 <= m <= n;
    hide NewsCap, FreshCritical, Volatile, ByNews;
    var blocked := Blocked(plan);
    assert Blocked(plan.(snapshot := rough)) == blocked;
    hide Blocked;
    StepsNarrow(cfg, rough, stop, m);
    StepsAreMonotone(cfg, s, stop, m, n);
    var m1, n1 := ByStop(cfg, stop, m), ByStop(cfg, stop, n);
    RougherNarrows(cfg, s, rough, m1, n1);
    var m2, n2 := ByVolatility(cfg, rough, m1), ByVolatility(cfg, s, n1);
    RougherRegime(s, rough, m2, n2);
    var m3, n3 := ByRegime(rough, m2), ByRegime(s, n2);
    StepsAreMonotone(cfg, s, stop, m3, n3);
    var m4, n4 := ByConfidence(cfg, plan.confidence, m3), ByConfidence(cfg, plan.confidence, n3);
    ConfidenceKeepsSign(cfg, plan.confidence, m3);
    StepsAreMonotone(cfg, s, stop, m4, n4);
    SameQuality(s, rough, blocked, m4);
    ClampIsMonotone(Ceiling(cfg, plan.(snapshot := rough), stop), Ceiling(cfg, plan, stop), cfg.minLeverage, cfg.maxLeverage);
  }

  lemma SameQuality(s: Snapshot, t: Snapshot, blocked: bool, m: real)
    requires s.alignment == t.alignment && s.dataOk == t.dataOk
    ensures ByQuality(s, blocked, m) == ByQuality(t, blocked, m)
  {
  }

  lemma ConfidenceKeepsSign(cfg: Config, confidence: int, m: real)
    requires cfg.minLeverage >= 1 && m >= 0.0
    ensures ByConfidence(cfg, confidence, m) >= 0.0
  {
  }

  lemma RougherNarrows(cfg: Config, calm: Snapshot, rough: Snapshot, m: real, n: real)
    requires AsVolatile(calm, rough) && 0.0 <= m <= n && cfg.minLeverage >= 1
    ensures 0.0 <= ByVolatility(cfg, rough, m) <= ByVolatility(cfg, calm, n)
  {
    hide PrimaryAtr, VolatilityPercentile;
  }

  lemma RougherRegime(calm: Snapshot, rough: Snapshot, m: real, n: real)
    requires calm.regime == rough.regime && (calm.highVolatilityTag ==> rough.highVolatilityTag) && 0.0 <= m <= n
    ensures 0.0 <= ByRegime(rough, m) <= ByRegime(calm, n)
  {
  }

  /** A price away from a reference by a distance in percent of it, to either side. */
  predicate LiesAt(price: real, reference: real, d: real) {
    d >= 0.0 && ((price - reference) * 100.0 == d * reference || (reference - price) * 100.0 == d * reference)
  }

  predicate LiesWithin(price: real, reference: real, d: real) {
    -d * reference <= (price - reference) * 100.0 <= d * reference
  }

  /** No stop lies further from the reference than the distance used, and one lies exactly that far; there is
      none only without a reference or a stop away from it. */
  lemma StopsLieWithin(reference: real, stops: seq<PriceTarget>)
    ensures match StopDistance(reference, stops)
            case Some(d) => && reference > 0.0
                            && (forall s :: s in stops ==> LiesWithin(s.price, reference, d))
                            && exists s :: s in stops && LiesAt(s.price, reference, d)
            case None => reference <= 0.0 || forall s :: s in stops ==> s.price == reference
  {
    if reference > 0.0 {
      hide Furthest, Distance, LiesAt, LiesWithin;
      StopDistanceIsFurthest(reference, stops);
      var d := Furthest(stops, reference);
      forall s | s in stops
        ensures LiesWithin(s.price, reference, d) && (d <= 0.0 ==> s.price == reference)
      {
        DistanceWithin(s.price, reference, d);
      }
      if d > 0.0 {
        var s :| s in stops && Distance(s.price, reference) == d;
        DistanceMeans(s.price, reference);
      }
    }
  }

  lemma DistanceWithin(price: real, reference: Positive, d: real)
    requires Distance(price, reference) <= d
    ensures LiesWithin(price, reference, d) && (d <= 0.0 ==> price == reference)
  {
    hide Distance;
    DistanceMeans(price, reference);
    ScaledBy(Distance(price, reference), d, reference);
  }

  lemma DistanceMeans(price: real, reference: Positive)
    ensures LiesAt(price, reference, Distance(price, reference))
  {
    var away := Abs(price - reference);
    assert away / reference * reference == away;
  }

  /** A strong level within one percent, a resistance above a long or a support below a short. */
  predicate InTheWay(action: Action, reference: real, l: Level) {
    && 0.4 <= l.strength && -1.0 <= l.distancePct <= 1.0
    && match action
       case OpenLong => l.side.Resistance? && reference < l.price
       case OpenShort => l.side.Support? && l.price < reference
       case NoEntry => false
  }

  /** A plan is blocked exactly when some level is in its way. */
  lemma BlockedMeans(plan: Input)
    ensures Blocked(plan) <==> plan.referencePrice > 0.0 && exists l :: l in plan.snapshot.levels && InTheWay(plan.action, plan.referencePrice, l)
  {
    var levels := plan.snapshot.levels;
    if Blocked(plan) {
      var i :| 0 <= i < |levels| && Opposes(plan.action, plan.referencePrice, levels[i]) && Abs(levels[i].distancePct) <= 1.0;
      assert levels[i] in levels && InTheWay(plan.action, plan.referencePrice, levels[i]);
    }
    if plan.referencePrice > 0.0 && exists l :: l in levels && InTheWay(plan.action, plan.referencePrice, l) {
      var l :| l in levels && InTheWay(plan.action, plan.referencePrice, l);
      var i :| 0 <= i < |levels| && levels[i] == l;
      assert Opposes(plan.action, plan.referencePrice, levels[i]) && Abs(levels[i].distancePct) <= 1.0;
    }
  }

  // ---------- the ceiling as caps and factors ----------

  /** What a market leaves of the leverage: a share for each circumstance, all of them together. */
  function MarketShare(atrKnown: bool, highPercentile: bool, regime: Regime, tagged: bool): real {
    VolatilityShare(atrKnown, highPercentile) * RegimeShare(regime, tagged)
  }

  function VolatilityShare(atrKnown: bool, highPercentile: bool): real {
    (if atrKnown then 1.0 else 0.6) * (if highPercentile then 0.8 else 1.0)
  }

  function RegimeShare(regime: Regime, tagged: bool): real {
    (match regime case Trending => 1.0 case Breakout => 0.9 case Ranging => 0.8 case Uncertain => 0.6)
    * (if tagged then 0.85 else 1.0)
  }

  /** What weak agreement of the timeframes, a level in the way and poor data leave of it. */
  function QualityShare(aligned: bool, blocked: bool, dataOk: bool): real {
    (if aligned then 1.0 else 0.8) * (if blocked then 0.85 else 1.0) * (if dataOk then 1.0 else 0.7)
  }

  /** The leverage at which the furthest stop costs 35% of the margin, or twice the minimum without a stop. */
  ghost predicate StopAllows(cfg: Config, stop: Option<real>, most: real) {
    match stop
    case Some(d) => most * d == 35.0
    case None => most == (cfg.minLeverage * 2) as real
  }

  /** No cap of volatility lies below this one that does not apply. */
  ghost predicate VolatilityAllows(cfg: Config, atr: Option<real>, most: Option<real>) {
    var floor := cfg.minLeverage as real;
    most == if atr.None? then None
            else if cfg.extremeVolatilityAtr <= atr.value then Some(Max(8.0, floor))
            else if cfg.highVolatilityAtr <= atr.value then Some(Max(15.0, floor))
            else None
  }

  /** The most a confidence allows, if it limits anything. */
  function ConfidenceAllows(cfg: Config, confidence: int): Option<real> {
    if confidence < cfg.minConfidence then Some(cfg.minLeverage as real)
    else if confidence < 70 then Some(20.0)
    else None
  }

  function Part(m: real, share: real): real {
    m * share
  }

  function Capped(m: real, cap: Option<real>): real {
    match cap case None => m case Some(c) => if c < m then c else m
  }

  /** The ceiling is the news cap, within what the stop and the volatility allow, times the market's share,
      within what the confidence allows, times the share the quality of the data leaves. */
  lemma CeilingIsCapsAndShares(cfg: Config, plan: Input, stop: Option<real>, byStop: real, byVolatility: Option<real>)
    requires Validated(cfg) && (stop.Some? ==> stop.value > 0.0)
    requires StopAllows(cfg, stop, byStop) && VolatilityAllows(cfg, PrimaryAtr(plan.snapshot), byVolatility)
    ensures var s := plan.snapshot;
            var percentile := VolatilityPercentile(s);
            var market := MarketShare(PrimaryAtr(s).Some?, percentile.Some? && percentile.value >= 85.0, s.regime, s.highVolatilityTag);
            var quality := QualityShare(s.alignment >= 0.2 || s.alignment <= -0.2, Blocked(plan), s.dataOk);
            var limit := Capped(Capped(NewsCap(cfg, s) as real, Some(byStop)), byVolatility);
            Ceiling(cfg, plan, stop) == Part(Capped(Part(limit, market), ConfidenceAllows(cfg, plan.confidence)), quality)
  {
    hide PrimaryAtr, VolatilityPercentile, Blocked, NewsCap, MarketShare, QualityShare, Part;
    var s := plan.snapshot;
    NewsCapInBounds(cfg, s);
    var m0 := NewsCap(cfg, s) as real;
    assert ByNews(cfg, NewsCap(cfg, s)) == m0;
    hide ByNews, ByStop, ByVolatility, ByRegime, ByQuality, VolatilityAllows, StopAllows;
    StopAllowsThis(cfg, stop, m0, byStop);
    var m1 := ByStop(cfg, stop, m0);
    MarketTakesItsShare(cfg, s, m1, byVolatility);
    QualityTakesItsShare(s, Blocked(plan), ByConfidence(cfg, plan.confidence, ByRegime(s, ByVolatility(cfg, s, m1))));
  }

  lemma StopAllowsThis(cfg: Config, stop: Option<real>, m: real, most: real)
    requires (stop.Some? ==> stop.value > 0.0) && StopAllows(cfg, stop, most)
    ensures ByStop(cfg, stop, m) == Capped(m, Some(most))
  {
    if stop.Some? {
      assert most == MAX_LOSS_ON_MARGIN / stop.value;
    }
  }

  lemma MarketTakesItsShare(cfg: Config, s: Snapshot, m: real, cap: Option<real>)
    requires VolatilityAllows(cfg, PrimaryAtr(s), cap)
    ensures var percentile := VolatilityPercentile(s);
            ByRegime(s, ByVolatility(cfg, s, m))
            == Part(Capped(m, cap), MarketShare(PrimaryAtr(s).Some?, percentile.Some? && percentile.value >= 85.0, s.regime, s.highVolatilityTag))
  {
    hide PrimaryAtr, VolatilityPercentile, VolatilityShare, RegimeShare, VolatilityAllows, ByVolatility, ByRegime, Capped, Part, MarketShare;
    var percentile := VolatilityPercentile(s);
    var high := percentile.Some? && percentile.value >= 85.0;
    VolatilityTakesItsShare(cfg, s, m, cap);
    RegimeTakesItsShare(s, Part(Capped(m, cap), VolatilityShare(PrimaryAtr(s).Some?, high)));
    SharesMultiply(Capped(m, cap), PrimaryAtr(s).Some?, high, s.regime, s.highVolatilityTag);
  }

  lemma VolatilityTakesItsShare(cfg: Config, s: Snapshot, m: real, cap: Option<real>)
    requires VolatilityAllows(cfg, PrimaryAtr(s), cap)
    ensures var percentile := VolatilityPercentile(s);
            ByVolatility(cfg, s, m) == Part(Capped(m, cap), VolatilityShare(PrimaryAtr(s).Some?, percentile.Some? && percentile.value >= 85.0))
  {
    hide PrimaryAtr, VolatilityPercentile;
  }

  lemma RegimeTakesItsShare(s: Snapshot, m: real)
    ensures ByRegime(s, m) == Part(m, RegimeShare(s.regime, s.highVolatilityTag))
  {
  }

  lemma SharesMultiply(m: real, atrKnown: bool, highPercentile: bool, regime: Regime, tagged: bool)
    ensures Part(Part(m, VolatilityShare(atrKnown, highPercentile)), RegimeShare(regime, tagged))
         == Part(m, MarketShare(atrKnown, highPercentile, regime, tagged))
  {
    hide VolatilityShare, RegimeShare;
    var a, b := VolatilityShare(atrKnown, highPercentile), RegimeShare(regime, tagged);
    assert m * a * b == m * (a * b);
  }

  lemma QualityTakesItsShare(s: Snapshot, blocked: bool, m: real)
    ensures ByQuality(s, blocked, m) == Part(m, QualityShare(s.alignment >= 0.2 || s.alignment <= -0.2, blocked, s.dataOk))
  {
  }

  /** The risk maximum is the whole part of the ceiling, moved into the configured range. */
  lemma MaximumIsWholeCeiling(cfg: Config, plan: Input)
    requires Validated(cfg) && !plan.action.NoEntry?
    ensures var ceiling := Ceiling(cfg, plan, StopDistance(plan.referencePrice, plan.stops));
            var most := Assess(cfg, plan).leverage.riskMaximum;
            && (most as real <= ceiling || most == cfg.minLeverage)
            && (ceiling < (most + 1) as real || most == cfg.maxLeverage)
            && cfg.minLeverage <= most <= cfg.maxLeverage
  {
    hide Ceiling, StopDistance, Allocation, Recommended;
  }

  /** A plan that enters nothing gets no leverage and no capital, and one that asks for no capital gets none. */
  lemma NothingForNoEntry(cfg: Config, plan: Input)
    ensures plan.action.NoEntry? ==> Assess(cfg, plan) == Assessment(LeveragePlan(0, 0, 0), 0.0, None)
    ensures plan.llmAllocation <= 0.0 ==> Assess(cfg, plan).allocationPct == 0.0
  {
    hide RiskMaximum, StopDistance, Recommended;
  }

  /** A plan gets the leverage it asks for within the range, and the nearer end of the range outside it. */
  lemma RecommendedIsNearest(cfg: Config, plan: Input)
    requires Validated(cfg) && !plan.action.NoEntry?
    ensures var l := Assess(cfg, plan).leverage;
            && l.llmSuggested == plan.llmLeverage
            && (plan.llmLeverage <= cfg.minLeverage ==> l.recommended == cfg.minLeverage)
            && (plan.llmLeverage >= l.riskMaximum ==> l.recommended == l.riskMaximum)
            && (cfg.minLeverage <= plan.llmLeverage <= l.riskMaximum ==> l.recommended == plan.llmLeverage)
  {
    LeverageInBounds(cfg, plan);
    hide RiskMaximum, StopDistance, Allocation;
  }

  // ---------- the size ----------

  /** What little confidence, a maximum at the minimum and poor data leave of a size. */
  function SizeShare(unsure: bool, cornered: bool, dataOk: bool): real {
    (if unsure then 0.7 else 1.0) * (if cornered then 0.8 else 1.0) * (if dataOk then 1.0 else 0.7)
  }

  /** The size asked for, or the one whose stop-out costs the budget, within the maximum. */
  ghost predicate SizeBeforeScaling(cfg: Config, plan: Input, leverage: int, stop: Option<real>, size: real) {
    if cfg.riskPerTradePct > 0.0 && stop.Some? then
      exists budgeted {:trigger StopCost(budgeted, leverage, stop.value)} ::
        StopCost(budgeted, leverage, stop.value) == cfg.riskPerTradePct && size == Min(budgeted, cfg.maxAllocPct)
    else size == Min(plan.llmAllocation, cfg.maxAllocPct)
  }

  /** The allocation of every entry that asks for one is its size times the share its circumstances leave, to
      within the four roundings, or half a percent where a budgeted size would fall below it. */
  lemma AllocationIsScaledSize(cfg: Config, plan: Input) returns (size: real)
    requires Validated(cfg) && !plan.action.NoEntry? && plan.llmAllocation > 0.0
    ensures var a := Assess(cfg, plan);
            && SizeBeforeScaling(cfg, plan, a.leverage.recommended, a.stopDistance, size)
            && var scaled := Part(size, SizeShare(plan.confidence < 65, a.leverage.riskMaximum == cfg.minLeverage, plan.snapshot.dataOk));
               || -0.02 <= a.allocationPct - scaled <= 0.02
               || (cfg.riskPerTradePct > 0.0 && scaled < 0.52 && a.allocationPct == 0.5)
  {
    LeverageInBounds(cfg, plan);
    hide RiskMaximum, StopDistance, RiskSized, Scaled, Round2, Recommended, NewsCap, SizeShare, StopCost, FloorApplies, Part;
    var a := Assess(cfg, plan);
    var l, riskMax, stop := a.leverage.recommended, a.leverage.riskMaximum, a.stopDistance;
    size := Requested(cfg, plan.llmAllocation, l, stop);
    if stop.Some? {
      var sized := RiskSized(cfg.riskPerTradePct, l, stop.value);
      assert sized.Some? ==> StopCost(sized.value, l, stop.value) == cfg.riskPerTradePct;
    }
    hide Requested;
    var unsure, cornered, dataOk := plan.confidence < 65, riskMax <= cfg.minLeverage, plan.snapshot.dataOk;
    var scaled := ScaledRequest(cfg, plan.llmAllocation, plan.confidence, dataOk, l, riskMax, stop);
    ScalingsAddUp(size, unsure, cornered, dataOk);
    FloorMeans(cfg, scaled);
    assert scaled == Scaled(Scaled(Scaled(size, unsure, 0.7), cornered, 0.8), !dataOk, 0.7);
    ConstantsAreRound();
    Round2Error(scaled);
  }

  lemma FloorMeans(cfg: Config, scaled: real)
    ensures FloorApplies(cfg, scaled) <==> cfg.riskPerTradePct > 0.0 && scaled < 0.5
  {
  }

  lemma ScalingsAddUp(size: real, unsure: bool, cornered: bool, dataOk: bool)
    ensures -0.015 <= Scaled(Scaled(Scaled(size, unsure, 0.7), cornered, 0.8), !dataOk, 0.7) - Part(size, SizeShare(unsure, cornered, dataOk)) <= 0.015
  {
    hide Round2;
    Round2Error(size * 0.7);
    var first := Scaled(size, unsure, 0.7);
    Round2Error(first * 0.8);
    var second := Scaled(first, cornered, 0.8);
    Round2Error(second * 0.7);
    var share := SizeShare(unsure, cornered, dataOk);
    match (unsure, cornered, dataOk) {
      case (true, true, true) => assert Part(size, share) == size * 0.56;
      case (true, true, false) => assert Part(size, share) == size * 0.392;
      case (true, false, true) => assert Part(size, share) == size * 0.7;
      case (true, false, false) => assert Part(size, share) == size * 0.49;
      case (false, true, true) => assert Part(size, share) == size * 0.8;
      case (false, true, false) => assert Part(size, share) == size * 0.56;
      case (false, false, _) => assert Part(size, share) == size * (if dataOk then 1.0 else 0.7);
    }
  }
}
