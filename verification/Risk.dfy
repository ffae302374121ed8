/** The risk engine: how much leverage and how large a position a plan is allowed. */
module Risk {
  import opened Domain
  import opened Rounding

  datatype Timeframe = M1 | M5 | M15 | H1 | H4 | D1

  datatype Regime = Trending | Ranging | Breakout | Uncertain

  datatype Side = Support | Resistance

  datatype NewsItem = NewsItem(critical: bool, ageMinutes: int)

  datatype Level = Level(side: Side, price: real, strength: real, distancePct: real)

  datatype Reading = Reading(atrPct: Option<real>, atrPercentile: Option<real>, volPercentile: Option<real>)

  datatype Snapshot = Snapshot(assetNews: seq<NewsItem>, globalNews: seq<NewsItem>, timeframes: map<Timeframe, Reading>,
                               regime: Regime, highVolatilityTag: bool, alignment: real, levels: seq<Level>, dataOk: bool)

  datatype Action = OpenLong | OpenShort | NoEntry

  datatype Input = Input(action: Action, confidence: int, llmLeverage: int, llmAllocation: real, referencePrice: real,
                         stops: seq<PriceTarget>, snapshot: Snapshot)

  datatype Config = Config(minLeverage: int, maxLeverage: int, maxAllocPct: real, highVolatilityAtr: real, extremeVolatilityAtr: real,
                           minConfidence: int, riskPerTradePct: real,
                           criticalCap: int, criticalHighVolCap: int, criticalMaxAge: int)

  /** What the configuration loader accepts. */
  predicate Validated(cfg: Config) {
    && 1 <= cfg.minLeverage <= cfg.criticalHighVolCap <= cfg.criticalCap <= cfg.maxLeverage <= 125
    && 0.0 < cfg.maxAllocPct <= 100.0
  }

  datatype LeveragePlan = LeveragePlan(llmSuggested: int, riskMaximum: int, recommended: int)

  datatype Assessment = Assessment(leverage: LeveragePlan, allocationPct: real, stopDistance: Option<real>)

  const MAX_LOSS_ON_MARGIN := 35.0

  const MIN_RISK_SIZED_ALLOCATION := 0.5

  // ---------- readings ----------

  function Distance(price: real, reference: Positive): real {
    Abs(price - reference) / reference * 100.0
  }

  function Furthest(stops: seq<PriceTarget>, reference: Positive): real {
    if stops == [] then 0.0
    else Max(Furthest(stops[..|stops| - 1], reference), Distance(stops[|stops| - 1].price, reference))
  }

  /** The furthest stop in percent of the reference price, when there is one away from it. */
  function StopDistance(reference: real, stops: seq<PriceTarget>): (d: Option<real>)
    ensures d.Some? ==> d.value > 0.0
  {
    if reference <= 0.0 || Furthest(stops, reference) <= 0.0 then None else Some(Furthest(stops, reference))
  }

  method StopDistancePct(reference: real, stops: seq<PriceTarget>) returns (d: Option<real>)
    ensures d == StopDistance(reference, stops)
  {
    hide Distance;
    if reference <= 0.0 || |stops| == 0 {
      return None;
    }
    var worst := 0.0;
    for i := 0 to |stops|
      invariant worst == Furthest(stops[..i], reference)
    {
      assert stops[..i + 1][..i] == stops[..i];
      var away := Distance(stops[i].price, reference);
      if away > worst {
        worst := away;
      }
    }
    assert stops[..|stops|] == stops;
    if worst <= 0.0 {
      return None;
    }
    return Some(worst);
  }

  /** No stop lies further than the distance, and one lies exactly there. */
  lemma {:induction false} StopDistanceIsFurthest(reference: Positive, stops: seq<PriceTarget>)
    ensures forall s :: s in stops ==> Distance(s.price, reference) <= Furthest(stops, reference)
    ensures Furthest(stops, reference) > 0.0 ==> exists s :: s in stops && Distance(s.price, reference) == Furthest(stops, reference)
    decreases |stops|
  {
    if stops != [] {
      StopDistanceIsFurthest(reference, stops[..|stops| - 1]);
      assert stops == stops[..|stops| - 1] + [stops[|stops| - 1]];
    }
  }

  function FirstAtr(s: Snapshot, order: seq<Timeframe>): Option<real> {
    if order == [] then None
    else if order[0] in s.timeframes && s.timeframes[order[0]].atrPct.Some? then s.timeframes[order[0]].atrPct
    else FirstAtr(s, order[1..])
  }

  /** The hourly reading, or the first there is of the nearby timeframes. */
  function PrimaryAtr(s: Snapshot): Option<real> {
    FirstAtr(s, [H1, M15, H4, M5, D1])
  }

  function FirstPercentile(s: Snapshot, order: seq<Timeframe>): Option<real> {
    if order == [] then None
    else if order[0] in s.timeframes && s.timeframes[order[0]].atrPercentile.Some? then s.timeframes[order[0]].atrPercentile
    else if order[0] in s.timeframes && s.timeframes[order[0]].volPercentile.Some? then s.timeframes[order[0]].volPercentile
    else FirstPercentile(s, order[1..])
  }

  function VolatilityPercentile(s: Snapshot): Option<real> {
    FirstPercentile(s, [H1, H4, M15])
  }

  /** A level that stands against the trade, ahead of the price and strong enough. */
  predicate Opposes(action: Action, reference: real, l: Level) {
    && l.strength >= 0.4
    && (action.OpenLong? ==> l.side.Resistance? && l.price > reference)
    && (action.OpenShort? ==> l.side.Support? && l.price < reference)
  }

  ghost predicate Blocked(plan: Input) {
    && !plan.action.NoEntry? && plan.referencePrice > 0.0
    && exists i :: 0 <= i < |plan.snapshot.levels| && Opposes(plan.action, plan.referencePrice, plan.snapshot.levels[i])
                   && Abs(plan.snapshot.levels[i].distancePct) <= 1.0
  }

  method OpposingLevelNearby(plan: Input) returns (blocked: bool)
    ensures blocked == Blocked(plan)
  {
    if plan.action.NoEntry? || plan.referencePrice <= 0.0 {
      return false;
    }
    var want := if plan.action.OpenShort? then Support else Resistance;
    var nearest: Option<real> := None;
    var levels := plan.snapshot.levels;
    for i := 0 to |levels|
      invariant nearest.None? ==> forall k :: 0 <= k < i ==> !Opposes(plan.action, plan.referencePrice, levels[k])
      invariant nearest.Some? ==>
          && (forall k :: 0 <= k < i && Opposes(plan.action, plan.referencePrice, levels[k]) ==> nearest.value <= Abs(levels[k].distancePct))
          && (exists k :: 0 <= k < i && Opposes(plan.action, plan.referencePrice, levels[k]) && nearest.value == Abs(levels[k].distancePct))
    {
      var l := levels[i];
      if l.side != want || l.strength < 0.4 {
        continue;
      }
      if plan.action.OpenLong? && l.price <= plan.referencePrice {
        continue;
      }
      if plan.action.OpenShort? && l.price >= plan.referencePrice {
        continue;
      }
      if nearest.None? || Abs(l.distancePct) < nearest.value {
        nearest := Some(Abs(l.distancePct));
      }
    }
    return nearest.Some? && nearest.value <= 1.0;
  }

  // ---------- news ----------

  ghost predicate FreshCritical(items: seq<NewsItem>, maxAge: int) {
    exists i :: 0 <= i < |items| && items[i].critical && items[i].ageMinutes <= maxAge
  }

  predicate Volatile(cfg: Config, s: Snapshot) {
    (PrimaryAtr(s).Some? && PrimaryAtr(s).value >= cfg.highVolatilityAtr) || s.highVolatilityTag
  }

  ghost function NewsCap(cfg: Config, s: Snapshot): int {
    if !FreshCritical(s.assetNews, cfg.criticalMaxAge) && !FreshCritical(s.globalNews, cfg.criticalMaxAge) then cfg.maxLeverage
    else if Volatile(cfg, s) then cfg.criticalHighVolCap
    else cfg.criticalCap
  }

  // ---------- the leverage ceiling ----------

  function ByNews(cfg: Config, cap: int): real {
    (if cap < cfg.maxLeverage then cap else cfg.maxLeverage) as real
  }

  function ByStop(cfg: Config, stop: Option<real>, m: real): real
    requires stop.Some? ==> stop.value > 0.0
  {
    if stop.Some? then Min(m, MAX_LOSS_ON_MARGIN / stop.value) else Min(m, (cfg.minLeverage * 2) as real)
  }

  function ByVolatility(cfg: Config, s: Snapshot, m: real): real {
    var floor := cfg.minLeverage as real;
    var atr := PrimaryAtr(s);
    var byAtr := if atr.None? then m * 0.6
                 else if atr.value >= cfg.extremeVolatilityAtr then Min(m, Max(floor, 8.0))
                 else if atr.value >= cfg.highVolatilityAtr then Min(m, Max(floor, 15.0))
                 else m;
    var p := VolatilityPercentile(s);
    if p.Some? && p.value >= 85.0 then byAtr * 0.8 else byAtr
  }

  function ByRegime(s: Snapshot, m: real): real {
    var byRegime := if s.regime.Uncertain? then m * 0.6 else if s.regime.Ranging? then m * 0.8
                    else if s.regime.Breakout? then m * 0.9 else m;
    if s.highVolatilityTag then byRegime * 0.85 else byRegime
  }

  function ByConfidence(cfg: Config, confidence: int, m: real): real {
    if confidence < cfg.minConfidence then Min(m, cfg.minLeverage as real)
    else if confidence < 70 then Min(m, 20.0)
    else m
  }

  function ByQuality(s: Snapshot, blocked: bool, m: real): real {
    var byAlignment := if Abs(s.alignment) < 0.2 then m * 0.8 else m;
    var byLevel := if blocked then byAlignment * 0.85 else byAlignment;
    if s.dataOk then byLevel else byLevel * 0.7
  }

  ghost function Ceiling(cfg: Config, plan: Input, stop: Option<real>): real
    requires stop.Some? ==> stop.value > 0.0
  {
    var s := plan.snapshot;
    var m := ByRegime(s, ByVolatility(cfg, s, ByStop(cfg, stop, ByNews(cfg, NewsCap(cfg, s)))));
    ByQuality(s, Blocked(plan), ByConfidence(cfg, plan.confidence, m))
  }

  function Clamp(x: int, low: int, high: int): int {
    var atLeast := if x < low then low else x;
    if atLeast > high then high else atLeast
  }

  ghost function RiskMaximum(cfg: Config, plan: Input): int {
    Clamp(Ceiling(cfg, plan, StopDistance(plan.referencePrice, plan.stops)).Floor, cfg.minLeverage, cfg.maxLeverage)
  }

  function Recommended(cfg: Config, asked: int, riskMax: int): int {
    var wanted := if asked <= 0 then cfg.minLeverage else asked;
    var capped := if wanted > riskMax then riskMax else wanted;
    if capped < cfg.minLeverage then cfg.minLeverage else capped
  }

  // ---------- the allocation ----------

  /** The share of capital whose stop-out costs the budget. */
  function RiskSized(budget: real, leverage: int, stop: real): (a: Option<real>)
    ensures a.Some? <==> budget > 0.0 && leverage > 0 && stop > 0.0
    ensures a.Some? ==> a.value > 0.0 && StopCost(a.value, leverage, stop) == budget
  {
    if budget <= 0.0 || leverage <= 0 || stop <= 0.0 then None
    else
      BudgetedShare(budget, leverage as real * stop);
      assert leverage as real * stop > 0.0;
      Some(budget * 100.0 / (leverage as real * stop))
  }

  /** What hitting the stop costs, in percent of capital. */
  function StopCost(allocation: real, leverage: int, stop: real): real {
    allocation * (leverage as real * stop) / 100.0
  }

  lemma BudgetedShare(budget: real, exposure: real)
    requires budget > 0.0
    ensures exposure > 0.0 ==> budget * 100.0 / exposure > 0.0 && budget * 100.0 / exposure * exposure / 100.0 == budget
  {
  }

  /** The size before any scaling: what was asked, or what the risk budget makes of it, within the maximum. */
  function Requested(cfg: Config, asked: real, leverage: int, stop: Option<real>): real {
    var sized := if stop.Some? then RiskSized(cfg.riskPerTradePct, leverage, stop.value) else None;
    Min(if sized.Some? then sized.value else asked, cfg.maxAllocPct)
  }

  function Scaled(a: real, applies: bool, factor: real): real {
    if applies then Round2(a * factor) else a
  }

  /** What the scalings leave of the request. */
  function ScaledRequest(cfg: Config, asked: real, confidence: int, dataOk: bool, leverage: int, riskMax: int, stop: Option<real>): real {
    var requested := Requested(cfg, asked, leverage, stop);
    Scaled(Scaled(Scaled(requested, confidence < 65, 0.7), riskMax <= cfg.minLeverage, 0.8), !dataOk, 0.7)
  }

  /** The scaled size of a risk-budgeted entry fell below half a percent. */
  predicate FloorApplies(cfg: Config, scaled: real) {
    cfg.riskPerTradePct > 0.0 && scaled < MIN_RISK_SIZED_ALLOCATION
  }

  function Allocation(cfg: Config, asked: real, confidence: int, dataOk: bool, leverage: int, riskMax: int, stop: Option<real>): real {
    if asked <= 0.0 then 0.0
    else
      var scaled := ScaledRequest(cfg, asked, confidence, dataOk, leverage, riskMax, stop);
      Round2(if FloorApplies(cfg, scaled) then MIN_RISK_SIZED_ALLOCATION else scaled)
  }

  ghost function Assess(cfg: Config, plan: Input): Assessment {
    if plan.action.NoEntry? then Assessment(LeveragePlan(0, 0, 0), 0.0, None)
    else
      var stop := StopDistance(plan.referencePrice, plan.stops);
      var riskMax := RiskMaximum(cfg, plan);
      var recommended := Recommended(cfg, plan.llmLeverage, riskMax);
      Assessment(LeveragePlan(plan.llmLeverage, riskMax, recommended),
                 Allocation(cfg, plan.llmAllocation, plan.confidence, plan.snapshot.dataOk, recommended, riskMax, stop), stop)
  }

  class Engine {
    var cfg: Config

    constructor (cfg: Config)
      ensures this.cfg == cfg
    {
      this.cfg := cfg;
    }

    method SetConfig(cfg: Config)
      modifies this
      ensures this.cfg == cfg
    {
      this.cfg := cfg;
    }

    method NewsLeverageCap(s: Snapshot) returns (cap: int)
      ensures cap == NewsCap(cfg, s)
    {
      var critical := HasFreshCritical(s.assetNews, cfg.criticalMaxAge);
      if !critical {
        critical := HasFreshCritical(s.globalNews, cfg.criticalMaxAge);
      }
      if !critical {
        return cfg.maxLeverage;
      }
      return if Volatile(cfg, s) then cfg.criticalHighVolCap else cfg.criticalCap;
    }

    /** Narrows the allowed leverage step by step. */
    method LeverageCeiling(plan: Input, stop: Option<real>) returns (maxLev: real)
      requires stop.Some? ==> stop.value > 0.0
      ensures maxLev == Ceiling(cfg, plan, stop)
    {
      hide Blocked, NewsCap, ByRegime, ByVolatility, ByStop;
      var s := plan.snapshot;
      maxLev := cfg.maxLeverage as real;
      var newsCap := NewsLeverageCap(s);
      if newsCap < cfg.maxLeverage {
        maxLev := newsCap as real;
      }
      maxLev := NarrowByStop(cfg, stop, maxLev);
      maxLev := NarrowByMarket(cfg, s, maxLev);
      if plan.confidence < cfg.minConfidence {
        maxLev := Min(maxLev, cfg.minLeverage as real);
      } else if plan.confidence < 70 {
        maxLev := Min(maxLev, 20.0);
      }
      if Abs(s.alignment) < 0.2 {
        maxLev := maxLev * 0.8;
      }
      var blocked := OpposingLevelNearby(plan);
      if blocked {
        maxLev := maxLev * 0.85;
      }
      if !s.dataOk {
        maxLev := maxLev * 0.7;
      }
    }

    /** Sizes a plan: the leverage range, the leverage to use and the share of capital. */
    method Evaluate(plan: Input) returns (a: Assessment)
      ensures a == Assess(cfg, plan)
    {
      hide Ceiling, Allocation, StopDistance;
      if plan.action.NoEntry? {
        return Assessment(LeveragePlan(0, 0, 0), 0.0, None);
      }
      var stop := StopDistancePct(plan.referencePrice, plan.stops);
      var maxLev := LeverageCeiling(plan, stop);
      var riskMax := maxLev.Floor;
      if riskMax < cfg.minLeverage {
        riskMax := cfg.minLeverage;
      }
      if riskMax > cfg.maxLeverage {
        riskMax := cfg.maxLeverage;
      }
      var recommended := plan.llmLeverage;
      if recommended <= 0 {
        recommended := cfg.minLeverage;
      }
      if recommended > riskMax {
        recommended := riskMax;
      }
      if recommended < cfg.minLeverage {
        recommended := cfg.minLeverage;
      }
      var allocation := SizePosition(plan, recommended, riskMax, stop);
      return Assessment(LeveragePlan(plan.llmLeverage, riskMax, recommended), allocation, stop);
    }

    method SizePosition(plan: Input, leverage: int, riskMax: int, stop: Option<real>) returns (alloc: real)
      ensures alloc == Allocation(cfg, plan.llmAllocation, plan.confidence, plan.snapshot.dataOk, leverage, riskMax, stop)
    {
      hide Round2;
      alloc := plan.llmAllocation;
      if alloc <= 0.0 {
        return 0.0;
      }
      if cfg.riskPerTradePct > 0.0 && stop.Some? {
        var sized := RiskSized(cfg.riskPerTradePct, leverage, stop.value);
        if sized.Some? {
          alloc := sized.value;
        }
      }
      if alloc > cfg.maxAllocPct {
        alloc := cfg.maxAllocPct;
      }
      if plan.confidence < 65 {
        alloc := Round2(alloc * 0.7);
      }
      if riskMax <= cfg.minLeverage {
        alloc := Round2(alloc * 0.8);
      }
      if !plan.snapshot.dataOk {
        alloc := Round2(alloc * 0.7);
      }
      if cfg.riskPerTradePct > 0.0 && alloc < MIN_RISK_SIZED_ALLOCATION {
        alloc := MIN_RISK_SIZED_ALLOCATION;
      }
      return Round2(alloc);
    }
  }

  method HasFreshCritical(items: seq<NewsItem>, maxAge: int) returns (found: bool)
    ensures found == FreshCritical(items, maxAge)
  {
    for i := 0 to |items|
      invariant forall k :: 0 <= k < i ==> !(items[k].critical && items[k].ageMinutes <= maxAge)
    {
      if items[i].critical && items[i].ageMinutes <= maxAge {
        return true;
      }
    }
    return false;
  }

  method NarrowByStop(cfg: Config, stop: Option<real>, start: real) returns (maxLev: real)
    requires stop.Some? ==> stop.value > 0.0
    ensures maxLev == ByStop(cfg, stop, start)
  {
    maxLev := start;
    if stop.Some? {
      var byStop := MAX_LOSS_ON_MARGIN / stop.value;
      if byStop < maxLev {
        maxLev := byStop;
      }
    } else {
      maxLev := Min(maxLev, (cfg.minLeverage * 2) as real);
    }
  }

  method NarrowByMarket(cfg: Config, s: Snapshot, start: real) returns (maxLev: real)
    ensures maxLev == ByRegime(s, ByVolatility(cfg, s, start))
  {
    hide PrimaryAtr, VolatilityPercentile;
    maxLev := start;
    var atr := PrimaryAtr(s);
    if atr.Some? {
      if atr.value >= cfg.extremeVolatilityAtr {
        maxLev := Min(maxLev, Max(cfg.minLeverage as real, 8.0));
      } else if atr.value >= cfg.highVolatilityAtr {
        maxLev := Min(maxLev, Max(cfg.minLeverage as real, 15.0));
      }
    } else {
      maxLev := maxLev * 0.6;
    }
    var p := VolatilityPercentile(s);
    if p.Some? && p.value >= 85.0 {
      maxLev := maxLev * 0.8;
    }
    match s.regime {
      case Uncertain => maxLev := maxLev * 0.6;
      case Ranging => maxLev := maxLev * 0.8;
      case Breakout => maxLev := maxLev * 0.9;
      case Trending =>
    }
    if s.highVolatilityTag {
      maxLev := maxLev * 0.85;
    }
  }

  // ---------- what an assessment guarantees ----------

  /** Every narrowing step lowers a non-negative ceiling and preserves order. */
  lemma StepsNarrow(cfg: Config, s: Snapshot, stop: Option<real>, m: real)
    requires cfg.minLeverage >= 1 && m >= 0.0 && (stop.Some? ==> stop.value > 0.0)
    ensures 0.0 <= ByStop(cfg, stop, m) <= m
    ensures 0.0 <= ByVolatility(cfg, s, m) <= m
    ensures 0.0 <= ByRegime(s, m) <= m
    ensures forall blocked :: 0.0 <= ByQuality(s, blocked, m) <= m
    ensures stop.Some? ==> ByStop(cfg, stop, m) <= MAX_LOSS_ON_MARGIN / stop.value
  {
    hide PrimaryAtr, VolatilityPercentile;
    if stop.Some? {
      PositiveQuotient(stop.value);
    }
  }

  lemma PositiveQuotient(d: real)
    requires d > 0.0
    ensures MAX_LOSS_ON_MARGIN / d > 0.0 && MAX_LOSS_ON_MARGIN / d * d == MAX_LOSS_ON_MARGIN
  {
  }

  lemma StepsAreMonotone(cfg: Config, s: Snapshot, stop: Option<real>, m: real, n: real)
    requires 0.0 <= m <= n && (stop.Some? ==> stop.value > 0.0)
    ensures ByStop(cfg, stop, m) <= ByStop(cfg, stop, n)
    ensures ByVolatility(cfg, s, m) <= ByVolatility(cfg, s, n)
    ensures ByRegime(s, m) <= ByRegime(s, n)
    ensures forall blocked :: ByQuality(s, blocked, m) <= ByQuality(s, blocked, n)
    ensures forall confidence :: ByConfidence(cfg, confidence, m) <= ByConfidence(cfg, confidence, n)
  {
    hide PrimaryAtr, VolatilityPercentile;
  }

  /** The news cap stays within the configured bounds. */
  lemma NewsCapInBounds(cfg: Config, s: Snapshot)
    requires Validated(cfg)
    ensures cfg.minLeverage <= NewsCap(cfg, s) <= cfg.maxLeverage
  {
  }

  /** The ceiling never exceeds the news cap, nor what the stop allows. */
  lemma CeilingIsBounded(cfg: Config, plan: Input, stop: Option<real>)
    requires Validated(cfg) && (stop.Some? ==> stop.value > 0.0)
    ensures 0.0 <= Ceiling(cfg, plan, stop) <= NewsCap(cfg, plan.snapshot) as real
    ensures stop.Some? ==> Ceiling(cfg, plan, stop) <= MAX_LOSS_ON_MARGIN / stop.value
  {
    hide NewsCap, Blocked, ByStop, ByVolatility, ByRegime, ByQuality;
    var s := plan.snapshot;
    NewsCapInBounds(cfg, s);
    var m0 := ByNews(cfg, NewsCap(cfg, s));
    StepsNarrow(cfg, s, stop, m0);
    var m1 := ByStop(cfg, stop, m0);
    StepsNarrow(cfg, s, stop, m1);
    var m2 := ByVolatility(cfg, s, m1);
    StepsNarrow(cfg, s, stop, m2);
    var m3 := ByRegime(s, m2);
    StepsNarrow(cfg, s, stop, ByConfidence(cfg, plan.confidence, m3));
  }

  /** For every entry: the recommended leverage lies between the minimum and the risk maximum, and that
      within the news cap. */
  lemma LeverageInBounds(cfg: Config, plan: Input)
    requires Validated(cfg) && !plan.action.NoEntry?
    ensures var l := Assess(cfg, plan).leverage;
            cfg.minLeverage <= l.recommended <= l.riskMaximum <= NewsCap(cfg, plan.snapshot) <= cfg.maxLeverage
  {
    hide Ceiling, Allocation, NewsCap, StopDistance;
    NewsCapInBounds(cfg, plan.snapshot);
    CeilingIsBounded(cfg, plan, StopDistance(plan.referencePrice, plan.stops));
  }

  /** What hitting a stop costs in percent of the margin. */
  function LossOnMargin(leverage: int, stop: real): real {
    leverage as real * stop
  }

  lemma LossWithinBound(leverage: int, stop: real, bound: real)
    requires stop > 0.0 && bound == MAX_LOSS_ON_MARGIN / stop && leverage as real <= bound
    ensures LossOnMargin(leverage, stop) <= MAX_LOSS_ON_MARGIN
  {
    PositiveQuotient(stop);
    ScaledBy(leverage as real, bound, stop);
  }

  /** Hitting the furthest stop costs at most 35% of the margin, or what the minimum leverage makes of it. */
  lemma StopCostsAtMost(cfg: Config, plan: Input)
    requires Validated(cfg) && !plan.action.NoEntry? && Assess(cfg, plan).stopDistance.Some?
    ensures var a := Assess(cfg, plan);
            var d := a.stopDistance.value;
            LossOnMargin(a.leverage.recommended, d) <= Max(MAX_LOSS_ON_MARGIN, LossOnMargin(cfg.minLeverage, d))
  {
    hide Ceiling, Allocation, NewsCap, StopDistance, LossOnMargin;
    var stop := StopDistance(plan.referencePrice, plan.stops);
    CeilingIsBounded(cfg, plan, stop);
    LeverageInBounds(cfg, plan);
    var l, d := Assess(cfg, plan).leverage.recommended, stop.value;
    if l > cfg.minLeverage {
      LossWithinBound(l, d, MAX_LOSS_ON_MARGIN / d);
    }
  }

  lemma ScaledBy(x: real, y: real, d: real)
    requires x <= y && d >= 0.0
    ensures x * d <= y * d
  {
  }

  lemma ClampIsMonotone(x: real, y: real, low: int, high: int)
    requires x <= y
    ensures Clamp(x.Floor, low, high) <= Clamp(y.Floor, low, high)
  {
  }

  /** More confidence never lowers the risk maximum. */
  lemma ConfidenceNeverLowers(cfg: Config, plan: Input, confidence: int)
    requires Validated(cfg) && plan.confidence <= confidence
    ensures RiskMaximum(cfg, plan) <= RiskMaximum(cfg, plan.(confidence := confidence))
  {
    hide NewsCap, ByStop, ByVolatility, ByRegime, ByQuality, StopDistance;
    var s, stop, more := plan.snapshot, StopDistance(plan.referencePrice, plan.stops), plan.(confidence := confidence);
    NewsCapInBounds(cfg, s);
    var m0 := ByNews(cfg, NewsCap(cfg, s));
    StepsNarrow(cfg, s, stop, m0);
    var m1 := ByStop(cfg, stop, m0);
    StepsNarrow(cfg, s, stop, m1);
    var m2 := ByVolatility(cfg, s, m1);
    StepsNarrow(cfg, s, stop, m2);
    var m3 := ByRegime(s, m2);
    var before, after := ByConfidence(cfg, plan.confidence, m3), ByConfidence(cfg, confidence, m3);
    assert Blocked(plan) == Blocked(more);
    if before <= after {
      StepsAreMonotone(cfg, s, stop, before, after);
      ClampIsMonotone(Ceiling(cfg, plan, stop), Ceiling(cfg, more, stop), cfg.minLeverage, cfg.maxLeverage);
    } else {
      // only a minimum leverage above 20 lets the confidence cap below it, and the floor restores it
      StepsNarrow(cfg, s, stop, before);
      assert Ceiling(cfg, plan, stop) <= cfg.minLeverage as real;
    }
  }

  /** A further stop never raises the risk maximum. */
  lemma FurtherStopNeverRaises(cfg: Config, plan: Input, stops: seq<PriceTarget>)
    requires Validated(cfg)
    requires var near, far := StopDistance(plan.referencePrice, plan.stops), StopDistance(plan.referencePrice, stops);
             near.Some? && far.Some? && near.value <= far.value
    ensures RiskMaximum(cfg, plan.(stops := stops)) <= RiskMaximum(cfg, plan)
  {
    hide NewsCap, ByVolatility, ByRegime, ByQuality, StopDistance;
    var near, far := StopDistance(plan.referencePrice, plan.stops), StopDistance(plan.referencePrice, stops);
    var s, further := plan.snapshot, plan.(stops := stops);
    NewsCapInBounds(cfg, s);
    var m0 := ByNews(cfg, NewsCap(cfg, s));
    FurtherQuotient(near.value, far.value);
    PositiveQuotient(far.value);
    assert Blocked(plan) == Blocked(further);
    RestIsMonotone(cfg, plan, ByStop(cfg, far, m0), ByStop(cfg, near, m0));
    ClampIsMonotone(Ceiling(cfg, further, far), Ceiling(cfg, plan, near), cfg.minLeverage, cfg.maxLeverage);
  }

  lemma FurtherQuotient(near: real, far: real)
    requires 0.0 < near <= far
    ensures MAX_LOSS_ON_MARGIN / far <= MAX_LOSS_ON_MARGIN / near
  {
    PositiveQuotient(near);
    PositiveQuotient(far);
    ScaledBy(near, far, MAX_LOSS_ON_MARGIN / far);
    if MAX_LOSS_ON_MARGIN / far > MAX_LOSS_ON_MARGIN / near {
      StrictlyScaledBy(MAX_LOSS_ON_MARGIN / near, MAX_LOSS_ON_MARGIN / far, near);
    }
  }

  lemma StrictlyScaledBy(x: real, y: real, d: real)
    requires x < y && d > 0.0
    ensures x * d < y * d
  {
  }

  lemma RestIsMonotone(cfg: Config, plan: Input, m: real, n: real)
    requires Validated(cfg) && 0.0 <= m <= n
    ensures var s := plan.snapshot;
            (ByQuality(s, Blocked(plan), ByConfidence(cfg, plan.confidence, ByRegime(s, ByVolatility(cfg, s, m))))
             <= ByQuality(s, Blocked(plan), ByConfidence(cfg, plan.confidence, ByRegime(s, ByVolatility(cfg, s, n)))))
  {
    hide Blocked, ByVolatility, ByRegime, ByQuality;
    var s := plan.snapshot;
    StepsNarrow(cfg, s, None, m);
    StepsAreMonotone(cfg, s, None, m, n);
    var m1, n1 := ByVolatility(cfg, s, m), ByVolatility(cfg, s, n);
    StepsNarrow(cfg, s, None, m1);
    StepsAreMonotone(cfg, s, None, m1, n1);
    var m2, n2 := ByRegime(s, m1), ByRegime(s, n1);
    StepsAreMonotone(cfg, s, None, m2, n2);
    StepsAreMonotone(cfg, s, None, ByConfidence(cfg, plan.confidence, m2), ByConfidence(cfg, plan.confidence, n2));
  }

  /** Another news item, of either kind, never raises the risk maximum. */
  lemma NewsNeverRaises(cfg: Config, plan: Input, item: NewsItem, global: bool)
    requires Validated(cfg)
    ensures var s := plan.snapshot;
            var more := if global then s.(globalNews := s.globalNews + [item]) else s.(assetNews := s.assetNews + [item]);
            RiskMaximum(cfg, plan.(snapshot := more)) <= RiskMaximum(cfg, plan)
  {
    hide ByStop, ByVolatility, ByRegime, ByQuality, StopDistance, ByConfidence;
    var s := plan.snapshot;
    var more := if global then s.(globalNews := s.globalNews + [item]) else s.(assetNews := s.assetNews + [item]);
    var stop := StopDistance(plan.referencePrice, plan.stops);
    NewsOnlyCaps(cfg, s, item, global);
    NewsCapInBounds(cfg, s);
    NewsCapInBounds(cfg, more);
    var m, n := ByNews(cfg, NewsCap(cfg, more)), ByNews(cfg, NewsCap(cfg, s));
    StepsNarrow(cfg, s, stop, m);
    StepsAreMonotone(cfg, s, stop, m, n);
    RestIsMonotone(cfg, plan, ByStop(cfg, stop, m), ByStop(cfg, stop, n));
    StepsIgnoreNews(cfg, s, more, ByStop(cfg, stop, m));
    assert Blocked(plan.(snapshot := more)) == Blocked(plan);
    StepsIgnoreNewsLater(cfg, s, more);
    ClampIsMonotone(Ceiling(cfg, plan.(snapshot := more), stop), Ceiling(cfg, plan, stop), cfg.minLeverage, cfg.maxLeverage);
  }

  lemma NewsOnlyCaps(cfg: Config, s: Snapshot, item: NewsItem, global: bool)
    requires Validated(cfg)
    ensures NewsCap(cfg, if global then s.(globalNews := s.globalNews + [item]) else s.(assetNews := s.assetNews + [item])) <= NewsCap(cfg, s)
  {
    var age := cfg.criticalMaxAge;
    MoreNewsIsFresh(s.globalNews, item, age);
    MoreNewsIsFresh(s.assetNews, item, age);
    var more := if global then s.(globalNews := s.globalNews + [item]) else s.(assetNews := s.assetNews + [item]);
    assert PrimaryAtr(more) == PrimaryAtr(s) by { AtrIgnoresNews(s, more, [H1, M15, H4, M5, D1]); }
  }

  lemma MoreNewsIsFresh(items: seq<NewsItem>, item: NewsItem, maxAge: int)
    ensures FreshCritical(items, maxAge) ==> FreshCritical(items + [item], maxAge)
  {
    if FreshCritical(items, maxAge) {
      var i :| 0 <= i < |items| && items[i].critical && items[i].ageMinutes <= maxAge;
      assert (items + [item])[i] == items[i];
    }
  }

  lemma {:induction false} AtrIgnoresNews(s: Snapshot, t: Snapshot, order: seq<Timeframe>)
    requires s.timeframes == t.timeframes
    ensures FirstAtr(s, order) == FirstAtr(t, order) && FirstPercentile(s, order) == FirstPercentile(t, order)
  {
    if order != [] {
      AtrIgnoresNews(s, t, order[1..]);
    }
  }

  lemma StepsIgnoreNews(cfg: Config, s: Snapshot, t: Snapshot, m: real)
    requires t == s.(assetNews := t.assetNews, globalNews := t.globalNews)
    ensures ByVolatility(cfg, s, m) == ByVolatility(cfg, t, m)
  {
    AtrIgnoresNews(s, t, [H1, M15, H4, M5, D1]);
    AtrIgnoresNews(s, t, [H1, H4, M15]);
  }

  lemma StepsIgnoreNewsLater(cfg: Config, s: Snapshot, t: Snapshot)
    requires t == s.(assetNews := t.assetNews, globalNews := t.globalNews)
    ensures forall m :: ByRegime(s, m) == ByRegime(t, m)
    ensures forall m, blocked :: ByQuality(s, blocked, m) == ByQuality(t, blocked, m)
  {
  }

  // ---------- what an allocation guarantees ----------

  lemma Round2IsMonotone(x: real, y: real)
    requires x <= y
    ensures Round2(x) <= Round2(y)
  {
    NearestIsMonotone(x * 100.0, y * 100.0);
  }

  lemma NearestIsMonotone(x: real, y: real)
    requires x <= y
    ensures Nearest(x) <= Nearest(y)
  {
  }

  lemma Round2IsIdempotent(x: real)
    ensures Round2(Round2(x)) == Round2(x)
  {
    NearestOfWhole(Round2(x) * 100.0, Nearest(x * 100.0));
  }

  lemma ConstantsAreRound()
    ensures Round2(0.0) == 0.0 && Round2(MIN_RISK_SIZED_ALLOCATION) == MIN_RISK_SIZED_ALLOCATION
  {
  }

  /** Scaling a positive size down and rounding leaves it within the rounding of the size. */
  lemma ScalingNeverRaises(a: real, top: real, applies: bool, factor: real)
    requires 0.0 <= a && Round2(a) <= top && factor in {0.7, 0.8}
    ensures 0.0 <= Scaled(a, applies, factor) && Round2(Scaled(a, applies, factor)) <= top
  {
    if applies {
      Round2IsMonotone(a * factor, a);
      Round2IsMonotone(0.0, a * factor);
      Round2IsIdempotent(a * factor);
      hide Round2;
      ConstantsAreRound();
    }
  }

  lemma RequestIsPositive(cfg: Config, asked: real, leverage: int, stop: Option<real>)
    requires cfg.maxAllocPct > 0.0 && asked > 0.0
    ensures Requested(cfg, asked, leverage, stop) > 0.0
    ensures stop.Some? && RiskSized(cfg.riskPerTradePct, leverage, stop.value).Some?
            ==> Requested(cfg, asked, leverage, stop) <= RiskSized(cfg.riskPerTradePct, leverage, stop.value).value
  {
    hide RiskSized;
  }

  /** The allocation is half a percent where the floor applies, and otherwise no more than the request within
      the maximum, to the nearest hundredth. */
  lemma AllocationIsBounded(cfg: Config, asked: real, confidence: int, dataOk: bool, leverage: int, riskMax: int, stop: Option<real>)
    requires cfg.maxAllocPct > 0.0 && asked > 0.0
    ensures var a := Allocation(cfg, asked, confidence, dataOk, leverage, riskMax, stop);
            var floored := FloorApplies(cfg, ScaledRequest(cfg, asked, confidence, dataOk, leverage, riskMax, stop));
            && 0.0 <= a && (cfg.riskPerTradePct > 0.0 ==> a >= MIN_RISK_SIZED_ALLOCATION)
            && (if floored then a == MIN_RISK_SIZED_ALLOCATION else a <= Round2(Requested(cfg, asked, leverage, stop)))
  {
    hide Round2, Requested, Scaled;
    RequestIsPositive(cfg, asked, leverage, stop);
    var requested := Requested(cfg, asked, leverage, stop);
    var top := Round2(requested);
    var first := Scaled(requested, confidence < 65, 0.7);
    ScalingNeverRaises(requested, top, confidence < 65, 0.7);
    var second := Scaled(first, riskMax <= cfg.minLeverage, 0.8);
    ScalingNeverRaises(first, top, riskMax <= cfg.minLeverage, 0.8);
    var third := Scaled(second, !dataOk, 0.7);
    ScalingNeverRaises(second, top, !dataOk, 0.7);
    ConstantsAreRound();
    Round2IsMonotone(0.0, third);
    if third >= MIN_RISK_SIZED_ALLOCATION {
      Round2IsMonotone(MIN_RISK_SIZED_ALLOCATION, third);
    }
  }

  /** The half-percent floor raised this entry's size. */
  ghost predicate Floored(cfg: Config, plan: Input)
    requires !plan.action.NoEntry?
  {
    var a := Assess(cfg, plan);
    FloorApplies(cfg, ScaledRequest(cfg, plan.llmAllocation, plan.confidence, plan.snapshot.dataOk,
                                    a.leverage.recommended, a.leverage.riskMaximum, a.stopDistance))
  }

  /** With a risk budget and a usable stop, a stop-out costs at most the budget and half a hundredth of a
      percent of rounding, unless the half-percent floor raised the size; then the size is half a percent and
      costs no more than that share of 35% of the margin, or of what the minimum leverage makes of it. */
  lemma StopOutIsBudgeted(cfg: Config, plan: Input)
    requires Validated(cfg) && !plan.action.NoEntry? && cfg.riskPerTradePct > 0.0 && plan.llmAllocation > 0.0
    requires Assess(cfg, plan).stopDistance.Some?
    ensures var a := Assess(cfg, plan);
            var l, d := a.leverage.recommended, a.stopDistance.value;
            var cost := StopCost(a.allocationPct, l, d);
            if Floored(cfg, plan) then
              && a.allocationPct == MIN_RISK_SIZED_ALLOCATION
              && cost <= MIN_RISK_SIZED_ALLOCATION * Max(MAX_LOSS_ON_MARGIN, LossOnMargin(cfg.minLeverage, d)) / 100.0
            else cost <= cfg.riskPerTradePct + StopCost(0.005, l, d)
  {
    hide Ceiling, NewsCap, StopDistance, RiskMaximum, Recommended, Requested, StopCost, Round2, LossOnMargin,
         Allocation, ScaledRequest;
    StopCostsAtMost(cfg, plan);
    var a := Assess(cfg, plan);
    var l, riskMax, stop := a.leverage.recommended, a.leverage.riskMaximum, a.stopDistance;
    CostIsShareOfLoss(MIN_RISK_SIZED_ALLOCATION, l, stop.value);
    LeverageInBounds(cfg, plan);
    AllocationIsBounded(cfg, plan.llmAllocation, plan.confidence, plan.snapshot.dataOk, l, riskMax, stop);
    if !Floored(cfg, plan) {
      var sized := RiskSized(cfg.riskPerTradePct, l, stop.value).value;
      var requested := Requested(cfg, plan.llmAllocation, l, stop);
      RequestIsPositive(cfg, plan.llmAllocation, l, stop);
      Round2Error(requested);
      assert a.allocationPct <= sized + 0.005;
      CostOfSum(sized, 0.005, l, stop.value);
      CostIsMonotone(a.allocationPct, sized + 0.005, l, stop.value);
    }
  }

  lemma CostIsShareOfLoss(allocation: real, leverage: int, stop: real)
    ensures StopCost(allocation, leverage, stop) == allocation * LossOnMargin(leverage, stop) / 100.0
  {
  }

  lemma CostOfSum(a: real, b: real, leverage: int, stop: real)
    ensures StopCost(a + b, leverage, stop) == StopCost(a, leverage, stop) + StopCost(b, leverage, stop)
  {
    var e := leverage as real * stop;
    assert (a + b) * e == a * e + b * e;
  }

  lemma CostIsMonotone(a: real, b: real, leverage: int, stop: real)
    requires a <= b && leverage > 0 && stop > 0.0
    ensures StopCost(a, leverage, stop) <= StopCost(b, leverage, stop)
  {
    assert leverage as real * stop > 0.0;
    ScaledBy(a, b, leverage as real * stop);
  }

  /** Where the maximum is given to the hundredth, it holds for every request exactly when no risk budget is
      set or the maximum is at least the half-percent floor. */
  lemma MaximumHoldsAboveFloor(cfg: Config, plan: Input)
    requires Validated(cfg) && !plan.action.NoEntry? && plan.llmAllocation > 0.0 && Round2(cfg.maxAllocPct) == cfg.maxAllocPct
    ensures Assess(cfg, plan).allocationPct <= cfg.maxAllocPct
       <==> cfg.riskPerTradePct <= 0.0 || cfg.maxAllocPct >= MIN_RISK_SIZED_ALLOCATION
  {
    hide Ceiling, Allocation, NewsCap, StopDistance, Round2;
    var a := Assess(cfg, plan);
    var l, stop := a.leverage.recommended, a.stopDistance;
    AllocationIsBounded(cfg, plan.llmAllocation, plan.confidence, plan.snapshot.dataOk, l, a.leverage.riskMaximum, stop);
    Round2IsMonotone(Requested(cfg, plan.llmAllocation, l, stop), cfg.maxAllocPct);
  }
}
