/** Grading a recommendation by the first level its candles reach, at two resolutions. */
module Outcomes {
  import opened Domain

  /** Levels of a recommendation. */
  datatype Plan = Plan(direction: Direction, takeProfit: seq<PriceTarget>, stopLoss: seq<PriceTarget>)

  datatype Hit = Hit(tpIndex: Option<nat>, slIndex: Option<nat>, ambiguous: bool)

  const NO_HIT := Hit(None, None, false)

  /** What the grading makes of a hit. */
  datatype Verdict = TpHit | SlHit | Ambiguous | Neither

  /** Index of the first listed level the candle reached. */
  method FirstTouched(candle: Candle, levels: seq<PriceTarget>, direction: Direction, takeProfit: bool)
    returns (index: Option<nat>)
    ensures index == FirstTouch(candle, levels, direction, takeProfit)
    ensures index.Some? ==> index.value < |levels| && Reaches(candle, levels[index.value], direction, takeProfit)
    ensures forall k :: 0 <= k < |levels| && (index.Some? ==> k < index.value) ==> !Reaches(candle, levels[k], direction, takeProfit)
  {
    FirstTouchMeans(candle, levels, direction, takeProfit);
    for i := 0 to |levels|
      invariant FirstTouch(candle, levels, direction, takeProfit) == FirstTouchFrom(candle, levels, direction, takeProfit, i)
    {
      if Touched(candle, levels[i].price, direction, takeProfit) {
        return Some(i);
      }
    }
    return None;
  }

  /** On the prices of the candle: a long's target at its high, its stop at its low; a short's the other way. */
  predicate Reaches(candle: Candle, level: PriceTarget, direction: Direction, takeProfit: bool) {
    if takeProfit then Banks(direction, candle, level.price) else Hurts(direction, candle, level.price)
  }

  lemma FirstTouchMeans(candle: Candle, levels: seq<PriceTarget>, direction: Direction, takeProfit: bool)
    ensures var index := FirstTouch(candle, levels, direction, takeProfit);
            && (index.Some? ==> index.value < |levels| && Reaches(candle, levels[index.value], direction, takeProfit))
            && (forall k :: 0 <= k < |levels| && (index.Some? ==> k < index.value) ==> !Reaches(candle, levels[k], direction, takeProfit))
  {
    forall k | 0 <= k < |levels|
      ensures Touched(candle, levels[k].price, direction, takeProfit) <==> Reaches(candle, levels[k], direction, takeProfit)
    {
      TouchedMeans(candle, levels[k].price, direction);
    }
    hide Touched, Reaches;
  }

  function FirstTouchFrom(candle: Candle, levels: seq<PriceTarget>, direction: Direction, takeProfit: bool, i: nat): (r: Option<nat>)
    requires i <= |levels|
    ensures r.Some? <==> exists k :: i <= k < |levels| && Touched(candle, levels[k].price, direction, takeProfit)
    ensures r.Some? ==>
              && i <= r.value < |levels| && Touched(candle, levels[r.value].price, direction, takeProfit)
              && forall k :: i <= k < r.value ==> !Touched(candle, levels[k].price, direction, takeProfit)
    decreases |levels| - i
  {
    if i == |levels| then None
    else if Touched(candle, levels[i].price, direction, takeProfit) then Some(i)
    else FirstTouchFrom(candle, levels, direction, takeProfit, i + 1)
  }

  function FirstTouch(candle: Candle, levels: seq<PriceTarget>, direction: Direction, takeProfit: bool): Option<nat> {
    FirstTouchFrom(candle, levels, direction, takeProfit, 0)
  }

  function Tp(candle: Candle, plan: Plan): Option<nat> {
    FirstTouch(candle, plan.takeProfit, plan.direction, true)
  }

  function Sl(candle: Candle, plan: Plan): Option<nat> {
    FirstTouch(candle, plan.stopLoss, plan.direction, false)
  }

  /** Whether the fine candle opened inside the conflicting one. */
  predicate Inside(c: Candle, conflict: Candle) {
    conflict.openTime <= c.openTime < conflict.closeTime
  }

  /** Replays the conflicting candle on a finer series, from fine candle i on. */
  function Resolve(fine: seq<Candle>, conflict: Candle, plan: Plan, i: nat): Option<Hit>
    requires i <= |fine|
    decreases |fine| - i
  {
    if i == |fine| then None
    else
      var c := fine[i];
      if !Inside(c, conflict) then Resolve(fine, conflict, plan, i + 1)
      else if Tp(c, plan).Some? && Sl(c, plan).None? then Some(Hit(Tp(c, plan), None, false))
      else if Sl(c, plan).Some? && Tp(c, plan).None? then Some(Hit(None, Sl(c, plan), false))
      else if Tp(c, plan).Some? then None
      else Resolve(fine, conflict, plan, i + 1)
  }

  /** Walks the candles from index i on and reports which level was reached first. */
  function DetectFrom(series: seq<Candle>, fine: seq<Candle>, plan: Plan, i: nat): Hit
    requires i <= |series|
    decreases |series| - i
  {
    if i == |series| then NO_HIT
    else
      var tp, sl := Tp(series[i], plan), Sl(series[i], plan);
      if tp.None? && sl.None? then DetectFrom(series, fine, plan, i + 1)
      else if sl.None? then Hit(tp, None, false)
      else if tp.None? then Hit(None, sl, false)
      else
        match Resolve(fine, series[i], plan, 0)
        case Some(hit) => hit
        case None => Hit(tp, sl, true)
  }

  function Detect(series: seq<Candle>, fine: seq<Candle>, plan: Plan): Hit {
    DetectFrom(series, fine, plan, 0)
  }

  function VerdictOf(hit: Hit): Verdict {
    if hit.ambiguous then Ambiguous
    else if hit.tpIndex.Some? && hit.slIndex.None? then TpHit
    else if hit.slIndex.Some? then SlHit
    else Neither
  }

  method ResolveWithFiner(fine: seq<Candle>, conflict: Candle, plan: Plan) returns (hit: Option<Hit>)
    ensures hit == Resolve(fine, conflict, plan, 0)
  {
    for i := 0 to |fine|
      invariant Resolve(fine, conflict, plan, 0) == Resolve(fine, conflict, plan, i)
    {
      var c := fine[i];
      if Inside(c, conflict) {
        var tp := FirstTouched(c, plan.takeProfit, plan.direction, true);
        var sl := FirstTouched(c, plan.stopLoss, plan.direction, false);
        if tp.Some? && sl.None? {
          return Some(Hit(tp, None, false));
        } else if sl.Some? && tp.None? {
          return Some(Hit(None, sl, false));
        } else if tp.Some? && sl.Some? {
          return None;
        }
      }
    }
    return None;
  }

  method DetectHits(series: seq<Candle>, fine: seq<Candle>, plan: Plan) returns (hit: Hit)
    ensures hit == Detect(series, fine, plan)
  {
    for i := 0 to |series|
      invariant Detect(series, fine, plan) == DetectFrom(series, fine, plan, i)
    {
      var tp := FirstTouched(series[i], plan.takeProfit, plan.direction, true);
      var sl := FirstTouched(series[i], plan.stopLoss, plan.direction, false);
      if tp.Some? && sl.None? {
        return Hit(tp, None, false);
      } else if tp.None? && sl.Some? {
        return Hit(None, sl, false);
      } else if tp.Some? && sl.Some? {
        var resolved := ResolveWithFiner(fine, series[i], plan);
        if resolved.Some? {
          return resolved.value;
        }
        return Hit(tp, sl, true);
      }
    }
    return NO_HIT;
  }

  // ---------- what the verdict means ----------

  predicate TouchesTp(c: Candle, plan: Plan) {
    exists k :: 0 <= k < |plan.takeProfit| && Touched(c, plan.takeProfit[k].price, plan.direction, true)
  }

  predicate TouchesSl(c: Candle, plan: Plan) {
    exists k :: 0 <= k < |plan.stopLoss| && Touched(c, plan.stopLoss[k].price, plan.direction, false)
  }

  /** One candle's word on the race between the levels. */
  function Word(c: Candle, plan: Plan): Verdict {
    if TouchesTp(c, plan) && TouchesSl(c, plan) then Ambiguous
    else if TouchesTp(c, plan) then TpHit
    else if TouchesSl(c, plan) then SlHit
    else Neither
  }

  /** The first candle that says anything decides. */
  function FirstWord(series: seq<Candle>, plan: Plan, i: nat): Verdict
    requires i <= |series|
    decreases |series| - i
  {
    if i == |series| then Neither
    else if Word(series[i], plan) != Neither then Word(series[i], plan)
    else FirstWord(series, plan, i + 1)
  }

  /** Candles of one resolution: each has an extent and none overlaps the next. */
  ghost predicate Chronological(candles: seq<Candle>) {
    && (forall i :: 0 <= i < |candles| ==> candles[i].openTime < candles[i].closeTime)
    && (forall i, j :: 0 <= i < j < |candles| ==> candles[i].closeTime <= candles[j].openTime)
  }

  /** A candle resolved on its own series is never resolved, so the finest series keeps its word. */
  lemma {:induction false} ResolveOnItself(fine: seq<Candle>, j: nat, plan: Plan, i: nat)
    requires Chronological(fine) && j < |fine| && i <= |fine|
    requires TouchesTp(fine[j], plan) && TouchesSl(fine[j], plan)
    ensures Resolve(fine, fine[j], plan, i) == None
    decreases |fine| - i
  {
    if i < |fine| {
      if i != j {
        assert !Inside(fine[i], fine[j]);
      }
      ResolveOnItself(fine, j, plan, i + 1);
    }
  }

  lemma {:induction false} FinestVerdict(fine: seq<Candle>, plan: Plan, i: nat)
    requires Chronological(fine) && i <= |fine|
    ensures VerdictOf(DetectFrom(fine, fine, plan, i)) == FirstWord(fine, plan, i)
    decreases |fine| - i
  {
    if i < |fine| {
      if TouchesTp(fine[i], plan) && TouchesSl(fine[i], plan) {
        ResolveOnItself(fine, i, plan, 0);
      }
      FinestVerdict(fine, plan, i + 1);
    }
  }

  // ---------- the verdict in prices ----------

  /** A candle that opened from a candle's opening on and before its close. */
  predicate OpenedIn(c: Candle, whole: Candle) {
    c.openTime >= whole.openTime && c.openTime < whole.closeTime
  }

  /** A long's targets are reached by the high, a short's by the low. */
  ghost predicate TargetIn(c: Candle, plan: Plan) {
    exists level :: level in plan.takeProfit && match plan.direction { case Long => c.high >= level.price case Short => c.low <= level.price }
  }

  /** A long's stops are reached by the low, a short's by the high. */
  ghost predicate StopIn(c: Candle, plan: Plan) {
    exists level :: level in plan.stopLoss && match plan.direction { case Long => c.low <= level.price case Short => c.high >= level.price }
  }

  lemma TouchesMean(c: Candle, plan: Plan)
    ensures TouchesTp(c, plan) <==> TargetIn(c, plan)
    ensures TouchesSl(c, plan) <==> StopIn(c, plan)
  {
    if TouchesTp(c, plan) {
      var k :| 0 <= k < |plan.takeProfit| && Touched(c, plan.takeProfit[k].price, plan.direction, true);
      assert plan.takeProfit[k] in plan.takeProfit;
    }
    if TouchesSl(c, plan) {
      var k :| 0 <= k < |plan.stopLoss| && Touched(c, plan.stopLoss[k].price, plan.direction, false);
      assert plan.stopLoss[k] in plan.stopLoss;
    }
  }

  /** The race is still open before a candle: none earlier reached any level. */
  ghost predicate OpenBefore(series: seq<Candle>, plan: Plan, i: nat)
    requires i <= |series|
  {
    forall k :: 0 <= k < i ==> !TargetIn(series[k], plan) && !StopIn(series[k], plan)
  }

  /** No verdict means that every candle stayed short of every level, whatever the finer candles are. */
  lemma {:induction false} NoVerdictFrom(series: seq<Candle>, fine: seq<Candle>, plan: Plan, i: nat)
    requires i <= |series|
    ensures VerdictOf(DetectFrom(series, fine, plan, i)).Neither?
       <==> forall k :: i <= k < |series| ==> !TargetIn(series[k], plan) && !StopIn(series[k], plan)
    decreases |series| - i
  {
    hide TargetIn, StopIn, TouchesTp, TouchesSl;
    if i < |series| {
      TouchesMean(series[i], plan);
      TouchesAreFirstTouches(series[i], plan);
      if !TouchesTp(series[i], plan) && !TouchesSl(series[i], plan) {
        NoVerdictFrom(series, fine, plan, i + 1);
      } else {
        ResolvedIsAVerdict(fine, series[i], plan, 0);
      }
    }
  }

  lemma TouchesAreFirstTouches(c: Candle, plan: Plan)
    ensures Tp(c, plan).Some? <==> TouchesTp(c, plan)
    ensures Sl(c, plan).Some? <==> TouchesSl(c, plan)
  {
  }

  lemma {:induction false} ResolvedIsAVerdict(fine: seq<Candle>, conflict: Candle, plan: Plan, i: nat)
    requires i <= |fine|
    ensures var r := Resolve(fine, conflict, plan, i); r.Some? ==> !VerdictOf(r.value).Neither?
    decreases |fine| - i
  {
    hide FirstTouch;
    if i < |fine| {
      ResolvedIsAVerdict(fine, conflict, plan, i + 1);
    }
  }

  /** A long has no verdict exactly when every candle's high is below every target and its low above every stop;
      a short the other way. */
  lemma NoVerdictMeans(series: seq<Candle>, fine: seq<Candle>, plan: Plan)
    ensures VerdictOf(Detect(series, fine, plan)).Neither?
       <==> forall k :: 0 <= k < |series| ==> !TargetIn(series[k], plan) && !StopIn(series[k], plan)
  {
    NoVerdictFrom(series, fine, plan, 0);
  }

  lemma {:induction false} FirstWordIs(series: seq<Candle>, plan: Plan, i: nat, first: nat)
    requires i <= first < |series| && Word(series[first], plan) != Neither
    requires forall k :: i <= k < first ==> Word(series[k], plan) == Neither
    ensures FirstWord(series, plan, i) == Word(series[first], plan)
    decreases first - i
  {
    hide Word;
    if i < first {
      FirstWordIs(series, plan, i + 1, first);
    }
  }

  /** On the finest candles the first one to reach any level decides: a take-profit if it reached only targets, a
      stop if only stops, ambiguous if both. */
  lemma VerdictMeans(fine: seq<Candle>, plan: Plan, first: nat)
    requires Chronological(fine) && first < |fine| && OpenBefore(fine, plan, first)
    requires TargetIn(fine[first], plan) || StopIn(fine[first], plan)
    ensures VerdictOf(Detect(fine, fine, plan))
         == if !StopIn(fine[first], plan) then TpHit else if !TargetIn(fine[first], plan) then SlHit else Ambiguous
  {
    hide TargetIn, StopIn, TouchesTp, TouchesSl;
    FinestVerdict(fine, plan, 0);
    forall k | 0 <= k <= first
      ensures TouchesTp(fine[k], plan) <==> TargetIn(fine[k], plan)
      ensures TouchesSl(fine[k], plan) <==> StopIn(fine[k], plan)
    {
      TouchesMean(fine[k], plan);
    }
    FirstWordIs(fine, plan, 0, first);
  }

  /** Where the first candle to reach any level reached both sides, the finer candles that opened inside it decide
      by the first of them to reach any: ambiguous again if it reached both, or if none reached any. */
  lemma ConflictMeans(series: seq<Candle>, fine: seq<Candle>, plan: Plan, first: nat, j: nat)
    requires first < |series| && OpenBefore(series, plan, first) && TargetIn(series[first], plan) && StopIn(series[first], plan)
    requires j <= |fine| && forall k :: 0 <= k < j && OpenedIn(fine[k], series[first]) ==> !TargetIn(fine[k], plan) && !StopIn(fine[k], plan)
    requires j < |fine| ==> OpenedIn(fine[j], series[first]) && (TargetIn(fine[j], plan) || StopIn(fine[j], plan))
    ensures VerdictOf(Detect(series, fine, plan))
         == if j < |fine| && !StopIn(fine[j], plan) then TpHit else if j < |fine| && !TargetIn(fine[j], plan) then SlHit else Ambiguous
  {
    hide TargetIn, StopIn, TouchesTp, TouchesSl;
    DetectFromFirst(series, fine, plan, 0, first);
    TouchesMean(series[first], plan);
    TouchesAreFirstTouches(series[first], plan);
    ResolveFromFirst(fine, series[first], plan, 0, j);
    if j < |fine| {
      TouchesMean(fine[j], plan);
      TouchesAreFirstTouches(fine[j], plan);
    }
    hide FirstTouch;
  }

  lemma {:induction false} DetectFromFirst(series: seq<Candle>, fine: seq<Candle>, plan: Plan, i: nat, first: nat)
    requires i <= first < |series| && OpenBefore(series, plan, first)
    ensures DetectFrom(series, fine, plan, i) == DetectFrom(series, fine, plan, first)
    decreases first - i
  {
    hide TargetIn, StopIn, TouchesTp, TouchesSl;
    if i < first {
      TouchesMean(series[i], plan);
      TouchesAreFirstTouches(series[i], plan);
      DetectFromFirst(series, fine, plan, i + 1, first);
    }
  }

  lemma {:induction false} ResolveFromFirst(fine: seq<Candle>, conflict: Candle, plan: Plan, i: nat, j: nat)
    requires i <= j <= |fine| && forall k :: i <= k < j && OpenedIn(fine[k], conflict) ==> !TargetIn(fine[k], plan) && !StopIn(fine[k], plan)
    ensures Resolve(fine, conflict, plan, i) == Resolve(fine, conflict, plan, j)
    decreases j - i
  {
    hide TargetIn, StopIn, TouchesTp, TouchesSl;
    if i < j {
      TouchesMean(fine[i], plan);
      TouchesAreFirstTouches(fine[i], plan);
      ResolveFromFirst(fine, conflict, plan, i + 1, j);
    }
  }

  lemma {:induction false} FirstReaching(series: seq<Candle>, plan: Plan, i: nat) returns (first: nat)
    requires i <= |series| && OpenBefore(series, plan, i)
    requires exists k :: i <= k < |series| && (TargetIn(series[k], plan) || StopIn(series[k], plan))
    ensures i <= first < |series| && OpenBefore(series, plan, first) && (TargetIn(series[first], plan) || StopIn(series[first], plan))
    decreases |series| - i
  {
    hide TargetIn, StopIn;
    if TargetIn(series[i], plan) || StopIn(series[i], plan) {
      first := i;
    } else {
      first := FirstReaching(series, plan, i + 1);
    }
  }

  /** A take-profit verdict names a candle whose price reached a target and no stop, before which none reached
      any level; and on coarser candles the verdict is the same. */
  lemma TakeProfitMeans(coarse: seq<Candle>, fine: seq<Candle>, cuts: seq<nat>, plan: Plan)
    requires Refines(fine, coarse, cuts) && Chronological(fine)
    ensures VerdictOf(Detect(coarse, fine, plan)).TpHit?
       <==> exists i :: 0 <= i < |fine| && OpenBefore(fine, plan, i) && TargetIn(fine[i], plan) && !StopIn(fine[i], plan)
  {
    hide TargetIn, StopIn, Detect, OpenBefore;
    ResolutionsAgree(coarse, fine, cuts, plan);
    NoVerdictMeans(fine, fine, plan);
    if VerdictOf(Detect(fine, fine, plan)).TpHit? {
      NothingBefore(fine, plan);
      var first := FirstReaching(fine, plan, 0);
      VerdictMeans(fine, plan, first);
    }
    if i :| 0 <= i < |fine| && OpenBefore(fine, plan, i) && TargetIn(fine[i], plan) && !StopIn(fine[i], plan) {
      VerdictMeans(fine, plan, i);
    }
  }

  lemma NothingBefore(series: seq<Candle>, plan: Plan)
    ensures OpenBefore(series, plan, 0)
  {
  }

  // ---------- two resolutions of the same market ----------

  /** Coarse candle c is made of fine candles lo..hi: they are exactly the ones opening inside it, and
      its extremes are theirs. */
  ghost predicate MadeOf(c: Candle, fine: seq<Candle>, lo: nat, hi: nat)
    requires lo <= hi <= |fine|
  {
    && (forall i :: 0 <= i < |fine| ==> (OpenedIn(fine[i], c) <==> lo <= i < hi))
    && (forall i :: lo <= i < hi ==> c.low <= fine[i].low && fine[i].high <= c.high)
    && (exists i :: lo <= i < hi && fine[i].high == c.high)
    && (exists i :: lo <= i < hi && fine[i].low == c.low)
  }

  ghost predicate Piece(fine: seq<Candle>, coarse: seq<Candle>, cuts: seq<nat>, k: nat)
    requires k < |coarse| && |cuts| == |coarse| + 1
  {
    cuts[k] <= cuts[k + 1] <= |fine| && MadeOf(coarse[k], fine, cuts[k], cuts[k + 1])
  }

  /** The cuts split the fine series into the consecutive pieces the coarse candles are made of. */
  ghost predicate Refines(fine: seq<Candle>, coarse: seq<Candle>, cuts: seq<nat>) {
    && |cuts| == |coarse| + 1 && cuts[0] == 0 && cuts[|coarse|] == |fine|
    && (forall k :: 0 <= k < |cuts| ==> cuts[k] <= |fine|)
    && (forall k :: 0 <= k < |coarse| ==> Piece(fine, coarse, cuts, k))
  }

  lemma CoarseTouches(c: Candle, fine: seq<Candle>, lo: nat, hi: nat, plan: Plan)
    requires lo <= hi <= |fine| && MadeOf(c, fine, lo, hi)
    ensures TouchesTp(c, plan) <==> exists i :: lo <= i < hi && TouchesTp(fine[i], plan)
    ensures TouchesSl(c, plan) <==> exists i :: lo <= i < hi && TouchesSl(fine[i], plan)
  {
    var top :| lo <= top < hi && fine[top].high == c.high;
    var bottom :| lo <= bottom < hi && fine[bottom].low == c.low;
    if TouchesTp(c, plan) {
      var k :| 0 <= k < |plan.takeProfit| && Touched(c, plan.takeProfit[k].price, plan.direction, true);
      assert Touched(fine[if plan.direction.Long? then top else bottom], plan.takeProfit[k].price, plan.direction, true);
    }
    if TouchesSl(c, plan) {
      var k :| 0 <= k < |plan.stopLoss| && Touched(c, plan.stopLoss[k].price, plan.direction, false);
      assert Touched(fine[if plan.direction.Long? then bottom else top], plan.stopLoss[k].price, plan.direction, false);
    }
    if i :| lo <= i < hi && TouchesTp(fine[i], plan) {
      var k :| 0 <= k < |plan.takeProfit| && Touched(fine[i], plan.takeProfit[k].price, plan.direction, true);
      assert Touched(c, plan.takeProfit[k].price, plan.direction, true);
    }
    if i :| lo <= i < hi && TouchesSl(fine[i], plan) {
      var k :| 0 <= k < |plan.stopLoss| && Touched(fine[i], plan.stopLoss[k].price, plan.direction, false);
      assert Touched(c, plan.stopLoss[k].price, plan.direction, false);
    }
  }

  lemma {:induction false} QuietPiece(fine: seq<Candle>, lo: nat, hi: nat, plan: Plan)
    requires lo <= hi <= |fine|
    requires forall i :: lo <= i < hi ==> Word(fine[i], plan) == Neither
    ensures FirstWord(fine, plan, lo) == FirstWord(fine, plan, hi)
    decreases hi - lo
  {
    if lo < hi {
      QuietPiece(fine, lo + 1, hi, plan);
    }
  }

  /** The first fine candle of a piece that says anything. */
  lemma {:induction false} FirstLoud(fine: seq<Candle>, lo: nat, hi: nat, plan: Plan) returns (first: nat)
    requires lo <= hi <= |fine| && exists i :: lo <= i < hi && Word(fine[i], plan) != Neither
    ensures lo <= first < hi && Word(fine[first], plan) != Neither
    ensures forall i :: lo <= i < first ==> Word(fine[i], plan) == Neither
    ensures FirstWord(fine, plan, lo) == Word(fine[first], plan)
    decreases hi - lo
  {
    if Word(fine[lo], plan) != Neither {
      first := lo;
    } else {
      first := FirstLoud(fine, lo + 1, hi, plan);
    }
  }

  /** Resolving a conflict inside a piece gives the word of the first candle of the piece that speaks. */
  lemma {:induction false} ResolveInPiece(c: Candle, fine: seq<Candle>, lo: nat, hi: nat, plan: Plan, first: nat, i: nat)
    requires lo <= first < hi <= |fine| && MadeOf(c, fine, lo, hi) && i <= first
    requires forall k :: lo <= k < first ==> Word(fine[k], plan) == Neither
    requires Word(fine[first], plan) != Neither
    ensures var r := Resolve(fine, c, plan, i);
            if Word(fine[first], plan) == Ambiguous then r.None? else r.Some? && VerdictOf(r.value) == Word(fine[first], plan)
    decreases first - i
  {
    if i < first {
      ResolveInPiece(c, fine, lo, hi, plan, first, i + 1);
    }
  }

  lemma {:induction false} CoarseAgreesFrom(coarse: seq<Candle>, fine: seq<Candle>, cuts: seq<nat>, plan: Plan, k: nat)
    requires Refines(fine, coarse, cuts) && k <= |coarse|
    ensures VerdictOf(DetectFrom(coarse, fine, plan, k)) == FirstWord(fine, plan, cuts[k])
    decreases |coarse| - k
  {
    if k < |coarse| {
      assert Piece(fine, coarse, cuts, k);
      var c, lo, hi := coarse[k], cuts[k], cuts[k + 1];
      CoarseTouches(c, fine, lo, hi, plan);
      if Word(c, plan) == Neither {
        QuietPiece(fine, lo, hi, plan);
        CoarseAgreesFrom(coarse, fine, cuts, plan, k + 1);
      } else {
        var first := FirstLoud(fine, lo, hi, plan);
        if Word(c, plan) == Ambiguous {
          ResolveInPiece(c, fine, lo, hi, plan, first, 0);
        }
      }
    }
  }

  /** The grading does not depend on whether it walks the coarse or the fine candles: take profit,
      stop loss, ambiguous or neither, the verdict is the same in both directions. */
  lemma ResolutionsAgree(coarse: seq<Candle>, fine: seq<Candle>, cuts: seq<nat>, plan: Plan)
    requires Refines(fine, coarse, cuts) && Chronological(fine)
    ensures VerdictOf(Detect(coarse, fine, plan)) == VerdictOf(Detect(fine, fine, plan))
  {
    CoarseAgreesFrom(coarse, fine, cuts, plan, 0);
    FinestVerdict(fine, plan, 0);
  }

  // ---------- a verdict once reached is final ----------

  lemma {:induction false} ResolveIgnoresLater(fine: seq<Candle>, more: seq<Candle>, conflict: Candle, plan: Plan, i: nat)
    requires i <= |fine| && forall k :: 0 <= k < |more| ==> !Inside(more[k], conflict)
    ensures Resolve(fine + more, conflict, plan, i) == Resolve(fine, conflict, plan, i)
    decreases |fine| - i
  {
    if i < |fine| {
      ResolveIgnoresLater(fine, more, conflict, plan, i + 1);
    } else {
      ResolveOutside(fine + more, conflict, plan, i);
    }
  }

  lemma {:induction false} ResolveOutside(fine: seq<Candle>, conflict: Candle, plan: Plan, i: nat)
    requires i <= |fine| && forall k :: i <= k < |fine| ==> !Inside(fine[k], conflict)
    ensures Resolve(fine, conflict, plan, i) == None
    decreases |fine| - i
  {
    if i < |fine| {
      ResolveOutside(fine, conflict, plan, i + 1);
    }
  }

  lemma {:induction false} VerdictIsFinalFrom(series: seq<Candle>, later: seq<Candle>, fine: seq<Candle>, more: seq<Candle>, plan: Plan, i: nat)
    requires i <= |series| && DetectFrom(series, fine, plan, i) != NO_HIT
    requires forall k, j :: 0 <= k < |more| && 0 <= j < |series| ==> series[j].closeTime <= more[k].openTime
    ensures DetectFrom(series + later, fine + more, plan, i) == DetectFrom(series, fine, plan, i)
    decreases |series| - i
  {
    if i < |series| {
      if Tp(series[i], plan).None? && Sl(series[i], plan).None? {
        VerdictIsFinalFrom(series, later, fine, more, plan, i + 1);
      } else {
        assert forall k :: 0 <= k < |more| ==> !Inside(more[k], series[i]);
        ResolveIgnoresLater(fine, more, series[i], plan, 0);
      }
    }
  }

  /** Candles that arrive later, in either series, never change a hit that was found. */
  lemma VerdictIsFinal(series: seq<Candle>, later: seq<Candle>, fine: seq<Candle>, more: seq<Candle>, plan: Plan)
    requires VerdictOf(Detect(series, fine, plan)) != Neither
    requires forall k, j :: 0 <= k < |more| && 0 <= j < |series| ==> series[j].closeTime <= more[k].openTime
    ensures Detect(series + later, fine + more, plan) == Detect(series, fine, plan)
  {
    VerdictIsFinalFrom(series, later, fine, more, plan, 0);
  }
}
