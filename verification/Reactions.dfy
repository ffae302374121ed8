/** Measuring how the market reacted to a news event, horizon by horizon as the candles come in. */
module Reactions {
  import opened Domain

  /** The five horizons: 5 minutes, 15 minutes, 1 hour, 4 hours and 24 hours. */
  function Horizon(i: nat): (seconds: int)
    requires i < 5
    ensures seconds == 60 * [5, 15, 60, 240, 1440][i]
  {
    if i == 0 then 300 else if i == 1 then 900 else if i == 2 then 3600 else if i == 3 then 14400 else DAY
  }

  datatype Status = Tracking | Complete | InsufficientData

  datatype Reaction = Reaction(
    baselineTime: Option<int>, baselinePrice: Option<Positive>,
    changes: seq<Option<real>>, observedAt: seq<Option<int>>,
    maxUpPct: Option<real>, maxDownPct: Option<real>, observedThrough: Option<int>,
    status: Status, nextEvaluationAt: int, completedAt: Option<int>, lastError: string)

  datatype Config = Config(baselineGrace: int, reactionInterval: int)

  datatype EvaluationError = BadBaseline

  // ---------- the candle store ----------

  /** Closed five-minute candles of one asset, oldest first. */
  ghost predicate Ordered(store: seq<Candle>) {
    forall i, j :: 0 <= i < j < |store| ==> store[i].closeTime < store[j].closeTime
  }

  /** The first candle that closed in [at, knownAt]. */
  function FirstClosed(store: seq<Candle>, at: int, knownAt: int): (r: Option<Candle>)
    ensures r.Some? ==> r.value in store && at <= r.value.closeTime <= knownAt
    ensures r.None? ==> forall c :: c in store ==> !(at <= c.closeTime <= knownAt)
    decreases |store|
  {
    if store == [] then None
    else if at <= store[0].closeTime <= knownAt then Some(store[0])
    else FirstClosed(store[1..], at, knownAt)
  }

  datatype Extremes = Extremes(high: Option<real>, low: Option<real>, through: Option<int>)

  /** Highest high, lowest low and last close over the candles that closed in (after, until]. */
  function ExtremesOf(store: seq<Candle>, after: int, until: int): Extremes {
    if store == [] then Extremes(None, None, None)
    else
      var e := ExtremesOf(store[..|store| - 1], after, until);
      var c := store[|store| - 1];
      if after < c.closeTime <= until then Widen(e, c) else e
  }

  function Widen(e: Extremes, c: Candle): Extremes {
    if e.high.None? || e.low.None? || e.through.None? then Extremes(Some(c.high), Some(c.low), Some(c.closeTime))
    else Extremes(Some(Max(e.high.value, c.high)), Some(Min(e.low.value, c.low)),
                  Some(if c.closeTime > e.through.value then c.closeTime else e.through.value))
  }

  // ---------- one evaluation ----------

  function PercentChange(baseline: Positive, value: real): real {
    (value / baseline - 1.0) * 100.0
  }

  function PollInterval(cfg: Config): (r: int)
    ensures r >= 60
  {
    if cfg.reactionInterval < 60 then 300 else cfg.reactionInterval
  }

  function NewReaction(): Reaction {
    Reaction(None, None, [None, None, None, None, None], [None, None, None, None, None],
             None, None, None, Tracking, 0, None, "")
  }

  const HORIZON_UNAVAILABLE := "24h horizon candle unavailable after grace period"

  const BASELINE_UNAVAILABLE := "no closed 5m candle available within baseline grace period"

  predicate Shaped(r: Reaction) {
    |r.changes| == 5 == |r.observedAt|
  }

  /** Fills the first n horizons that are due and for which a candle has closed. */
  function Fill(r: Reaction, start: int, baseline: Positive, store: seq<Candle>, now: int, n: nat): (f: Reaction)
    requires Shaped(r) && n <= 5
    ensures Shaped(f)
    ensures f == r.(changes := f.changes, observedAt := f.observedAt)
    ensures forall i :: n <= i < 5 ==> f.changes[i] == r.changes[i] && f.observedAt[i] == r.observedAt[i]
  {
    if n == 0 then r
    else
      var f := Fill(r, start, baseline, store, now, n - 1);
      var target := start + Horizon(n - 1);
      if r.changes[n - 1].Some? || now < target then f
      else
        match FirstClosed(store, target, now)
        case None => f
        case Some(c) => f.(changes := f.changes[n - 1 := Some(PercentChange(baseline, c.close))],
                           observedAt := f.observedAt[n - 1 := Some(c.closeTime)])
  }

  function Observe(r: Reaction, start: int, baseline: Positive, store: seq<Candle>, now: int): Reaction {
    var e := ExtremesOf(store, start, if now < start + DAY then now else start + DAY);
    r.(observedThrough := if e.through.Some? then e.through else r.observedThrough,
       maxUpPct := if e.high.Some? then Some(Max(PercentChange(baseline, e.high.value), 0.0)) else r.maxUpPct,
       maxDownPct := if e.low.Some? then Some(Min(PercentChange(baseline, e.low.value), 0.0)) else r.maxDownPct)
  }

  /** The next moment worth looking again: the first open horizon, or a poll from now. */
  function NextDue(r: Reaction, start: int, cfg: Config, now: int, i: nat): int
    requires Shaped(r) && i <= 5
    decreases 5 - i
  {
    if i == 5 then now + PollInterval(cfg)
    else if r.changes[i].Some? then NextDue(r, start, cfg, now, i + 1)
    else if start + Horizon(i) > now then start + Horizon(i)
    else now + PollInterval(cfg)
  }

  function Conclude(r: Reaction, start: int, cfg: Config, now: int): Reaction
    requires Shaped(r)
  {
    if r.changes[4].Some? then r.(status := Complete, completedAt := Some(now), nextEvaluationAt := now)
    else if now >= start + DAY + cfg.baselineGrace then
      r.(status := InsufficientData, completedAt := Some(now), nextEvaluationAt := now,
         lastError := HORIZON_UNAVAILABLE)
    else r.(status := Tracking, completedAt := None, nextEvaluationAt := NextDue(r, start, cfg, now, 0))
  }

  function Waiting(r: Reaction, firstSeen: int, cfg: Config, now: int): Reaction {
    var deadline := firstSeen + cfg.baselineGrace;
    if now >= deadline then
      r.(status := InsufficientData, completedAt := Some(now), nextEvaluationAt := now,
         lastError := BASELINE_UNAVAILABLE)
    else
      var poll := now + PollInterval(cfg);
      r.(status := Tracking, nextEvaluationAt := if deadline < poll then deadline else poll)
  }

  /** The reaction an evaluation starts from: the stored one, its last error forgotten, or a new one. */
  function StartFrom(stored: Option<Reaction>): Reaction {
    match stored
    case None => NewReaction()
    case Some(r) => r.(lastError := "")
  }

  function Measure(r: Reaction, store: seq<Candle>, cfg: Config, now: int): Reaction
    requires Shaped(r) && r.baselineTime.Some? && r.baselinePrice.Some?
  {
    var start, baseline := r.baselineTime.value, r.baselinePrice.value;
    Conclude(Observe(Fill(r, start, baseline, store, now, 5), start, baseline, store, now), start, cfg, now)
  }

  function Evaluated(stored: Option<Reaction>, firstSeen: int, store: seq<Candle>, cfg: Config, now: int): (e: Result<Reaction, EvaluationError>)
    requires stored.Some? ==> Shaped(stored.value)
    ensures e.Ok? ==> Shaped(e.value)
  {
    var r := StartFrom(stored);
    if r.baselineTime.Some? && r.baselinePrice.Some? then Ok(Measure(r, store, cfg, now))
    else
      match FirstClosed(store, firstSeen, now)
      case None => Ok(Waiting(r, firstSeen, cfg, now))
      case Some(c) =>
        if c.close <= 0.0 then Err(BadBaseline)
        else Ok(Measure(r.(baselineTime := Some(c.closeTime), baselinePrice := Some(c.close)), store, cfg, now))
  }

  class ReactionTracker {
    var cfg: Config

    constructor (cfg: Config)
      ensures this.cfg == cfg
    {
      this.cfg := cfg;
    }

    method SetConfig(cfg: Config)
      modifies this
      ensures this.cfg == cfg
    {
      this.cfg := cfg;
    }

    method FillHorizons(began: Reaction, start: int, baseline: Positive, store: seq<Candle>, now: int) returns (reaction: Reaction)
      requires Shaped(began)
      ensures reaction == Fill(began, start, baseline, store, now, 5)
    {
      hide PercentChange, FirstClosed;
      reaction := began;
      for index := 0 to 5
        invariant reaction == Fill(began, start, baseline, store, now, index)
      {
        if reaction.changes[index].None? && now >= start + Horizon(index) {
          var candle := FirstClosed(store, start + Horizon(index), now);
          if candle.Some? {
            var change := PercentChange(baseline, candle.value.close);
            reaction := reaction.(changes := reaction.changes[index := Some(change)],
                                  observedAt := reaction.observedAt[index := Some(candle.value.closeTime)]);
          }
        }
      }
    }

    method ObserveExtremes(began: Reaction, start: int, baseline: Positive, store: seq<Candle>, now: int) returns (reaction: Reaction)
      ensures reaction == Observe(began, start, baseline, store, now)
      ensures reaction.changes == began.changes && reaction.observedAt == began.observedAt
    {
      hide PercentChange;
      reaction := began;
      var extremes := ExtremesOf(store, start, if now < start + DAY then now else start + DAY);
      if extremes.through.Some? {
        reaction := reaction.(observedThrough := extremes.through);
      }
      if extremes.high.Some? {
        var value := PercentChange(baseline, extremes.high.value);
        if value < 0.0 {
          value := 0.0;
        }
        reaction := reaction.(maxUpPct := Some(value));
      }
      if extremes.low.Some? {
        var value := PercentChange(baseline, extremes.low.value);
        if value > 0.0 {
          value := 0.0;
        }
        reaction := reaction.(maxDownPct := Some(value));
      }
    }

    method Evaluate(stored: Option<Reaction>, firstSeen: int, store: seq<Candle>, now: int)
      returns (result: Result<Reaction, EvaluationError>)
      requires stored.Some? ==> Shaped(stored.value)
      ensures result == Evaluated(stored, firstSeen, store, cfg, now)
    {
      hide PercentChange, FirstClosed, Fill, Observe, NextDue;
      var reaction := NewReaction();
      if stored.Some? {
        reaction := stored.value.(lastError := "");
      }
      if reaction.baselineTime.None? || reaction.baselinePrice.None? {
        var candle := FirstClosed(store, firstSeen, now);
        if candle.None? {
          var deadline := firstSeen + cfg.baselineGrace;
          if now >= deadline {
            return Ok(reaction.(status := InsufficientData, completedAt := Some(now), nextEvaluationAt := now,
                                lastError := BASELINE_UNAVAILABLE));
          }
          var next := now + PollInterval(cfg);
          if deadline < next {
            next := deadline;
          }
          return Ok(reaction.(status := Tracking, nextEvaluationAt := next));
        }
        if candle.value.close <= 0.0 {
          return Err(BadBaseline);
        }
        reaction := reaction.(baselineTime := Some(candle.value.closeTime), baselinePrice := Some(candle.value.close));
      }
      var start, baseline := reaction.baselineTime.value, reaction.baselinePrice.value;
      reaction := FillHorizons(reaction, start, baseline, store, now);
      reaction := ObserveExtremes(reaction, start, baseline, store, now);
      if reaction.changes[4].Some? {
        return Ok(reaction.(status := Complete, completedAt := Some(now), nextEvaluationAt := now));
      }
      if now >= start + DAY + cfg.baselineGrace {
        return Ok(reaction.(status := InsufficientData, completedAt := Some(now), nextEvaluationAt := now,
                            lastError := HORIZON_UNAVAILABLE));
      }
      return Ok(reaction.(status := Tracking, completedAt := None, nextEvaluationAt := NextDue(reaction, start, cfg, now, 0)));
    }
  }

  // ---------- what an evaluation keeps ----------

  /** A later store holds every candle of an earlier one. */
  ghost predicate Grows(store: seq<Candle>, later: seq<Candle>) {
    forall c :: c in store ==> c in later
  }

  /** Some stored candle closed exactly then. */
  ghost predicate ClosedAt(store: seq<Candle>, t: int) {
    exists c :: c in store && c.closeTime == t
  }

  /** No stored candle closed in the interval. */
  ghost predicate Quiet(store: seq<Candle>, from: int, until: int) {
    forall c :: c in store ==> !(from <= c.closeTime <= until)
  }

  /** The horizons measured from a baseline, after an evaluation at a moment on a store: each return comes
      with its observation, made between the horizon and now on a stored candle; observations are in the
      order of the horizons; and a horizon is open only while no candle has closed since. */
  ghost predicate Observed(start: int, changes: seq<Option<real>>, at: seq<Option<int>>, store: seq<Candle>, now: int) {
    && |changes| == 5 == |at|
    && (forall i :: 0 <= i < 5 ==> (changes[i].Some? <==> at[i].Some?))
    && (forall i :: 0 <= i < 5 && at[i].Some? ==> start + Horizon(i) <= at[i].value <= now && ClosedAt(store, at[i].value))
    && (forall i, j :: 0 <= i < j < 5 && at[j].Some? ==> at[i].Some? && at[i].value <= at[j].value)
    && (forall i :: 0 <= i < 5 && at[i].None? ==> Quiet(store, start + Horizon(i), now))
  }

  /** What is true of a reaction after an evaluation at a moment on a store. */
  ghost predicate Consistent(r: Reaction, store: seq<Candle>, now: int) {
    && Shaped(r)
    && (r.baselineTime.Some? <==> r.baselinePrice.Some?)
    && (r.baselineTime.Some? ==> r.baselineTime.value <= now && Observed(r.baselineTime.value, r.changes, r.observedAt, store, now))
    && (r.baselineTime.None? ==> Blank(r.changes, r.observedAt))
    && (r.status.Complete? ==> r.changes[4].Some?)
    && (r.status.Tracking? ==> r.nextEvaluationAt > now)
    && Signed(r)
  }

  ghost predicate Blank(changes: seq<Option<real>>, at: seq<Option<int>>) {
    && |changes| == 5 == |at|
    && (forall i :: 0 <= i < 5 ==> changes[i].None? && at[i].None?)
  }

  /** The best and worst excursion never change sign. */
  ghost predicate Signed(r: Reaction) {
    && (r.maxUpPct.Some? ==> r.maxUpPct.value >= 0.0)
    && (r.maxDownPct.Some? ==> r.maxDownPct.value <= 0.0)
  }

  lemma NextDueIsLater(r: Reaction, start: int, cfg: Config, now: int, i: nat)
    requires Shaped(r) && i <= 5
    ensures NextDue(r, start, cfg, now, i) > now
    decreases 5 - i
  {
    if i < 5 {
      NextDueIsLater(r, start, cfg, now, i + 1);
    }
  }

  /** The next look is at the first open horizon, or a poll from now once that is overdue. */
  lemma {:induction false} NextDueIsFirstOpen(r: Reaction, start: int, cfg: Config, now: int, i: nat, open: nat)
    requires Shaped(r) && i <= open < 5 && r.changes[open].None? && forall k :: i <= k < open ==> r.changes[k].Some?
    ensures var poll := if cfg.reactionInterval >= 60 then cfg.reactionInterval else 300;
            NextDue(r, start, cfg, now, i) == if start + Horizon(open) > now then start + Horizon(open) else now + poll
    decreases open - i
  {
    if i < open {
      NextDueIsFirstOpen(r, start, cfg, now, i + 1, open);
    }
  }

  /** What was there stays; what is new is the first close at or after its target. */
  lemma {:induction false} FillIsWriteOnce(r: Reaction, start: int, baseline: Positive, store: seq<Candle>, now: int, n: nat, i: nat)
    requires Shaped(r) && i < n <= 5
    ensures var f := Fill(r, start, baseline, store, now, n);
            var candle := FirstClosed(store, start + Horizon(i), now);
            if r.changes[i].Some? || now < start + Horizon(i) || candle.None?
            then f.changes[i] == r.changes[i] && f.observedAt[i] == r.observedAt[i]
            else && f.changes[i] == Some(PercentChange(baseline, candle.value.close))
                 && f.observedAt[i] == Some(candle.value.closeTime)
    decreases n
  {
    hide PercentChange;
    if i < n - 1 {
      FillIsWriteOnce(r, start, baseline, store, now, n - 1, i);
    }
  }

  lemma HorizonsIncrease()
    ensures forall i, j :: 0 <= i < j < 5 ==> Horizon(i) < Horizon(j)
    ensures forall i :: 0 <= i < 5 ==> 0 < Horizon(i) <= DAY
  {
  }

  /** Two horizons after filling: the earlier one is observed first, and no later than the other. */
  lemma FilledInOrder(r: Reaction, start: int, baseline: Positive, before: seq<Candle>, since: int, store: seq<Candle>, now: int, i: nat, j: nat)
    requires Shaped(r) && Observed(start, r.changes, r.observedAt, before, since)
    requires since <= now && Grows(before, store) && Ordered(store) && i < j < 5
    ensures var f := Fill(r, start, baseline, store, now, 5);
            f.observedAt[j].Some? ==> f.observedAt[i].Some? && f.observedAt[i].value <= f.observedAt[j].value
  {
    hide PercentChange, Fill, FirstClosed, Horizon;
    var f := Fill(r, start, baseline, store, now, 5);
    HorizonsIncrease();
    FillIsWriteOnce(r, start, baseline, store, now, 5, i);
    FillIsWriteOnce(r, start, baseline, store, now, 5, j);
    if f.observedAt[j].Some? {
      var ti, tj := start + Horizon(i), start + Horizon(j);
      if r.observedAt[j].None? {
        var late := FirstClosed(store, tj, now).value;
        if r.observedAt[i].Some? {
          // the earlier observation lies before the later target, or the later would have been filled then
          var c :| c in before && c.closeTime == r.observedAt[i].value;
          assert !(tj <= c.closeTime <= since);
        } else {
          assert late in store && ti <= late.closeTime <= now;
          FirstIsEarliest(store, ti, now, late);
        }
      }
    }
  }

  lemma {:induction false} FirstIsEarliest(store: seq<Candle>, at: int, knownAt: int, c: Candle)
    requires Ordered(store) && c in store && at <= c.closeTime <= knownAt
    ensures FirstClosed(store, at, knownAt).Some? && FirstClosed(store, at, knownAt).value.closeTime <= c.closeTime
  {
    if !(at <= store[0].closeTime <= knownAt) {
      assert c in store[1..];
      FirstIsEarliest(store[1..], at, knownAt, c);
    } else if c != store[0] {
      var k :| 0 <= k < |store| && store[k] == c;
    }
  }

  lemma FilledHorizon(r: Reaction, start: int, baseline: Positive, before: seq<Candle>, since: int, store: seq<Candle>, now: int, i: nat)
    requires Shaped(r) && Observed(start, r.changes, r.observedAt, before, since)
    requires since <= now && Grows(before, store) && i < 5
    ensures var f := Fill(r, start, baseline, store, now, 5);
            && (f.changes[i].Some? <==> f.observedAt[i].Some?)
            && (f.observedAt[i].Some? ==> start + Horizon(i) <= f.observedAt[i].value <= now && ClosedAt(store, f.observedAt[i].value))
            && (f.observedAt[i].None? ==> Quiet(store, start + Horizon(i), now))
  {
    hide PercentChange, Fill, FirstClosed, Horizon;
    FillIsWriteOnce(r, start, baseline, store, now, 5, i);
    var candle := FirstClosed(store, start + Horizon(i), now);
    if r.observedAt[i].Some? {
      var c :| c in before && c.closeTime == r.observedAt[i].value;
      assert c in store;
    } else if now >= start + Horizon(i) && candle.Some? {
      assert candle.value in store;
    }
  }

  lemma ObserveTouchesExtremesOnly(r: Reaction, start: int, baseline: Positive, store: seq<Candle>, now: int)
    ensures var o := Observe(r, start, baseline, store, now);
            && o == r.(observedThrough := o.observedThrough, maxUpPct := o.maxUpPct, maxDownPct := o.maxDownPct)
            && (r.maxUpPct.Some? ==> o.maxUpPct.Some?) && (r.maxDownPct.Some? ==> o.maxDownPct.Some?)
            && (r.observedThrough.Some? ==> o.observedThrough.Some?)
            && (Signed(r) ==> Signed(o))
  {
    hide PercentChange, ExtremesOf;
  }

  lemma FillKeepsObserved(r: Reaction, start: int, baseline: Positive, before: seq<Candle>, since: int, store: seq<Candle>, now: int)
    requires Shaped(r) && Observed(start, r.changes, r.observedAt, before, since)
    requires since <= now && Grows(before, store) && Ordered(store)
    ensures var f := Fill(r, start, baseline, store, now, 5);
            Observed(start, f.changes, f.observedAt, store, now)
  {
    hide PercentChange, Fill, FirstClosed, Horizon, Quiet, ClosedAt, Grows, Ordered;
    var f := Fill(r, start, baseline, store, now, 5);
    forall i | 0 <= i < 5
      ensures (f.changes[i].Some? <==> f.observedAt[i].Some?)
      ensures f.observedAt[i].Some? ==> start + Horizon(i) <= f.observedAt[i].value <= now && ClosedAt(store, f.observedAt[i].value)
      ensures f.observedAt[i].None? ==> Quiet(store, start + Horizon(i), now)
    {
      FilledHorizon(r, start, baseline, before, since, store, now, i);
    }
    forall i, j | 0 <= i < j < 5 && f.observedAt[j].Some?
      ensures f.observedAt[i].Some? && f.observedAt[i].value <= f.observedAt[j].value
    {
      FilledInOrder(r, start, baseline, before, since, store, now, i, j);
    }
  }

  lemma MeasureIsConsistent(r: Reaction, before: seq<Candle>, since: int, store: seq<Candle>, cfg: Config, now: int)
    requires Shaped(r) && Signed(r) && r.baselineTime.Some? && r.baselinePrice.Some? && r.baselineTime.value <= now
    requires Observed(r.baselineTime.value, r.changes, r.observedAt, before, since)
    requires since <= now && Grows(before, store) && Ordered(store)
    ensures Consistent(Measure(r, store, cfg, now), store, now)
  {
    hide Fill, Observe, Conclude, Observed, Grows, Ordered, Consistent, Signed;
    var start, baseline := r.baselineTime.value, r.baselinePrice.value;
    var f := Fill(r, start, baseline, store, now, 5);
    FillKeepsObserved(r, start, baseline, before, since, store, now);
    ObserveTouchesExtremesOnly(f, start, baseline, store, now);
    SignedIsAboutExtremes(r, f);
    ConclusionIsConsistent(Observe(f, start, baseline, store, now), store, cfg, now);
  }

  lemma ConclusionIsConsistent(r: Reaction, store: seq<Candle>, cfg: Config, now: int)
    requires Shaped(r) && Signed(r) && r.baselineTime.Some? && r.baselinePrice.Some? && r.baselineTime.value <= now
    requires Observed(r.baselineTime.value, r.changes, r.observedAt, store, now)
    ensures Consistent(Conclude(r, r.baselineTime.value, cfg, now), store, now)
  {
    hide NextDue, Observed;
    NextDueIsLater(r, r.baselineTime.value, cfg, now, 0);
  }

  /** A complete reaction has measured every horizon. */
  lemma CompleteMeansAllFive(r: Reaction, store: seq<Candle>, now: int)
    requires Consistent(r, store, now) && r.status.Complete?
    ensures forall i :: 0 <= i < 5 ==> r.changes[i].Some? && r.observedAt[i].Some?
  {
    assert r.changes[4].Some? && r.observedAt[4].Some?;
  }

  // ---------- runs of evaluation passes ----------

  /** One pass of the tracker over a reaction: when, on which candles and under which configuration. */
  datatype Pass = Pass(now: int, store: seq<Candle>, cfg: Config)

  predicate Due(stored: Option<Reaction>, now: int) {
    stored.None? || (stored.value.status.Tracking? && stored.value.nextEvaluationAt <= now)
  }

  /** Storing keeps what an earlier pass recorded where the new row has nothing. */
  function Upsert(stored: Option<Reaction>, r: Reaction): Reaction
    requires Shaped(r) && (stored.Some? ==> Shaped(stored.value))
  {
    match stored
    case None => r
    case Some(prior) =>
      r.(baselineTime := Keep(r.baselineTime, prior.baselineTime), baselinePrice := Keep(r.baselinePrice, prior.baselinePrice),
         changes := seq(5, i requires 0 <= i < 5 => Keep(r.changes[i], prior.changes[i])),
         observedAt := seq(5, i requires 0 <= i < 5 => Keep(r.observedAt[i], prior.observedAt[i])),
         maxUpPct := Keep(r.maxUpPct, prior.maxUpPct), maxDownPct := Keep(r.maxDownPct, prior.maxDownPct),
         observedThrough := Keep(r.observedThrough, prior.observedThrough))
  }

  function Keep<T>(newer: Option<T>, prior: Option<T>): Option<T> {
    if newer.Some? then newer else prior
  }

  function RunPass(stored: Option<Reaction>, firstSeen: int, pass: Pass): (r: Option<Reaction>)
    requires stored.Some? ==> Shaped(stored.value)
    ensures r.Some? ==> Shaped(r.value)
  {
    if !Due(stored, pass.now) then stored
    else
      match Evaluated(stored, firstSeen, pass.store, pass.cfg, pass.now)
      case Err(_) => stored
      case Ok(r) => Some(Upsert(stored, r))
  }

  function RunPasses(firstSeen: int, passes: seq<Pass>): (r: Option<Reaction>)
    ensures r.Some? ==> Shaped(r.value)
  {
    if passes == [] then None
    else RunPass(RunPasses(firstSeen, passes[..|passes| - 1]), firstSeen, passes[|passes| - 1])
  }

  /** Time does not go back and candles are only added. */
  ghost predicate Progressing(passes: seq<Pass>) {
    && (forall i :: 0 <= i < |passes| ==> Ordered(passes[i].store))
    && (forall i, j :: 0 <= i < j < |passes| ==> passes[i].now <= passes[j].now && Grows(passes[i].store, passes[j].store))
  }

  /** Nothing a pass recorded is ever changed by a later one. */
  ghost predicate WriteOnce(prior: Reaction, r: Reaction) {
    && Shaped(prior) && Shaped(r)
    && (prior.baselineTime.Some? && prior.baselinePrice.Some? ==> r.baselineTime == prior.baselineTime && r.baselinePrice == prior.baselinePrice)
    && (forall i :: 0 <= i < 5 && prior.changes[i].Some? ==> r.changes[i] == prior.changes[i])
    && (forall i :: 0 <= i < 5 && prior.changes[i].Some? ==> r.observedAt[i] == prior.observedAt[i])
  }

  lemma MeasureIsWriteOnce(r: Reaction, store: seq<Candle>, cfg: Config, now: int)
    requires Shaped(r) && r.baselineTime.Some? && r.baselinePrice.Some?
    ensures WriteOnce(r, Measure(r, store, cfg, now))
  {
    hide PercentChange, Fill, ExtremesOf, NextDue, FirstClosed, Horizon;
    var start, baseline := r.baselineTime.value, r.baselinePrice.value;
    var f := Fill(r, start, baseline, store, now, 5);
    forall i | 0 <= i < 5 && r.changes[i].Some?
      ensures f.changes[i] == r.changes[i] && f.observedAt[i] == r.observedAt[i]
    {
      FillIsWriteOnce(r, start, baseline, store, now, 5, i);
    }
  }

  lemma EvaluatedIsWriteOnce(stored: Reaction, firstSeen: int, store: seq<Candle>, cfg: Config, now: int)
    requires Shaped(stored) && Evaluated(Some(stored), firstSeen, store, cfg, now).Ok?
    ensures WriteOnce(stored, Evaluated(Some(stored), firstSeen, store, cfg, now).value)
  {
    hide Measure, FirstClosed;
    var r := StartFrom(Some(stored));
    var c := FirstClosed(store, firstSeen, now);
    if r.baselineTime.Some? && r.baselinePrice.Some? {
      MeasureIsWriteOnce(r, store, cfg, now);
    } else if c.Some? {
      MeasureIsWriteOnce(r.(baselineTime := Some(c.value.closeTime), baselinePrice := Some(c.value.close)), store, cfg, now);
    }
  }

  /** Storing an evaluation stores it as it is: it never has nothing where there was something. */
  lemma UpsertIsPlain(stored: Reaction, before: seq<Candle>, since: int, firstSeen: int, pass: Pass)
    requires Consistent(stored, before, since)
    requires Evaluated(Some(stored), firstSeen, pass.store, pass.cfg, pass.now).Ok?
    ensures var r := Evaluated(Some(stored), firstSeen, pass.store, pass.cfg, pass.now).value;
            Shaped(r) && Upsert(Some(stored), r) == r
  {
    EvaluatedIsWriteOnce(stored, firstSeen, pass.store, pass.cfg, pass.now);
    EvaluatedKeepsExtremes(stored, firstSeen, pass.store, pass.cfg, pass.now);
    hide Evaluated, Observed;
    var r := Evaluated(Some(stored), firstSeen, pass.store, pass.cfg, pass.now).value;
    forall i | 0 <= i < 5
      ensures Keep(r.changes[i], stored.changes[i]) == r.changes[i]
      ensures Keep(r.observedAt[i], stored.observedAt[i]) == r.observedAt[i]
    {
      ReturnComesWithItsTime(stored, before, since, i);
    }
    var u := Upsert(Some(stored), r);
    assert u.changes == r.changes && u.observedAt == r.observedAt;
  }

  lemma ReturnComesWithItsTime(r: Reaction, store: seq<Candle>, now: int, i: nat)
    requires Consistent(r, store, now) && i < 5
    ensures r.changes[i].Some? <==> r.observedAt[i].Some?
  {
  }

  lemma EvaluatedKeepsExtremes(stored: Reaction, firstSeen: int, store: seq<Candle>, cfg: Config, now: int)
    requires Shaped(stored) && Evaluated(Some(stored), firstSeen, store, cfg, now).Ok?
    ensures var r := Evaluated(Some(stored), firstSeen, store, cfg, now).value;
            && (stored.maxUpPct.Some? ==> r.maxUpPct.Some?) && (stored.maxDownPct.Some? ==> r.maxDownPct.Some?)
            && (stored.observedThrough.Some? ==> r.observedThrough.Some?)
            && (stored.baselineTime.Some? ==> r.baselineTime.Some?) && (stored.baselinePrice.Some? ==> r.baselinePrice.Some?)
  {
    hide FirstClosed, Measure;
    var r := StartFrom(Some(stored));
    var c := FirstClosed(store, firstSeen, now);
    if r.baselineTime.Some? && r.baselinePrice.Some? {
      MeasureKeepsExtremes(r, store, cfg, now);
    } else if c.Some? {
      MeasureKeepsExtremes(r.(baselineTime := Some(c.value.closeTime), baselinePrice := Some(c.value.close)), store, cfg, now);
    }
  }

  lemma MeasureKeepsExtremes(r: Reaction, store: seq<Candle>, cfg: Config, now: int)
    requires Shaped(r) && r.baselineTime.Some? && r.baselinePrice.Some?
    ensures var m := Measure(r, store, cfg, now);
            && (r.maxUpPct.Some? ==> m.maxUpPct.Some?) && (r.maxDownPct.Some? ==> m.maxDownPct.Some?)
            && (r.observedThrough.Some? ==> m.observedThrough.Some?)
            && m.baselineTime == r.baselineTime && m.baselinePrice == r.baselinePrice
  {
    hide Fill, Observe, NextDue;
    var start, baseline := r.baselineTime.value, r.baselinePrice.value;
    ObserveTouchesExtremesOnly(Fill(r, start, baseline, store, now, 5), start, baseline, store, now);
  }

  /** One due evaluation of a consistent or new reaction is consistent again. */
  lemma EvaluatedIsConsistent(stored: Option<Reaction>, before: seq<Candle>, since: int, firstSeen: int, pass: Pass)
    requires stored.Some? ==> Consistent(stored.value, before, since)
    requires since <= pass.now && Grows(before, pass.store) && Ordered(pass.store)
    requires Evaluated(stored, firstSeen, pass.store, pass.cfg, pass.now).Ok?
    ensures Consistent(Evaluated(stored, firstSeen, pass.store, pass.cfg, pass.now).value, pass.store, pass.now)
  {
    hide FirstClosed, Measure, Consistent, Observed, Ordered, Grows, Blank, Signed, StartFrom, Waiting;
    var r := StartFrom(stored);
    StartIsConsistent(stored, before, since);
    if r.baselineTime.Some? {
      MeasureIsConsistent(r, before, since, pass.store, pass.cfg, pass.now);
    } else {
      var c := FirstClosed(pass.store, firstSeen, pass.now);
      if c.None? {
        WaitingIsConsistent(r, firstSeen, pass.store, pass.cfg, pass.now);
      } else if c.value.close > 0.0 {
        var s := r.(baselineTime := Some(c.value.closeTime), baselinePrice := Some(c.value.close));
        NothingObserved(c.value.closeTime, s.changes, s.observedAt, since);
        NothingGrows(pass.store);
        SignedIsAboutExtremes(r, s);
        MeasureIsConsistent(s, [], since, pass.store, pass.cfg, pass.now);
      }
    }
  }

  lemma StartIsConsistent(stored: Option<Reaction>, before: seq<Candle>, since: int)
    requires stored.Some? ==> Consistent(stored.value, before, since)
    ensures var r := StartFrom(stored);
            && Shaped(r) && Signed(r) && (r.baselineTime.Some? <==> r.baselinePrice.Some?)
            && (r.baselineTime.Some? ==> r.baselineTime.value <= since && Observed(r.baselineTime.value, r.changes, r.observedAt, before, since))
            && (r.baselineTime.None? ==> Blank(r.changes, r.observedAt))
  {
    hide Observed;
  }

  lemma SignedIsAboutExtremes(r: Reaction, s: Reaction)
    requires Signed(r) && s.maxUpPct == r.maxUpPct && s.maxDownPct == r.maxDownPct
    ensures Signed(s)
  {
  }

  lemma WaitingIsConsistent(r: Reaction, firstSeen: int, store: seq<Candle>, cfg: Config, now: int)
    requires Shaped(r) && Signed(r) && r.baselineTime.None? && r.baselinePrice.None? && Blank(r.changes, r.observedAt)
    ensures Consistent(Waiting(r, firstSeen, cfg, now), store, now)
  {
  }

  lemma NothingObserved(start: int, changes: seq<Option<real>>, at: seq<Option<int>>, now: int)
    requires Blank(changes, at)
    ensures Observed(start, changes, at, [], now)
  {
  }

  lemma NothingGrows(store: seq<Candle>)
    ensures Grows([], store)
  {
  }

  /** After any passes over growing candles: each observation lies between its target and the time of
      the pass that made it, observations are in horizon order, a complete reaction has all five, and a
      reaction still tracked is due strictly later. */
  lemma {:induction false} RunIsConsistent(firstSeen: int, passes: seq<Pass>) returns (last: Pass)
    requires passes != [] && Progressing(passes) && RunPasses(firstSeen, passes).Some?
    ensures last in passes && Consistent(RunPasses(firstSeen, passes).value, last.store, last.now)
    ensures last.now <= passes[|passes| - 1].now && Grows(last.store, passes[|passes| - 1].store)
    decreases |passes|
  {
    hide Evaluated, Consistent;
    var n := |passes| - 1;
    var front, pass := passes[..n], passes[n];
    var stored := RunPasses(firstSeen, front);
    var before: seq<Candle>, since := [], pass.now;
    last := pass;
    if stored.Some? {
      assert front != [];
      var prev := RunIsConsistent(firstSeen, front);
      before, since := prev.store, prev.now;
      assert prev in passes;
      var k :| 0 <= k < n && passes[k] == prev;
      if !Due(stored, pass.now) || Evaluated(stored, firstSeen, pass.store, pass.cfg, pass.now).Err? {
        last := prev;
        return;
      }
      UpsertIsPlain(stored.value, before, since, firstSeen, pass);
    }
    EvaluatedIsConsistent(stored, before, since, firstSeen, pass);
  }

  lemma WriteOnceTwice(a: Reaction, b: Reaction, c: Reaction)
    requires Shaped(a) && Shaped(b) && Shaped(c) && WriteOnce(a, b) && WriteOnce(b, c)
    ensures WriteOnce(a, c)
  {
  }

  /** No later pass changes what an earlier one recorded. */
  lemma {:induction false} RunIsWriteOnce(firstSeen: int, passes: seq<Pass>, n: nat)
    requires Progressing(passes) && n <= |passes| && RunPasses(firstSeen, passes[..n]).Some?
    ensures RunPasses(firstSeen, passes).Some?
    ensures WriteOnce(RunPasses(firstSeen, passes[..n]).value, RunPasses(firstSeen, passes).value)
    decreases |passes|
  {
    if n == |passes| {
      assert passes[..n] == passes;
    } else {
      var m := |passes| - 1;
      var front, pass := passes[..m], passes[m];
      assert front[..n] == passes[..n];
      assert RunPasses(firstSeen, passes) == RunPass(RunPasses(firstSeen, front), firstSeen, pass);
      hide RunPass, Consistent, WriteOnce, RunPasses;
      RunIsWriteOnce(firstSeen, front, n);
      var stored := RunPasses(firstSeen, front).value;
      NothingRun(firstSeen);
      var prev := RunIsConsistent(firstSeen, front);
      PassIsWriteOnce(stored, prev.store, prev.now, firstSeen, pass);
      WriteOnceTwice(RunPasses(firstSeen, passes[..n]).value, stored, RunPasses(firstSeen, passes).value);
    }
  }

  lemma NothingRun(firstSeen: int)
    ensures RunPasses(firstSeen, []).None?
  {
  }

  lemma PassIsWriteOnce(stored: Reaction, before: seq<Candle>, since: int, firstSeen: int, pass: Pass)
    requires Consistent(stored, before, since)
    ensures RunPass(Some(stored), firstSeen, pass).Some?
    ensures WriteOnce(stored, RunPass(Some(stored), firstSeen, pass).value)
  {
    hide Evaluated, Observed;
    if Due(Some(stored), pass.now) && Evaluated(Some(stored), firstSeen, pass.store, pass.cfg, pass.now).Ok? {
      UpsertIsPlain(stored, before, since, firstSeen, pass);
      EvaluatedIsWriteOnce(stored, firstSeen, pass.store, pass.cfg, pass.now);
    }
  }

  /** An evaluation a day and the grace after the baseline ends the tracking, one way or the other. */
  lemma LateEvaluationIsTerminal(stored: Option<Reaction>, firstSeen: int, store: seq<Candle>, cfg: Config, now: int)
    requires stored.Some? ==> Shaped(stored.value)
    requires Evaluated(stored, firstSeen, store, cfg, now).Ok?
    ensures var r := Evaluated(stored, firstSeen, store, cfg, now).value;
            && (r.baselineTime.Some? && r.baselinePrice.Some? && now >= r.baselineTime.value + DAY + cfg.baselineGrace
                ==> !r.status.Tracking? && (r.status.Complete? <==> r.changes[4].Some?))
            && (r.baselineTime.None? && now >= firstSeen + cfg.baselineGrace ==> r.status.InsufficientData?)
  {
    hide PercentChange, Fill, ExtremesOf, NextDue, FirstClosed;
  }

  /** How an evaluation leaves the tracking. A measured reaction is complete with its last return, ends without it
      once a day and the grace have passed since the baseline and goes on before; one without a baseline ends
      once the grace has passed since the news, and is looked at again by then or after a poll, whichever is first. */
  lemma StatusMeans(stored: Option<Reaction>, firstSeen: int, store: seq<Candle>, cfg: Config, now: int)
    requires stored.Some? ==> Shaped(stored.value)
    requires Evaluated(stored, firstSeen, store, cfg, now).Ok?
    ensures var r := Evaluated(stored, firstSeen, store, cfg, now).value;
            var poll := if cfg.reactionInterval >= 60 then cfg.reactionInterval else 300;
            && (r.baselineTime.Some? && r.baselinePrice.Some? ==>
                  var late := now - r.baselineTime.value >= 24 * 60 * 60 + cfg.baselineGrace;
                  && (r.status.Complete? <==> r.changes[4].Some?)
                  && (r.status.InsufficientData? <==> r.changes[4].None? && late)
                  && (r.completedAt == if r.status.Tracking? then None else Some(now))
                  && (!r.status.Tracking? ==> r.nextEvaluationAt == now))
            && (!(r.baselineTime.Some? && r.baselinePrice.Some?) ==>
                  var late := now - firstSeen >= cfg.baselineGrace;
                  && (if late then r.status.InsufficientData? && r.completedAt == Some(now) && r.nextEvaluationAt == now
                      else r.status.Tracking? && r.nextEvaluationAt <= firstSeen + cfg.baselineGrace && r.nextEvaluationAt <= now + poll
                           && (r.nextEvaluationAt == firstSeen + cfg.baselineGrace || r.nextEvaluationAt == now + poll)))
  {
    hide Measure, PercentChange, NextDue, FirstClosed;
    var r := StartFrom(stored);
    if r.baselineTime.Some? && r.baselinePrice.Some? {
      MeasureConcludes(r, store, cfg, now);
    } else if FirstClosed(store, firstSeen, now).Some? {
      var c := FirstClosed(store, firstSeen, now).value;
      MeasureConcludes(r.(baselineTime := Some(c.closeTime), baselinePrice := Some(c.close)), store, cfg, now);
    }
  }

  lemma MeasureConcludes(r: Reaction, store: seq<Candle>, cfg: Config, now: int)
    requires Shaped(r) && r.baselineTime.Some? && r.baselinePrice.Some?
    ensures var m := Measure(r, store, cfg, now);
            && m.baselineTime == r.baselineTime && m.baselinePrice == r.baselinePrice && Shaped(m)
            && var late := now - r.baselineTime.value >= 24 * 60 * 60 + cfg.baselineGrace;
               && (m.status.Complete? <==> m.changes[4].Some?)
               && (m.status.InsufficientData? <==> m.changes[4].None? && late)
               && (m.completedAt == if m.status.Tracking? then None else Some(now))
               && (!m.status.Tracking? ==> m.nextEvaluationAt == now)
  {
    hide PercentChange, Fill, ExtremesOf, NextDue;
  }

  /** A pass leaves a reaction alone that has ended or whose time has not come, and evaluates any other. */
  lemma PassesWaitTheirTurn(stored: Option<Reaction>, firstSeen: int, pass: Pass)
    requires stored.Some? ==> Shaped(stored.value)
    ensures stored.Some? && (stored.value.status.Complete? || stored.value.status.InsufficientData? || pass.now < stored.value.nextEvaluationAt)
            ==> RunPass(stored, firstSeen, pass) == stored
    ensures stored.None? || (stored.value.status.Tracking? && pass.now >= stored.value.nextEvaluationAt)
            ==> var e := Evaluated(stored, firstSeen, pass.store, pass.cfg, pass.now);
                RunPass(stored, firstSeen, pass) == if e.Ok? then Some(Upsert(stored, e.value)) else stored
  {
    hide Evaluated, Upsert;
  }

  // ---------- one pass over a queue of reactions ----------

  /** A pair of news cluster and asset whose reaction is due. */
  datatype Work = Work(cluster: int, asset: int, firstSeen: int)

  type Key = (int, int)

  function KeyOf(w: Work): Key {
    (w.cluster, w.asset)
  }

  type Rows = map<Key, Reaction>

  type CandleStore = int -> seq<Candle>

  ghost predicate ShapedRows(rows: Rows) {
    forall k :: k in rows ==> Shaped(rows[k])
  }

  function Lookup(rows: Rows, k: Key): Option<Reaction> {
    if k in rows then Some(rows[k]) else None
  }

  function Outcome(rows: Rows, w: Work, candles: CandleStore, cfg: Config, now: int): Result<Reaction, EvaluationError>
    requires KeyOf(w) in rows ==> Shaped(rows[KeyOf(w)])
  {
    Evaluated(Lookup(rows, KeyOf(w)), w.firstSeen, candles(w.asset), cfg, now)
  }

  /** What is stored for one pair; a failed evaluation stores nothing. */
  function Processed(rows: Rows, w: Work, candles: CandleStore, cfg: Config, now: int): Rows
    requires KeyOf(w) in rows ==> Shaped(rows[KeyOf(w)])
  {
    match Outcome(rows, w, candles, cfg, now)
    case Err(_) => rows
    case Ok(r) => rows[KeyOf(w) := Upsert(Lookup(rows, KeyOf(w)), r)]
  }

  datatype Stats = Stats(due: nat, updated: nat, completed: nat, insufficient: nat)

  /** How many pairs an evaluation leaves in a status. */
  ghost function Ended(rows: Rows, work: seq<Work>, candles: CandleStore, cfg: Config, now: int, status: Status): nat
    requires ShapedRows(rows)
  {
    if work == [] then 0
    else
      Ended(rows, work[..|work| - 1], candles, cfg, now, status)
      + (if EndOf(Outcome(rows, work[|work| - 1], candles, cfg, now)) == Some(status) then 1 else 0)
  }

  ghost predicate Distinct(work: seq<Work>) {
    forall i, j :: 0 <= i < j < |work| ==> KeyOf(work[i]) != KeyOf(work[j])
  }

  class ReactionQueue {
    const tracker: ReactionTracker
    var rows: Rows

    constructor (tracker: ReactionTracker)
      ensures rows == map[] && this.tracker == tracker
    {
      rows, this.tracker := map[], tracker;
    }

    /** Evaluates every due pair. Each ends up as it would alone, whatever becomes of the others, and no
        other pair is touched; what was not updated is reported. */
    method ProcessDue(work: seq<Work>, candles: CandleStore, now: int) returns (stats: Stats, failures: seq<Work>)
      requires ShapedRows(rows) && Distinct(work)
      modifies this
      ensures ShapedRows(rows)
      ensures forall w :: w in work ==> Lookup(rows, KeyOf(w)) == Lookup(Processed(old(rows), w, candles, tracker.cfg, now), KeyOf(w))
      ensures forall k :: (forall w :: w in work ==> KeyOf(w) != k) ==> Lookup(rows, k) == Lookup(old(rows), k)
      ensures stats.due == |work| && stats.updated + |failures| == stats.due
      ensures stats.completed == Ended(old(rows), work, candles, tracker.cfg, now, Complete)
      ensures stats.insufficient == Ended(old(rows), work, candles, tracker.cfg, now, InsufficientData)
      ensures forall w :: w in failures <==> w in work && Outcome(old(rows), w, candles, tracker.cfg, now).Err?
    {
      hide Evaluated, Outcome, Ended, Upsert, Shaped, Processed, Lookup;
      stats, failures := Stats(|work|, 0, 0, 0), [];
      ghost var before := rows;
      NobodyEnded(before, candles, tracker.cfg, now);
      for i := 0 to |work|
        invariant ShapedRows(rows)
        invariant forall j :: 0 <= j < i ==> Lookup(rows, KeyOf(work[j])) == Lookup(Processed(before, work[j], candles, tracker.cfg, now), KeyOf(work[j]))
        invariant forall k :: (forall j :: 0 <= j < i ==> KeyOf(work[j]) != k) ==> Lookup(rows, k) == Lookup(before, k)
        invariant stats.due == |work| && stats.updated + |failures| == i
        invariant stats.completed == Ended(before, work[..i], candles, tracker.cfg, now, Complete)
        invariant stats.insufficient == Ended(before, work[..i], candles, tracker.cfg, now, InsufficientData)
        invariant forall w :: w in failures <==> exists j :: 0 <= j < i && w == work[j] && Outcome(before, work[j], candles, tracker.cfg, now).Err?
      {
        var item := work[i];
        assert forall j :: 0 <= j < i ==> KeyOf(work[j]) != KeyOf(item);
        SameLookup(rows, before, item, candles, tracker.cfg, now);
        OneMoreEnded(before, work, i, candles, tracker.cfg, now);
        var status := ProcessOne(item, candles, now);
        if status.None? {
          failures := failures + [item];
        } else {
          stats := stats.(updated := stats.updated + 1);
          if status.value.Complete? {
            stats := stats.(completed := stats.completed + 1);
          } else if status.value.InsufficientData? {
            stats := stats.(insufficient := stats.insufficient + 1);
          }
        }
      }
      assert work[..|work|] == work;
    }

    /** Evaluates one pair and stores what came of it; nothing when the evaluation failed. */
    method ProcessOne(item: Work, candles: CandleStore, now: int) returns (status: Option<Status>)
      requires ShapedRows(rows)
      modifies this
      ensures ShapedRows(rows) && rows == Processed(old(rows), item, candles, tracker.cfg, now)
      ensures forall k :: k != KeyOf(item) ==> Lookup(rows, k) == Lookup(old(rows), k)
      ensures status == EndOf(Outcome(old(rows), item, candles, tracker.cfg, now))
    {
      hide Evaluated, Upsert;
      var stored := Lookup(rows, KeyOf(item));
      var reaction := tracker.Evaluate(stored, item.firstSeen, candles(item.asset), now);
      if reaction.Err? {
        return None;
      }
      UpsertIsShaped(stored, reaction.value);
      rows := rows[KeyOf(item) := Upsert(stored, reaction.value)];
      return Some(reaction.value.status);
    }
  }

  function EndOf(e: Result<Reaction, EvaluationError>): Option<Status> {
    if e.Ok? then Some(e.value.status) else None
  }

  lemma UpsertIsShaped(stored: Option<Reaction>, r: Reaction)
    requires Shaped(r) && (stored.Some? ==> Shaped(stored.value))
    ensures Shaped(Upsert(stored, r))
  {
  }

  lemma SameLookup(rows: Rows, before: Rows, item: Work, candles: CandleStore, cfg: Config, now: int)
    requires ShapedRows(rows) && ShapedRows(before) && Lookup(rows, KeyOf(item)) == Lookup(before, KeyOf(item))
    ensures Outcome(rows, item, candles, cfg, now) == Outcome(before, item, candles, cfg, now)
    ensures Lookup(Processed(rows, item, candles, cfg, now), KeyOf(item)) == Lookup(Processed(before, item, candles, cfg, now), KeyOf(item))
  {
    hide Evaluated, Upsert;
  }

  lemma NobodyEnded(rows: Rows, candles: CandleStore, cfg: Config, now: int)
    requires ShapedRows(rows)
    ensures forall status :: Ended(rows, [], candles, cfg, now, status) == 0
  {
  }

  lemma OneMoreEnded(rows: Rows, work: seq<Work>, i: nat, candles: CandleStore, cfg: Config, now: int)
    requires ShapedRows(rows) && i < |work|
    ensures forall status :: Ended(rows, work[..i + 1], candles, cfg, now, status)
                             == Ended(rows, work[..i], candles, cfg, now, status)
                                + (if EndOf(Outcome(rows, work[i], candles, cfg, now)) == Some(status) then 1 else 0)
  {
    hide Outcome;
    assert work[..i + 1][..i] == work[..i];
  }

  // ---------- no future leakage ----------

  lemma {:induction false} KnownByOfFirst(store: seq<Candle>, now: int)
    requires store != []
    ensures KnownBy(store, now) == (if store[0].closeTime <= now then [store[0]] else []) + KnownBy(store[1..], now)
  {
    hide KnownBy;
    var front, last := store[..|store| - 1], store[|store| - 1];
    assert store == front + [last];
    KnownByOfOneMore(front, last, now);
    if front == [] {
      KnownByOfNothing(now);
      assert store[1..] == [];
    } else {
      KnownByOfFirst(front, now);
      assert store[1..] == front[1..] + [last];
      KnownByOfOneMore(front[1..], last, now);
    }
  }

  lemma KnownByOfNothing(now: int)
    ensures KnownBy([], now) == []
  {
  }

  lemma {:induction false} FirstClosedIsKnown(store: seq<Candle>, at: int, now: int)
    ensures FirstClosed(store, at, now) == FirstClosed(KnownBy(store, now), at, now)
  {
    if store != [] {
      KnownByOfFirst(store, now);
      FirstClosedIsKnown(store[1..], at, now);
      var rest := KnownBy(store[1..], now);
      hide KnownBy;
      assert ([store[0]] + rest)[1..] == rest;
      assert [] + rest == rest;
    }
  }

  lemma KnownByOfOneMore(store: seq<Candle>, c: Candle, now: int)
    ensures KnownBy(store + [c], now) == KnownBy(store, now) + (if c.closeTime <= now then [c] else [])
  {
    assert (store + [c])[..|store|] == store;
  }

  lemma {:induction false} ExtremesAreKnown(store: seq<Candle>, after: int, until: int, now: int)
    requires until <= now
    ensures ExtremesOf(store, after, until) == ExtremesOf(KnownBy(store, now), after, until)
  {
    hide Widen, ExtremesOf;
    if store != [] {
      var front, c := store[..|store| - 1], store[|store| - 1];
      assert store == front + [c];
      ExtremesAreKnown(front, after, until, now);
      KnownByOfOneMore(front, c, now);
      ExtremesOfOneMore(front, c, after, until);
      ExtremesOfOneMore(KnownBy(front, now), c, after, until);
      assert KnownBy(front, now) + [] == KnownBy(front, now);
    }
  }

  lemma ExtremesOfOneMore(store: seq<Candle>, c: Candle, after: int, until: int)
    ensures ExtremesOf(store + [c], after, until)
         == if after < c.closeTime <= until then Widen(ExtremesOf(store, after, until), c) else ExtremesOf(store, after, until)
  {
    hide Widen;
    assert (store + [c])[..|store|] == store;
  }

  lemma {:induction false} FillIsKnown(r: Reaction, start: int, baseline: Positive, store: seq<Candle>, now: int, n: nat)
    requires Shaped(r) && n <= 5
    ensures Fill(r, start, baseline, store, now, n) == Fill(r, start, baseline, KnownBy(store, now), now, n)
  {
    hide FirstClosed, KnownBy, PercentChange;
    if n > 0 {
      FillIsKnown(r, start, baseline, store, now, n - 1);
      FirstClosedIsKnown(store, start + Horizon(n - 1), now);
    }
  }

  /** An evaluation depends on the candles that had closed by then and on nothing later. */
  lemma EvaluationSeesNoFuture(stored: Option<Reaction>, firstSeen: int, store: seq<Candle>, cfg: Config, now: int)
    requires stored.Some? ==> Shaped(stored.value)
    ensures Evaluated(stored, firstSeen, store, cfg, now) == Evaluated(stored, firstSeen, KnownBy(store, now), cfg, now)
  {
    hide PercentChange, Fill, ExtremesOf, NextDue, FirstClosed, KnownBy, Conclude;
    var r := StartFrom(stored);
    FirstClosedIsKnown(store, firstSeen, now);
    var c := FirstClosed(store, firstSeen, now);
    var s := if r.baselineTime.Some? && r.baselinePrice.Some? then r
             else if c.Some? && c.value.close > 0.0 then r.(baselineTime := Some(c.value.closeTime), baselinePrice := Some(c.value.close))
             else r;
    if s.baselineTime.Some? && s.baselinePrice.Some? {
      var start := s.baselineTime.value;
      FillIsKnown(s, start, s.baselinePrice.value, store, now, 5);
      ExtremesAreKnown(store, start, if now < start + DAY then now else start + DAY, now);
    }
  }
}
