/** Fitting a market snapshot into the model's context window: ordered reductions under a token budget. */
module ContextBudget {
  import opened Domain
  import opened Rounding

  // ---------- token estimate ----------

  function Ceil(x: real): int {
    -((-x).Floor)
  }

  function AsciiRunes(s: string): nat {
    if s == [] then 0 else AsciiRunes(s[..|s| - 1]) + (if s[|s| - 1] as int <= 127 then 1 else 0)
  }

  function Tokens(s: string): int {
    TokensFor(AsciiRunes(s), |s| - AsciiRunes(s))
  }

  function TokensFor(ascii: int, others: int): int {
    Ceil(ascii as real / 2.4) + others
  }

  method EstimateTokens(s: string) returns (tokens: int)
    ensures tokens == Tokens(s)
  {
    var ascii, nonAscii := 0, 0;
    for i := 0 to |s|
      invariant ascii == AsciiRunes(s[..i]) && ascii + nonAscii == i
    {
      assert s[..i + 1][..i] == s[..i];
      if s[i] as int <= 127 {
        ascii := ascii + 1;
      } else {
        nonAscii := nonAscii + 1;
      }
    }
    assert s[..|s|] == s;
    return Ceil(ascii as real / 2.4) + nonAscii;
  }

  lemma {:induction false} AsciiOfJoined(a: string, b: string)
    ensures AsciiRunes(a + b) == AsciiRunes(a) + AsciiRunes(b)
    decreases |b|
  {
    if b == [] {
      assert a + b == a;
    } else {
      assert (a + b)[..|a + b| - 1] == a + b[..|b| - 1];
      AsciiOfJoined(a, b[..|b| - 1]);
    }
  }

  /** Joining two texts never costs more than estimating them apart, and saves at most one token. */
  lemma EstimateIsSubadditive(a: string, b: string)
    ensures Tokens(a) + Tokens(b) - 1 <= Tokens(a + b) <= Tokens(a) + Tokens(b)
  {
    AsciiOfJoined(a, b);
    CeilOfSum(AsciiRunes(a) as real / 2.4, AsciiRunes(b) as real / 2.4);
  }

  lemma CeilOfSum(x: real, y: real)
    ensures Ceil(x) + Ceil(y) - 1 <= Ceil(x + y) <= Ceil(x) + Ceil(y)
  {
  }

  // ---------- the payload ----------

  datatype NewsItem = NewsItem(title: string, source: string, summary: string, importance: real, critical: bool)

  datatype Value = Number(number: real) | Text(text: string) | Numbers(numbers: map<string, real>)

  datatype Timeframe = Timeframe(close: real, indicators: map<string, Value>, structure: string, bias: string,
                                 patterns: seq<string>, chart: seq<string>, divergence: seq<string>)

  datatype Level = Level(price: real, kind: string, strength: real, distancePct: real, touches: int)

  datatype Case = Case(similarity: real, timestamp: string, recommendation: string, confidence: int)

  /** What no reduction touches. */
  datatype Core = Core(symbol: string, timestamp: string, price: real, positions: seq<string>)

  /** The payload as it is encoded. */
  datatype View = View(core: Core, timeframes: map<string, Timeframe>, levels: seq<Level>, cases: seq<Case>,
                       assetNews: seq<NewsItem>, globalNews: seq<NewsItem>, candles: seq<seq<real>>,
                       missing: seq<string>, notes: seq<string>)

  datatype BuildOptions = BuildOptions(maxTokens: int, tailCandles: int, maxSimilarCases: int)

  const DEFAULT_OPTIONS := BuildOptions(4200, 20, 5)

  function Head<T>(items: seq<T>, n: int): seq<T> {
    if n <= 0 then [] else if |items| <= n then items else items[..n]
  }

  // ---------- reductions ----------

  function WithoutSummaries(items: seq<NewsItem>): seq<NewsItem> {
    seq(|items|, i requires 0 <= i < |items| => items[i].(summary := ""))
  }

  /** Every critical item, and the first few others, in order. */
  function CriticalAndHead(items: seq<NewsItem>, limit: nat): seq<NewsItem> {
    if items == [] then []
    else
      var rest, last := items[..|items| - 1], items[|items| - 1];
      CriticalAndHead(rest, limit) + (if last.critical || Ordinary(rest) < limit then [last] else [])
  }

  function Ordinary(items: seq<NewsItem>): nat {
    if items == [] then 0 else Ordinary(items[..|items| - 1]) + (if items[|items| - 1].critical then 0 else 1)
  }

  predicate Primary(indicator: string) {
    indicator in ["rsi", "rsi_state", "macd_state", "adx", "trend_strength", "atr_pct", "price_vs_ema_200_pct", "bb_percent_b"]
  }

  function PrimaryOnly(t: Timeframe): Timeframe {
    t.(indicators := map k | k in t.indicators && Primary(k) :: t.indicators[k])
  }

  function FewerPatterns(t: Timeframe, limit: int): Timeframe {
    t.(patterns := Head(t.patterns, limit), chart := Head(t.chart, limit), divergence := Head(t.divergence, limit))
  }

  function Note(k: nat): string {
    if k == 0 then "similar historical cases reduced to 3"
    else if k == 1 then "news summaries removed; titles and metrics retained"
    else if k == 2 then "non-critical news reduced; all critical events retained"
    else if k == 3 then "raw candle tail shortened"
    else if k == 4 then "per-timeframe pattern lists shortened"
    else if k == 5 then "similar historical cases removed"
    else if k == 6 then "raw candle tail removed"
    else if k == 7 then "secondary indicators removed"
    else if k == 8 then "1m timeframe removed"
    else if k == 9 then "support/resistance list shortened"
    else if k == 10 then "5m timeframe removed"
    else if k == 11 then "pattern and divergence details removed"
    else if k == 12 then "support/resistance list removed"
    else if k == 13 then "1d timeframe removed"
    else "data-quality detail shortened"
  }

  /** The first n reductions of the list, by name. */
  function Notes(n: nat): (notes: seq<string>)
    ensures |notes| == n
  {
    if n == 0 then [] else Notes(n - 1) + [Note(n - 1)]
  }

  const STEPS := 15

  const STILL_TOO_LARGE := "payload still exceeds the token budget after all reductions"

  const REDUCED_NOTE := "context reduced to fit the configured LLM window; optional detail may be omitted"

  function Reduce(k: nat, v: View): View
    requires k < STEPS
  {
    if k == 0 then v.(cases := Head(v.cases, 3))
    else if k == 1 then v.(assetNews := WithoutSummaries(v.assetNews), globalNews := WithoutSummaries(v.globalNews))
    else if k == 2 then v.(assetNews := CriticalAndHead(v.assetNews, 3), globalNews := CriticalAndHead(v.globalNews, 2))
    else if k == 3 then v.(candles := Head(v.candles, 10))
    else if k == 4 then v.(timeframes := map t | t in v.timeframes :: FewerPatterns(v.timeframes[t], 2))
    else if k == 5 then v.(cases := [])
    else if k == 6 then v.(candles := [])
    else if k == 7 then v.(timeframes := map t | t in v.timeframes :: PrimaryOnly(v.timeframes[t]))
    else if k == 8 then v.(timeframes := v.timeframes - {"1m"})
    else if k == 9 then v.(levels := Head(v.levels, 4))
    else if k == 10 then v.(timeframes := v.timeframes - {"5m"})
    else if k == 11 then v.(timeframes := map t | t in v.timeframes :: FewerPatterns(v.timeframes[t], 0))
    else if k == 12 then v.(levels := [])
    else if k == 13 then v.(timeframes := v.timeframes - {"1d"})
    else v.(missing := Head(v.missing, 6), notes := Head(v.notes, 3))
  }

  function Reduced(v: View, n: nat): View
    requires n <= STEPS
  {
    if n == 0 then v else Reduce(n - 1, Reduced(v, n - 1))
  }

  function WithNote(v: View): View {
    if REDUCED_NOTE in v.notes then v else v.(notes := v.notes + [REDUCED_NOTE])
  }

  // ---------- fitting the budget ----------

  /** Encoding a payload; it may fail. */
  type Encoder = View -> Option<string>

  /** How many reductions are applied: until the payload fits, none is left or it no longer encodes. */
  function StopsAt(v: View, encode: Encoder, budget: int, k: nat): (n: nat)
    requires k <= STEPS
    ensures k <= n <= STEPS
    decreases STEPS - k
  {
    match encode(Reduced(v, k))
    case None => k
    case Some(s) => if k == STEPS || Tokens(s) <= budget then k else StopsAt(v, encode, budget, k + 1)
  }

  datatype Built = Built(payload: View, encoded: string, applied: seq<string>)

  datatype BuildError = EncodingFailed | TooLarge(estimated: int, budget: int)

  function BuildOf(v: View, encode: Encoder, budget: int): Result<Built, BuildError> {
    var n := StopsAt(v, encode, budget, 0);
    match encode(Reduced(v, n))
    case None => Err(EncodingFailed)
    case Some(s) =>
      var applied := Notes(n) + if Tokens(s) <= budget then [] else [STILL_TOO_LARGE];
      Finished(if applied == [] then Reduced(v, n) else WithNote(Reduced(v, n)), encode, budget, applied)
  }

  function Finished(payload: View, encode: Encoder, budget: int, applied: seq<string>): Result<Built, BuildError> {
    match encode(payload)
    case None => Err(EncodingFailed)
    case Some(s) => if Tokens(s) > budget then Err(TooLarge(Tokens(s), budget)) else Ok(Built(payload, s, applied))
  }

  function Budget(opts: BuildOptions): BuildOptions {
    if opts.maxTokens <= 0 then DEFAULT_OPTIONS else opts
  }

  // ---------- the payload object and its in-place reductions ----------

  /** The analysis of one asset, as its owner keeps it. The news lists are shared with every payload made from it. */
  class Snapshot {
    const core: Core
    const timeframes: map<string, Timeframe>
    const levels: seq<Level>
    const cases: seq<Case>
    const candles: seq<Candle>
    const missing: seq<string>
    const notes: seq<string>
    const assetNews: array<NewsItem>
    const globalNews: array<NewsItem>

    constructor (core: Core, timeframes: map<string, Timeframe>, levels: seq<Level>, cases: seq<Case>, candles: seq<Candle>,
                 missing: seq<string>, notes: seq<string>, assetNews: array<NewsItem>, globalNews: array<NewsItem>)
      ensures this.assetNews == assetNews && this.globalNews == globalNews
      ensures this.core == core && this.timeframes == timeframes && this.levels == levels && this.cases == cases
      ensures this.candles == candles && this.missing == missing && this.notes == notes
    {
      this.core, this.timeframes, this.levels, this.cases, this.candles := core, timeframes, levels, cases, candles;
      this.missing, this.notes, this.assetNews, this.globalNews := missing, notes, assetNews, globalNews;
    }
  }

  function CompactLevels(levels: seq<Level>): seq<Level> {
    seq(|levels|, i requires 0 <= i < |levels| => levels[i].(strength := Round2(levels[i].strength), distancePct := Round2(levels[i].distancePct)))
  }

  function Row(c: Candle): seq<real> {
    [Round2(c.open), Round2(c.high), Round2(c.low), Round2(c.close)]
  }

  /** The latest candles, oldest of them first. */
  function Tail(candles: seq<Candle>, n: int): seq<Candle> {
    if n <= 0 then [] else if |candles| <= n then candles else candles[|candles| - n..]
  }

  function Rows(candles: seq<Candle>): seq<seq<real>> {
    seq(|candles|, i requires 0 <= i < |candles| => Row(candles[i]))
  }

  class Payload {
    var core: Core
    var timeframes: map<string, Timeframe>
    var levels: seq<Level>
    var cases: seq<Case>
    var assetNews: array<NewsItem>
    var globalNews: array<NewsItem>
    var candles: seq<seq<real>>
    var missing: seq<string>
    var notes: seq<string>

    ghost function Contents(): View
      reads this, assetNews, globalNews
    {
      View(core, timeframes, levels, cases, assetNews[..], globalNews[..], candles, missing, notes)
    }

    /** Projects a snapshot. The news lists are the snapshot's own. */
    constructor Compact(s: Snapshot, opts: BuildOptions)
      ensures assetNews == s.assetNews && globalNews == s.globalNews
      ensures Contents() == View(s.core, s.timeframes, CompactLevels(s.levels), Head(s.cases, opts.maxSimilarCases),
                                 s.assetNews[..], s.globalNews[..], Rows(Tail(s.candles, opts.tailCandles)), s.missing, s.notes)
    {
      core, timeframes, levels := s.core, s.timeframes, CompactLevels(s.levels);
      cases, candles := Head(s.cases, opts.maxSimilarCases), Rows(Tail(s.candles, opts.tailCandles));
      assetNews, globalNews, missing, notes := s.assetNews, s.globalNews, s.missing, s.notes;
    }

    method Snapped() returns (v: View)
      ensures v == Contents()
    {
      return View(core, timeframes, levels, cases, assetNews[..], globalNews[..], candles, missing, notes);
    }

    method TrimNewsSummaries()
      requires assetNews != globalNews
      modifies assetNews, globalNews
      ensures assetNews[..] == WithoutSummaries(old(assetNews[..]))
      ensures globalNews[..] == WithoutSummaries(old(globalNews[..]))
    {
      ghost var asset, global := assetNews[..], globalNews[..];
      for i := 0 to assetNews.Length
        invariant forall k :: 0 <= k < assetNews.Length ==> assetNews[k] == if k < i then asset[k].(summary := "") else asset[k]
        invariant globalNews[..] == global
      {
        assetNews[i] := assetNews[i].(summary := "");
      }
      for i := 0 to globalNews.Length
        invariant forall k :: 0 <= k < globalNews.Length ==> globalNews[k] == if k < i then global[k].(summary := "") else global[k]
        invariant assetNews[..] == WithoutSummaries(asset)
      {
        globalNews[i] := globalNews[i].(summary := "");
      }
    }

    method TrimNonCriticalNews()
      modifies this
      ensures fresh(assetNews) && fresh(globalNews) && assetNews != globalNews
      ensures Contents() == Reduce(2, old(Contents()))
    {
      ghost var before := Contents();
      var asset := RetainCriticalAndHead(assetNews, 3);
      var global := RetainCriticalAndHead(globalNews, 2);
      assetNews, globalNews := asset, global;
      assert Contents() == Reduce(2, before);
    }

    /** Applies one reduction in place. */
    method Apply(k: nat)
      requires k < STEPS && assetNews != globalNews
      modifies this, assetNews, globalNews
      ensures Contents() == Reduce(k, old(Contents()))
      ensures assetNews != globalNews
      ensures if k == 2 then fresh(assetNews) && fresh(globalNews) else assetNews == old(assetNews) && globalNews == old(globalNews)
      ensures k != 1 ==> old(assetNews)[..] == old(assetNews[..]) && old(globalNews)[..] == old(globalNews[..])
    {
      hide CriticalAndHead, FewerPatterns, PrimaryOnly, WithoutSummaries, Head;
      if k == 0 {
        cases := Head(cases, 3);
      } else if k == 1 {
        TrimNewsSummaries();
      } else if k == 2 {
        TrimNonCriticalNews();
      } else if k == 3 {
        candles := Head(candles, 10);
      } else if k == 4 {
        timeframes := map t | t in timeframes :: FewerPatterns(timeframes[t], 2);
      } else if k == 5 {
        cases := [];
      } else if k == 6 {
        candles := [];
      } else if k == 7 {
        timeframes := map t | t in timeframes :: PrimaryOnly(timeframes[t]);
      } else if k == 8 {
        timeframes := timeframes - {"1m"};
      } else if k == 9 {
        levels := Head(levels, 4);
      } else if k == 10 {
        timeframes := timeframes - {"5m"};
      } else if k == 11 {
        timeframes := map t | t in timeframes :: FewerPatterns(timeframes[t], 0);
      } else if k == 12 {
        levels := [];
      } else if k == 13 {
        timeframes := timeframes - {"1d"};
      } else {
        missing, notes := Head(missing, 6), Head(notes, 3);
      }
    }

    method AddNote(note: string)
      modifies this
      ensures Contents() == if note in old(notes) then old(Contents()) else old(Contents()).(notes := old(notes) + [note])
      ensures assetNews == old(assetNews) && globalNews == old(globalNews)
    {
      for i := 0 to |notes|
        invariant note !in notes[..i]
        invariant Contents() == old(Contents()) && assetNews == old(assetNews) && globalNews == old(globalNews)
      {
        if notes[i] == note {
          return;
        }
        assert notes[..i + 1] == notes[..i] + [notes[i]];
      }
      assert notes[..|notes|] == notes;
      notes := notes + [note];
    }
  }

  method RetainCriticalAndHead(items: array<NewsItem>, limit: nat) returns (kept: array<NewsItem>)
    ensures fresh(kept) && kept[..] == CriticalAndHead(items[..], limit)
  {
    var out: seq<NewsItem> := [];
    var nonCritical := 0;
    for i := 0 to items.Length
      invariant out == CriticalAndHead(items[..i], limit)
      invariant nonCritical == if Ordinary(items[..i]) < limit then Ordinary(items[..i]) else limit
    {
      assert items[..i + 1][..i] == items[..i];
      if items[i].critical {
        out := out + [items[i]];
      } else if nonCritical < limit {
        out := out + [items[i]];
        nonCritical := nonCritical + 1;
      }
    }
    assert items[..items.Length] == items[..];
    kept := new NewsItem[|out|](i requires 0 <= i < |out| => out[i]);
    assert kept[..] == out;
  }

  ghost function Compacted(s: Snapshot, opts: BuildOptions): View
    reads s.assetNews, s.globalNews
  {
    View(s.core, s.timeframes, CompactLevels(s.levels), Head(s.cases, opts.maxSimilarCases),
         s.assetNews[..], s.globalNews[..], Rows(Tail(s.candles, opts.tailCandles)), s.missing, s.notes)
  }

  /** Reduces a snapshot's payload until it fits. The second reduction empties the summaries of the snapshot
      itself, because its news lists are shared with the payload. */
  method Build(snapshot: Snapshot, options: BuildOptions, encode: Encoder) returns (result: Result<Built, BuildError>)
    requires snapshot.assetNews != snapshot.globalNews
    modifies snapshot.assetNews, snapshot.globalNews
    ensures result == BuildOf(old(Compacted(snapshot, Budget(options))), encode, Budget(options).maxTokens)
    ensures var n := StopsAt(old(Compacted(snapshot, Budget(options))), encode, Budget(options).maxTokens, 0);
            && snapshot.assetNews[..] == (if n >= 2 then WithoutSummaries(old(snapshot.assetNews[..])) else old(snapshot.assetNews[..]))
            && snapshot.globalNews[..] == (if n >= 2 then WithoutSummaries(old(snapshot.globalNews[..])) else old(snapshot.globalNews[..]))
  {
    hide StopsAt, Reduced, WithoutSummaries, Tokens, Notes;
    var opts := Budget(options);
    var payload := new Payload.Compact(snapshot, opts);
    ghost var v := payload.Contents();
    var encoded, applied := ReduceToFit(payload, encode, opts.maxTokens);
    ghost var n := StopsAt(v, encode, opts.maxTokens, 0);
    ghost var reduced, first := Reduced(v, n), encoded;
    if encoded.None? {
      return Err(EncodingFailed);
    }
    var estimate := EstimateTokens(encoded.value);
    if estimate > opts.maxTokens {
      applied := applied + [STILL_TOO_LARGE];
    }
    assert first == encode(reduced);
    assert applied == Notes(n) + if Tokens(first.value) <= opts.maxTokens then [] else [STILL_TOO_LARGE];
    if |applied| > 0 {
      payload.AddNote(REDUCED_NOTE);
    }
    result := HandOver(payload, encode, opts.maxTokens, applied);
  }

  /** Encodes the payload as it now is and checks its size a last time. */
  method HandOver(payload: Payload, encode: Encoder, budget: int, applied: seq<string>) returns (result: Result<Built, BuildError>)
    ensures result == Finished(payload.Contents(), encode, budget, applied)
  {
    hide Tokens;
    var view := payload.Snapped();
    var encoded := encode(view);
    if encoded.None? {
      return Err(EncodingFailed);
    }
    var estimate := EstimateTokens(encoded.value);
    if estimate > budget {
      return Err(TooLarge(estimate, budget));
    }
    return Ok(Built(view, encoded.value, applied));
  }

  /** The reduction loop. The news lists the payload came with are emptied of summaries by the second step. */
  method ReduceToFit(payload: Payload, encode: Encoder, budget: int) returns (encoded: Option<string>, applied: seq<string>)
    requires payload.assetNews != payload.globalNews
    modifies payload, payload.assetNews, payload.globalNews
    ensures var n := StopsAt(old(payload.Contents()), encode, budget, 0);
            && payload.Contents() == Reduced(old(payload.Contents()), n)
            && encoded == encode(payload.Contents())
            && applied == Notes(n)
            && old(payload.assetNews)[..] == (if n >= 2 then WithoutSummaries(old(payload.assetNews[..])) else old(payload.assetNews[..]))
            && old(payload.globalNews)[..] == (if n >= 2 then WithoutSummaries(old(payload.globalNews[..])) else old(payload.globalNews[..]))
    ensures payload.assetNews == old(payload.assetNews) || fresh(payload.assetNews)
    ensures payload.globalNews == old(payload.globalNews) || fresh(payload.globalNews)
  {
    hide Reduce, Reduced, StopsAt, WithoutSummaries, Tokens, Note, Notes;
    ghost var v := payload.Contents();
    ghost var asset, global := payload.assetNews, payload.globalNews;
    ghost var assetItems, globalItems := asset[..], global[..];
    applied := [];
    var view := payload.Snapped();
    encoded := encode(view);
    var k := 0;
    ReducedByOne(v, 0);
    NotesByOne(0);
    while k < STEPS && encoded.Some?
      invariant k <= STEPS && encoded == encode(payload.Contents())
      invariant payload.Contents() == Reduced(v, k) && applied == Notes(k)
      invariant StopsAt(v, encode, budget, 0) == StopsAt(v, encode, budget, k)
      invariant payload.assetNews != payload.globalNews
      invariant if k <= 2 then payload.assetNews == asset && payload.globalNews == global
                else fresh(payload.assetNews) && fresh(payload.globalNews)
      invariant asset[..] == if k >= 2 then WithoutSummaries(assetItems) else assetItems
      invariant global[..] == if k >= 2 then WithoutSummaries(globalItems) else globalItems
    {
      var estimate := EstimateTokens(encoded.value);
      if estimate <= budget {
        StopsHere(v, encode, budget, k);
        break;
      }
      StopsLater(v, encode, budget, k);
      ReducedByOne(v, k);
      NotesByOne(k);
      SecondReductionStrips(payload.Contents());
      payload.Apply(k);
      applied := applied + [Note(k)];
      k := k + 1;
      view := payload.Snapped();
      encoded := encode(view);
    }
    if k == STEPS || encoded.None? {
      StopsHere(v, encode, budget, k);
    }
  }

  lemma ReducedByOne(v: View, k: nat)
    requires k < STEPS
    ensures Reduced(v, 0) == v && Reduced(v, k + 1) == Reduce(k, Reduced(v, k))
  {
    hide Reduce;
  }

  lemma NotesByOne(k: nat)
    ensures Notes(0) == [] && Notes(k + 1) == Notes(k) + [Note(k)]
  {
    hide Note;
  }

  lemma StopsHere(v: View, encode: Encoder, budget: int, k: nat)
    requires k <= STEPS
    requires k == STEPS || encode(Reduced(v, k)).None? || Tokens(encode(Reduced(v, k)).value) <= budget
    ensures StopsAt(v, encode, budget, k) == k
  {
    hide Reduced, Tokens;
  }

  lemma StopsLater(v: View, encode: Encoder, budget: int, k: nat)
    requires k < STEPS && encode(Reduced(v, k)).Some? && Tokens(encode(Reduced(v, k)).value) > budget
    ensures StopsAt(v, encode, budget, k) == StopsAt(v, encode, budget, k + 1)
  {
    hide Reduced, Tokens;
  }

  lemma SecondReductionStrips(v: View)
    ensures Reduce(1, v).assetNews == WithoutSummaries(v.assetNews) && Reduce(1, v).globalNews == WithoutSummaries(v.globalNews)
  {
  }

  // ---------- what a built payload is ----------

  predicate Over(v: View, encode: Encoder, budget: int, k: nat)
    requires k <= STEPS
  {
    encode(Reduced(v, k)).Some? && Tokens(encode(Reduced(v, k)).value) > budget
  }

  lemma {:induction false} StopsAtFirst(v: View, encode: Encoder, budget: int, k: nat)
    requires k <= STEPS
    ensures var n := StopsAt(v, encode, budget, k);
            && (forall j: nat :: k <= j < n ==> Over(v, encode, budget, j))
            && (n < STEPS ==> !Over(v, encode, budget, n))
    decreases STEPS - k
  {
    hide Reduced, Tokens;
    if Over(v, encode, budget, k) && k < STEPS {
      StopsAtFirst(v, encode, budget, k + 1);
    }
  }

  /** What a successful build hands over: the encoding of its payload, within the budget; the payload is the
      snapshot's with the least sufficient number of reductions from the front of the list, by name. */
  lemma ReductionsAreAPrefix(v: View, encode: Encoder, budget: int)
    requires BuildOf(v, encode, budget).Ok?
    ensures var b := BuildOf(v, encode, budget).value;
            var n := StopsAt(v, encode, budget, 0);
            && encode(b.payload) == Some(b.encoded) && Tokens(b.encoded) <= budget
            && Notes(n) <= b.applied
            && (|b.applied| > n ==> n == STEPS && b.applied == Notes(n) + [STILL_TOO_LARGE] && Over(v, encode, budget, n))
            && (forall k: nat :: k < n ==> Over(v, encode, budget, k))
            && (b.applied == [] ==> b.payload == v) && (b.applied != [] ==> b.payload == WithNote(Reduced(v, n)))
  {
    StopsAtFirst(v, encode, budget, 0);
    hide Tokens, Reduce, Note;
    assert Reduced(v, 0) == v;
  }

  function Critical(items: seq<NewsItem>): seq<NewsItem> {
    if items == [] then []
    else Critical(items[..|items| - 1]) + (if items[|items| - 1].critical then [items[|items| - 1]] else [])
  }

  function NonCritical(items: seq<NewsItem>): seq<NewsItem> {
    if items == [] then []
    else NonCritical(items[..|items| - 1]) + (if items[|items| - 1].critical then [] else [items[|items| - 1]])
  }

  lemma SplitOfOneMore(items: seq<NewsItem>, item: NewsItem)
    ensures Critical(items + [item]) == Critical(items) + (if item.critical then [item] else [])
    ensures NonCritical(items + [item]) == NonCritical(items) + (if item.critical then [] else [item])
  {
    assert (items + [item])[..|items|] == items;
  }

  lemma KeptOfOneMore(items: seq<NewsItem>, item: NewsItem, limit: nat)
    ensures CriticalAndHead(items + [item], limit)
         == CriticalAndHead(items, limit) + (if item.critical || Ordinary(items) < limit then [item] else [])
    ensures Ordinary(items + [item]) == Ordinary(items) + (if item.critical then 0 else 1)
  {
    assert (items + [item])[..|items|] == items;
  }

  lemma {:induction false} RetainedCritical(items: seq<NewsItem>, limit: nat)
    ensures Critical(CriticalAndHead(items, limit)) == Critical(items)
    decreases |items|
  {
    if items != [] {
      var rest, last := items[..|items| - 1], items[|items| - 1];
      RetainedCritical(rest, limit);
      var kept := CriticalAndHead(rest, limit);
      assert items == rest + [last] && kept + [] == kept;
      KeptOfOneMore(rest, last, limit);
      SplitOfOneMore(rest, last);
      SplitOfOneMore(kept, last);
      hide CriticalAndHead, Critical, NonCritical, Ordinary;
    }
  }

  function First(items: seq<NewsItem>, limit: nat): seq<NewsItem> {
    if |items| <= limit then items else items[..limit]
  }

  lemma FirstOfOneMore(items: seq<NewsItem>, item: NewsItem, limit: nat)
    ensures First(items + [item], limit) == First(items, limit) + (if |items| < limit then [item] else [])
  {
  }

  lemma {:induction false} RetainedNonCritical(items: seq<NewsItem>, limit: nat)
    ensures NonCritical(CriticalAndHead(items, limit)) == First(NonCritical(items), limit)
    ensures Ordinary(items) == |NonCritical(items)|
    decreases |items|
  {
    if items != [] {
      var rest, last := items[..|items| - 1], items[|items| - 1];
      RetainedNonCritical(rest, limit);
      var kept := CriticalAndHead(rest, limit);
      assert items == rest + [last] && kept + [] == kept;
      KeptOfOneMore(rest, last, limit);
      SplitOfOneMore(rest, last);
      SplitOfOneMore(kept, last);
      FirstOfOneMore(NonCritical(rest), last, limit);
      hide CriticalAndHead, Critical, NonCritical, Ordinary, First;
      assert NonCritical(rest) + [] == NonCritical(rest);
      assert First(NonCritical(rest), limit) + [] == First(NonCritical(rest), limit);
    }
  }

  /** Reducing the news keeps every critical item and the first few others, each in its order. */
  lemma RetainedNews(items: seq<NewsItem>, limit: nat)
    ensures Critical(CriticalAndHead(items, limit)) == Critical(items)
    ensures NonCritical(CriticalAndHead(items, limit)) == First(NonCritical(items), limit)
  {
    RetainedCritical(items, limit);
    RetainedNonCritical(items, limit);
  }

  lemma {:induction false} CriticalWithoutSummaries(items: seq<NewsItem>)
    ensures Critical(WithoutSummaries(items)) == WithoutSummaries(Critical(items))
    decreases |items|
  {
    if items != [] {
      var rest, last := items[..|items| - 1], items[|items| - 1];
      CriticalWithoutSummaries(rest);
      assert WithoutSummaries(items) == WithoutSummaries(rest) + [last.(summary := "")];
      SplitOfOneMore(WithoutSummaries(rest), last.(summary := ""));
      assert WithoutSummaries(Critical(rest) + [last]) == WithoutSummaries(Critical(rest)) + [last.(summary := "")];
      assert Critical(rest) + [] == Critical(rest);
    }
  }

  /** However far a payload is reduced, every critical news item is still there, in order, with all but its
      summary, and what identifies the market is untouched. */
  lemma {:induction false} CriticalNewsSurvives(v: View, n: nat)
    requires n <= STEPS
    ensures var r := Reduced(v, n);
            && r.core == v.core
            && Critical(r.assetNews) == (if n >= 2 then WithoutSummaries(Critical(v.assetNews)) else Critical(v.assetNews))
            && Critical(r.globalNews) == (if n >= 2 then WithoutSummaries(Critical(v.globalNews)) else Critical(v.globalNews))
  {
    hide Critical, CriticalAndHead, WithoutSummaries, Head, FewerPatterns, PrimaryOnly;
    if n > 0 {
      CriticalNewsSurvives(v, n - 1);
      var r := Reduced(v, n - 1);
      CriticalWithoutSummaries(r.assetNews);
      CriticalWithoutSummaries(r.globalNews);
      RetainedNews(r.assetNews, 3);
      RetainedNews(r.globalNews, 2);
    }
  }

  /** A built payload carries every critical news item of the snapshot. */
  lemma BuiltPayloadKeepsCriticalNews(v: View, encode: Encoder, budget: int)
    requires BuildOf(v, encode, budget).Ok?
    ensures var b := BuildOf(v, encode, budget).value;
            && b.payload.core == v.core
            && (Critical(b.payload.assetNews) == Critical(v.assetNews) || Critical(b.payload.assetNews) == WithoutSummaries(Critical(v.assetNews)))
            && (Critical(b.payload.globalNews) == Critical(v.globalNews) || Critical(b.payload.globalNews) == WithoutSummaries(Critical(v.globalNews)))
  {
    hide Reduced, Critical, WithoutSummaries, Tokens, Notes;
    ReductionsAreAPrefix(v, encode, budget);
    CriticalNewsSurvives(v, StopsAt(v, encode, budget, 0));
  }

  /** The rows of a payload are the snapshot's latest candles, oldest first, so shortening them keeps the
      oldest: nothing is lost exactly when there are no more than ten, and otherwise every row after the
      tenth, the latest ones, goes. */
  lemma ShortenedTailDropsTheLatest(candles: seq<Candle>, tail: int)
    ensures var rows, n := Rows(Tail(candles, tail)), |Tail(candles, tail)|;
            && Tail(candles, tail) == candles[|candles| - n..]
            && (Head(rows, 10) == rows <==> n <= 10)
            && (n > 10 ==> Head(rows, 10) == Rows(candles[|candles| - n..|candles| - n + 10]) && rows[10..] == Rows(candles[|candles| - n + 10..]))
  {
    var kept := Tail(candles, tail);
    var n := |kept|;
    assert kept == candles[|candles| - n..];
    HeadOf(Rows(kept), 10);
    if n > 10 {
      RowsOfSlice(kept, 0, 10);
      RowsOfSlice(kept, 10, n);
      assert kept[0..10] == candles[|candles| - n..|candles| - n + 10] && kept[10..n] == candles[|candles| - n + 10..];
      assert Rows(kept)[0..10] == Rows(kept)[..10] && Rows(kept)[10..n] == Rows(kept)[10..];
    }
  }

  lemma HeadOf<T>(items: seq<T>, n: nat)
    requires n > 0
    ensures Head(items, n) == items <==> |items| <= n
    ensures |items| > n ==> Head(items, n) == items[..n]
  {
  }

  lemma RowsOfSlice(candles: seq<Candle>, i: nat, j: nat)
    requires i <= j <= |candles|
    ensures Rows(candles)[i..j] == Rows(candles[i..j])
  {
  }

  // ---------- when a build succeeds ----------

  predicate Fits(v: View, encode: Encoder, budget: int) {
    encode(v).Some? && Tokens(encode(v).value) <= budget
  }

  /** Every smaller number of reductions leaves the payload too large, and this one does not or is the last. */
  predicate FirstToFit(v: View, encode: Encoder, budget: int, n: nat) {
    && n <= STEPS
    && (forall k: nat :: k < n ==> Over(v, encode, budget, k))
    && (n == STEPS || !Over(v, encode, budget, n))
    && encode(Reduced(v, n)).Some?
  }

  /** A build succeeds exactly when the first reduction to fit, and no later one, still fits once the note
      about reductions is added; the encoder may fail wherever it likes. */
  lemma BuildSucceedsExactly(v: View, encode: Encoder, budget: int)
    ensures BuildOf(v, encode, budget).Ok?
       <==> || Fits(v, encode, budget)
            || exists n: nat :: 0 < n <= STEPS && FirstToFit(v, encode, budget, n) && Fits(WithNote(Reduced(v, n)), encode, budget)
  {
    hide Tokens, Reduce, WithNote, Note;
    assert Reduced(v, 0) == v;
    StopsAtFirst(v, encode, budget, 0);
    var m := StopsAt(v, encode, budget, 0);
    forall n: nat | FirstToFit(v, encode, budget, n)
      ensures n == m
    {
    }
    if encode(Reduced(v, m)).Some? {
      assert FirstToFit(v, encode, budget, m);
    }
    if m == 0 {
      assert Fits(v, encode, budget) <==> encode(v).Some?;
    } else {
      assert Over(v, encode, budget, 0);
      assert |Notes(m)| > 0;
      if encode(Reduced(v, m)).Some? {
        assert BuildOf(v, encode, budget).Ok? <==> Fits(WithNote(Reduced(v, m)), encode, budget);
      }
    }
  }

  // ---------- the note can cost a build ----------

  /** JSON array elements, separated by commas. */
  function Joined(parts: seq<string>): string {
    if parts == [] then ""
    else if |parts| == 1 then parts[0]
    else Joined(parts[..|parts| - 1]) + "," + parts[|parts| - 1]
  }

  function Quoted(text: string): string {
    "\"" + text + "\""
  }

  /** The member holding the similar cases; it is left out when there are none. */
  function CasesMember(cases: seq<Case>, render: Case -> string): string {
    if cases == [] then "" else ",\"similar_historical_cases\":[" + Joined(Rendered(cases, render)) + "]"
  }

  /** The member holding the notes, none of which needs escaping; it is left out when there are none. */
  function NotesMember(notes: seq<string>): string {
    if notes == [] then "" else ",\"notes\":[" + Joined(seq(|notes|, i requires 0 <= i < |notes| => Quoted(notes[i]))) + "]"
  }

  /** The text of a payload around its similar cases and its last member, the notes of the data quality. */
  datatype Frame = Frame(before: string, between: string, after: string)

  /** An encoder that prints a payload as JSON does where only the cases and the notes differ. */
  ghost predicate PrintsMembers(encode: Encoder, v: View, frame: Frame, render: Case -> string) {
    forall w: View {:trigger encode(w)} :: w == v.(cases := w.cases, notes := w.notes) ==>
      encode(w) == Some(frame.before + CasesMember(w.cases, render) + frame.between + NotesMember(w.notes) + frame.after)
  }

  /** A snapshot that the reductions of news, candles and patterns leave alone. */
  ghost predicate Lean(v: View) {
    && WithoutSummaries(v.assetNews) == v.assetNews == CriticalAndHead(v.assetNews, 3)
    && WithoutSummaries(v.globalNews) == v.globalNews == CriticalAndHead(v.globalNews, 2)
    && |v.candles| <= 10
    && (forall t :: t in v.timeframes ==> FewerPatterns(v.timeframes[t], 2) == v.timeframes[t])
  }

  lemma NoteLength()
    ensures 3 <= |NotesMember([REDUCED_NOTE])| <= 97
  {
    var quoted := [Quoted(REDUCED_NOTE)];
    assert seq(1, i requires 0 <= i < 1 => Quoted([REDUCED_NOTE][i])) == quoted;
    assert Joined(quoted) == Quoted(REDUCED_NOTE);
  }

  /** A text costs at least a token for each 2.4 of its letters and at most one for each. */
  lemma {:induction false} AsciiIsPart(s: string)
    ensures AsciiRunes(s) <= |s|
  {
    if s != [] {
      AsciiIsPart(s[..|s| - 1]);
    }
  }

  /** Inserting three letters or more costs at least a token, and fewer letters of one text than 2.4 for
      each of another cost no more than it. */
  lemma InsertionCosts(a: string, x: string, b: string)
    ensures |x| >= 3 ==> Tokens(a + x + b) > Tokens(a + b)
    ensures Tokens(a + x + b) <= Tokens(a + b) + |x|
    ensures AsciiRunes(x) >= 234 ==> Tokens(a + x + b) >= Tokens(a + b) + 97
  {
    AsciiOfJoined(a, x);
    AsciiOfJoined(a + x, b);
    AsciiOfJoined(a, b);
    AsciiIsPart(x);
    CostOfMore(AsciiRunes(a) + AsciiRunes(b), AsciiRunes(x));
  }

  lemma CostOfMore(ascii: nat, more: nat)
    ensures Ceil((ascii + more) as real / 2.4) <= Ceil(ascii as real / 2.4) + more
    ensures more >= 3 ==> Ceil((ascii + more) as real / 2.4) >= Ceil(ascii as real / 2.4) + 1
    ensures more >= 234 ==> Ceil((ascii + more) as real / 2.4) >= Ceil(ascii as real / 2.4) + 97
  {
    var x, y := ascii as real / 2.4, more as real / 2.4;
    assert (ascii + more) as real / 2.4 == x + y;
    CeilOfSum(x, y);
  }

  function Rendered(cases: seq<Case>, render: Case -> string): seq<string> {
    seq(|cases|, i requires 0 <= i < |cases| => render(cases[i]))
  }

  /** Every case prints as at least the names of its members. */
  ghost predicate NamesMembers(cases: seq<Case>, render: Case -> string) {
    forall c :: c in cases ==> AsciiRunes(render(c)) >= 78
  }

  lemma {:induction false} JoinedGrows(parts: seq<string>, n: nat) returns (more: string)
    requires 0 < n < |parts| && forall i :: 0 <= i < |parts| ==> |parts[i]| >= 2
    ensures Joined(parts) == Joined(parts[..n]) + more && |more| >= 3
    decreases |parts|
  {
    var front := parts[..|parts| - 1];
    more := "," + parts[|parts| - 1];
    if n < |front| {
      assert front[..n] == parts[..n];
      var rest := JoinedGrows(front, n);
      assert Joined(parts[..n]) + rest + "," + parts[|parts| - 1] == Joined(parts[..n]) + (rest + more);
      more := rest + more;
    } else {
      assert Joined(front) + "," + parts[|parts| - 1] == Joined(front) + more;
    }
  }

  lemma ThreePartsAreLong(parts: seq<string>)
    requires |parts| == 3 && forall i :: 0 <= i < 3 ==> AsciiRunes(parts[i]) >= 78
    ensures AsciiRunes(Joined(parts)) >= 234
  {
    assert parts[..2][..1] == parts[..1] == [parts[0]];
    var two := parts[0] + "," + parts[1];
    assert Joined(parts[..2]) == two;
    AsciiOfJoined(parts[0], ",");
    AsciiOfJoined(parts[0] + ",", parts[1]);
    AsciiOfJoined(two, ",");
    AsciiOfJoined(two + ",", parts[2]);
  }

  /** More cases print as more text. */
  lemma FewerCasesAreShorter(cases: seq<Case>, render: Case -> string) returns (open: string, more: string)
    requires |cases| > 3 && NamesMembers(cases, render)
    ensures CasesMember(cases[..3], render) == open + "]" && CasesMember(cases, render) == open + more + "]" && |more| >= 3
    ensures AsciiRunes(CasesMember(cases[..3], render)) >= 234
  {
    var parts, few := Rendered(cases, render), Rendered(cases[..3], render);
    forall i | 0 <= i < |parts|
      ensures |parts[i]| >= 2 && AsciiRunes(parts[i]) >= 78
    {
      assert cases[i] in cases;
      AsciiIsPart(parts[i]);
    }
    assert few == parts[..3];
    more := JoinedGrows(parts, 3);
    ThreePartsAreLong(few);
    var name := ",\"similar_historical_cases\":[";
    open := name + Joined(few);
    assert name + (Joined(few) + more) + "]" == open + more + "]";
    AsciiOfJoined(name, Joined(few));
    AsciiOfJoined(open, "]");
  }

  /** On a lean snapshot the reductions up to the removal of the cases only shorten them. */
  lemma LeanReductions(v: View)
    requires Lean(v) && |v.cases| > 3
    ensures Reduced(v, 0) == v && Reduced(v, 1) == v.(cases := v.cases[..3]) && Reduced(v, 6) == v.(cases := [])
  {
    hide CriticalAndHead, WithoutSummaries, FewerPatterns;
    var r := v.(cases := v.cases[..3]);
    ReducedByOne(v, 0);
    assert Reduced(v, 1) == r;
    ReducedByOne(v, 1);
    ReducedByOne(v, 2);
    ReducedByOne(v, 3);
    ReducedByOne(v, 4);
    ReducedByOne(v, 5);
    LeanStays(r);
    hide Reduced;
    assert Reduced(v, 2) == r && Reduced(v, 3) == r && Reduced(v, 4) == r && Reduced(v, 5) == r;
  }

  lemma LeanStays(v: View)
    requires Lean(v)
    ensures Reduce(1, v) == v && Reduce(2, v) == v && Reduce(3, v) == v && Reduce(4, v) == v
  {
    hide CriticalAndHead, WithoutSummaries, FewerPatterns;
    assert (map t | t in v.timeframes :: FewerPatterns(v.timeframes[t], 2)) == v.timeframes;
  }

  function Printed(frame: Frame, cases: string, notes: string): string {
    frame.before + cases + frame.between + notes + frame.after
  }

  /** What the cases and the note cost inside any frame. */
  lemma StrawCosts(frame: Frame, open: string, more: string, note: string)
    requires |more| >= 3 && 3 <= |note| <= 97 && AsciiRunes(open + "]") >= 234
    ensures Tokens(Printed(frame, open + more + "]", "")) > Tokens(Printed(frame, open + "]", ""))
    ensures Tokens(Printed(frame, open + "]", note)) > Tokens(Printed(frame, open + "]", ""))
    ensures Tokens(Printed(frame, "", note)) <= Tokens(Printed(frame, open + "]", ""))
  {
    hide Tokens, AsciiRunes;
    var cases, rest := open + "]", "]" + frame.between + frame.after;
    assert Printed(frame, open + more + "]", "") == (frame.before + open) + more + rest;
    assert Printed(frame, cases, "") == (frame.before + open) + rest;
    InsertionCosts(frame.before + open, more, rest);
    assert Printed(frame, cases, note) == (frame.before + cases + frame.between) + note + frame.after;
    assert Printed(frame, cases, "") == (frame.before + cases + frame.between) + frame.after;
    InsertionCosts(frame.before + cases + frame.between, note, frame.after);
    assert Printed(frame, cases, "") == frame.before + cases + (frame.between + frame.after);
    assert Printed(frame, "", note) == (frame.before + frame.between) + note + frame.after;
    assert frame.before + (frame.between + frame.after) == (frame.before + frame.between) + frame.after;
    InsertionCosts(frame.before, cases, frame.between + frame.after);
    InsertionCosts(frame.before + frame.between, note, frame.after);
  }

  /** The note can be the straw. Whatever the rest of the payload is, a snapshot whose payload just fits
      once its similar cases are cut to three fails to build, although leaving the cases out as well would
      have made room for the note. */
  lemma NoteCanOverflow(v: View, encode: Encoder, frame: Frame, render: Case -> string)
    requires |v.cases| > 3 && v.notes == [] && Lean(v)
    requires PrintsMembers(encode, v, frame, render) && NamesMembers(v.cases, render)
    ensures encode(Reduced(v, 1)).Some?
    ensures var budget := Tokens(encode(Reduced(v, 1)).value);
            BuildOf(v, encode, budget).Err? && Fits(WithNote(Reduced(v, 6)), encode, budget)
  {
    var three, none := v.(cases := v.cases[..3]), v.(cases := []);
    var noted, last := three.(notes := [REDUCED_NOTE]), none.(notes := [REDUCED_NOTE]);
    assert WithNote(three) == noted && WithNote(none) == last;
    assert NotesMember([]) == "" && CasesMember([], render) == "";
    var note := NotesMember([REDUCED_NOTE]);
    assert encode(v) == Some(Printed(frame, CasesMember(v.cases, render), ""));
    assert encode(three) == Some(Printed(frame, CasesMember(v.cases[..3], render), ""));
    assert encode(noted) == Some(Printed(frame, CasesMember(v.cases[..3], render), note));
    assert encode(last) == Some(Printed(frame, "", note));
    hide Tokens, CasesMember, NotesMember, Printed, Reduced, Lean, WithNote, PrintsMembers, BuildOf, NamesMembers,
         AsciiRunes;
    LeanReductions(v);
    NoteLength();
    var open, more := FewerCasesAreShorter(v.cases, render);
    StrawCosts(frame, open, more, note);
    BuildFailsOnNote(v, encode, Tokens(encode(three).value));
  }

  /** The payload is too large as it is, fits after one reduction, and no longer does with the note. */
  lemma BuildFailsOnNote(v: View, encode: Encoder, budget: int)
    requires Over(v, encode, budget, 0) && encode(Reduced(v, 1)).Some? && !Over(v, encode, budget, 1)
    requires encode(WithNote(Reduced(v, 1))).Some? && Tokens(encode(WithNote(Reduced(v, 1))).value) > budget
    ensures BuildOf(v, encode, budget).Err?
  {
    hide Tokens, Reduced, WithNote, Note;
    assert StopsAt(v, encode, budget, 1) == 1;
    assert StopsAt(v, encode, budget, 0) == 1;
    assert |Notes(1)| == 1;
  }

  // ---------- the request ----------

  datatype ModelConfig = ModelConfig(contextSize: int, maxTokens: int, snapshotMaxTokens: int)

  datatype AnalyzeError = ContextTooSmall(available: int) | BuildFailed(cause: BuildError) | WouldExceedContext

  datatype Prompt = Prompt(system: string, user: string)

  const SNAPSHOT_PREFIX := "Return ru, en, and zh-CN translations for this input.\n\nINPUT SNAPSHOT:\n"

  function ContextSize(cfg: ModelConfig): int {
    if cfg.contextSize <= 0 then 16384 else cfg.contextSize
  }

  function SafetyTokens(contextSize: int): int {
    if contextSize / 16 < 512 then 512 else contextSize / 16
  }

  function MaxOutput(cfg: ModelConfig): int {
    if cfg.maxTokens <= 0 then 1800 else cfg.maxTokens
  }

  /** The build options a context window leaves room for. */
  function OptionsFor(base: BuildOptions, cfg: ModelConfig, systemPrompt: string): Result<BuildOptions, AnalyzeError> {
    var available := ContextSize(cfg) - MaxOutput(cfg) - SafetyTokens(ContextSize(cfg)) - Tokens(systemPrompt) - Tokens(SNAPSHOT_PREFIX);
    if available < 512 then Err(ContextTooSmall(available))
    else Ok(base.(maxTokens := if 0 < cfg.snapshotMaxTokens < available then cfg.snapshotMaxTokens else available))
  }

  /** The last check before the request is sent. */
  function Guarded(cfg: ModelConfig, systemPrompt: string, encoded: string): Result<Prompt, AnalyzeError> {
    var user := SNAPSHOT_PREFIX + encoded;
    if Tokens(systemPrompt) + Tokens(user) + cfg.maxTokens + SafetyTokens(ContextSize(cfg)) > ContextSize(cfg)
    then Err(WouldExceedContext)
    else Ok(Prompt(systemPrompt, user))
  }

  ghost function AnalyzeOf(base: BuildOptions, cfg: ModelConfig, systemPrompt: string, snapshot: Snapshot, encode: Encoder): Result<Prompt, AnalyzeError>
    reads snapshot.assetNews, snapshot.globalNews
  {
    var options := OptionsFor(base, cfg, systemPrompt);
    if options.Err? then Err(options.error)
    else
      var opts := Budget(options.value);
      var built := BuildOf(Compacted(snapshot, opts), encode, opts.maxTokens);
      if built.Err? then Err(BuildFailed(built.error)) else Guarded(cfg, systemPrompt, built.value.encoded)
  }

  /** Prepares the request to the model. */
  method Analyze(base: BuildOptions, cfg: ModelConfig, systemPrompt: string, snapshot: Snapshot, encode: Encoder)
    returns (result: Result<Prompt, AnalyzeError>)
    requires snapshot.assetNews != snapshot.globalNews
    modifies snapshot.assetNews, snapshot.globalNews
    ensures result == old(AnalyzeOf(base, cfg, systemPrompt, snapshot, encode))
  {
    hide Tokens, BuildOf, StopsAt, WithoutSummaries;
    var options := OptionsFor(base, cfg, systemPrompt);
    if options.Err? {
      return Err(options.error);
    }
    var built := Build(snapshot, options.value, encode);
    if built.Err? {
      return Err(BuildFailed(built.error));
    }
    var contextSize := ContextSize(cfg);
    var user := SNAPSHOT_PREFIX + built.value.encoded;
    var system := EstimateTokens(systemPrompt);
    var message := EstimateTokens(user);
    if system + message + cfg.maxTokens + SafetyTokens(contextSize) > contextSize {
      return Err(WouldExceedContext);
    }
    return Ok(Prompt(systemPrompt, user));
  }

  /** Once the options and the build succeed the last check never fires: the prompt, the response and the
      reserve fit the window, however the payload is encoded. */
  lemma ContextGuardIsIdle(base: BuildOptions, cfg: ModelConfig, systemPrompt: string, snapshot: Snapshot, encode: Encoder)
    ensures var result := AnalyzeOf(base, cfg, systemPrompt, snapshot, encode);
            && !(result.Err? && result.error.WouldExceedContext?)
            && (result.Ok? ==> Tokens(result.value.system) + Tokens(result.value.user) + MaxOutput(cfg) + SafetyTokens(ContextSize(cfg)) <= ContextSize(cfg))
  {
    hide Tokens, Reduced, StopsAt, Notes;
    var options := OptionsFor(base, cfg, systemPrompt);
    if options.Ok? {
      var opts := options.value;
      var built := BuildOf(Compacted(snapshot, opts), encode, opts.maxTokens);
      if built.Ok? {
        EstimateIsSubadditive(SNAPSHOT_PREFIX, built.value.encoded);
      }
    }
  }
}
