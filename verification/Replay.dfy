/** The bar-by-bar replay: account, open book, resting entry and decisions. */
module Replay {
  import opened Domain
  import opened Drawdown
  import opened Levels
  import opened OpenTrades

  /** History the analysis needs before it says anything. */
  const MIN_CANDLES := 30

  const DEFAULT_HISTORY_LIMIT := 500

  const DEFAULT_ENTRY_VALID_BARS := 3

  // ---------- what a decision may see ----------

  /** Everything a replay reads besides its own parameters. */
  datatype Inputs = Inputs(series: map<string, seq<Candle>>, benchmark: seq<Candle>, funding: map<int, real>)

  /** Bars the market proxy's long average needs. */
  const BENCHMARK_PERIOD := 200

  /** The market proxy: unknown while its long average is, then measured on the bars of it that had closed. */
  datatype Market = UnknownMarket | Measured(closed: seq<Candle>)

  datatype View = View(visible: map<string, seq<Candle>>, market: Market, at: int, open: seq<Position>)

  datatype Signal = Signal(direction: Direction, reference: real, leverage: int, allocationPct: real,
                           takeProfit: seq<PriceTarget>, stopLoss: seq<PriceTarget>, atr: real)

  /** The deterministic policy with the risk engine behind it, as a function of what it is shown. */
  type Policy = View -> Option<Signal>

  /** Binary search for the first bar that closes after a moment. */
  function FirstAfter(candles: seq<Candle>, at: int, lo: nat, hi: nat): (end: nat)
    requires lo <= hi <= |candles|
    ensures lo <= end <= hi
    decreases hi - lo
  {
    if lo == hi then lo
    else
      var mid := (lo + hi) / 2;
      if candles[mid].closeTime > at then FirstAfter(candles, at, lo, mid)
      else FirstAfter(candles, at, mid + 1, hi)
  }

  function ClosedBy(candles: seq<Candle>, at: int): seq<Candle> {
    candles[..FirstAfter(candles, at, 0, |candles|)]
  }

  function Tail(candles: seq<Candle>, limit: int): seq<Candle> {
    if limit < |candles| && 0 <= limit then candles[|candles| - limit..] else candles
  }

  function VisibleAt(series: map<string, seq<Candle>>, at: int, limit: int): map<string, seq<Candle>> {
    map tf | tf in series :: Tail(ClosedBy(series[tf], at), if limit <= 0 then DEFAULT_HISTORY_LIMIT else limit)
  }

  function MarketAt(benchmark: seq<Candle>, at: int): Market {
    if |ClosedBy(benchmark, at)| < BENCHMARK_PERIOD then UnknownMarket else Measured(ClosedBy(benchmark, at))
  }

  function SeriesOf(series: map<string, seq<Candle>>, timeframe: string): seq<Candle> {
    if timeframe in series then series[timeframe] else []
  }

  /** No signal comes out of fewer bars than the analysis needs. */
  function Decide(policy: Policy, view: View, timeframe: string): Option<Signal> {
    if |SeriesOf(view.visible, timeframe)| < MIN_CANDLES then None else policy(view)
  }

  // ---------- the account ----------

  datatype EquityPoint = EquityPoint(at: int, equity: real)

  datatype Account = Account(cash: real, lastEquity: real, drawdown: Tracker, marks: seq<real>, curve: seq<EquityPoint>)

  function InitialCapital(params: Params): Positive {
    if params.initialCapital <= 0.0 then 10000.0 else params.initialCapital
  }

  function NewAccount(params: Params): Account {
    var initial := InitialCapital(params);
    Account(initial, initial, Tracker(initial, 0.0), [], [])
  }

  /** What one position adds to equity at a price: its open result less the fee for closing the rest. */
  function MarkOf(p: Position, price: real, takerFeePct: real): real {
    (price - p.entryPrice) * p.remainingQty * p.direction.Sign() - price * p.remainingQty * takerFeePct / 100.0
  }

  function MarksOf(open: seq<Position>, price: real, takerFeePct: real): real {
    if open == [] then 0.0
    else MarksOf(open[..|open| - 1], price, takerFeePct) + MarkOf(open[|open| - 1], price, takerFeePct)
  }

  function MarkToMarket(a: Account, price: real, open: seq<Position>, takerFeePct: real): Account {
    var equity := a.cash + MarksOf(open, price, takerFeePct);
    a.(lastEquity := equity, drawdown := Record(a.drawdown, equity), marks := a.marks + [equity])
  }

  function RecordPoint(a: Account, at: int): Account {
    a.(curve := a.curve + [EquityPoint(at, a.lastEquity)])
  }

  function Equity(a: Account): real {
    if a.lastEquity > 0.0 then a.lastEquity else a.cash
  }

  /** The margin still tied up in a position: its initial margin pro rata to what is open. */
  function ReservedBy(p: Position): real {
    p.initialMargin * p.remainingQty / p.originalQty
  }

  function Reserved(open: seq<Position>): real {
    if open == [] then 0.0 else Reserved(open[..|open| - 1]) + ReservedBy(open[|open| - 1])
  }

  function AvailableMargin(cash: real, open: seq<Position>): real {
    Max(cash - Reserved(open), 0.0)
  }

  // ---------- admission ----------

  datatype ExitPlan = ExitPlan(takeProfit: seq<PriceTarget>, stopLoss: seq<PriceTarget>, trailATR: real)

  function TrailDistance(signal: Signal, params: Params): real {
    signal.atr * (if params.trailingAtrMult <= 0.0 then DEFAULT_TRAILING_ATR_MULT else params.trailingAtrMult)
  }

  /** The exit plan of the run's mode, or none when the mode cannot build one. */
  function PlanExit(signal: Signal, entry: Positive, params: Params): Option<ExitPlan> {
    match params.exitMode
    case SignalLevels => Some(ExitPlan(signal.takeProfit, signal.stopLoss, 0.0))
    case PnlLadder =>
      Some(ExitPlan(LadderTargets(params.takeProfitLadder, entry, signal.direction, signal.leverage, true),
                    LadderTargets(params.stopLossLadder, entry, signal.direction, signal.leverage, false), 0.0))
    case TrailingAtr =>
      if signal.atr <= 0.0 then None
      else
        var trail := TrailDistance(signal, params);
        Some(ExitPlan([], [PriceTarget(entry - signal.direction.Sign() * trail, 100.0)], trail))
  }

  function MarginFor(signal: Signal, capital: real): real {
    capital * signal.allocationPct / 100.0
  }

  function QuantityFor(signal: Signal, capital: real, entry: Positive): real {
    MarginFor(signal, capital) * signal.leverage as real / entry
  }

  function EntryFee(signal: Signal, capital: real, params: Params, feeType: FeeType): real {
    FeeFor(MarginFor(signal, capital) * signal.leverage as real, params, feeType)
  }

  function NewPosition(signal: Signal, entry: Positive, capital: real, fee: real, plan: ExitPlan, at: int): Position
    requires QuantityFor(signal, capital, entry) > 0.0 && signal.leverage != 0
  {
    var quantity := QuantityFor(signal, capital, entry);
    Position(signal.direction, at, entry, signal.leverage, signal.allocationPct,
             plan.takeProfit, plan.stopLoss, quantity, quantity, MarginFor(signal, capital),
             0.0, fee, 0.0, 0.0, 0.0,
             [Execution(ENTRY, at, entry, quantity, 0.0, 0.0, fee, 0.0)],
             NextFundingAfter(at), false, plan.trailATR, entry, 0.0, 0.0)
  }

  /** Opens a position at an explicit price, or refuses without touching the account. */
  function OpenTradeAt(signal: Signal, entry: real, feeType: FeeType, candle: Candle, params: Params,
                       a: Account, open: seq<Position>): Option<Booked> {
    var capital := Equity(a);
    if entry <= 0.0 || signal.allocationPct <= 0.0 then None
    else if signal.leverage == 0 || QuantityFor(signal, capital, entry) <= 0.0 then None
    else
      match PlanExit(signal, entry, params)
      case None => None
      case Some(plan) =>
        var fee := EntryFee(signal, capital, params, feeType);
        if MarginFor(signal, capital) + fee > AvailableMargin(a.cash, open) then None
        else Some(Booked(NewPosition(signal, entry, capital, fee, plan, candle.closeTime), a.cash - fee))
  }

  // ---------- resting entries ----------

  datatype Pending = Pending(signal: Signal, limit: real, expiresAt: int)

  predicate Fills(pending: Pending, candle: Candle) {
    if pending.signal.direction.Long? then candle.low <= pending.limit else candle.high >= pending.limit
  }

  /** The signal with every exit level moved by the distance between the fill and its reference. */
  function Shifted(pending: Pending): Signal {
    var signal := pending.signal;
    var shift := pending.limit - signal.reference;
    if shift == 0.0 then signal
    else signal.(reference := pending.limit,
                 takeProfit := ShiftTargets(signal.takeProfit, shift),
                 stopLoss := ShiftTargets(signal.stopLoss, shift))
  }

  /** A resting order keeps the geometry the strategy asked for: measured from the fill, every level that stays
      above zero is as far away as it was from the reference, with the same share. */
  lemma ShiftedKeepsDistances(pending: Pending)
    ensures var was, now := pending.signal, Shifted(pending);
            && now.direction == was.direction && now.leverage == was.leverage && now.allocationPct == was.allocationPct
            && now.reference == pending.limit
            && (if pending.limit == was.reference then now == was
                else && SameDistances(Surviving(was.takeProfit, pending.limit - was.reference), was.reference, now.takeProfit, now.reference)
                     && SameDistances(Surviving(was.stopLoss, pending.limit - was.reference), was.reference, now.stopLoss, now.reference))
  {
    var shift := pending.limit - pending.signal.reference;
    ShiftMovesSurvivors(pending.signal.takeProfit, shift);
    ShiftMovesSurvivors(pending.signal.stopLoss, shift);
    hide Surviving, ShiftTargets;
  }

  ghost predicate SameDistances(a: seq<PriceTarget>, from: real, b: seq<PriceTarget>, until: real) {
    && |a| == |b|
    && forall i :: 0 <= i < |a| ==> b[i].price - until == a[i].price - from && b[i].closePct == a[i].closePct
  }

  function RestingLimit(signal: Signal, params: Params): real {
    signal.reference - signal.direction.Sign() * params.entryPullbackAtr * signal.atr
  }

  function ValidBars(params: Params): int {
    if params.entryValidBars <= 0 then DEFAULT_ENTRY_VALID_BARS else params.entryValidBars
  }

  // ---------- one bar of the run ----------

  /** A finished position and how it ended. */
  datatype Closing = Closing(position: Position, reason: string, at: int)

  datatype State = State(account: Account, open: seq<Position>, pending: Option<Pending>, closed: seq<Closing>,
                         lastSignalIndex: int, analysisPoints: nat, unfilledEntries: nat)

  function MaxOpen(params: Params): int {
    if params.maxOpenPositions <= 0 then 1 else params.maxOpenPositions
  }

  /** Bars between two analysis points. */
  function StepBars(params: Params): int {
    match params.analysisInterval
    case Some(interval) =>
      if interval > params.barSeconds && params.barSeconds > 0 then interval / params.barSeconds else 1
    case None => 1
  }

  function Initial(params: Params): State {
    State(NewAccount(params), [], None, [], -StepBars(params), 0, 0)
  }

  /** The book after the bar met the first positions of it, in order. */
  datatype Sweep = Sweep(cash: real, survivors: seq<Position>, closed: seq<Closing>)

  function SweepBook(cash: real, open: seq<Position>, candle: Candle, params: Params, funding: map<int, real>): Sweep {
    if open == [] then Sweep(cash, [], [])
    else
      var s := SweepBook(cash, open[..|open| - 1], candle, params, funding);
      var tick := Update(Booked(open[|open| - 1], s.cash), candle, params, funding);
      match tick.closedBy
      case Some(reason) =>
        Sweep(tick.booked.cash, s.survivors, s.closed + [Closing(tick.booked.position, reason, candle.closeTime)])
      case None => Sweep(tick.booked.cash, s.survivors + [tick.booked.position], s.closed)
  }

  /** Both intrabar extremes are marked before any position changes. */
  function MarkExtremes(s: State, candle: Candle, params: Params): State {
    if s.open == [] then s
    else
      var low := MarkToMarket(s.account, candle.low, s.open, params.takerFeePct);
      s.(account := MarkToMarket(low, candle.high, s.open, params.takerFeePct))
  }

  function Settle(s: State, candle: Candle, params: Params, funding: map<int, real>): State {
    var sweep := SweepBook(s.account.cash, s.open, candle, params, funding);
    var account := MarkToMarket(s.account.(cash := sweep.cash), candle.close, sweep.survivors, params.takerFeePct);
    s.(account := RecordPoint(account, candle.closeTime), open := sweep.survivors, closed := s.closed + sweep.closed)
  }

  /** An accepted entry joins the book and the account is marked again at the close. */
  function Admit(s: State, entered: Option<Booked>, candle: Candle, params: Params): State {
    match entered
    case None => s
    case Some(b) =>
      var open := s.open + [b.position];
      s.(open := open, account := MarkToMarket(s.account.(cash := b.cash), candle.close, open, params.takerFeePct))
  }

  /** The resting order of an earlier bar expires, gives way to a full book, fills or waits. */
  function FillPending(s: State, i: int, candle: Candle, params: Params): State {
    match s.pending
    case None => s
    case Some(pending) =>
      if i > pending.expiresAt then s.(pending := None, unfilledEntries := s.unfilledEntries + 1)
      else if |s.open| >= MaxOpen(params) then s.(pending := None)
      else if Fills(pending, candle) then
        Admit(s, OpenTradeAt(Shifted(pending), pending.limit, Maker, candle, params, s.account, s.open), candle, params).(pending := None)
      else s
  }

  /** Crossing the spread costs the slippage. */
  function MarketEntry(signal: Signal, candle: Candle, params: Params): real {
    candle.close * (1.0 + signal.direction.Sign() * (params.slippagePct / 100.0))
  }

  /** A signal rests as a limit order when the run waits for pullbacks and enters at the market otherwise. */
  function Act(s: State, signal: Signal, i: int, candle: Candle, params: Params): State {
    if params.entryPullbackAtr > 0.0 && signal.atr > 0.0 then
      var limit := RestingLimit(signal, params);
      if limit > 0.0 then s.(pending := Some(Pending(signal, limit, i + ValidBars(params)))) else s
    else
      Admit(s, OpenTradeAt(signal, MarketEntry(signal, candle, params), Taker, candle, params, s.account, s.open), candle, params)
  }

  function ViewAt(inputs: Inputs, at: int, open: seq<Position>, params: Params): View {
    View(VisibleAt(inputs.series, at, params.historyLimit), MarketAt(inputs.benchmark, at), at, open)
  }

  function Analyse(s: State, i: int, candle: Candle, inputs: Inputs, params: Params, policy: Policy): State {
    if i - s.lastSignalIndex < StepBars(params) then s
    else
      var counted := s.(lastSignalIndex := i, analysisPoints := s.analysisPoints + 1);
      if |s.open| >= MaxOpen(params) then counted
      else
        match Decide(policy, ViewAt(inputs, candle.closeTime, s.open, params), params.timeframe)
        case None => counted
        case Some(signal) => Act(counted, signal, i, candle, params)
  }

  function Step(s: State, i: int, candle: Candle, inputs: Inputs, params: Params, policy: Policy): State {
    if candle.openTime < params.dateFrom then s
    else
      var settled := Settle(MarkExtremes(s, candle, params), candle, params, inputs.funding);
      Analyse(FillPending(settled, i, candle, params), i, candle, inputs, params, policy)
  }

  /** The state after the first n bars of the traded series. */
  function RunTo(n: nat, inputs: Inputs, params: Params, policy: Policy): State
    requires n <= |SeriesOf(inputs.series, params.timeframe)|
  {
    if n <= MIN_CANDLES then Initial(params)
    else Step(RunTo(n - 1, inputs, params, policy), n - 1, SeriesOf(inputs.series, params.timeframe)[n - 1], inputs, params, policy)
  }

  // ---------- the end of the period ----------

  function CloseBook(cash: real, open: seq<Position>, candle: Candle, params: Params, funding: map<int, real>): Sweep {
    if open == [] then Sweep(cash, [], [])
    else
      var s := CloseBook(cash, open[..|open| - 1], candle, params, funding);
      var b := ForceClose(Booked(open[|open| - 1], s.cash), candle, params, funding, END_OF_PERIOD);
      Sweep(b.cash, [], s.closed + [Closing(b.position, END_OF_PERIOD, candle.closeTime)])
  }

  function Finish(s: State, last: Candle, params: Params, funding: map<int, real>): State {
    if s.open == [] then s
    else
      var sweep := CloseBook(s.account.cash, s.open, last, params, funding);
      var account := MarkToMarket(s.account.(cash := sweep.cash), last.close, [], params.takerFeePct);
      s.(account := RecordPoint(account, last.closeTime), open := [], closed := s.closed + sweep.closed)
  }

  function Run(inputs: Inputs, params: Params, policy: Policy): State {
    var candles := SeriesOf(inputs.series, params.timeframe);
    var s := RunTo(|candles|, inputs, params, policy);
    if s.open == [] || candles == [] then s else Finish(s, candles[|candles| - 1], params, inputs.funding)
  }

  /** The trades as they are stored. */
  function Trades(closed: seq<Closing>): seq<Trade> {
    if closed == [] then []
    else
      var last := closed[|closed| - 1];
      Trades(closed[..|closed| - 1]) + [Finalize(last.position, last.reason, last.at)]
  }
}
