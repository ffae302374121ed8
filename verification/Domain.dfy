/** The vocabulary shared by the models: candles, exit levels, directions and numeric ranges. */
module Domain {

  datatype Option<+T> = None | Some(value: T)

  datatype Result<+T, +E> = Ok(value: T) | Err(error: E)

  type Positive = r: real | r > 0.0 witness 1.0

  type NonZero = i: int | i != 0 witness 1

  datatype Direction = Long | Short {
    /** +1 for a long and -1 for a short, as a factor for money. */
    function Sign(): real {
      if Short? then -1.0 else 1.0
    }
  }

  datatype FeeType = Maker | Taker

  /** One OHLCV bar. Times are Unix seconds. */
  datatype Candle = Candle(openTime: int, closeTime: int,
                           open: real, high: real, low: real, close: real, volume: real)

  /** One take-profit or stop-loss step: a price and the share of the position it closes. */
  datatype PriceTarget = PriceTarget(price: real, closePct: real)

  const DAY := 86400

  /** A long banks at highs and stops at lows; a short is the mirror image. */
  predicate Touched(candle: Candle, price: real, direction: Direction, takeProfit: bool) {
    if direction.Long? == takeProfit then candle.high >= price else candle.low <= price
  }

  /** A long banks at any price up to the high, a short at any price down to the low. */
  predicate Banks(direction: Direction, bar: Candle, price: real) {
    match direction
    case Long => price <= bar.high
    case Short => bar.low <= price
  }

  /** A long is hurt at any price down from above the low, a short at any price up to the high. */
  predicate Hurts(direction: Direction, bar: Candle, price: real) {
    match direction
    case Long => bar.low <= price
    case Short => price <= bar.high
  }

  lemma TouchedMeans(bar: Candle, price: real, direction: Direction)
    ensures Touched(bar, price, direction, true) <==> Banks(direction, bar, price)
    ensures Touched(bar, price, direction, false) <==> Hurts(direction, bar, price)
  {
  }

  /** What a long wins by selling above its entry, and a short by buying back below it. */
  function Won(direction: Direction, entry: real, price: real, qty: real): real {
    match direction
    case Long => (price - entry) * qty
    case Short => (entry - price) * qty
  }

  function PctOfNotional(price: real, qty: real, pct: real): real {
    price * qty * pct / 100.0
  }

  /** The bars closed by a moment, picked one by one. */
  function KnownBy(candles: seq<Candle>, at: int): (known: seq<Candle>)
    ensures |known| <= |candles|
  {
    if candles == [] then []
    else
      var last := candles[|candles| - 1];
      var before := KnownBy(candles[..|candles| - 1], at);
      if last.closeTime <= at then before + [last] else before
  }

  // Kinds of executions and reasons for closing.
  const TAKE_PROFIT := "take_profit"
  const STOP_LOSS := "stop_loss"
  const AMBIGUOUS_STOP := "stop_loss_ambiguous_candle"
  const LIQUIDATION := "liquidation"
  const END_OF_PERIOD := "end_of_period"
  const FUNDING := "funding"
  const ENTRY := "entry"

  function Max(a: real, b: real): real {
    if a >= b then a else b
  }

  function Min(a: real, b: real): real {
    if a <= b then a else b
  }

  function Abs(a: real): real {
    if a < 0.0 then -a else a
  }
}
