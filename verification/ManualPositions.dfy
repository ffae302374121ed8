/** Manually recorded positions: an append-only ledger of fills, its closes and its profit and loss. */
module ManualPositions {
  import opened Domain
  import opened Rounding

  datatype Status = Open | PartiallyClosed | Closed

  datatype FillKind = OpenFill | CloseFill

  datatype Fill = Fill(kind: FillKind, price: real, quantity: Option<real>, closePct: Option<real>,
                       fee: real, feeType: FeeType, feeEstimated: bool, realizedPnl: real, executedAt: int)

  datatype Position = Position(direction: Direction, status: Status, entryPrice: real, leverage: real, sizeKnown: bool,
                               initialQuantity: Option<real>, remainingQuantity: Option<real>, initialMargin: Option<real>,
                               feeType: FeeType, closedAt: Option<int>)

  datatype FeesConfig = FeesConfig(makerPct: real, takerPct: real, configured: bool)

  datatype CloseRequest = CloseRequest(executionPrice: real, closePct: Option<real>, quantity: Option<real>,
                                       feeType: Option<FeeType>, actualFee: Option<real>, executedAt: int, full: bool)

  datatype CloseError = PositionClosed | NoCloseSize

  datatype CloseResult = CloseResult(quantity: real, closePct: real, realizedPnl: real, fee: real, feeEstimated: bool,
                                     remaining: real, fullyClosed: bool)

  predicate Given(amount: Option<real>) {
    amount.Some? && amount.value > 0.0
  }

  function OrZero(amount: Option<real>): real {
    if amount.Some? then amount.value else 0.0
  }

  /** What a quantity has earned between two prices. */
  function Earned(price: real, entry: real, quantity: real, direction: Direction): real {
    (price - entry) * quantity * direction.Sign()
  }

  // ---------- sizing ----------

  datatype Size = Size(quantity: real, notional: real, margin: real, known: bool)

  function DeriveSize(entryPrice: real, leverage: real, quantity: Option<real>, notional: Option<real>, margin: Option<real>): (s: Size)
    ensures s.known <==> entryPrice > 0.0 && leverage > 0.0 && (Given(quantity) || Given(notional) || Given(margin))
    ensures s.quantity >= 0.0
  {
    if entryPrice <= 0.0 || leverage <= 0.0 then Size(0.0, 0.0, 0.0, false)
    else if Given(quantity) then
      Rounded(quantity.value, Worth(quantity.value, entryPrice), Bought(Worth(quantity.value, entryPrice), leverage))
    else if Given(notional) then
      Rounded(Bought(notional.value, entryPrice), notional.value, Bought(notional.value, leverage))
    else if Given(margin) then
      Rounded(Bought(Levered(margin.value, leverage), entryPrice), Levered(margin.value, leverage), margin.value)
    else Size(0.0, 0.0, 0.0, false)
  }

  function Rounded(quantity: real, notional: real, margin: real): Size {
    Size(Round12(quantity), Round10(notional), Round10(margin), true)
  }

  function Worth(quantity: real, price: real): real {
    quantity * price
  }

  function Bought(notional: real, price: real): (q: real)
    requires price > 0.0
    ensures notional > 0.0 ==> q > 0.0
  {
    notional / price
  }

  function Levered(margin: real, leverage: real): (n: real)
    ensures margin > 0.0 && leverage > 0.0 ==> n > 0.0
  {
    margin * leverage
  }

  /** The unrounded quantity, notional and margin of one position at a price and a leverage. */
  ghost predicate Amounts(quantity: real, notional: real, margin: real, price: real, leverage: real) {
    notional == quantity * price && notional == margin * leverage
  }

  /** One given amount fixes all three: the derived size holds, each rounded to its places, the amounts of
      one position, and the one that was given (the quantity before the notional before the margin) as given. */
  lemma DeriveSizeIsConsistent(entryPrice: real, leverage: real, quantity: Option<real>, notional: Option<real>, margin: Option<real>)
    returns (q: real, n: real, m: real)
    requires DeriveSize(entryPrice, leverage, quantity, notional, margin).known
    ensures Amounts(q, n, m, entryPrice, leverage) && q > 0.0 && n > 0.0 && m > 0.0
    ensures DeriveSize(entryPrice, leverage, quantity, notional, margin) == Size(Round12(q), Round10(n), Round10(m), true)
    ensures if Given(quantity) then q == quantity.value else if Given(notional) then n == notional.value else m == margin.value
  {
    hide Round10, Round12, Bought, Levered;
    if Given(quantity) {
      q, n, m := quantity.value, Worth(quantity.value, entryPrice), Bought(Worth(quantity.value, entryPrice), leverage);
      ProductIsPositive(q, entryPrice);
      BoughtIsWorth(n, leverage);
    } else {
      if Given(notional) {
        n, m := notional.value, Bought(notional.value, leverage);
        BoughtIsWorth(n, leverage);
      } else {
        m, n := margin.value, Levered(margin.value, leverage);
        LeveredIs(m, leverage);
      }
      q := Bought(n, entryPrice);
      BoughtIsWorth(n, entryPrice);
    }
  }

  lemma ProductIsPositive(a: real, b: real)
    requires a > 0.0 && b > 0.0
    ensures Worth(a, b) > 0.0
  {
  }

  lemma BoughtIsWorth(n: real, price: real)
    requires price > 0.0
    ensures n == Bought(n, price) * price
  {
  }

  lemma LeveredIs(m: real, leverage: real)
    ensures Levered(m, leverage) == m * leverage
  {
  }

  // ---------- one close ----------

  function ComputeFee(price: real, quantity: real, feeType: FeeType, actual: Option<real>, fees: FeesConfig): (real, bool) {
    if actual.Some? then (actual.value, false)
    else if !fees.configured then (0.0, true)
    else (Round10(AtRate(price, quantity, if feeType.Maker? then fees.makerPct else fees.takerPct)), true)
  }

  function AtRate(price: real, quantity: real, rate: real): real {
    price * quantity * rate / 100.0
  }

  /** The quantity and the share of the remainder a request asks to close. */
  function AskedSize(remaining: real, quantity: Option<real>, closePct: Option<real>): Option<(real, real)> {
    if Given(quantity) then
      Some((if remaining > 0.0 && quantity.value > remaining then remaining else quantity.value, 0.0))
    else if Given(closePct) then
      var pct := Min(closePct.value, 100.0);
      Some((remaining * pct / 100.0, pct))
    else None
  }

  function ComputeClose(p: Position, price: real, closePct: Option<real>, quantity: Option<real>,
                        feeType: FeeType, actualFee: Option<real>, fees: FeesConfig): Result<CloseResult, CloseError> {
    var remaining := OrZero(p.remainingQuantity);
    match AskedSize(remaining, quantity, closePct)
    case None => Err(NoCloseSize)
    case Some((size, asked)) =>
      var left := if remaining > 0.0 then Max(remaining - size, 0.0) else 0.0;
      var pct := if remaining > 0.0 then Round6(size / remaining * 100.0) else asked;
      var fee := ComputeFee(price, size, feeType, actualFee, fees);
      Ok(CloseResult(size, pct, Round10(Earned(price, p.entryPrice, size, p.direction)), fee.0, fee.1, left,
                     (!p.sizeKnown && pct >= 100.0) || (remaining > 0.0 && left == 0.0)))
  }

  /** Everything kept about one position. */
  datatype Book = Book(position: Position, fills: seq<Fill>, feeEvents: seq<real>, fundingEvents: seq<real>)

  function Percentage(p: Position, req: CloseRequest): Option<real> {
    if req.full || (!p.sizeKnown && req.quantity.None? && req.closePct.None?) then Some(100.0) else req.closePct
  }

  function Effect(p: Position, req: CloseRequest, fees: FeesConfig): Result<CloseResult, CloseError> {
    ComputeClose(p, req.executionPrice, Percentage(p, req), if req.full then None else req.quantity,
                 if req.feeType.Some? then req.feeType.value else p.feeType, req.actualFee, fees)
  }

  function AfterClose(p: Position, req: CloseRequest, effect: CloseResult): Position {
    var left := if p.sizeKnown then Some(effect.remaining) else p.remainingQuantity;
    var full := req.full || (if p.sizeKnown then effect.remaining == 0.0 else effect.fullyClosed);
    if full then
      p.(status := Closed, closedAt := Some(req.executedAt),
         remainingQuantity := if p.sizeKnown then Some(0.0) else p.remainingQuantity)
    else p.(status := PartiallyClosed, remainingQuantity := left)
  }

  function FillOf(p: Position, req: CloseRequest, effect: CloseResult): Fill {
    Fill(CloseFill, req.executionPrice, if p.sizeKnown then Some(effect.quantity) else None, Some(effect.closePct),
         effect.fee, if req.feeType.Some? then req.feeType.value else p.feeType, effect.feeEstimated,
         effect.realizedPnl, req.executedAt)
  }

  function CloseBook(book: Book, req: CloseRequest, fees: FeesConfig): Result<Book, CloseError> {
    if book.position.status.Closed? then Err(PositionClosed)
    else
      match Effect(book.position, req, fees)
      case Err(e) => Err(e)
      case Ok(effect) =>
        Ok(book.(position := AfterClose(book.position, req, effect), fills := book.fills + [FillOf(book.position, req, effect)]))
  }

  // ---------- profit and loss ----------

  function GrossOf(fills: seq<Fill>): real {
    if fills == [] then 0.0
    else
      var f := fills[|fills| - 1];
      GrossOf(fills[..|fills| - 1]) + (if f.kind.CloseFill? then f.realizedPnl else 0.0)
  }

  function FeesOf(fills: seq<Fill>): real {
    if fills == [] then 0.0 else FeesOf(fills[..|fills| - 1]) + fills[|fills| - 1].fee
  }

  function Total(amounts: seq<real>): real {
    if amounts == [] then 0.0 else Total(amounts[..|amounts| - 1]) + amounts[|amounts| - 1]
  }

  datatype PnL = PnL(grossRealized: real, fees: real, funding: real, netRealized: real, unrealized: real, total: real,
                     remainingPct: real, priceChangePct: real, leveragedRoiPct: real,
                     realizedPct: Option<real>, unrealizedPct: Option<real>, roiOnMarginPct: Option<real>, approximate: bool)

  function Unrealized(p: Position, price: Option<real>): real {
    var remaining := OrZero(p.remainingQuantity);
    if price.Some? && p.entryPrice > 0.0 && !p.status.Closed? && remaining > 0.0
    then Round10(Earned(price.value, p.entryPrice, remaining, p.direction)) else 0.0
  }

  function PriceChange(p: Position, price: Option<real>): real {
    if price.Some? && p.entryPrice > 0.0
    then (price.value - p.entryPrice) / p.entryPrice * 100.0 * p.direction.Sign() else 0.0
  }

  function LeveragedRoi(p: Position, price: Option<real>): real {
    Round6(Levered(PriceChange(p, price), p.leverage))
  }

  function OnMargin(amount: real, margin: Option<real>): Option<real> {
    if Given(margin) then Some(Round4(amount / margin.value * 100.0)) else None
  }

  function RemainingPct(p: Position): real {
    if Given(p.initialQuantity) then Round4(OrZero(p.remainingQuantity) / p.initialQuantity.value * 100.0)
    else if p.status.Closed? then 0.0 else 100.0
  }

  function NetOf(book: Book): real {
    GrossOf(book.fills) - (FeesOf(book.fills) + Total(book.feeEvents)) + Total(book.fundingEvents)
  }

  /** What the whole position is worth at a price: realised, less fees, plus funding, plus what is open. */
  function ValueOf(book: Book, price: Option<real>): real {
    NetOf(book) + Unrealized(book.position, price)
  }

  function PnlOf(book: Book, price: Option<real>): PnL {
    var p := book.position;
    PnL(GrossOf(book.fills), FeesOf(book.fills) + Total(book.feeEvents), Total(book.fundingEvents), NetOf(book),
        Unrealized(p, price), ValueOf(book, price), RemainingPct(p), Round6(PriceChange(p, price)),
        LeveragedRoi(p, price), OnMargin(NetOf(book), p.initialMargin),
        OnMargin(Unrealized(p, price), p.initialMargin), OnMargin(ValueOf(book, price), p.initialMargin), !p.sizeKnown)
  }

  method Compute(book: Book, price: Option<real>) returns (out: PnL)
    ensures out == PnlOf(book, price)
  {
    hide Round10, Round4, Round6, PriceChange, LeveragedRoi, Unrealized, RemainingPct, OnMargin;
    var gross, fees, funding := 0.0, 0.0, 0.0;
    for i := 0 to |book.fills|
      invariant gross == GrossOf(book.fills[..i]) && fees == FeesOf(book.fills[..i])
    {
      assert book.fills[..i + 1][..i] == book.fills[..i];
      fees := fees + book.fills[i].fee;
      if book.fills[i].kind.CloseFill? {
        gross := gross + book.fills[i].realizedPnl;
      }
    }
    assert book.fills[..|book.fills|] == book.fills;
    ghost var fillFees := fees;
    for i := 0 to |book.feeEvents|
      invariant fees == fillFees + Total(book.feeEvents[..i])
    {
      assert book.feeEvents[..i + 1][..i] == book.feeEvents[..i];
      fees := fees + book.feeEvents[i];
    }
    assert book.feeEvents[..|book.feeEvents|] == book.feeEvents;
    for i := 0 to |book.fundingEvents|
      invariant funding == Total(book.fundingEvents[..i])
    {
      assert book.fundingEvents[..i + 1][..i] == book.fundingEvents[..i];
      funding := funding + book.fundingEvents[i];
    }
    assert book.fundingEvents[..|book.fundingEvents|] == book.fundingEvents;
    var p, net := book.position, gross - fees + funding;
    assert net == NetOf(book);
    var open := Unrealized(p, price);
    out := PnL(gross, fees, funding, net, open, net + open, RemainingPct(p), Round6(PriceChange(p, price)),
               LeveragedRoi(p, price), OnMargin(net, p.initialMargin),
               OnMargin(open, p.initialMargin), OnMargin(net + open, p.initialMargin), !p.sizeKnown);
  }

  // ---------- the ledger of one position ----------

  datatype OpenRequest = OpenRequest(direction: Direction, entryPrice: real, leverage: real, openedAt: int,
                                     quantity: Option<real>, notional: Option<real>, margin: Option<real>,
                                     feeType: FeeType, actualFee: Option<real>)

  function OpenFee(price: real, quantity: real, feeType: FeeType, actual: Option<real>, fees: FeesConfig): (real, bool) {
    if actual.None? && quantity == 0.0 then (0.0, true) else ComputeFee(price, quantity, feeType, actual, fees)
  }

  function OpenBook(req: OpenRequest, fees: FeesConfig): Book {
    var size := DeriveSize(req.entryPrice, req.leverage, req.quantity, req.notional, req.margin);
    var quantity := if size.known then Some(size.quantity) else None;
    var fee := OpenFee(req.entryPrice, size.quantity, req.feeType, req.actualFee, fees);
    Book(Position(req.direction, Open, req.entryPrice, req.leverage, size.known, quantity, quantity,
                  if size.known then Some(size.margin) else None, req.feeType, None),
         [Fill(OpenFill, req.entryPrice, quantity, None, fee.0, req.feeType, fee.1, 0.0, req.openedAt)], [], [])
  }

  class Ledger {
    var position: Position
    var fills: seq<Fill>
    var feeEvents: seq<real>
    var fundingEvents: seq<real>
    var fees: FeesConfig

    ghost function Contents(): Book
      reads this
    {
      Book(position, fills, feeEvents, fundingEvents)
    }

    constructor Open(req: OpenRequest, fees: FeesConfig)
      ensures Contents() == OpenBook(req, fees) && this.fees == fees
    {
      var size := DeriveSize(req.entryPrice, req.leverage, req.quantity, req.notional, req.margin);
      var quantity := if size.known then Some(size.quantity) else None;
      var fee := OpenFee(req.entryPrice, size.quantity, req.feeType, req.actualFee, fees);
      position := Position(req.direction, Status.Open, req.entryPrice, req.leverage, size.known, quantity, quantity,
                           if size.known then Some(size.margin) else None, req.feeType, None);
      fills := [Fill(OpenFill, req.entryPrice, quantity, None, fee.0, req.feeType, fee.1, 0.0, req.openedAt)];
      feeEvents, fundingEvents, this.fees := [], [], fees;
    }

    method SetFees(fees: FeesConfig)
      modifies this
      ensures this.fees == fees && Contents() == old(Contents())
    {
      this.fees := fees;
    }

    method AddFee(amount: real)
      modifies this
      ensures Contents() == old(Contents()).(feeEvents := old(feeEvents) + [amount]) && fees == old(fees)
    {
      feeEvents := feeEvents + [amount];
    }

    method AddFunding(amount: real)
      modifies this
      ensures Contents() == old(Contents()).(fundingEvents := old(fundingEvents) + [amount]) && fees == old(fees)
    {
      fundingEvents := fundingEvents + [amount];
    }

    /** Applies a close, or refuses it and changes nothing. */
    method Close(req: CloseRequest) returns (outcome: Result<CloseResult, CloseError>)
      modifies this
      ensures fees == old(fees)
      ensures CloseBook(old(Contents()), req, fees).Ok? <==> outcome.Ok?
      ensures outcome.Ok? ==> Contents() == CloseBook(old(Contents()), req, fees).value
      ensures outcome.Err? ==> Contents() == old(Contents()) && outcome.error == CloseBook(old(Contents()), req, fees).error
    {
      hide ComputeClose;
      if position.status.Closed? {
        return Err(PositionClosed);
      }
      var feeType := if req.feeType.Some? then req.feeType.value else position.feeType;
      var closePct, quantity := req.closePct, req.quantity;
      if req.full {
        closePct, quantity := Some(100.0), None;
      }
      if !position.sizeKnown && quantity.None? && closePct.None? {
        closePct := Some(100.0);
      }
      var effect := ComputeClose(position, req.executionPrice, closePct, quantity, feeType, req.actualFee, fees);
      if effect.Err? {
        return Err(effect.error);
      }
      var result := effect.value;
      var fill := Fill(CloseFill, req.executionPrice, None, Some(result.closePct), result.fee, feeType,
                       result.feeEstimated, result.realizedPnl, req.executedAt);
      if position.sizeKnown {
        fill := fill.(quantity := Some(result.quantity));
      }
      var updated := position;
      var fullyClosed := req.full || result.fullyClosed;
      if position.sizeKnown {
        updated := updated.(remainingQuantity := Some(result.remaining));
        fullyClosed := req.full || result.remaining == 0.0;
      }
      if fullyClosed {
        updated := updated.(status := Status.Closed, closedAt := Some(req.executedAt));
        if position.sizeKnown {
          updated := updated.(remainingQuantity := Some(0.0));
        }
      } else {
        updated := updated.(status := PartiallyClosed);
      }
      position, fills := updated, fills + [fill];
      return Ok(result);
    }
  }

  // ---------- size is conserved ----------

  function ClosedQuantity(fills: seq<Fill>): real {
    if fills == [] then 0.0
    else
      var f := fills[|fills| - 1];
      ClosedQuantity(fills[..|fills| - 1]) + (if f.kind.CloseFill? then OrZero(f.quantity) else 0.0)
  }

  /** A position of known size whose closes and remainder add up to what was opened. */
  ghost predicate Conserved(book: Book) {
    var p := book.position;
    && p.sizeKnown && p.entryPrice > 0.0 && p.initialQuantity.Some? && p.remainingQuantity.Some?
    && ClosedQuantity(book.fills) + p.remainingQuantity.value == p.initialQuantity.value
    && 0.0 <= p.remainingQuantity.value <= p.initialQuantity.value
  }

  /** The lifecycle follows the remainder. */
  ghost predicate Settled(book: Book) {
    var p := book.position;
    && p.sizeKnown && p.initialQuantity.Some? && p.remainingQuantity.Some?
    && (p.status.Closed? <==> p.remainingQuantity.value == 0.0)
    && (p.status.Open? <==> |book.fills| == 1)
    && (p.closedAt.Some? <==> p.status.Closed?)
  }

  lemma ShareOfRemaining(remaining: real, pct: real)
    requires remaining >= 0.0 && 0.0 < pct <= 100.0
    ensures 0.0 <= remaining * pct / 100.0 <= remaining
    ensures remaining > 0.0 ==> (remaining * pct / 100.0 == remaining <==> pct == 100.0)
  {
    if pct < 100.0 {
      assert remaining * pct / 100.0 == remaining - remaining * (100.0 - pct) / 100.0;
    } else {
      assert remaining * pct == remaining * 100.0;
    }
  }

  /** What a close takes is what the remainder loses, unless an explicit quantity meets an empty position. */
  lemma CloseTakesFromRemaining(p: Position, req: CloseRequest, fees: FeesConfig)
    requires p.sizeKnown && p.remainingQuantity.Some? && p.remainingQuantity.value >= 0.0
    requires Effect(p, req, fees).Ok?
    ensures var e := Effect(p, req, fees).value;
            var remaining := p.remainingQuantity.value;
            var left := AfterClose(p, req, e).remainingQuantity;
            && left.Some? && 0.0 <= left.value <= remaining && e.quantity >= 0.0
            && (e.quantity + left.value == remaining <==> remaining > 0.0 || req.full || !Given(req.quantity))
            && (AfterClose(p, req, e).status.Closed? <==> left.value == 0.0)
  {
    hide ComputeFee, Earned, Round10, Round6, AskedSize;
    var remaining := p.remainingQuantity.value;
    var quantity := if req.full then None else req.quantity;
    AskedIsTaken(remaining, quantity, Percentage(p, req));
    var size := AskedSize(remaining, quantity, Percentage(p, req)).value.0;
    assert Effect(p, req, fees).value.quantity == size;
    assert Effect(p, req, fees).value.remaining == if remaining > 0.0 then remaining - size else 0.0;
  }

  /** What a request asks of a remainder is never more than it, unless a quantity is asked of nothing. */
  lemma AskedIsTaken(remaining: real, quantity: Option<real>, closePct: Option<real>)
    requires remaining >= 0.0 && AskedSize(remaining, quantity, closePct).Some?
    ensures var size := AskedSize(remaining, quantity, closePct).value.0;
            && size >= 0.0
            && (remaining > 0.0 ==> size <= remaining)
            && (remaining == 0.0 ==> (size == 0.0 <==> !Given(quantity)))
            && (!Given(quantity) && closePct == Some(100.0) ==> size == remaining)
  {
    if Given(quantity) {
      assert AskedSize(remaining, quantity, closePct).value.0 == if remaining > 0.0 then Min(quantity.value, remaining) else quantity.value;
    } else {
      var pct := Min(closePct.value, 100.0);
      ShareOfRemaining(remaining, pct);
      assert AskedSize(remaining, quantity, closePct).value.0 == remaining * pct / 100.0;
    }
  }

  // ---------- runs ----------

  datatype Entry = CloseEntry(req: CloseRequest) | FeeEntry(amount: real) | FundingEntry(amount: real) | FeeRates(fees: FeesConfig)

  datatype State = State(book: Book, fees: FeesConfig)

  /** One entry of the user; a refused close changes nothing. */
  function Step(s: State, e: Entry): State {
    match e
    case CloseEntry(req) =>
      var after := CloseBook(s.book, req, s.fees);
      if after.Ok? then s.(book := after.value) else s
    case FeeEntry(amount) => s.(book := s.book.(feeEvents := s.book.feeEvents + [amount]))
    case FundingEntry(amount) => s.(book := s.book.(fundingEvents := s.book.fundingEvents + [amount]))
    case FeeRates(fees) => s.(fees := fees)
  }

  function Run(s: State, entries: seq<Entry>): State {
    if entries == [] then s else Step(Run(s, entries[..|entries| - 1]), entries[|entries| - 1])
  }

  lemma ClosedQuantityOfOneMore(fills: seq<Fill>, f: Fill)
    ensures ClosedQuantity(fills + [f]) == ClosedQuantity(fills) + (if f.kind.CloseFill? then OrZero(f.quantity) else 0.0)
  {
    assert (fills + [f])[..|fills|] == fills;
  }

  lemma StepKeepsBook(s: State, e: Entry)
    requires Conserved(s.book) && Settled(s.book) && s.book.fills != []
    ensures var t := Step(s, e).book;
            Conserved(t) && Settled(t) && t.fills != [] && t.position.initialQuantity == s.book.position.initialQuantity
  {
    hide Effect;
    if e.CloseEntry? && CloseBook(s.book, e.req, s.fees).Ok? {
      var p := s.book.position;
      CloseTakesFromRemaining(p, e.req, s.fees);
      ClosedQuantityOfOneMore(s.book.fills, FillOf(p, e.req, Effect(p, e.req, s.fees).value));
    }
  }

  /** Over every history of a position of some size: what was closed and what remains add up to what was
      opened, and the position is closed exactly when nothing remains. */
  lemma {:induction false} SizeIsConserved(req: OpenRequest, fees: FeesConfig, entries: seq<Entry>)
    requires OpenBook(req, fees).position.sizeKnown && OpenBook(req, fees).position.initialQuantity.value > 0.0
    ensures var b := Run(State(OpenBook(req, fees), fees), entries).book;
            Conserved(b) && Settled(b) && b.fills != [] && b.position.initialQuantity == OpenBook(req, fees).position.initialQuantity
    decreases |entries|
  {
    hide Step;
    if entries == [] {
      var b := OpenBook(req, fees);
      assert b.fills[..0] == [];
      assert ClosedQuantity(b.fills) == 0.0;
    } else {
      SizeIsConserved(req, fees, entries[..|entries| - 1]);
      StepKeepsBook(Run(State(OpenBook(req, fees), fees), entries[..|entries| - 1]), entries[|entries| - 1]);
    }
  }

  /** The quantity a request works out to before it is rounded to twelve places. */
  function AskedQuantity(req: OpenRequest): real
    requires req.entryPrice > 0.0
  {
    if Given(req.quantity) then req.quantity.value
    else if Given(req.notional) then Bought(req.notional.value, req.entryPrice)
    else Bought(Levered(OrZero(req.margin), req.leverage), req.entryPrice)
  }

  /** A position of known size has none after all exactly when less than half a unit of the twelfth decimal was asked. */
  lemma SizeVanishes(req: OpenRequest, fees: FeesConfig)
    requires OpenBook(req, fees).position.sizeKnown
    ensures OpenBook(req, fees).position.initialQuantity.value == 0.0 <==> AskedQuantity(req) < 0.0000000000005
  {
    hide Round10, ComputeFee, Bought, Levered;
    var asked := AskedQuantity(req);
    assert OpenBook(req, fees).position.initialQuantity.value == Round12(asked);
  }

  /** Size is conserved over every history exactly when the opened quantity did not round to nothing. */
  lemma ConservationNeedsSize(req: OpenRequest, fees: FeesConfig)
    requires OpenBook(req, fees).position.sizeKnown
    ensures (forall entries: seq<Entry> :: Conserved(Run(State(OpenBook(req, fees), fees), entries).book))
       <==> AskedQuantity(req) >= 0.0000000000005
  {
    SizeVanishes(req, fees);
    var s := State(OpenBook(req, fees), fees);
    if AskedQuantity(req) < 0.0000000000005 {
      var close := CloseRequest(req.entryPrice, None, Some(1.0), None, None, req.openedAt, false);
      var entries := [CloseEntry(close)];
      assert entries[..0] == [];
      assert Run(s, []) == s;
      EmptyPositionClosesAnything(s, close);
      assert Run(s, entries) == Step(s, entries[0]);
      assert !Conserved(Run(s, entries).book);
    } else {
      forall entries: seq<Entry>
        ensures Conserved(Run(s, entries).book)
      {
        SizeIsConserved(req, fees, entries);
      }
    }
  }

  /** With nothing left, an explicit quantity is booked as it is given. */
  lemma EmptyPositionClosesAnything(s: State, req: CloseRequest)
    requires var p := s.book.position;
             p.sizeKnown && p.remainingQuantity == Some(0.0) && p.initialQuantity == Some(0.0) && !p.status.Closed?
    requires Given(req.quantity) && !req.full && |s.book.fills| == 1 && s.book.fills[0].kind.OpenFill?
    ensures ClosedQuantity(Step(s, CloseEntry(req)).book.fills) == req.quantity.value
    ensures Step(s, CloseEntry(req)).book.position.remainingQuantity == Some(0.0)
    ensures Step(s, CloseEntry(req)).book.position.initialQuantity == Some(0.0)
  {
    hide ComputeFee, Earned, Round10, Round6;
    var p := s.book.position;
    var e := Effect(p, req, s.fees).value;
    assert s.book.fills[..0] == [];
    assert ClosedQuantity(s.book.fills) == 0.0;
    ClosedQuantityOfOneMore(s.book.fills, FillOf(p, req, e));
  }

  /** Fills are only ever appended, and once closed a position takes no more of them. */
  lemma {:induction false} HistoryIsAppendOnly(s: State, entries: seq<Entry>, n: nat)
    requires n <= |entries|
    ensures Run(s, entries[..n]).book.fills <= Run(s, entries).book.fills
    ensures Run(s, entries[..n]).book.position.status.Closed? ==>
              Run(s, entries).book.position == Run(s, entries[..n]).book.position && Run(s, entries).book.fills == Run(s, entries[..n]).book.fills
    decreases |entries|
  {
    hide Effect;
    if n == |entries| {
      assert entries[..n] == entries;
    } else {
      var front := entries[..|entries| - 1];
      assert front[..n] == entries[..n];
      HistoryIsAppendOnly(s, front, n);
    }
  }

  // ---------- value is conserved ----------

  lemma EarnedSplits(price: real, entry: real, part: real, rest: real, direction: Direction)
    ensures Earned(price, entry, part, direction) + Earned(price, entry, rest, direction) == Earned(price, entry, part + rest, direction)
  {
    var d := price - entry;
    assert d * part + d * rest == d * (part + rest);
  }

  lemma GrossOfOneMore(fills: seq<Fill>, f: Fill)
    ensures GrossOf(fills + [f]) == GrossOf(fills) + (if f.kind.CloseFill? then f.realizedPnl else 0.0)
    ensures FeesOf(fills + [f]) == FeesOf(fills) + f.fee
  {
    assert (fills + [f])[..|fills|] == fills;
  }

  /** Closing any part of a position at the current price changes what it is worth by the fee alone, up to
      three roundings. */
  lemma CloseKeepsValue(book: Book, req: CloseRequest, fees: FeesConfig)
    requires Conserved(book) && book.position.remainingQuantity.value > 0.0
    requires CloseBook(book, req, fees).Ok?
    ensures var after := CloseBook(book, req, fees).value;
            var fee := after.fills[|book.fills|].fee;
            var price := Some(req.executionPrice);
            -0.00000000015 <= ValueOf(after, price) - (ValueOf(book, price) - fee) <= 0.00000000015
  {
    var p := book.position;
    assert p.sizeKnown && p.entryPrice > 0.0 && p.remainingQuantity.Some?;
    hide ComputeFee, Earned, Round10, Round6, Conserved;
    var e := Effect(p, req, fees).value;
    CloseTakesFromRemaining(p, req, fees);
    var after := CloseBook(book, req, fees).value;
    var left := after.position.remainingQuantity.value;
    GrossOfOneMore(book.fills, FillOf(p, req, e));
    EarnedSplits(req.executionPrice, p.entryPrice, e.quantity, left, p.direction);
    Round10Error(Earned(req.executionPrice, p.entryPrice, e.quantity, p.direction));
    Round10Error(Earned(req.executionPrice, p.entryPrice, left, p.direction));
    Round10Error(Earned(req.executionPrice, p.entryPrice, p.remainingQuantity.value, p.direction));
    if left == 0.0 {
      EarnedByNothing(req.executionPrice, p.entryPrice, p.direction);
    }
  }

  lemma EarnedByNothing(price: real, entry: real, direction: Direction)
    ensures Earned(price, entry, 0.0, direction) == 0.0
  {
  }

  lemma EarnedIsWon(price: real, entry: real, quantity: real, direction: Direction)
    ensures Earned(price, entry, quantity, direction) == Won(direction, entry, price, quantity)
  {
    assert (entry - price) * quantity == -((price - entry) * quantity);
  }

  /** What the closes earned before any rounding. */
  function ExactGross(fills: seq<Fill>, entry: real, direction: Direction): real {
    if fills == [] then 0.0
    else
      var f := fills[|fills| - 1];
      ExactGross(fills[..|fills| - 1], entry, direction)
      + (if f.kind.CloseFill? then Won(direction, entry, f.price, OrZero(f.quantity)) else 0.0)
  }

  function Closes(fills: seq<Fill>): nat {
    if fills == [] then 0 else Closes(fills[..|fills| - 1]) + (if fills[|fills| - 1].kind.CloseFill? then 1 else 0)
  }

  lemma ExactGrossOfOneMore(fills: seq<Fill>, f: Fill, entry: real, direction: Direction)
    ensures ExactGross(fills + [f], entry, direction)
         == ExactGross(fills, entry, direction) + (if f.kind.CloseFill? then Won(direction, entry, f.price, OrZero(f.quantity)) else 0.0)
    ensures Closes(fills + [f]) == Closes(fills) + (if f.kind.CloseFill? then 1 else 0)
  {
    assert (fills + [f])[..|fills|] == fills;
  }

  /** A position's realised profit, to within half a unit of the tenth decimal for each close. */
  ghost predicate Exact(b: Book, entry: real, direction: Direction) {
    var slack := HALF_ULP10 * (Closes(b.fills) as real);
    && b.position.sizeKnown && b.position.entryPrice == entry && b.position.direction == direction
    && -slack <= GrossOf(b.fills) - ExactGross(b.fills, entry, direction) <= slack
  }

  lemma OpeningIsExact(req: OpenRequest, fees: FeesConfig)
    requires OpenBook(req, fees).position.sizeKnown
    ensures Exact(OpenBook(req, fees), req.entryPrice, req.direction)
  {
    hide DeriveSize, OpenFee, Won;
    var fills := OpenBook(req, fees).fills;
    assert fills == [] + [fills[0]] && fills[0].kind.OpenFill?;
    GrossOfOneMore([], fills[0]);
    ExactGrossOfOneMore([], fills[0], req.entryPrice, req.direction);
  }

  lemma CloseIsExact(book: Book, req: CloseRequest, fees: FeesConfig, entry: real, direction: Direction)
    requires Exact(book, entry, direction) && CloseBook(book, req, fees).Ok?
    ensures Exact(CloseBook(book, req, fees).value, entry, direction)
  {
    var p := book.position;
    var e := Effect(p, req, fees).value;
    var fill := FillOf(p, req, e);
    assert fill.kind.CloseFill? && fill.quantity == Some(e.quantity) && fill.realizedPnl == Round10(Earned(fill.price, entry, e.quantity, direction)) by {
      hide ComputeFee, Earned, Round10, Round6, AskedSize;
    }
    hide Effect, FillOf, Earned, Won, Round10, GrossOf, ExactGross, Closes;
    EarnedIsWon(fill.price, entry, e.quantity, direction);
    GrossOfOneMore(book.fills, fill);
    ExactGrossOfOneMore(book.fills, fill, entry, direction);
    Round10Error(Earned(fill.price, entry, e.quantity, direction));
  }

  /** Over every history the realised profit is that of each closed quantity at its own price, to within
      half a unit of the tenth decimal for each close. */
  lemma {:induction false} RealizedIsExact(req: OpenRequest, fees: FeesConfig, entries: seq<Entry>)
    requires OpenBook(req, fees).position.sizeKnown
    ensures Exact(Run(State(OpenBook(req, fees), fees), entries).book, req.entryPrice, req.direction)
    decreases |entries|
  {
    hide OpenBook, CloseBook, Exact;
    if entries == [] {
      OpeningIsExact(req, fees);
    } else {
      var e := entries[|entries| - 1];
      RealizedIsExact(req, fees, entries[..|entries| - 1]);
      var s := Run(State(OpenBook(req, fees), fees), entries[..|entries| - 1]);
      if e.CloseEntry? && CloseBook(s.book, e.req, s.fees).Ok? {
        CloseIsExact(s.book, e.req, s.fees, req.entryPrice, req.direction);
      } else {
        SameFillsSameGross(s.book, Step(s, e).book, req.entryPrice, req.direction);
      }
    }
  }

  lemma SameFillsSameGross(a: Book, b: Book, entry: real, direction: Direction)
    requires Exact(a, entry, direction) && a.fills == b.fills && a.position == b.position
    ensures Exact(b, entry, direction)
  {
  }
}
