/** What the manual ledger's figures mean: its entries and closes in money, over every history. */
module ManualValue {
  import opened Domain
  import opened Rounding
  import opened ManualPositions

  // ---------- one more entry ----------

  /** A funding payment received adds to what a position realised and is worth, and to nothing else. */
  lemma FundingIsReceived(book: Book, price: Option<real>, amount: real)
    ensures var was := PnlOf(book, price);
            var now := PnlOf(book.(fundingEvents := book.fundingEvents + [amount]), price);
            && now.funding == was.funding + amount && now.netRealized == was.netRealized + amount && now.total == was.total + amount
            && now.grossRealized == was.grossRealized && now.unrealized == was.unrealized && now.fees == was.fees
  {
    hide Unrealized, GrossOf, FeesOf, RemainingPct, PriceChange, LeveragedRoi, OnMargin;
    assert (book.fundingEvents + [amount])[..|book.fundingEvents|] == book.fundingEvents;
  }

  /** A fee paid takes from what a position realised and is worth, and from nothing else. */
  lemma FeeIsPaid(book: Book, price: Option<real>, amount: real)
    ensures var was := PnlOf(book, price);
            var now := PnlOf(book.(feeEvents := book.feeEvents + [amount]), price);
            && now.fees == was.fees + amount && now.netRealized == was.netRealized - amount && now.total == was.total - amount
            && now.grossRealized == was.grossRealized && now.unrealized == was.unrealized && now.funding == was.funding
  {
    hide Unrealized, GrossOf, FeesOf, RemainingPct, PriceChange, LeveragedRoi, OnMargin;
    assert (book.feeEvents + [amount])[..|book.feeEvents|] == book.feeEvents;
  }

  /** A fill costs its fee, and a close adds what it realised. */
  lemma FillIsCounted(book: Book, price: Option<real>, fill: Fill)
    ensures var was := PnlOf(book, price);
            var now := PnlOf(book.(fills := book.fills + [fill]), price);
            var won := match fill.kind { case OpenFill => 0.0 case CloseFill => fill.realizedPnl };
            && now.grossRealized == was.grossRealized + won && now.fees == was.fees + fill.fee
            && now.netRealized == was.netRealized + won - fill.fee && now.total == was.total + won - fill.fee
            && now.unrealized == was.unrealized && now.funding == was.funding
  {
    hide Unrealized, Total, RemainingPct, PriceChange, LeveragedRoi, OnMargin;
    assert (book.fills + [fill])[..|book.fills|] == book.fills;
  }

  /** A figure is what an amount is of a base in percent, to within an error. */
  predicate PercentOf(reported: real, amount: real, base: real, error: real) {
    -error * base <= reported * base - amount * 100.0 <= error * base
  }

  lemma PercentIs(reported: real, amount: real, base: real, error: real)
    requires base > 0.0 && -error <= reported - amount / base * 100.0 <= error
    ensures PercentOf(reported, amount, base, error)
  {
    var pct := amount / base * 100.0;
    assert amount / base * base == amount;
    assert (reported - pct) * base <= error * base && -error * base <= (reported - pct) * base;
    assert (reported - pct) * base == reported * base - amount * 100.0;
  }

  // ---------- one fill ----------

  /** What a request takes from a remainder: a quantity up to what is left, else a share of it up to all. */
  predicate TakenBy(req: CloseRequest, sized: bool, remaining: real, taken: real) {
    if req.full then taken == remaining
    else if Given(req.quantity) then
      taken == (if remaining > 0.0 then Min(req.quantity.value, remaining) else req.quantity.value)
    else if Given(req.closePct) then taken * 100.0 == remaining * Min(req.closePct.value, 100.0)
    else !sized && req.quantity.None? && req.closePct.None? && taken == remaining
  }

  /** A fee is what was entered, nothing at rates never configured, else the rate's share of the notional to ten places. */
  predicate FeeFor(fee: real, estimated: bool, actual: Option<real>, fees: FeesConfig, feeType: FeeType, price: real, quantity: real) {
    && estimated == actual.None?
    && if actual.Some? then fee == actual.value
       else if !fees.configured then fee == 0.0
       else var rate := match feeType { case Maker => fees.makerPct case Taker => fees.takerPct };
            -HALF_ULP10 <= fee - PctOfNotional(price, quantity, rate) <= HALF_ULP10
  }

  lemma AtRateMeans(price: real, quantity: real, rate: real)
    ensures AtRate(price, quantity, rate) == PctOfNotional(price, quantity, rate)
  {
  }

  lemma FeeMeans(price: real, quantity: real, feeType: FeeType, actual: Option<real>, fees: FeesConfig)
    ensures var fee := ComputeFee(price, quantity, feeType, actual, fees);
            FeeFor(fee.0, fee.1, actual, fees, feeType, price, quantity)
  {
    hide Round10;
    hide AtRate, PctOfNotional;
    var rate := if feeType.Maker? then fees.makerPct else fees.takerPct;
    AtRateMeans(price, quantity, rate);
    Round10Error(AtRate(price, quantity, rate));
  }

  lemma TakenMeans(remaining: real, taken: real, req: CloseRequest, p: Position)
    requires var asked := AskedSize(remaining, if req.full then None else req.quantity, Percentage(p, req));
             asked.Some? && taken == asked.value.0
    ensures TakenBy(req, p.sizeKnown, remaining, taken)
  {
  }

  /** What closing a position of known size records: the quantity asked for, at the price given, its result
      and its fee, and what remains afterwards. */
  lemma CloseIsRecorded(book: Book, req: CloseRequest, fees: FeesConfig)
    requires Sized(book) && CloseBook(book, req, fees).Ok?
    ensures var after := CloseBook(book, req, fees).value;
            var remaining := book.position.remainingQuantity.value;
            && |after.fills| == |book.fills| + 1 && after.fills[..|book.fills|] == book.fills
            && var fill := after.fills[|book.fills|];
               && fill.kind.CloseFill? && fill.price == req.executionPrice && fill.executedAt == req.executedAt && fill.quantity.Some?
               && TakenBy(req, true, remaining, fill.quantity.value)
               && FeeFor(fill.fee, fill.feeEstimated, req.actualFee, fees, fill.feeType, fill.price, fill.quantity.value)
               && fill.realizedPnl == Round10(Won(book.position.direction, book.position.entryPrice, fill.price, fill.quantity.value))
               && (remaining > 0.0 ==> after.position.remainingQuantity == Some(remaining - fill.quantity.value))
  {
    hide ComputeFee, Earned, Won, Round10, Round6, AskedSize, FeeFor, TakenBy;
    var p := book.position;
    var e := Effect(p, req, fees).value;
    var fill := FillOf(p, req, e);
    CloseTakesFromRemaining(p, req, fees);
    TakenMeans(p.remainingQuantity.value, e.quantity, req, p);
    FeeMeans(fill.price, e.quantity, fill.feeType, req.actualFee, fees);
    EarnedIsWon(fill.price, p.entryPrice, e.quantity, p.direction);
  }

  /** The share of the remainder a close is recorded with is the quantity it took in percent of it, to six places. */
  lemma ShareIsRecorded(book: Book, req: CloseRequest, fees: FeesConfig)
    requires Sized(book) && book.position.remainingQuantity.value > 0.0 && CloseBook(book, req, fees).Ok?
    ensures var fill := CloseBook(book, req, fees).value.fills[|book.fills|];
            && fill.quantity.Some? && fill.closePct.Some?
            && PercentOf(fill.closePct.value, fill.quantity.value, book.position.remainingQuantity.value, 0.0000005)
  {
    hide ComputeFee, Earned, Round10, Round6, AskedSize, PercentOf;
    var p := book.position;
    var e := Effect(p, req, fees).value;
    var pct := e.quantity / p.remainingQuantity.value * 100.0;
    assert e.closePct == Round6(pct);
    Round6Error(pct);
    PercentIs(Round6(pct), e.quantity, p.remainingQuantity.value, 0.0000005);
  }

  /** A position of unknown size is closed by a full close and by one of a hundred percent, asked for or by
      default, and stays open otherwise; no quantity is recorded. */
  lemma UnsizedCloses(book: Book, req: CloseRequest, fees: FeesConfig)
    requires !book.position.sizeKnown && book.position.remainingQuantity.None? && CloseBook(book, req, fees).Ok?
    ensures var after := CloseBook(book, req, fees).value;
            var whole := req.full || (!Given(req.quantity) && (req.closePct.None? || req.closePct.value >= 100.0));
            && (after.position.status.Closed? <==> whole) && (!whole ==> after.position.status.PartiallyClosed?)
            && (after.position.closedAt == if whole then Some(req.executedAt) else book.position.closedAt)
            && after.position.remainingQuantity.None?
            && |after.fills| == |book.fills| + 1 && after.fills[|book.fills|].quantity.None?
  {
    hide ComputeFee, Earned, Round10, Round6;
  }

  /** Closing is refused on a closed position, and on one asked for neither a share nor a quantity to close. */
  lemma RefusalsMean(book: Book, req: CloseRequest, fees: FeesConfig)
    ensures var p := book.position;
            var outcome := CloseBook(book, req, fees);
            var asked := req.full || Given(req.quantity) || Given(req.closePct) || (!p.sizeKnown && req.quantity.None? && req.closePct.None?);
            && (outcome == Err(PositionClosed) <==> p.status.Closed?)
            && (outcome == Err(NoCloseSize) <==> !p.status.Closed? && !asked)
  {
    hide ComputeFee, Earned, Round10, Round6;
  }

  /** Opening records one fill at the entry price, of the whole size, with its fee. */
  lemma OpenIsRecorded(req: OpenRequest, fees: FeesConfig)
    ensures var book := OpenBook(req, fees);
            && |book.fills| == 1 && book.fills[0].kind.OpenFill?
            && book.fills[0].price == req.entryPrice == book.position.entryPrice
            && book.fills[0].quantity == book.position.initialQuantity == book.position.remainingQuantity
            && FeeFor(book.fills[0].fee, book.fills[0].feeEstimated, req.actualFee, fees, req.feeType, req.entryPrice,
                      OrZero(book.position.initialQuantity))
  {
    hide ComputeFee, Rounded;
    var quantity := DeriveSize(req.entryPrice, req.leverage, req.quantity, req.notional, req.margin).quantity;
    FeeMeans(req.entryPrice, quantity, req.feeType, req.actualFee, fees);
  }

  // ---------- over every history ----------

  /** A position of known size: what remains is never negative, and nothing remains once it is closed. */
  ghost predicate Sized(book: Book) {
    var p := book.position;
    && p.sizeKnown && p.remainingQuantity.Some? && p.remainingQuantity.value >= 0.0 && p.entryPrice > 0.0
    && (p.status.Closed? ==> p.remainingQuantity.value == 0.0)
  }

  lemma StepKeepsSized(s: State, e: Entry)
    requires Sized(s.book)
    ensures Sized(Step(s, e).book)
  {
    hide Effect;
    if e.CloseEntry? && CloseBook(s.book, e.req, s.fees).Ok? {
      CloseTakesFromRemaining(s.book.position, e.req, s.fees);
    }
  }

  lemma {:induction false} RunKeepsSized(req: OpenRequest, fees: FeesConfig, entries: seq<Entry>)
    requires OpenBook(req, fees).position.sizeKnown
    ensures Sized(Run(State(OpenBook(req, fees), fees), entries).book)
    decreases |entries|
  {
    hide Step, ComputeFee;
    if entries != [] {
      RunKeepsSized(req, fees, entries[..|entries| - 1]);
      hide Sized, OpenBook;
      StepKeepsSized(Run(State(OpenBook(req, fees), fees), entries[..|entries| - 1]), entries[|entries| - 1]);
    }
  }

  /** The fees and the funding a history enters by hand. */
  function FeesEntered(entries: seq<Entry>): real {
    if entries == [] then 0.0
    else
      var e := entries[|entries| - 1];
      FeesEntered(entries[..|entries| - 1]) + (if e.FeeEntry? then e.amount else 0.0)
  }

  function FundingEntered(entries: seq<Entry>): real {
    if entries == [] then 0.0
    else
      var e := entries[|entries| - 1];
      FundingEntered(entries[..|entries| - 1]) + (if e.FundingEntry? then e.amount else 0.0)
  }

  lemma TotalOfOneMore(amounts: seq<real>, x: real)
    ensures Total(amounts + [x]) == Total(amounts) + x
  {
    assert (amounts + [x])[..|amounts|] == amounts;
  }

  /** The events of a book are the entries of its history. */
  lemma {:induction false} EventsAreEntries(req: OpenRequest, fees: FeesConfig, entries: seq<Entry>)
    ensures var b := Run(State(OpenBook(req, fees), fees), entries).book;
            Total(b.feeEvents) == FeesEntered(entries) && Total(b.fundingEvents) == FundingEntered(entries)
    decreases |entries|
  {
    hide CloseBook;
    if entries != [] {
      hide OpenBook, Total;
      var s := Run(State(OpenBook(req, fees), fees), entries[..|entries| - 1]);
      var e := entries[|entries| - 1];
      EventsAreEntries(req, fees, entries[..|entries| - 1]);
      CloseKeepsEvents(s.book, e, s.fees);
      if e.FeeEntry? || e.FundingEntry? {
        TotalOfOneMore(if e.FeeEntry? then s.book.feeEvents else s.book.fundingEvents, e.amount);
      }
    }
  }

  lemma CloseKeepsEvents(book: Book, e: Entry, fees: FeesConfig)
    ensures e.CloseEntry? && CloseBook(book, e.req, fees).Ok? ==>
              var after := CloseBook(book, e.req, fees).value;
              after.feeEvents == book.feeEvents && after.fundingEvents == book.fundingEvents
  {
    hide Effect;
  }

  /** What is open is worth what it would win at the price, to ten places. */
  lemma OpenIsWorth(book: Book, price: real)
    requires Sized(book)
    ensures var p := book.position;
            -HALF_ULP10 <= Unrealized(p, Some(price)) - Won(p.direction, p.entryPrice, price, p.remainingQuantity.value) <= HALF_ULP10
  {
    hide Round10, Earned;
    var p := book.position;
    EarnedIsWon(price, p.entryPrice, p.remainingQuantity.value, p.direction);
    Round10Error(Earned(price, p.entryPrice, p.remainingQuantity.value, p.direction));
  }

  /** Over every history, what a position is worth at a price is what each closed quantity won at its own price
      and what the open one would win at this, less every fee, plus every funding payment received; to within
      half a unit of the tenth decimal for each close and one for the open quantity. */
  lemma WorthIsWhatWasWon(req: OpenRequest, fees: FeesConfig, entries: seq<Entry>, price: real)
    requires OpenBook(req, fees).position.sizeKnown
    ensures var b := Run(State(OpenBook(req, fees), fees), entries).book;
            && b.position.remainingQuantity.Some?
            && var won := ExactGross(b.fills, req.entryPrice, req.direction)
                          + Won(req.direction, req.entryPrice, price, b.position.remainingQuantity.value);
               var paid := FeesOf(b.fills) + FeesEntered(entries);
               var slack := HALF_ULP10 * (Closes(b.fills) + 1) as real;
               -slack <= PnlOf(b, Some(price)).total - (won - paid + FundingEntered(entries)) <= slack
  {
    hide Unrealized, Won, GrossOf, FeesOf, ExactGross, Closes, FeesEntered, FundingEntered, Total, Run, OpenBook;
    hide RemainingPct, PriceChange, LeveragedRoi, OnMargin, Round6;
    RunKeepsSized(req, fees, entries);
    EventsAreEntries(req, fees, entries);
    RealizedIsExact(req, fees, entries);
    OpenIsWorth(Run(State(OpenBook(req, fees), fees), entries).book, price);
  }

  // ---------- the percentages ----------

  lemma LeveredPercent(reported: real, amount: real, base: real, leverage: real, error: real)
    requires base > 0.0 && -error <= reported - Levered(amount / base * 100.0, leverage) <= error
    ensures PercentOf(reported, amount * leverage, base, error)
  {
    assert amount / base * leverage == amount * leverage / base;
    PercentIs(reported, amount * leverage, base, error);
  }

  lemma PriceChangeMeans(p: Position, price: real)
    requires p.entryPrice > 0.0
    ensures PriceChange(p, Some(price)) == Won(p.direction, p.entryPrice, price, 1.0) / p.entryPrice * 100.0
  {
  }

  /** The returns reported on the margin are the realised, the open and the whole amount in percent of it, and
      what remains is in percent of what was opened; all to four places. */
  lemma ReturnsOnMarginMean(book: Book, price: Option<real>)
    ensures var p := book.position;
            var out := PnlOf(book, price);
            && (Given(p.initialMargin) ==>
                  && out.realizedPct.Some? && PercentOf(out.realizedPct.value, out.netRealized, p.initialMargin.value, 0.00005)
                  && out.unrealizedPct.Some? && PercentOf(out.unrealizedPct.value, out.unrealized, p.initialMargin.value, 0.00005)
                  && out.roiOnMarginPct.Some? && PercentOf(out.roiOnMarginPct.value, out.total, p.initialMargin.value, 0.00005))
            && (Given(p.initialQuantity) && p.remainingQuantity.Some? ==>
                  PercentOf(out.remainingPct, p.remainingQuantity.value, p.initialQuantity.value, 0.00005))
            && (!Given(p.initialQuantity) ==> out.remainingPct == match p.status { case Closed => 0.0 case _ => 100.0 })
  {
    hide Round4, Round6, PriceChange, LeveragedRoi, Unrealized, NetOf, GrossOf, FeesOf, Total, PercentOf;
    var p := book.position;
    if Given(p.initialMargin) {
      RoundedPercent(NetOf(book), p.initialMargin.value);
      RoundedPercent(Unrealized(p, price), p.initialMargin.value);
      RoundedPercent(ValueOf(book, price), p.initialMargin.value);
    }
    if Given(p.initialQuantity) && p.remainingQuantity.Some? {
      RoundedPercent(p.remainingQuantity.value, p.initialQuantity.value);
    }
  }

  lemma RoundedPercent(amount: real, base: real)
    requires base > 0.0
    ensures PercentOf(Round4(amount / base * 100.0), amount, base, 0.00005)
  {
    hide Round4, PercentOf;
    Round4Error(amount / base * 100.0);
    PercentIs(Round4(amount / base * 100.0), amount, base, 0.00005);
  }

  lemma PriceChangeIs(p: Position, price: real)
    requires p.entryPrice > 0.0
    ensures PercentOf(Round6(PriceChange(p, Some(price))), Won(p.direction, p.entryPrice, price, 1.0), p.entryPrice, 0.0000005)
  {
    PriceChangeMeans(p, price);
    hide PriceChange, Won, Round6, PercentOf;
    Round6Error(PriceChange(p, Some(price)));
    PercentIs(Round6(PriceChange(p, Some(price))), Won(p.direction, p.entryPrice, price, 1.0), p.entryPrice, 0.0000005);
  }

  lemma LeveragedRoiIs(p: Position, price: real)
    requires p.entryPrice > 0.0
    ensures PercentOf(LeveragedRoi(p, Some(price)), Won(p.direction, p.entryPrice, price, 1.0) * p.leverage, p.entryPrice, 0.0000005)
  {
    PriceChangeMeans(p, price);
    hide PriceChange, Won, Round6, Levered;
    Round6Error(Levered(PriceChange(p, Some(price)), p.leverage));
    LeveredPercent(LeveragedRoi(p, Some(price)), Won(p.direction, p.entryPrice, price, 1.0), p.entryPrice, p.leverage, 0.0000005);
  }

  /** The price change reported at a price is what one unit would win there in percent of the entry, and the
      leveraged return is the leverage's multiple of it; both to six places. */
  lemma ReturnsMean(book: Book, price: real)
    requires book.position.entryPrice > 0.0
    ensures var p := book.position;
            var out := PnlOf(book, Some(price));
            var won := Won(p.direction, p.entryPrice, price, 1.0);
            && PercentOf(out.priceChangePct, won, p.entryPrice, 0.0000005)
            && PercentOf(out.leveragedRoiPct, won * p.leverage, p.entryPrice, 0.0000005)
  {
    hide Round6, Unrealized, NetOf, GrossOf, FeesOf, RemainingPct, OnMargin, Total, LeveragedRoi, PriceChange, Won;
    PriceChangeIs(book.position, price);
    LeveragedRoiIs(book.position, price);
  }
}
