/** Composing simulated trades into one account with a bounded number of slots. */
module Portfolio {
  import opened Domain
  import opened Drawdown
  import opened EquityGuards
  import opened TradeOrder
  import opened Reals

  const STARTING_EQUITY: Positive := 10000.0

  datatype OpenPosition = OpenPosition(closesAt: int, result: real)

  /** An accepted trade: the equity it was sized from and the money it will settle for. */
  datatype Entry = Entry(trade: PortfolioTrade, equity: real, result: real)

  datatype ProfitFactor = Ratio(value: real) | Infinite

  datatype PortfolioResult = PortfolioResult(
    slots: int, accepted: nat, rejected: nat, suspended: nat, wins: nat,
    returnPct: real, maxDrawdown: real, profitFactor: ProfitFactor,
    exposurePct: real, avgOpen: real, buyHoldPct: real)

  // ---------- exposure, stated on the accepted trades ----------

  /** Seconds each trade has been open by a moment, added up. */
  function SecondsOpen(entries: seq<Entry>, now: int): int {
    if entries == [] then 0
    else
      var t := entries[|entries| - 1].trade;
      SecondsOpen(entries[..|entries| - 1], now) + (if t.closedAt < now then t.closedAt else now) - t.openedAt
  }

  /** At least one trade is open during second t. */
  ghost predicate Busy(entries: seq<Entry>, t: int) {
    exists i :: 0 <= i < |entries| && entries[i].trade.openedAt <= t < entries[i].trade.closedAt
  }

  /** How many seconds of [from, now) at least one trade was open: the measure of their union. */
  ghost function BusySeconds(entries: seq<Entry>, from: int, now: int): int
    decreases now - from
  {
    if now <= from then 0 else BusySeconds(entries, from, now - 1) + (if Busy(entries, now - 1) then 1 else 0)
  }

  lemma {:induction false} BusyAdvance(entries: seq<Entry>, from: int, now: int, later: int, busy: bool)
    requires from <= now <= later
    requires forall t :: now <= t < later ==> (Busy(entries, t) <==> busy)
    ensures BusySeconds(entries, from, later) == BusySeconds(entries, from, now) + if busy then later - now else 0
    decreases later - now
  {
    if now < later {
      BusyAdvance(entries, from, now, later - 1, busy);
      assert Busy(entries, later - 1) <==> busy;
    }
  }

  lemma {:induction false} BusyIgnoresLater(entries: seq<Entry>, e: Entry, from: int, now: int)
    requires e.trade.openedAt >= now
    ensures BusySeconds(entries + [e], from, now) == BusySeconds(entries, from, now)
    decreases now - from
  {
    if from < now {
      BusyIgnoresLater(entries, e, from, now - 1);
      assert forall i :: 0 <= i < |entries| ==> (entries + [e])[i] == entries[i];
      if Busy(entries, now - 1) {
        var i :| 0 <= i < |entries| && entries[i].trade.openedAt <= now - 1 < entries[i].trade.closedAt;
        assert (entries + [e])[i] == entries[i];
      }
    }
  }

  /** Entries not settled yet. */
  ghost function Undone(entries: seq<Entry>, done: set<nat>): nat {
    if entries == [] then 0
    else Undone(entries[..|entries| - 1], done) + (if |entries| - 1 in done then 0 else 1)
  }

  lemma Distributes(seconds: int, n: int)
    ensures seconds * (n + 1) == seconds * n + seconds
  {
  }

  lemma {:induction false} SecondsAdvance(entries: seq<Entry>, done: set<nat>, now: int, later: int)
    requires now <= later
    requires forall i :: 0 <= i < |entries| ==>
               if i in done then entries[i].trade.closedAt <= now else entries[i].trade.closedAt >= later
    ensures SecondsOpen(entries, later) == SecondsOpen(entries, now) + (later - now) * Undone(entries, done)
  {
    if entries != [] {
      var front := entries[..|entries| - 1];
      SecondsAdvance(front, done, now, later);
      Distributes(later - now, Undone(front, done));
    }
  }

  lemma {:induction false} UndoneLess(entries: seq<Entry>, done: set<nat>, k: nat)
    requires k < |entries| && k !in done
    ensures Undone(entries, done) == Undone(entries, done + {k}) + 1
  {
    var n := |entries| - 1;
    if k < n {
      UndoneLess(entries[..n], done, k);
    } else {
      UndoneSame(entries[..n], done, k);
    }
  }

  lemma {:induction false} UndoneSame(entries: seq<Entry>, done: set<nat>, k: nat)
    requires k >= |entries|
    ensures Undone(entries, done + {k}) == Undone(entries, done)
  {
    if entries != [] {
      UndoneSame(entries[..|entries| - 1], done, k);
    }
  }

  // ---------- money, stated on the accepted trades ----------

  /** Results of the entries already settled. */
  ghost function SumDone(entries: seq<Entry>, done: set<nat>): real {
    if entries == [] then 0.0
    else
      var n := |entries| - 1;
      SumDone(entries[..n], done) + (if n in done then entries[n].result else 0.0)
  }

  lemma {:induction false} SumOfOneMore(entries: seq<Entry>, done: set<nat>, k: nat)
    requires k < |entries| && k !in done
    ensures SumDone(entries, done + {k}) == SumDone(entries, done) + entries[k].result
  {
    var n := |entries| - 1;
    if k < n {
      SumOfOneMore(entries[..n], done, k);
    } else {
      SumOfOthers(entries[..n], done, k);
    }
  }

  lemma {:induction false} SumOfOthers(entries: seq<Entry>, done: set<nat>, k: nat)
    requires k >= |entries|
    ensures SumDone(entries, done + {k}) == SumDone(entries, done)
  {
    if entries != [] {
      SumOfOthers(entries[..|entries| - 1], done, k);
    }
  }

  /** Results of all entries whose trades close by a moment. */
  ghost function SumClosedBy(entries: seq<Entry>, at: int): real {
    if entries == [] then 0.0
    else
      var last := entries[|entries| - 1];
      SumClosedBy(entries[..|entries| - 1], at) + (if last.trade.closedAt <= at then last.result else 0.0)
  }

  lemma {:induction false} DoneIsClosedBy(entries: seq<Entry>, done: set<nat>, at: int)
    requires forall k :: 0 <= k < |entries| ==> (k in done <==> entries[k].trade.closedAt <= at)
    ensures SumDone(entries, done) == SumClosedBy(entries, at)
  {
    if entries != [] {
      DoneIsClosedBy(entries[..|entries| - 1], done, at);
    }
  }

  /** The share of equity a trade posts: one constant for all, or the trade's own. */
  function ShareOf(trade: PortfolioTrade, allocationPct: real): real {
    if allocationPct <= 0.0 then trade.allocationPct else allocationPct
  }

  function MarginOf(trade: PortfolioTrade, equity: real, allocationPct: real): real {
    equity * ShareOf(trade, allocationPct) / 100.0
  }

  function ResultOf(trade: PortfolioTrade, equity: real, allocationPct: real): real {
    MarginOf(trade, equity, allocationPct) * trade.pnlPct / 100.0
  }

  // ---------- what the account keeps true ----------

  ghost function Done(order: seq<nat>): set<nat> {
    set k | k in order
  }

  ghost predicate DistinctIndices(s: seq<nat>) {
    forall i, j :: 0 <= i < j < |s| ==> s[i] != s[j]
  }

  /** Each open position stands for an accepted entry. */
  ghost predicate Backed(entries: seq<Entry>, open: seq<OpenPosition>, held: seq<nat>) {
    && |held| == |open|
    && (forall i :: 0 <= i < |held| ==>
          held[i] < |entries| && open[i] == OpenPosition(entries[held[i]].trade.closedAt, entries[held[i]].result))
  }

  /** The indices below n are split between two lists without repetition. */
  ghost predicate Apart(held: seq<nat>, order: seq<nat>, n: nat) {
    && DistinctIndices(held) && DistinctIndices(order)
    && (forall i :: 0 <= i < |held| ==> held[i] !in order)
    && (forall i :: 0 <= i < |order| ==> order[i] < n)
    && (forall k :: 0 <= k < n ==> k in order || k in held)
  }

  /** Open positions and settled entries partition the accepted ones; each is settled at most once. */
  ghost predicate Partition(entries: seq<Entry>, open: seq<OpenPosition>, held: seq<nat>, order: seq<nat>) {
    && |open| == Undone(entries, Done(order))
    && Backed(entries, open, held) && Apart(held, order, |entries|)
  }

  /** Trades settle in order of closing; by a moment the settled ones have closed and no open one has. */
  ghost predicate Timely(entries: seq<Entry>, order: seq<nat>, from: int, now: int) {
    && from <= now
    && (forall k :: 0 <= k < |entries| ==>
          && from <= entries[k].trade.openedAt <= now
          && entries[k].trade.openedAt <= entries[k].trade.closedAt
          && (if k in order then entries[k].trade.closedAt <= now else entries[k].trade.closedAt >= now))
  }

  ghost predicate SettledInOrder(entries: seq<Entry>, order: seq<nat>) {
    && (forall i :: 0 <= i < |order| ==> order[i] < |entries|)
    && (forall i, j :: 0 <= i < j < |order| ==> entries[order[i]].trade.closedAt <= entries[order[j]].trade.closedAt)
  }

  /** Each entry was sized from the start plus everything that had closed by its opening. */
  ghost predicate Compounded(entries: seq<Entry>, allocationPct: real) {
    forall k :: 0 <= k < |entries| ==>
      && entries[k].result == ResultOf(entries[k].trade, entries[k].equity, allocationPct)
      && entries[k].equity == STARTING_EQUITY + SumClosedBy(entries[..k], entries[k].trade.openedAt)
  }

  /** An accepted trade settles for its percentage of the margin it posted: a share of the equity at its opening,
      the constant one where that is positive and the trade's own otherwise. */
  ghost predicate SettlesItsMargin(e: Entry, constant: real) {
    var share := if constant > 0.0 then constant else e.trade.allocationPct;
    e.result * 10000.0 == e.equity * share * e.trade.pnlPct
  }

  lemma ResultMeans(trade: PortfolioTrade, equity: real, constant: real)
    ensures SettlesItsMargin(Entry(trade, equity, ResultOf(trade, equity, constant)), constant)
  {
    var share := ShareOf(trade, constant);
    assert share == if constant > 0.0 then constant else trade.allocationPct;
    assert ResultOf(trade, equity, constant) == equity * share / 100.0 * trade.pnlPct / 100.0;
  }

  /** Trades none of which opens before an earlier one has closed. */
  ghost predicate Successive(entries: seq<Entry>) {
    forall i, j :: 0 <= i < j < |entries| ==> entries[i].trade.closedAt <= entries[j].trade.openedAt
  }

  /** What a trade multiplies the account by when nothing else is open: one and its share of its return. */
  function Factor(trade: PortfolioTrade, constant: real): real {
    1.0 + (if constant > 0.0 then constant else trade.allocationPct) * trade.pnlPct / 10000.0
  }

  function Growth(entries: seq<Entry>, constant: real): real {
    if entries == [] then 1.0 else Times(Growth(entries[..|entries| - 1], constant), Factor(entries[|entries| - 1].trade, constant))
  }

  function Times(a: real, b: real): real {
    a * b
  }

  function TotalResult(entries: seq<Entry>): real {
    if entries == [] then 0.0 else TotalResult(entries[..|entries| - 1]) + entries[|entries| - 1].result
  }

  lemma {:induction false} AllClosedBy(entries: seq<Entry>, at: int)
    requires forall k :: 0 <= k < |entries| ==> entries[k].trade.closedAt <= at
    ensures SumClosedBy(entries, at) == TotalResult(entries)
  {
    if entries != [] {
      AllClosedBy(entries[..|entries| - 1], at);
    }
  }

  lemma Multiplied(e: Entry, growth: real, constant: real)
    requires SettlesItsMargin(e, constant) && e.equity == STARTING_EQUITY * growth
    ensures e.equity + e.result == STARTING_EQUITY * Times(growth, Factor(e.trade, constant))
  {
    var share := if constant > 0.0 then constant else e.trade.allocationPct;
    var gain := share * e.trade.pnlPct / 10000.0;
    assert e.equity * gain == e.equity * share * e.trade.pnlPct / 10000.0;
    assert STARTING_EQUITY * (growth * (1.0 + gain)) == STARTING_EQUITY * growth + STARTING_EQUITY * growth * gain;
  }

  lemma CompoundedBefore(entries: seq<Entry>, constant: real)
    requires entries != [] && Compounded(entries, constant)
    ensures Compounded(entries[..|entries| - 1], constant)
    ensures var e := entries[|entries| - 1];
            && e.result == ResultOf(e.trade, e.equity, constant)
            && e.equity == STARTING_EQUITY + SumClosedBy(entries[..|entries| - 1], e.trade.openedAt)
  {
    hide ResultOf, SumClosedBy;
    var front := entries[..|entries| - 1];
    forall k | 0 <= k < |front|
      ensures front[k].equity == STARTING_EQUITY + SumClosedBy(front[..k], front[k].trade.openedAt)
    {
      assert front[..k] == entries[..k];
    }
  }

  /** Trades that follow one another compound: each multiplies the account by its share of its return. */
  lemma {:induction false} SuccessiveTradesCompound(entries: seq<Entry>, constant: real)
    requires Compounded(entries, constant) && Successive(entries)
    ensures STARTING_EQUITY + TotalResult(entries) == STARTING_EQUITY * Growth(entries, constant)
    decreases |entries|
  {
    if entries != [] {
      hide ResultOf, SettlesItsMargin, Factor, SumClosedBy, Times;
      var front, e := entries[..|entries| - 1], entries[|entries| - 1];
      CompoundedBefore(entries, constant);
      hide Compounded;
      SuccessiveTradesCompound(front, constant);
      AllClosedBy(front, e.trade.openedAt);
      ResultMeans(e.trade, e.equity, constant);
      Multiplied(e, Growth(front, constant), constant);
    }
  }

  /** Every accepted trade of a composed account settles for its margin's return. */
  lemma EntriesSettleTheirMargin(entries: seq<Entry>, constant: real)
    requires Compounded(entries, constant)
    ensures forall k :: 0 <= k < |entries| ==> SettlesItsMargin(entries[k], constant)
  {
    hide ResultOf, SettlesItsMargin;
    forall k | 0 <= k < |entries|
      ensures SettlesItsMargin(entries[k], constant)
    {
      ResultMeans(entries[k].trade, entries[k].equity, constant);
      assert entries[k] == Entry(entries[k].trade, entries[k].equity, ResultOf(entries[k].trade, entries[k].equity, constant));
    }
  }

  /** Equity after the settlements so far, and after each of them. */
  ghost function EquityAfter(entries: seq<Entry>, order: seq<nat>): real
    requires forall i :: 0 <= i < |order| ==> order[i] < |entries|
  {
    if order == [] then STARTING_EQUITY
    else EquityAfter(entries, order[..|order| - 1]) + entries[order[|order| - 1]].result
  }

  ghost function EquityPath(entries: seq<Entry>, order: seq<nat>): seq<real>
    requires forall i :: 0 <= i < |order| ==> order[i] < |entries|
  {
    if order == [] then [] else EquityPath(entries, order[..|order| - 1]) + [EquityAfter(entries, order)]
  }

  /** Gains, losses and the number of trades that did not lose. */
  datatype Tally = Tally(win: real, loss: real, wins: nat)

  function Tallied(t: Tally, result: real): Tally {
    if result >= 0.0 then Tally(t.win + result, t.loss, t.wins + 1) else Tally(t.win, t.loss - result, t.wins)
  }

  ghost function TallyAfter(entries: seq<Entry>, order: seq<nat>): Tally
    requires forall i :: 0 <= i < |order| ==> order[i] < |entries|
  {
    if order == [] then Tally(0.0, 0.0, 0)
    else Tallied(TallyAfter(entries, order[..|order| - 1]), entries[order[|order| - 1]].result)
  }

  /** What the guard has been shown: the start, and the equity after each settlement. */
  ghost function SamplesAfter(entries: seq<Entry>, order: seq<nat>, from: int, window: int): seq<Sample>
    requires forall i :: 0 <= i < |order| ==> order[i] < |entries|
  {
    if window <= 0 then []
    else if order == [] then [Sample(from, STARTING_EQUITY)]
    else SamplesAfter(entries, order[..|order| - 1], from, window)
         + [Sample(entries[order[|order| - 1]].trade.closedAt, EquityAfter(entries, order))]
  }

  lemma {:induction false} SamplesIgnoreLater(entries: seq<Entry>, order: seq<nat>, e: Entry, from: int, window: int)
    requires forall i :: 0 <= i < |order| ==> order[i] < |entries|
    ensures SamplesAfter(entries + [e], order, from, window) == SamplesAfter(entries, order, from, window)
    decreases |order|
  {
    PathIgnoresLater(entries, order, e);
    if order != [] {
      SamplesIgnoreLater(entries, order[..|order| - 1], e, from, window);
    }
  }

  lemma {:induction false} PathIgnoresLater(entries: seq<Entry>, order: seq<nat>, e: Entry)
    requires forall i :: 0 <= i < |order| ==> order[i] < |entries|
    ensures EquityAfter(entries + [e], order) == EquityAfter(entries, order)
    ensures EquityPath(entries + [e], order) == EquityPath(entries, order)
    ensures TallyAfter(entries + [e], order) == TallyAfter(entries, order)
    decreases |order|
  {
    if order != [] {
      PathIgnoresLater(entries, order[..|order| - 1], e);
    }
  }

  /** How many of the accepted trades are open during second t. */
  ghost function OpenDuring(entries: seq<Entry>, t: int): nat {
    if entries == [] then 0
    else
      var last := entries[|entries| - 1].trade;
      OpenDuring(entries[..|entries| - 1], t) + (if last.openedAt <= t < last.closedAt then 1 else 0)
  }

  ghost predicate SlotsRespected(entries: seq<Entry>, slots: int) {
    forall t :: OpenDuring(entries, t) <= slots
  }

  lemma {:induction false} OpenDuringAtMost(entries: seq<Entry>, done: set<nat>, t: int)
    requires forall k :: 0 <= k < |entries| && k in done ==> entries[k].trade.closedAt <= t
    ensures OpenDuring(entries, t) <= Undone(entries, done)
  {
    if entries != [] {
      OpenDuringAtMost(entries[..|entries| - 1], done, t);
    }
  }

  lemma SlotsAfterAccepting(entries: seq<Entry>, open: seq<OpenPosition>, held: seq<nat>, order: seq<nat>, from: int, e: Entry, slots: int)
    requires Partition(entries, open, held, order) && Timely(entries, order, from, e.trade.openedAt)
    requires SlotsRespected(entries, slots) && |open| < slots
    ensures SlotsRespected(entries + [e], slots)
  {
    assert (entries + [e])[..|entries|] == entries;
    forall t
      ensures OpenDuring(entries + [e], t) <= slots
    {
      if t >= e.trade.openedAt {
        OpenDuringAtMost(entries, Done(order), t);
      }
      assert OpenDuring(entries, t) <= slots;
    }
  }

  ghost predicate Sampled(samples: seq<Sample>, now: int) {
    InOrder(samples) && (samples != [] ==> samples[|samples| - 1].at <= now)
  }

  ghost predicate NoneDueBefore(open: seq<OpenPosition>, event: int) {
    forall i :: 0 <= i < |open| ==> open[i].closesAt >= event
  }

  lemma NothingIsValid(from: int, allocationPct: real)
    ensures Partition([], [], [], []) && Timely([], [], from, from) && SettledInOrder([], []) && Compounded([], allocationPct)
    ensures SumDone([], Done([])) == 0.0 && SecondsOpen([], from) == 0 && BusySeconds([], from, from) == 0
    ensures RecordAll(STARTING_EQUITY, EquityPath([], [])) == Tracker(STARTING_EQUITY, 0.0)
    ensures TallyAfter([], []) == Tally(0.0, 0.0, 0)
    ensures EquityAfter([], []) == STARTING_EQUITY && (forall slots: nat :: SlotsRespected([], slots))
  {
    NothingIsOpen();
    hide Partition, OpenDuring;
  }

  lemma NothingIsLogged(from: int, slots: int, window: int, allocationPct: real)
    ensures Logged([], [], [], from, slots, window, allocationPct) && SuspendedIn([]) == 0
    ensures SamplesAfter([], [], from, window) == if window <= 0 then [] else [Sample(from, STARTING_EQUITY)]
  {
  }

  lemma NothingIsOpen()
    ensures Partition([], [], [], [])
    ensures forall t :: OpenDuring([], t) == 0
  {
    hide RecordAll;
    assert Undone([], Done([])) == 0;
    hide Undone, Done;
  }

  lemma UndoneCloseLater(entries: seq<Entry>, open: seq<OpenPosition>, held: seq<nat>, order: seq<nat>, event: int)
    requires Partition(entries, open, held, order) && NoneDueBefore(open, event)
    ensures forall k :: 0 <= k < |entries| && k !in order ==> entries[k].trade.closedAt >= event
  {
    forall k | 0 <= k < |entries| && k !in order
      ensures entries[k].trade.closedAt >= event
    {
      var i :| 0 <= i < |held| && held[i] == k;
      assert open[i].closesAt >= event;
    }
  }

  lemma BusyUntil(entries: seq<Entry>, open: seq<OpenPosition>, held: seq<nat>, order: seq<nat>, from: int, now: int, event: int)
    requires Partition(entries, open, held, order) && Timely(entries, order, from, now) && NoneDueBefore(open, event)
    ensures forall t :: now <= t < event ==> (Busy(entries, t) <==> |open| > 0)
  {
    hide Undone;
    forall t | now <= t < event
      ensures Busy(entries, t) <==> |open| > 0
    {
      if |open| > 0 {
        assert open[0].closesAt >= event;
        assert entries[held[0]].trade.openedAt <= t < entries[held[0]].trade.closedAt;
      }
    }
  }

  /** The exposure up to an event no open position closes before. */
  lemma ExposureAdvances(entries: seq<Entry>, open: seq<OpenPosition>, held: seq<nat>, order: seq<nat>, from: int, now: int, event: int)
    requires Partition(entries, open, held, order) && Timely(entries, order, from, now)
    requires now <= event && NoneDueBefore(open, event)
    ensures SecondsOpen(entries, event) == SecondsOpen(entries, now) + (event - now) * |open|
    ensures BusySeconds(entries, from, event) == BusySeconds(entries, from, now) + (if |open| > 0 then event - now else 0)
    ensures Timely(entries, order, from, event)
  {
    UndoneCloseLater(entries, open, held, order, event);
    SecondsAdvance(entries, Done(order), now, event);
    BusyUntil(entries, open, held, order, from, now, event);
    BusyAdvance(entries, from, now, event, |open| > 0);
  }

  lemma WithoutOne(held: seq<nat>, next: nat)
    requires next < |held| && DistinctIndices(held)
    ensures var rest := held[..next] + held[next + 1..];
            && DistinctIndices(rest) && held[next] !in rest
            && forall k :: k in held ==> k == held[next] || k in rest
  {
    var rest := held[..next] + held[next + 1..];
    forall k | k in held
      ensures k == held[next] || k in rest
    {
      var i :| 0 <= i < |held| && held[i] == k;
      if i < next {
        assert rest[i] == k;
      } else if i > next {
        assert rest[i - 1] == k;
      }
    }
  }

  lemma BackedWithoutOne(entries: seq<Entry>, open: seq<OpenPosition>, held: seq<nat>, next: nat)
    requires Backed(entries, open, held) && next < |open|
    ensures Backed(entries, open[..next] + open[next + 1..], held[..next] + held[next + 1..])
  {
  }

  lemma ApartAfterMoving(held: seq<nat>, order: seq<nat>, n: nat, next: nat)
    requires Apart(held, order, n) && next < |held| && held[next] < n
    ensures Apart(held[..next] + held[next + 1..], order + [held[next]], n)
  {
    WithoutOne(held, next);
    var rest, more := held[..next] + held[next + 1..], order + [held[next]];
    forall i | 0 <= i < |rest|
      ensures rest[i] !in more
    {
      assert rest[i] == held[if i < next then i else i + 1];
      assert rest[i] in rest;
    }
    forall k | 0 <= k < n
      ensures k in more || k in rest
    {
      if k !in order && k == held[next] {
        assert more[|order|] == k;
      }
    }
  }

  lemma PartitionAfterSettling(entries: seq<Entry>, open: seq<OpenPosition>, held: seq<nat>, order: seq<nat>, next: nat)
    requires Partition(entries, open, held, order) && next < |open|
    ensures Partition(entries, open[..next] + open[next + 1..], held[..next] + held[next + 1..], order + [held[next]])
    ensures SumDone(entries, Done(order + [held[next]])) == SumDone(entries, Done(order)) + open[next].result
  {
    var k := held[next];
    assert Done(order + [k]) == Done(order) + {k};
    assert k !in Done(order);
    UndoneLess(entries, Done(order), k);
    SumOfOneMore(entries, Done(order), k);
    BackedWithoutOne(entries, open, held, next);
    ApartAfterMoving(held, order, |entries|, next);
    hide Undone, SumDone, Done, Backed, Apart;
  }

  lemma PathAfterSettling(entries: seq<Entry>, open: seq<OpenPosition>, held: seq<nat>, order: seq<nat>, next: nat)
    requires Partition(entries, open, held, order) && next < |open|
    ensures EquityAfter(entries, order + [held[next]]) == EquityAfter(entries, order) + open[next].result
    ensures RecordAll(STARTING_EQUITY, EquityPath(entries, order + [held[next]]))
            == Record(RecordAll(STARTING_EQUITY, EquityPath(entries, order)), EquityAfter(entries, order) + open[next].result)
    ensures TallyAfter(entries, order + [held[next]]) == Tallied(TallyAfter(entries, order), open[next].result)
  {
    hide Undone, Record, Tallied;
    var more := order + [held[next]];
    assert more[..|order|] == order;
    var path := EquityPath(entries, order);
    assert EquityPath(entries, more) == path + [EquityAfter(entries, more)];
    assert (path + [EquityAfter(entries, more)])[..|path|] == path;
  }

  lemma SamplesAfterSettling(entries: seq<Entry>, open: seq<OpenPosition>, held: seq<nat>, order: seq<nat>, next: nat, from: int, window: int)
    requires Partition(entries, open, held, order) && next < |open|
    ensures var more := order + [held[next]];
            && (forall i :: 0 <= i < |more| ==> more[i] < |entries|)
            && SamplesAfter(entries, more, from, window)
            == if window <= 0 then SamplesAfter(entries, order, from, window)
               else SamplesAfter(entries, order, from, window) + [Sample(open[next].closesAt, EquityAfter(entries, more))]
  {
    hide Undone;
    var more := order + [held[next]];
    assert more[..|order|] == order;
  }

  // ---------- which trades are accepted ----------

  datatype Verdict = Accepted | BookFull | Suspended | NoMargin

  /** A trade as it was offered: how many had been accepted and how many of them settled by then. */
  datatype Ruling = Ruling(trade: PortfolioTrade, known: nat, settled: nat, verdict: Verdict)

  /** The ruling on a trade: a free slot, then the guard, then a margin to post. */
  ghost function RulingOn(trade: PortfolioTrade, open: int, samples: seq<Sample>, equity: real,
                          slots: int, window: int, allocationPct: real): Verdict {
    if open >= slots then BookFull
    else if !Allowed(samples, window, trade.openedAt, equity) then Suspended
    else if MarginOf(trade, equity, allocationPct) <= 0.0 then NoMargin
    else Accepted
  }

  /** An offer was ruled on by the account as it stood at its opening: with exactly the accepted trades that
      had closed by then settled, their equity and the guard's samples of it. */
  ghost predicate Ruled(o: Ruling, entries: seq<Entry>, order: seq<nat>, from: int, slots: int, window: int, allocationPct: real) {
    && o.known <= |entries| && o.settled <= |order|
    && var before, done := entries[..o.known], order[..o.settled];
       && (forall i :: 0 <= i < |done| ==> done[i] < |before|)
       && (forall k :: 0 <= k < |before| ==> (k in done <==> before[k].trade.closedAt <= o.trade.openedAt))
       && var equity := EquityAfter(before, done);
          && o.verdict == RulingOn(o.trade, o.known - o.settled, SamplesAfter(before, done, from, window), equity, slots, window, allocationPct)
          && (o.verdict.Accepted? ==>
                o.known < |entries| && entries[o.known] == Entry(o.trade, equity, ResultOf(o.trade, equity, allocationPct)))
  }

  function AcceptedIn(offers: seq<Ruling>): nat {
    if offers == [] then 0 else AcceptedIn(offers[..|offers| - 1]) + (if offers[|offers| - 1].verdict.Accepted? then 1 else 0)
  }

  function SuspendedIn(offers: seq<Ruling>): nat {
    if offers == [] then 0 else SuspendedIn(offers[..|offers| - 1]) + (if offers[|offers| - 1].verdict.Suspended? then 1 else 0)
  }

  function Offered(offers: seq<Ruling>): seq<PortfolioTrade> {
    if offers == [] then [] else Offered(offers[..|offers| - 1]) + [offers[|offers| - 1].trade]
  }

  lemma OffersOfOneMore(offers: seq<Ruling>, o: Ruling)
    ensures AcceptedIn(offers + [o]) == AcceptedIn(offers) + (if o.verdict.Accepted? then 1 else 0)
    ensures SuspendedIn(offers + [o]) == SuspendedIn(offers) + (if o.verdict.Suspended? then 1 else 0)
    ensures Offered(offers + [o]) == Offered(offers) + [o.trade]
  {
    assert (offers + [o])[..|offers|] == offers;
  }

  /** Every offer so far was ruled on by the account, and the accepted ones are the entries, in order. */
  ghost predicate Logged(offers: seq<Ruling>, entries: seq<Entry>, order: seq<nat>, from: int, slots: int, window: int, allocationPct: real) {
    && AcceptedIn(offers) == |entries|
    && (forall i :: 0 <= i < |offers| ==>
          offers[i].known == AcceptedIn(offers[..i]) && Ruled(offers[i], entries, order, from, slots, window, allocationPct))
  }

  lemma RuledLater(o: Ruling, entries: seq<Entry>, order: seq<nat>, entries': seq<Entry>, order': seq<nat>,
                   from: int, slots: int, window: int, allocationPct: real)
    requires Ruled(o, entries, order, from, slots, window, allocationPct) && entries <= entries' && order <= order'
    ensures Ruled(o, entries', order', from, slots, window, allocationPct)
  {
    hide RulingOn, EquityAfter, SamplesAfter, ResultOf;
    assert entries'[..o.known] == entries[..o.known] && order'[..o.settled] == order[..o.settled];
  }

  lemma LoggedAfterSettling(offers: seq<Ruling>, entries: seq<Entry>, order: seq<nat>, k: nat,
                            from: int, slots: int, window: int, allocationPct: real)
    requires Logged(offers, entries, order, from, slots, window, allocationPct)
    ensures Logged(offers, entries, order + [k], from, slots, window, allocationPct)
  {
    hide Ruled, AcceptedIn;
    forall i | 0 <= i < |offers|
      ensures Ruled(offers[i], entries, order + [k], from, slots, window, allocationPct)
    {
      RuledLater(offers[i], entries, order, entries, order + [k], from, slots, window, allocationPct);
    }
  }

  lemma LoggedAfterOffer(offers: seq<Ruling>, entries: seq<Entry>, order: seq<nat>, o: Ruling, entries': seq<Entry>,
                         from: int, slots: int, window: int, allocationPct: real)
    requires Logged(offers, entries, order, from, slots, window, allocationPct) && entries <= entries'
    requires |entries'| == |entries| + (if o.verdict.Accepted? then 1 else 0)
    requires o.known == |entries| && Ruled(o, entries', order, from, slots, window, allocationPct)
    ensures Logged(offers + [o], entries', order, from, slots, window, allocationPct)
  {
    hide Ruled, AcceptedIn;
    OffersOfOneMore(offers, o);
    var more := offers + [o];
    forall i | 0 <= i < |more|
      ensures more[i].known == AcceptedIn(more[..i]) && Ruled(more[i], entries', order, from, slots, window, allocationPct)
    {
      if i < |offers| {
        assert more[..i] == offers[..i];
        RuledLater(offers[i], entries, order, entries', order, from, slots, window, allocationPct);
      } else {
        assert more[..i] == offers;
      }
    }
  }

  /** The account as it stands at an opening rules on the trade. */
  lemma RuledNow(trade: PortfolioTrade, entries: seq<Entry>, open: seq<OpenPosition>, held: seq<nat>, order: seq<nat>, entries': seq<Entry>,
                 from: int, slots: int, window: int, allocationPct: real)
    requires Partition(entries, open, held, order) && Timely(entries, order, from, trade.openedAt)
    requires NoneDueBefore(open, trade.openedAt + 1) && |open| + |order| == |entries|
    ensures forall i :: 0 <= i < |order| ==> order[i] < |entries|
    ensures var equity, samples := EquityAfter(entries, order), SamplesAfter(entries, order, from, window);
            var verdict := RulingOn(trade, |open|, samples, equity, slots, window, allocationPct);
            (if verdict.Accepted? then entries' == entries + [Entry(trade, equity, ResultOf(trade, equity, allocationPct))] else entries' == entries)
            ==> Ruled(Ruling(trade, |entries|, |order|, verdict), entries', order, from, slots, window, allocationPct)
  {
    UndoneCloseLater(entries, open, held, order, trade.openedAt + 1);
    hide Undone, RulingOn, EquityAfter, SamplesAfter, ResultOf;
    var verdict := RulingOn(trade, |open|, SamplesAfter(entries, order, from, window), EquityAfter(entries, order), slots, window, allocationPct);
    if entries <= entries' {
      assert entries'[..|entries|] == entries && order[..|order|] == order;
    }
  }

  lemma EachHeldIsOpen(entries: seq<Entry>, open: seq<OpenPosition>, held: seq<nat>, order: seq<nat>)
    requires Partition(entries, open, held, order)
    ensures |held| == |open|
  {
  }

  lemma InTimeAfterSettling(entries: seq<Entry>, open: seq<OpenPosition>, held: seq<nat>, order: seq<nat>, next: nat, from: int)
    requires Partition(entries, open, held, order) && next < |open|
    requires Timely(entries, order, from, open[next].closesAt) && SettledInOrder(entries, order)
    ensures Timely(entries, order + [held[next]], from, open[next].closesAt)
    ensures SettledInOrder(entries, order + [held[next]])
  {
    hide Undone;
  }

  lemma ApartWithOneMore(held: seq<nat>, order: seq<nat>, n: nat)
    requires Apart(held, order, n) && forall i :: 0 <= i < |held| ==> held[i] < n
    ensures Apart(held + [n], order, n + 1)
  {
    var more := held + [n];
    assert more[|held|] == n;
    forall k | 0 <= k < n + 1
      ensures k in order || k in more
    {
      if k < n && k !in order {
        var i :| 0 <= i < |held| && held[i] == k;
        assert more[i] == k;
      }
    }
  }

  lemma BackedWithOneMore(entries: seq<Entry>, open: seq<OpenPosition>, held: seq<nat>, e: Entry)
    requires Backed(entries, open, held)
    ensures Backed(entries + [e], open + [OpenPosition(e.trade.closedAt, e.result)], held + [|entries|])
  {
  }

  lemma CountsWithOneMore(entries: seq<Entry>, done: set<nat>, e: Entry)
    requires |entries| !in done
    ensures Undone(entries + [e], done) == Undone(entries, done) + 1
    ensures SumDone(entries + [e], done) == SumDone(entries, done)
  {
    assert (entries + [e])[..|entries|] == entries;
  }

  lemma PartitionAfterAccepting(entries: seq<Entry>, open: seq<OpenPosition>, held: seq<nat>, order: seq<nat>, e: Entry)
    requires Partition(entries, open, held, order)
    ensures Partition(entries + [e], open + [OpenPosition(e.trade.closedAt, e.result)], held + [|entries|], order)
    ensures SumDone(entries + [e], Done(order)) == SumDone(entries, Done(order))
  {
    assert |entries| !in Done(order);
    CountsWithOneMore(entries, Done(order), e);
    BackedWithOneMore(entries, open, held, e);
    ApartWithOneMore(held, order, |entries|);
    hide Undone, SumDone, Done, Backed, Apart;
  }

  lemma CompoundedAfterAccepting(entries: seq<Entry>, open: seq<OpenPosition>, held: seq<nat>, order: seq<nat>,
                                 from: int, e: Entry, allocationPct: real)
    requires Partition(entries, open, held, order) && Timely(entries, order, from, e.trade.openedAt)
    requires NoneDueBefore(open, e.trade.openedAt + 1) && Compounded(entries, allocationPct)
    requires e.equity == STARTING_EQUITY + SumDone(entries, Done(order))
    requires e.result == ResultOf(e.trade, e.equity, allocationPct)
    ensures Compounded(entries + [e], allocationPct)
  {
    hide ResultOf, SumClosedBy, Undone;
    UndoneCloseLater(entries, open, held, order, e.trade.openedAt + 1);
    DoneIsClosedBy(entries, Done(order), e.trade.openedAt);
    var more := entries + [e];
    assert more[..|entries|] == entries;
    assert forall k :: 0 <= k < |entries| ==> more[k] == entries[k] && more[..k] == entries[..k];
  }

  /** Everything the account keeps, after one more accepted trade. */
  lemma AcceptingKeeps(entries: seq<Entry>, open: seq<OpenPosition>, held: seq<nat>, order: seq<nat>, from: int, e: Entry,
                       slots: int, allocationPct: real)
    requires Partition(entries, open, held, order) && Timely(entries, order, from, e.trade.openedAt)
    requires SettledInOrder(entries, order) && Compounded(entries, allocationPct) && SlotsRespected(entries, slots) && |open| < slots
    requires NoneDueBefore(open, e.trade.openedAt + 1) && e.trade.openedAt <= e.trade.closedAt
    requires e.equity == STARTING_EQUITY + SumDone(entries, Done(order))
    requires e.result == ResultOf(e.trade, e.equity, allocationPct)
    ensures var more, now := entries + [e], e.trade.openedAt;
            && Partition(more, open + [OpenPosition(e.trade.closedAt, e.result)], held + [|entries|], order)
            && Timely(more, order, from, now) && SettledInOrder(more, order) && Compounded(more, allocationPct) && SlotsRespected(more, slots)
            && SumDone(more, Done(order)) == SumDone(entries, Done(order))
            && SecondsOpen(more, now) == SecondsOpen(entries, now) && BusySeconds(more, from, now) == BusySeconds(entries, from, now)
            && EquityAfter(more, order) == EquityAfter(entries, order) && EquityPath(more, order) == EquityPath(entries, order)
            && TallyAfter(more, order) == TallyAfter(entries, order)
  {
    assert forall i :: 0 <= i < |order| ==> order[i] < |entries|;
    hide Partition, Timely, SettledInOrder, Compounded, SumDone, Done, SecondsOpen, BusySeconds, NoneDueBefore,
         EquityAfter, EquityPath, TallyAfter, SamplesAfter, Logged, SuspendedIn, SlotsRespected, ResultOf;
    CompoundedAfterAccepting(entries, open, held, order, from, e, allocationPct);
    ExposureAfterAccepting(entries, order, open, held, from, e);
    SlotsAfterAccepting(entries, open, held, order, from, e, slots);
    PartitionAfterAccepting(entries, open, held, order, e);
    PathIgnoresLater(entries, order, e);
  }

  lemma ExposureAfterAccepting(entries: seq<Entry>, order: seq<nat>, open: seq<OpenPosition>, held: seq<nat>, from: int, e: Entry)
    requires Timely(entries, order, from, e.trade.openedAt) && e.trade.openedAt <= e.trade.closedAt
    requires Partition(entries, open, held, order)
    ensures Timely(entries + [e], order, from, e.trade.openedAt)
    ensures SecondsOpen(entries + [e], e.trade.openedAt) == SecondsOpen(entries, e.trade.openedAt)
    ensures BusySeconds(entries + [e], from, e.trade.openedAt) == BusySeconds(entries, from, e.trade.openedAt)
    ensures SettledInOrder(entries, order) ==> SettledInOrder(entries + [e], order)
  {
    hide Undone;
    assert (entries + [e])[..|entries|] == entries;
    BusyIgnoresLater(entries, e, from, e.trade.openedAt);
  }

  // ---------- the account ----------

  class Composer {
    const slots: int
    const allocationPct: real
    const from: int
    const guard: EquityGuard
    var equity: real
    var peak: real
    var maxDrawdown: real
    var grossWin: real
    var grossLoss: real
    var wins: nat
    var accepted: nat
    var rejected: nat
    var suspended: nat
    var open: seq<OpenPosition>
    var positionSeconds: int
    var busySeconds: int
    var lastEvent: int
    /** Accepted trades, refused trades, the entry behind each open position and the order of
        settlement, for the specification only. */
    ghost var entries: seq<Entry>
    ghost var refused: seq<PortfolioTrade>
    ghost var held: seq<nat>
    ghost var order: seq<nat>
    /** Every trade offered so far and the ruling on it. */
    ghost var offers: seq<Ruling>

    ghost predicate Valid()
      reads this, guard
    {
      && Partition(entries, open, held, order) && Timely(entries, order, from, lastEvent)
      && SettledInOrder(entries, order) && Compounded(entries, allocationPct)
      && |open| <= slots && accepted == |entries| && rejected == |refused|
      && positionSeconds == SecondsOpen(entries, lastEvent)
      && busySeconds == BusySeconds(entries, from, lastEvent)
      && equity == STARTING_EQUITY + SumDone(entries, Done(order)) == EquityAfter(entries, order)
      && grossWin - grossLoss == equity - STARTING_EQUITY && grossWin >= 0.0 && grossLoss >= 0.0
      && Tracker(peak, maxDrawdown) == RecordAll(STARTING_EQUITY, EquityPath(entries, order))
      && Tally(grossWin, grossLoss, wins) == TallyAfter(entries, order)
      && SlotsRespected(entries, slots)
      && Sampled(guard.samples, lastEvent)
      && |open| + |order| == |entries|
      && guard.samples == SamplesAfter(entries, order, from, guard.window)
      && Logged(offers, entries, order, from, slots, guard.window, allocationPct)
      && SuspendedIn(offers) == suspended
    }

    constructor (slots: int, allocationPct: real, from: int, guardWindow: int)
      requires slots > 0
      ensures Valid() && fresh(this) && fresh(guard)
      ensures this.slots == slots && this.allocationPct == allocationPct && this.from == from && guard.window == guardWindow
      ensures lastEvent == from && entries == [] && refused == [] && offers == []
    {
      hide Partition, Timely, SettledInOrder, Compounded, SumDone, Done, SecondsOpen, BusySeconds, RecordAll,
           EquityAfter, EquityPath, TallyAfter, SamplesAfter, Logged, SuspendedIn, SlotsRespected;
      this.slots, this.allocationPct, this.from := slots, allocationPct, from;
      guard := new EquityGuard(guardWindow);
      equity, peak, maxDrawdown, grossWin, grossLoss := STARTING_EQUITY, STARTING_EQUITY, 0.0, 0.0, 0.0;
      wins, accepted, rejected, suspended, open := 0, 0, 0, 0, [];
      positionSeconds, busySeconds, lastEvent := 0, 0, from;
      entries, refused, held, order, offers := [], [], [], [], [];
      new;
      NothingIsValid(from, allocationPct);
      guard.Record(from, equity);
      NothingIsLogged(from, slots, guardWindow, allocationPct);
    }

    /** The open position that closes first, if it closes by then. */
    method NextDue(at: int) returns (next: int)
      ensures next < 0 ==> NoneDueBefore(open, at + 1)
      ensures next >= 0 ==> next < |open| && open[next].closesAt <= at && NoneDueBefore(open, open[next].closesAt)
    {
      next := -1;
      for i := 0 to |open|
        invariant -1 <= next < i
        invariant next < 0 ==> forall k :: 0 <= k < i ==> open[k].closesAt > at
        invariant next >= 0 ==> open[next].closesAt <= at && forall k :: 0 <= k < i ==> open[next].closesAt <= open[k].closesAt
      {
        if open[i].closesAt <= at && (next < 0 || open[i].closesAt < open[next].closesAt) {
          next := i;
        }
      }
    }

    /** Accumulates the exposure up to an event that no open position closes before. */
    method AdvanceTo(event: int)
      requires Valid() && event >= lastEvent && NoneDueBefore(open, event)
      modifies this`positionSeconds, this`busySeconds, this`lastEvent
      ensures Valid() && lastEvent == event
    {
      hide Partition, Timely, SettledInOrder, Compounded, SumDone, Done, SecondsOpen, BusySeconds, RecordAll,
           NoneDueBefore, EquityAfter, EquityPath, TallyAfter, SamplesAfter, Logged, SuspendedIn, SlotsRespected;
      ExposureAdvances(entries, open, held, order, from, lastEvent, event);
      var elapsed := event - lastEvent;
      if elapsed > 0 {
        positionSeconds := positionSeconds + elapsed * |open|;
        if |open| > 0 {
          busySeconds := busySeconds + elapsed;
        }
      }
      lastEvent := event;
    }

    /** Books a result: equity, guard, gross sums and drawdown. */
    method Book(closing: OpenPosition)
      modifies this`equity, this`grossWin, this`grossLoss, this`wins, this`peak, this`maxDrawdown, guard
      ensures equity == old(equity) + closing.result
      ensures grossWin - grossLoss == old(grossWin - grossLoss) + closing.result
      ensures grossWin >= old(grossWin) && grossLoss >= old(grossLoss)
      ensures Tally(grossWin, grossLoss, wins) == Tallied(old(Tally(grossWin, grossLoss, wins)), closing.result)
      ensures Tracker(peak, maxDrawdown) == Record(old(Tracker(peak, maxDrawdown)), equity)
      ensures guard.samples == if guard.window <= 0 then old(guard.samples) else old(guard.samples) + [Sample(closing.closesAt, equity)]
      ensures old(Sampled(guard.samples, closing.closesAt)) ==> Sampled(guard.samples, closing.closesAt)
    {
      equity := equity + closing.result;
      guard.Record(closing.closesAt, equity);
      if closing.result >= 0.0 {
        grossWin := grossWin + closing.result;
        wins := wins + 1;
      } else {
        grossLoss := grossLoss - closing.result;
      }
      if equity > peak {
        peak := equity;
      } else if peak > 0.0 {
        var dd := (peak - equity) / peak * 100.0;
        if dd > maxDrawdown {
          maxDrawdown := dd;
        }
      }
    }

    /** Settles one position that no other open one closes before. */
    method SettleOne(next: nat)
      requires Valid() && next < |open| && open[next].closesAt >= lastEvent && NoneDueBefore(open, open[next].closesAt)
      modifies this, guard
      ensures Valid() && lastEvent == old(open[next].closesAt)
      ensures entries == old(entries) && refused == old(refused) && offers == old(offers)
      ensures open == old(open[..next] + open[next + 1..])
    {
      hide Partition, Timely, SettledInOrder, Compounded, SumDone, Done, SecondsOpen, BusySeconds, NoneDueBefore,
           RecordAll, EquityAfter, EquityPath, TallyAfter, SamplesAfter, Logged, SuspendedIn, SlotsRespected, Sampled;
      AdvanceTo(open[next].closesAt);
      CloseOut(next);
    }

    method CloseOut(next: nat)
      requires Valid() && next < |open| && open[next].closesAt == lastEvent
      modifies this`equity, this`grossWin, this`grossLoss, this`wins, this`peak, this`maxDrawdown, this`open, this`held, this`order, guard
      ensures Valid()
      ensures open == old(open[..next] + open[next + 1..])
    {
      hide Partition, Timely, SettledInOrder, Compounded, SumDone, Done, SecondsOpen, BusySeconds, NoneDueBefore,
           RecordAll, EquityAfter, EquityPath, TallyAfter, SamplesAfter, Logged, SuspendedIn, SlotsRespected, Sampled,
           Record, Tallied, DistinctIndices;
      EachHeldIsOpen(entries, open, held, order);
      InTimeAfterSettling(entries, open, held, order, next, from);
      PartitionAfterSettling(entries, open, held, order, next);
      PathAfterSettling(entries, open, held, order, next);
      SamplesAfterSettling(entries, open, held, order, next, from, guard.window);
      LoggedAfterSettling(offers, entries, order, held[next], from, slots, guard.window, allocationPct);
      Book(open[next]);
      held, order := held[..next] + held[next + 1..], order + [held[next]];
      open := open[..next] + open[next + 1..];
    }

    /** Settles everything that closes by a moment, earliest first. */
    method SettleUntil(at: int)
      requires Valid()
      modifies this, guard
      ensures Valid() && NoneDueBefore(open, at + 1)
      ensures entries == old(entries) && refused == old(refused) && offers == old(offers)
      ensures old(lastEvent) <= lastEvent && (lastEvent == old(lastEvent) || lastEvent <= at)
      ensures open == old(open) || |open| < |old(open)|
    {
      hide Partition, Timely, SettledInOrder, Compounded, SumDone, Done, SecondsOpen, BusySeconds, RecordAll,
           NoneDueBefore, EquityAfter, EquityPath, TallyAfter, SamplesAfter, Logged, SuspendedIn, SlotsRespected,
           Sampled;
      var next := NextDue(at);
      while next >= 0
        invariant Valid()
        invariant entries == old(entries) && refused == old(refused) && offers == old(offers)
        invariant old(lastEvent) <= lastEvent && (lastEvent == old(lastEvent) || lastEvent <= at)
        invariant open == old(open) || |open| < |old(open)|
        invariant next < 0 ==> NoneDueBefore(open, at + 1)
        invariant next >= 0 ==> next < |open| && open[next].closesAt <= at && NoneDueBefore(open, open[next].closesAt)
        decreases |open|
      {
        OpenCloseLater(entries, open, held, order, from, lastEvent);
        SettleOne(next);
        next := NextDue(at);
      }
    }

    method Refuse(trade: PortfolioTrade, verdict: Verdict)
      requires Valid() && lastEvent == trade.openedAt && NoneDueBefore(open, lastEvent + 1)
      requires verdict == RulingOn(trade, |open|, guard.samples, equity, slots, guard.window, allocationPct) && !verdict.Accepted?
      modifies this`rejected, this`suspended, this`refused, this`offers
      ensures Valid() && refused == old(refused) + [trade]
      ensures offers == old(offers) + [Ruling(trade, |entries|, |order|, verdict)]
    {
      hide Partition, Timely, SettledInOrder, Compounded, SumDone, Done, SecondsOpen, BusySeconds, RecordAll,
           EquityAfter, EquityPath, TallyAfter, SamplesAfter, Logged, SuspendedIn, SlotsRespected, Sampled, RulingOn,
           Ruled, NoneDueBefore;
      RuledNow(trade, entries, open, held, order, entries, from, slots, guard.window, allocationPct);
      ghost var o := Ruling(trade, |entries|, |order|, verdict);
      LoggedAfterOffer(offers, entries, order, o, entries, from, slots, guard.window, allocationPct);
      OffersOfOneMore(offers, o);
      rejected := rejected + 1;
      if verdict.Suspended? {
        suspended := suspended + 1;
      }
      refused := refused + [trade];
      offers := offers + [o];
    }

    method Accept(trade: PortfolioTrade)
      requires Valid() && lastEvent == trade.openedAt <= trade.closedAt && |open| < slots
      requires NoneDueBefore(open, lastEvent + 1)
      requires RulingOn(trade, |open|, guard.samples, equity, slots, guard.window, allocationPct).Accepted?
      modifies this`accepted, this`open, this`entries, this`held, this`offers
      ensures Valid()
      ensures entries == old(entries) + [Entry(trade, equity, ResultOf(trade, equity, allocationPct))]
      ensures SettlesItsMargin(entries[|old(entries)|], allocationPct)
      ensures offers == old(offers) + [Ruling(trade, |old(entries)|, |order|, Accepted)]
    {
      hide Partition, Timely, SettledInOrder, Compounded, SumDone, Done, SecondsOpen, BusySeconds, RecordAll,
           NoneDueBefore, EquityAfter, EquityPath, TallyAfter, SamplesAfter, Logged, SuspendedIn, SlotsRespected,
           Sampled, ResultOf, RulingOn, Ruled, SettlesItsMargin;
      ghost var e := Entry(trade, equity, ResultOf(trade, equity, allocationPct));
      ResultMeans(trade, equity, allocationPct);
      ghost var o := Ruling(trade, |entries|, |order|, Accepted);
      AcceptingKeeps(entries, open, held, order, from, e, slots, allocationPct);
      RuledNow(trade, entries, open, held, order, entries + [e], from, slots, guard.window, allocationPct);
      SamplesIgnoreLater(entries, order, e, from, guard.window);
      LoggedAfterOffer(offers, entries, order, o, entries + [e], from, slots, guard.window, allocationPct);
      OffersOfOneMore(offers, o);
      accepted := accepted + 1;
      open := open + [OpenPosition(trade.closedAt, ResultOf(trade, equity, allocationPct))];
      held := held + [|entries|];
      entries := entries + [e];
      offers := offers + [o];
    }

    /** One trade asks for a slot: everything due is settled first, and the account as it then stands rules
        on it. */
    method Offer(trade: PortfolioTrade)
      requires Valid() && lastEvent <= trade.openedAt <= trade.closedAt
      modifies this, guard
      ensures Valid() && lastEvent == trade.openedAt
      ensures |offers| == |old(offers)| + 1 && offers[..|old(offers)|] == old(offers) && offers[|old(offers)|].trade == trade
      ensures if offers[|old(offers)|].verdict.Accepted?
              then refused == old(refused) && |open| <= slots
                   && entries == old(entries) + [Entry(trade, equity, ResultOf(trade, equity, allocationPct))]
              else entries == old(entries) && refused == old(refused) + [trade]
    {
      hide Partition, Timely, SettledInOrder, Compounded, SumDone, Done, SecondsOpen, BusySeconds, RecordAll,
           EquityAfter, EquityPath, TallyAfter, SamplesAfter, Logged, SuspendedIn, SlotsRespected, MarginOf, ResultOf,
           Allowed, NoneDueBefore;
      SettleUntil(trade.openedAt);
      LaterIsEnough(open, trade.openedAt);
      AdvanceTo(trade.openedAt);

      if |open| >= slots {
        Refuse(trade, BookFull);
        return;
      }
      var allowed := guard.Allows(trade.openedAt, equity);
      if !allowed {
        Refuse(trade, Suspended);
        return;
      }
      if MarginOf(trade, equity, allocationPct) <= 0.0 {
        Refuse(trade, NoMargin);
        return;
      }
      Accept(trade);
    }

    /** The last closing time among the open positions. */
    method LatestClose() returns (latest: int)
      requires open != []
      ensures forall i :: 0 <= i < |open| ==> open[i].closesAt <= latest
    {
      latest := open[0].closesAt;
      for i := 0 to |open|
        invariant forall k :: 0 <= k < i ==> open[k].closesAt <= latest
      {
        if open[i].closesAt > latest {
          latest := open[i].closesAt;
        }
      }
    }

    /** Settles the window and then whatever ran over its edge. */
    method SettleRest(until: int)
      requires Valid()
      modifies this, guard
      ensures Valid() && open == []
      ensures entries == old(entries) && refused == old(refused) && offers == old(offers)
    {
      hide Valid;
      SettleUntil(until);
      while |open| > 0
        invariant Valid()
        invariant entries == old(entries) && refused == old(refused) && offers == old(offers)
        decreases |open|
      {
        var latest := LatestClose();
        SettleUntil(latest);
        assert open != [] ==> open[0].closesAt >= latest + 1;
      }
    }
  }

  lemma LaterIsEnough(open: seq<OpenPosition>, at: int)
    requires NoneDueBefore(open, at + 1)
    ensures NoneDueBefore(open, at)
  {
  }

  lemma OpenCloseLater(entries: seq<Entry>, open: seq<OpenPosition>, held: seq<nat>, order: seq<nat>, from: int, now: int)
    requires Partition(entries, open, held, order) && Timely(entries, order, from, now)
    ensures forall i :: 0 <= i < |open| ==> open[i].closesAt >= now
  {
    hide Undone;
    forall i | 0 <= i < |open|
      ensures open[i].closesAt >= now
    {
      assert held[i] !in order;
    }
  }

  // ---------- the composed account ----------

  function TradesOf(entries: seq<Entry>): seq<PortfolioTrade> {
    if entries == [] then [] else TradesOf(entries[..|entries| - 1]) + [entries[|entries| - 1].trade]
  }

  lemma TradesOfOneMore(entries: seq<Entry>, e: Entry)
    ensures TradesOf(entries + [e]) == TradesOf(entries) + [e.trade]
  {
    assert (entries + [e])[..|entries|] == entries;
  }

  /** How long all accepted trades were open together. */
  function TotalSeconds(entries: seq<Entry>): int {
    if entries == [] then 0
    else
      var t := entries[|entries| - 1].trade;
      TotalSeconds(entries[..|entries| - 1]) + (t.closedAt - t.openedAt)
  }

  /** Everything has settled: the sums that ran up to a moment are the sums over the trades. */
  lemma {:induction false} AllSettled(entries: seq<Entry>, done: set<nat>, now: int)
    requires forall k :: 0 <= k < |entries| ==> k in done && entries[k].trade.closedAt <= now
    ensures SecondsOpen(entries, now) == TotalSeconds(entries)
    ensures SumDone(entries, done) == TotalResult(entries)
  {
    if entries != [] {
      AllSettled(entries[..|entries| - 1], done, now);
    }
  }

  lemma {:induction false} NothingRunsLater(entries: seq<Entry>, from: int, now: int, later: int)
    requires from <= now <= later && forall k :: 0 <= k < |entries| ==> entries[k].trade.closedAt <= now
    ensures BusySeconds(entries, from, later) == BusySeconds(entries, from, now)
  {
    BusyAdvance(entries, from, now, later, false);
  }

  ghost predicate InWindow(trades: seq<PortfolioTrade>, from: int) {
    forall i :: 0 <= i < |trades| ==> from <= trades[i].openedAt <= trades[i].closedAt
  }

  /** What the run leaves behind for its report: every trade was accepted or refused, every accepted
      one settled once and in order of closing, sized from what had settled before it opened. */
  ghost predicate Accounted(trades: seq<PortfolioTrade>, entries: seq<Entry>, refused: seq<PortfolioTrade>, order: seq<nat>,
                            slots: int, allocationPct: real) {
    && multiset(TradesOf(entries)) + multiset(refused) == multiset(trades)
    && DistinctIndices(order) && SettledInOrder(entries, order) && (forall k :: 0 <= k < |entries| ==> k in order)
    && Compounded(entries, allocationPct)
    && SlotsRespected(entries, slots)
  }

  /** The trades were offered in order of opening, each was ruled on by the account as it stood then, and
      the accepted ones became the entries. */
  ghost predicate RuledOn(trades: seq<PortfolioTrade>, offers: seq<Ruling>, entries: seq<Entry>, order: seq<nat>,
                          from: int, slots: int, window: int, allocationPct: real) {
    Offered(offers) == SortTrades(trades) && Logged(offers, entries, order, from, slots, window, allocationPct)
  }

  /** The moment the last accepted trade closes. */
  function LastClose(entries: seq<Entry>, from: int): int {
    if entries == [] then from
    else
      var before := LastClose(entries[..|entries| - 1], from);
      var close := entries[|entries| - 1].trade.closedAt;
      if close > before then close else before
  }

  lemma {:induction false} LastCloseIsLast(entries: seq<Entry>, from: int, now: int)
    requires from <= now && forall k :: 0 <= k < |entries| ==> entries[k].trade.closedAt <= now
    ensures from <= LastClose(entries, from) <= now
    ensures forall k :: 0 <= k < |entries| ==> entries[k].trade.closedAt <= LastClose(entries, from)
  {
    if entries != [] {
      LastCloseIsLast(entries[..|entries| - 1], from, now);
    }
  }

  /** The report's exposure is the true one: the average book is the accepted trades' durations over
      the window, and the exposed share is the measure of their union over it. */
  ghost predicate Exposed(out: PortfolioResult, entries: seq<Entry>, from: int, until: int) {
    && out.avgOpen == Per(TotalSeconds(entries), from, until)
    && out.exposurePct == Per(100 * BusySeconds(entries, from, LastClose(entries, from)), from, until)
  }

  /** Per second of a window; nothing when the window is empty. */
  function Per(seconds: int, from: int, until: int): real {
    if until > from then seconds as real / (until - from) as real else 0.0
  }

  // ---------- what the reported exposure means ----------

  /** The number of open trades, summed second by second. */
  ghost function OpenSum(entries: seq<Entry>, from: int, now: int): int
    decreases now - from
  {
    if now <= from then 0 else OpenSum(entries, from, now - 1) + OpenDuring(entries, now - 1)
  }

  lemma {:induction false} OpenSumOfOneMore(entries: seq<Entry>, from: int, now: int)
    requires entries != [] && from <= entries[|entries| - 1].trade.openedAt <= entries[|entries| - 1].trade.closedAt
    ensures var t := entries[|entries| - 1].trade;
            OpenSum(entries, from, now) == OpenSum(entries[..|entries| - 1], from, now)
            + (if now <= t.openedAt then 0 else if now < t.closedAt then now - t.openedAt else t.closedAt - t.openedAt)
    decreases now - from
  {
    if now > from {
      OpenSumOfOneMore(entries, from, now - 1);
    }
  }

  /** Adding up over the trades and adding up over time come to the same. */
  lemma {:induction false} DurationsAreOpenSum(entries: seq<Entry>, from: int, now: int)
    requires from <= now && forall k :: 0 <= k < |entries| ==> from <= entries[k].trade.openedAt <= entries[k].trade.closedAt <= now
    ensures TotalSeconds(entries) == OpenSum(entries, from, now)
    decreases |entries|
  {
    if entries == [] {
      NothingOpenSums(from, now);
    } else {
      DurationsAreOpenSum(entries[..|entries| - 1], from, now);
      OpenSumOfOneMore(entries, from, now);
    }
  }

  lemma {:induction false} NothingOpenSums(from: int, now: int)
    ensures OpenSum([], from, now) == 0
    decreases now - from
  {
    if now > from {
      NothingOpenSums(from, now - 1);
    }
  }

  lemma {:induction false} BusyIsSomeOpen(entries: seq<Entry>, t: int)
    ensures Busy(entries, t) <==> OpenDuring(entries, t) > 0
  {
    if entries != [] {
      var front, last := entries[..|entries| - 1], entries[|entries| - 1];
      BusyIsSomeOpen(front, t);
      assert entries == front + [last];
      if Busy(entries, t) {
        var k :| 0 <= k < |entries| && entries[k].trade.openedAt <= t < entries[k].trade.closedAt;
        assert k < |front| ==> front[k] == entries[k];
      }
    }
  }

  lemma {:induction false} BusyBoundsOpenSum(entries: seq<Entry>, slots: int, from: int, now: int)
    requires SlotsRespected(entries, slots) && from <= now && slots >= 0
    ensures 0 <= BusySeconds(entries, from, now) <= now - from
    ensures BusySeconds(entries, from, now) <= OpenSum(entries, from, now) <= slots * BusySeconds(entries, from, now)
    decreases now - from
  {
    if from < now {
      BusyBoundsOpenSum(entries, slots, from, now - 1);
      BusyIsSomeOpen(entries, now - 1);
      var busy := BusySeconds(entries, from, now - 1);
      assert slots * (busy + 1) == slots * busy + slots;
      hide Busy, OpenDuring;
      assert OpenDuring(entries, now - 1) <= slots;
    }
  }

  lemma PerIsMonotone(a: int, b: int, from: int, until: int)
    requires a <= b
    ensures Per(a, from, until) <= Per(b, from, until)
  {
    if until > from {
      QuotientMonotone(a as real, b as real, (until - from) as real);
    }
  }

  lemma PerScales(a: int, n: int, from: int, until: int)
    ensures Per(n * a, from, until) == n as real * Per(a, from, until)
  {
    if until > from {
      var p := (until - from) as real;
      assert (n * a) as real == n as real * a as real;
      assert n as real * (a as real / p) * p == n as real * a as real;
    }
  }

  lemma RatesAreOrdered(busy: int, total: int, slots: int, from: int, until: int)
    requires from < until && 0 <= busy <= until - from && busy <= total <= slots * busy
    ensures 0.0 <= Per(100 * busy, from, until) <= 100.0
    ensures Per(100 * busy, from, until) <= 100.0 * Per(total, from, until) <= slots as real * Per(100 * busy, from, until)
  {
    hide Per;
    PerOfWhole(from, until);
    PerIsMonotone(0, 100 * busy, from, until);
    PerIsMonotone(100 * busy, 100 * (until - from), from, until);
    PerScales(until - from, 100, from, until);
    BookIsOrdered(busy, total, slots, from, until);
  }

  lemma PerOfWhole(from: int, until: int)
    requires from < until
    ensures Per(0, from, until) == 0.0 && Per(until - from, from, until) == 1.0
  {
    assert (until - from) as real > 0.0;
  }

  lemma BookIsOrdered(busy: int, total: int, slots: int, from: int, until: int)
    requires busy <= total <= slots * busy
    ensures Per(100 * busy, from, until) <= 100.0 * Per(total, from, until) <= slots as real * Per(100 * busy, from, until)
  {
    hide Per;
    PerIsMonotone(100 * busy, 100 * total, from, until);
    assert slots * (100 * busy) == 100 * (slots * busy);
    PerIsMonotone(100 * total, slots * (100 * busy), from, until);
    PerScales(total, 100, from, until);
    PerScales(100 * busy, slots, from, until);
  }

  /** Where every accepted trade closes inside the window, the exposure is a share between nothing and the
      whole of it, and the average book lies between that share and the slots times it. */
  lemma ExposureBoundsBook(out: PortfolioResult, entries: seq<Entry>, slots: int, from: int, until: int)
    requires from < until && slots >= 0 && SlotsRespected(entries, slots) && Exposed(out, entries, from, until)
    requires forall k :: 0 <= k < |entries| ==> from <= entries[k].trade.openedAt <= entries[k].trade.closedAt <= until
    ensures 0.0 <= out.exposurePct <= 100.0
    ensures out.exposurePct <= 100.0 * out.avgOpen <= slots as real * out.exposurePct
  {
    hide BusySeconds, LastClose, TotalSeconds, OpenSum, SlotsRespected, Per;
    var last := LastClose(entries, from);
    LastCloseIsLast(entries, from, until);
    DurationsAreOpenSum(entries, from, last);
    BusyBoundsOpenSum(entries, slots, from, last);
    RatesAreOrdered(BusySeconds(entries, from, last), TotalSeconds(entries), slots, from, until);
  }

  method ComposePortfolio(trades: seq<PortfolioTrade>, slots: int, allocationPct: real, from: int, until: int,
                          buyHold: real, guardWindow: int)
    returns (out: PortfolioResult, ghost entries: seq<Entry>, ghost refused: seq<PortfolioTrade>, ghost order: seq<nat>,
            ghost offers: seq<Ruling>)
    requires InWindow(trades, from)
    ensures trades == [] || slots <= 0 ==>
              out == PortfolioResult(slots, 0, 0, 0, 0, 0.0, 0.0, Ratio(0.0), 0.0, 0.0, buyHold)
    ensures trades != [] && slots > 0 ==>
              && Accounted(trades, entries, refused, order, slots, allocationPct)
              && RuledOn(trades, offers, entries, order, from, slots, guardWindow, allocationPct)
              && out.suspended == SuspendedIn(offers)
              && out.accepted == |entries| && out.rejected == |refused|
              && out.returnPct == ReturnPct(STARTING_EQUITY + TotalResult(entries))
              && out.maxDrawdown == RecordAll(STARTING_EQUITY, EquityPath(entries, order)).maxPct
              && out.wins == TallyAfter(entries, order).wins
              && out.profitFactor == FactorOf(TallyAfter(entries, order).win, TallyAfter(entries, order).loss)
    ensures trades != [] && slots > 0 ==>
              && (forall k :: 0 <= k < |entries| ==> SettlesItsMargin(entries[k], allocationPct))
              && out.returnPct * STARTING_EQUITY == TotalResult(entries) * 100.0
              && (Successive(entries) ==> out.returnPct == (Growth(entries, allocationPct) - 1.0) * 100.0)
    ensures trades != [] && slots > 0 ==>
              Exposed(out, entries, from, until)
  {
    hide Accounted, RuledOn, SuspendedIn, TotalResult, EquityPath, RecordAll, ReturnPct, TallyAfter, FactorOf, Exposed,
         InWindow, Compounded, SettlesItsMargin, Successive, Growth;
    entries, refused, order, offers := [], [], [], [];
    out := PortfolioResult(slots, 0, 0, 0, 0, 0.0, 0.0, Ratio(0.0), 0.0, 0.0, buyHold);
    if |trades| > 0 && slots > 0 {
      out, entries, refused, order, offers := Compose(trades, slots, allocationPct, from, until, buyHold, guardWindow);
      SizedAsCompounded(trades, entries, refused, order, slots, allocationPct);
      EntriesSettleTheirMargin(entries, allocationPct);
      ReturnOfGrowth(STARTING_EQUITY + TotalResult(entries), 1.0 + TotalResult(entries) / STARTING_EQUITY);
      if Successive(entries) {
        SuccessiveTradesCompound(entries, allocationPct);
        ReturnOfGrowth(STARTING_EQUITY + TotalResult(entries), Growth(entries, allocationPct));
      }
    }
  }

  lemma SizedAsCompounded(trades: seq<PortfolioTrade>, entries: seq<Entry>, refused: seq<PortfolioTrade>, order: seq<nat>,
                          slots: int, allocationPct: real)
    requires Accounted(trades, entries, refused, order, slots, allocationPct)
    ensures Compounded(entries, allocationPct)
  {
    hide Compounded;
  }

  /** Wins and losses are those of the settled results: they differ by what the account made, neither is negative,
      and a trade that broke even counts as won. */
  lemma {:induction false} TallyMeans(entries: seq<Entry>, order: seq<nat>)
    requires forall i :: 0 <= i < |order| ==> order[i] < |entries|
    ensures var t := TallyAfter(entries, order);
            && STARTING_EQUITY + t.win - t.loss == EquityAfter(entries, order) && t.win >= 0.0 && t.loss >= 0.0
            && t.wins == WonIn(entries, order) <= |order| && (t.loss == 0.0 <==> t.wins == |order|)
  {
    if order != [] {
      TallyMeans(entries, order[..|order| - 1]);
    }
  }

  ghost function WonIn(entries: seq<Entry>, order: seq<nat>): nat
    requires forall i :: 0 <= i < |order| ==> order[i] < |entries|
  {
    if order == [] then 0
    else WonIn(entries, order[..|order| - 1]) + (if entries[order[|order| - 1]].result < 0.0 then 0 else 1)
  }

  /** The profit factor is what was won over what was lost; without losses it is infinite if anything was won. */
  lemma FactorMeans(win: real, loss: real)
    requires win >= 0.0 && loss >= 0.0
    ensures FactorOf(win, loss).Infinite? <==> loss == 0.0 && win > 0.0
    ensures FactorOf(win, loss).Ratio? ==> FactorOf(win, loss).value * loss == win
  {
    if loss > 0.0 {
      assert win / loss * loss == win;
    }
  }

  lemma ReturnOfGrowth(equity: real, growth: real)
    requires equity == STARTING_EQUITY * growth
    ensures ReturnPct(equity) == (growth - 1.0) * 100.0
  {
  }

  method Compose(trades: seq<PortfolioTrade>, slots: int, allocationPct: real, from: int, until: int,
                 buyHold: real, guardWindow: int)
    returns (out: PortfolioResult, ghost entries: seq<Entry>, ghost refused: seq<PortfolioTrade>, ghost order: seq<nat>,
            ghost offers: seq<Ruling>)
    requires InWindow(trades, from) && slots > 0
    ensures Accounted(trades, entries, refused, order, slots, allocationPct)
    ensures RuledOn(trades, offers, entries, order, from, slots, guardWindow, allocationPct)
    ensures out.suspended == SuspendedIn(offers)
    ensures out.accepted == |entries| && out.rejected == |refused|
    ensures out.returnPct == ReturnPct(STARTING_EQUITY + TotalResult(entries))
    ensures out.maxDrawdown == RecordAll(STARTING_EQUITY, EquityPath(entries, order)).maxPct
    ensures out.wins == TallyAfter(entries, order).wins
    ensures out.profitFactor == FactorOf(TallyAfter(entries, order).win, TallyAfter(entries, order).loss)
    ensures Exposed(out, entries, from, until)
  {
    hide Accounted, BusySeconds, LastClose, TotalSeconds, TotalResult, EquityPath, RecordAll, Per, ReturnPct, FactorOf;
    hide Partition, Timely, SettledInOrder, Compounded, SumDone, Done, SecondsOpen, EquityAfter, TallyAfter, Offered,
         SamplesAfter, Logged, SuspendedIn, SlotsRespected, Sampled, InWindow, TradesOf;
    var account := new Composer(slots, allocationPct, from, guardWindow);
    OfferAll(account, trades);
    account.SettleRest(until);
    Settled(account, trades);
    entries, refused, order, offers := account.entries, account.refused, account.order, account.offers;
    SameReturn(account.equity, STARTING_EQUITY + TotalResult(entries));
    out := Report(account, until, buyHold);
  }

  method Report(account: Composer, until: int, buyHold: real) returns (out: PortfolioResult)
    ensures out.slots == account.slots && out.accepted == account.accepted && out.rejected == account.rejected
    ensures out.suspended == account.suspended && out.wins == account.wins && out.buyHoldPct == buyHold
    ensures out.maxDrawdown == account.maxDrawdown
    ensures out.returnPct == ReturnPct(account.equity)
    ensures out.profitFactor == FactorOf(account.grossWin, account.grossLoss)
    ensures out.exposurePct == Per(100 * account.busySeconds, account.from, until)
    ensures out.avgOpen == Per(account.positionSeconds, account.from, until)
  {
    out := PortfolioResult(account.slots, account.accepted, account.rejected, account.suspended, account.wins,
                           ReturnPct(account.equity), account.maxDrawdown, FactorOf(account.grossWin, account.grossLoss),
                           0.0, 0.0, buyHold);
    if until - account.from > 0 {
      out := out.(exposurePct := Per(100 * account.busySeconds, account.from, until), avgOpen := Per(account.positionSeconds, account.from, until));
    }
  }

  lemma SameReturn(a: real, b: real)
    requires a == b
    ensures ReturnPct(a) == ReturnPct(b)
  {
  }

  function ReturnPct(equity: real): real {
    (equity - STARTING_EQUITY) / STARTING_EQUITY * 100.0
  }

  function FactorOf(win: real, loss: real): ProfitFactor {
    if loss > 0.0 then Ratio(win / loss) else if win > 0.0 then Infinite else Ratio(0.0)
  }

  lemma NextInWindow(ordered: seq<PortfolioTrade>, i: nat, from: int)
    requires i < |ordered| && InWindow(ordered, from)
    ensures from <= ordered[i].openedAt <= ordered[i].closedAt
  {
  }

  method OfferNext(account: Composer, ordered: seq<PortfolioTrade>, i: nat)
    requires account.Valid() && i < |ordered| && account.lastEvent <= ordered[i].openedAt <= ordered[i].closedAt
    requires multiset(TradesOf(account.entries)) + multiset(account.refused) == multiset(ordered[..i])
    requires Offered(account.offers) == ordered[..i]
    modifies account, account.guard
    ensures account.Valid() && account.lastEvent == ordered[i].openedAt
    ensures multiset(TradesOf(account.entries)) + multiset(account.refused) == multiset(ordered[..i + 1])
    ensures Offered(account.offers) == ordered[..i + 1]
  {
    hide Partition, Timely, SettledInOrder, Compounded, SumDone, Done, SecondsOpen, BusySeconds, RecordAll,
         EquityAfter, EquityPath, TallyAfter, SamplesAfter, Logged, SuspendedIn, SlotsRespected, MarginOf, ResultOf,
         Allowed, TradesOf, Sampled, Offered;
    assert ordered[..i + 1] == ordered[..i] + [ordered[i]];
    ghost var before, offered := account.entries, account.offers;
    account.Offer(ordered[i]);
    OffersOfOneMore(offered, account.offers[|offered|]);
    assert account.offers == offered + [account.offers[|offered|]];
    TradesOfOneMore(before, Entry(ordered[i], account.equity, ResultOf(ordered[i], account.equity, account.allocationPct)));
  }

  lemma SortedInWindow(trades: seq<PortfolioTrade>, from: int)
    requires InWindow(trades, from)
    ensures InWindow(SortTrades(trades), from)
  {
    SortTradesSorts(trades);
    var ordered := SortTrades(trades);
    forall i | 0 <= i < |ordered|
      ensures from <= ordered[i].openedAt <= ordered[i].closedAt
    {
      assert ordered[i] in multiset(trades);
    }
  }

  lemma NothingIn(entries: seq<Entry>)
    requires entries == []
    ensures TradesOf(entries) == []
  {
  }

  method OfferAll(account: Composer, trades: seq<PortfolioTrade>)
    requires account.Valid() && account.entries == [] && account.refused == [] && account.offers == [] && account.lastEvent == account.from
    requires InWindow(trades, account.from)
    modifies account, account.guard
    ensures account.Valid()
    ensures multiset(TradesOf(account.entries)) + multiset(account.refused) == multiset(trades)
    ensures Offered(account.offers) == SortTrades(trades)
  {
    hide SortTrades, TradesOf, Partition, Timely, SettledInOrder, Compounded, SumDone, Done, SecondsOpen, BusySeconds,
         RecordAll;
    hide EquityAfter, EquityPath, TallyAfter, SamplesAfter, Logged, SuspendedIn, SlotsRespected, Sampled;
    SortTradesSorts(trades);
    SortedInWindow(trades, account.from);
    var ordered := SortTrades(trades);
    hide InWindow;
    assert TradesOf(account.entries) == [] by { NothingIn(account.entries); }
    for i := 0 to |ordered|
      invariant account.Valid()
      invariant account.lastEvent == if i == 0 then account.from else ordered[i - 1].openedAt
      invariant multiset(TradesOf(account.entries)) + multiset(account.refused) == multiset(ordered[..i])
      invariant Offered(account.offers) == ordered[..i]
    {
      NextInWindow(ordered, i, account.from);
      OfferNext(account, ordered, i);
    }
    assert ordered[..|ordered|] == ordered;
  }

  /** With an empty book every accepted trade has settled. */
  lemma Settled(account: Composer, trades: seq<PortfolioTrade>)
    requires account.Valid() && account.open == []
    requires multiset(TradesOf(account.entries)) + multiset(account.refused) == multiset(trades)
    ensures Accounted(trades, account.entries, account.refused, account.order, account.slots, account.allocationPct)
    ensures account.equity == STARTING_EQUITY + TotalResult(account.entries)
    ensures account.positionSeconds == TotalSeconds(account.entries)
    ensures forall k :: 0 <= k < |account.entries| ==> k in account.order
    ensures account.busySeconds == BusySeconds(account.entries, account.from, LastClose(account.entries, account.from))
  {
    hide Undone, BusySeconds, Compounded, SlotsRespected, SettledInOrder;
    AllSettled(account.entries, Done(account.order), account.lastEvent);
    LastCloseIsLast(account.entries, account.from, account.lastEvent);
    NothingRunsLater(account.entries, account.from, LastClose(account.entries, account.from), account.lastEvent);
  }
}
