/** The order trades are offered to the composed account in: by opening time, then by symbol. */
module TradeOrder {
  datatype PortfolioTrade = PortfolioTrade(symbol: string, openedAt: int, closedAt: int, pnlPct: real, allocationPct: real)

  /** Alphabetical order of symbols. */
  predicate SymbolLess(a: string, b: string) {
    if b == [] then false
    else if a == [] then true
    else if a[0] != b[0] then a[0] < b[0]
    else SymbolLess(a[1..], b[1..])
  }

  predicate Precedes(a: PortfolioTrade, b: PortfolioTrade) {
    if a.openedAt == b.openedAt then SymbolLess(a.symbol, b.symbol) else a.openedAt < b.openedAt
  }

  function InsertTrade(sorted: seq<PortfolioTrade>, t: PortfolioTrade): seq<PortfolioTrade> {
    if sorted == [] then [t]
    else if Precedes(t, sorted[|sorted| - 1]) then InsertTrade(sorted[..|sorted| - 1], t) + [sorted[|sorted| - 1]]
    else sorted + [t]
  }

  /** By opening time, then by symbol. Which of two equal trades comes first makes no difference to
      anything proved here. */
  function SortTrades(trades: seq<PortfolioTrade>): seq<PortfolioTrade> {
    if trades == [] then [] else InsertTrade(SortTrades(trades[..|trades| - 1]), trades[|trades| - 1])
  }

  ghost predicate ByOpening(trades: seq<PortfolioTrade>) {
    forall i, j :: 0 <= i < j < |trades| ==> trades[i].openedAt <= trades[j].openedAt
  }

  lemma {:induction false} InsertTradeLosesNone(sorted: seq<PortfolioTrade>, t: PortfolioTrade)
    ensures multiset(InsertTrade(sorted, t)) == multiset(sorted) + multiset{t}
  {
    hide Precedes;
    if sorted != [] {
      assert sorted == sorted[..|sorted| - 1] + [sorted[|sorted| - 1]];
      InsertTradeLosesNone(sorted[..|sorted| - 1], t);
    }
  }

  ghost predicate OpenedBy(trades: seq<PortfolioTrade>, at: int) {
    forall i :: 0 <= i < |trades| ==> trades[i].openedAt <= at
  }

  /** A later trade at the end keeps the order. */
  lemma AppendKeepsOrder(trades: seq<PortfolioTrade>, t: PortfolioTrade)
    requires ByOpening(trades) && OpenedBy(trades, t.openedAt)
    ensures ByOpening(trades + [t])
  {
  }

  lemma FrontIsOpenedBy(sorted: seq<PortfolioTrade>, at: int)
    requires sorted != [] && ByOpening(sorted) && sorted[|sorted| - 1].openedAt <= at
    ensures OpenedBy(sorted, at) && ByOpening(sorted[..|sorted| - 1]) && OpenedBy(sorted[..|sorted| - 1], at)
  {
  }

  lemma {:induction false} InsertTradeKeepsOrder(sorted: seq<PortfolioTrade>, t: PortfolioTrade, at: int)
    requires ByOpening(sorted) && OpenedBy(sorted, at) && t.openedAt <= at
    ensures ByOpening(InsertTrade(sorted, t)) && OpenedBy(InsertTrade(sorted, t), at)
  {
    if sorted != [] {
      var front, last := sorted[..|sorted| - 1], sorted[|sorted| - 1];
      FrontIsOpenedBy(sorted, last.openedAt);
      if Precedes(t, last) {
        InsertTradeKeepsOrder(front, t, last.openedAt);
        AppendKeepsOrder(InsertTrade(front, t), last);
      } else {
        FrontIsOpenedBy(sorted, t.openedAt);
        AppendKeepsOrder(sorted, t);
      }
    }
  }

  lemma {:induction false} SortTradesSorts(trades: seq<PortfolioTrade>)
    ensures ByOpening(SortTrades(trades))
    ensures multiset(SortTrades(trades)) == multiset(trades)
  {
    if trades != [] {
      assert trades == trades[..|trades| - 1] + [trades[|trades| - 1]];
      SortTradesSorts(trades[..|trades| - 1]);
      var sorted, t := SortTrades(trades[..|trades| - 1]), trades[|trades| - 1];
      InsertTradeLosesNone(sorted, t);
      var at := if sorted != [] && sorted[|sorted| - 1].openedAt > t.openedAt then sorted[|sorted| - 1].openedAt else t.openedAt;
      if sorted != [] {
        FrontIsOpenedBy(sorted, at);
      }
      InsertTradeKeepsOrder(sorted, t, at);
    }
  }

  // ---------- ties are broken by symbol ----------

  lemma {:induction false} SymbolsDiffer(a: string, b: string)
    ensures !(SymbolLess(a, b) && SymbolLess(b, a))
    ensures !SymbolLess(a, b) && !SymbolLess(b, a) ==> a == b
  {
    if a != [] && b != [] && a[0] == b[0] {
      SymbolsDiffer(a[1..], b[1..]);
      assert a == [a[0]] + a[1..] && b == [b[0]] + b[1..];
    }
  }

  lemma {:induction false} SymbolsChain(a: string, b: string, c: string)
    requires SymbolLess(a, b) && SymbolLess(b, c)
    ensures SymbolLess(a, c)
  {
    if a != [] && a[0] == b[0] == c[0] {
      SymbolsChain(a[1..], b[1..], c[1..]);
    }
  }

  /** Two symbols agree up to a place where one ends or has the smaller letter. */
  ghost predicate PartsAt(a: string, b: string, n: nat) {
    n <= |a| && n < |b| && a[..n] == b[..n] && (n == |a| || a[n] < b[n])
  }

  lemma PartsAfter(a: string, b: string, n: nat)
    requires PartsAt(a, b, n) && a != []
    ensures if n == 0 then a[0] < b[0] else a[0] == b[0]
  {
    if n > 0 {
      assert a[0] == a[..n][0] && b[0] == b[..n][0];
    }
  }

  /** Symbols are ordered by the first place where they part, a shorter one before what continues it. */
  lemma {:induction false} SymbolsAreAlphabetical(a: string, b: string)
    ensures SymbolLess(a, b) <==> exists n: nat :: PartsAt(a, b, n)
    decreases |a|
  {
    if b != [] {
      if a == [] {
        assert PartsAt(a, b, 0);
      } else if a[0] != b[0] {
        assert a[0] < b[0] ==> PartsAt(a, b, 0);
        forall n: nat | PartsAt(a, b, n)
          ensures a[0] < b[0]
        {
          PartsAfter(a, b, n);
        }
      } else {
        SymbolsAreAlphabetical(a[1..], b[1..]);
        forall n: nat | PartsAt(a[1..], b[1..], n)
          ensures PartsAt(a, b, n + 1)
        {
          assert a[..n + 1] == [a[0]] + a[1..][..n] && b[..n + 1] == [b[0]] + b[1..][..n];
        }
        forall n: nat | PartsAt(a, b, n)
          ensures n > 0 && PartsAt(a[1..], b[1..], n - 1)
        {
          PartsAfter(a, b, n);
          assert a[1..][..n - 1] == a[..n][1..] && b[1..][..n - 1] == b[..n][1..];
        }
      }
    }
  }

  /** No earlier place belongs to a trade that should come later. */
  ghost predicate Arranged(trades: seq<PortfolioTrade>) {
    forall i, j :: 0 <= i < j < |trades| ==> !Precedes(trades[j], trades[i])
  }

  lemma NotAfter(a: PortfolioTrade, b: PortfolioTrade, c: PortfolioTrade)
    requires !Precedes(b, a) && !Precedes(c, b)
    ensures !Precedes(c, a)
  {
    if a.openedAt == b.openedAt == c.openedAt && SymbolLess(c.symbol, a.symbol) {
      SymbolsDiffer(a.symbol, b.symbol);
      SymbolsDiffer(b.symbol, c.symbol);
      if SymbolLess(a.symbol, b.symbol) && SymbolLess(b.symbol, c.symbol) {
        SymbolsChain(a.symbol, b.symbol, c.symbol);
      }
      SymbolsDiffer(a.symbol, c.symbol);
    }
  }

  lemma PrecedesOneWay(a: PortfolioTrade, b: PortfolioTrade)
    requires Precedes(a, b)
    ensures !Precedes(b, a)
  {
    SymbolsDiffer(a.symbol, b.symbol);
  }

  ghost predicate NoneAfter(trades: seq<PortfolioTrade>, t: PortfolioTrade) {
    forall i :: 0 <= i < |trades| ==> !Precedes(t, trades[i])
  }

  lemma LastIsLatest(trades: seq<PortfolioTrade>, t: PortfolioTrade)
    requires trades != [] && Arranged(trades) && !Precedes(t, trades[|trades| - 1])
    ensures NoneAfter(trades, t)
  {
    hide Precedes;
    forall i | 0 <= i < |trades| - 1
      ensures !Precedes(t, trades[i])
    {
      NotAfter(trades[i], trades[|trades| - 1], t);
    }
  }

  lemma {:induction false} InsertKeepsTies(sorted: seq<PortfolioTrade>, t: PortfolioTrade, top: PortfolioTrade)
    requires Arranged(sorted) && NoneAfter(sorted, top) && !Precedes(top, t)
    ensures Arranged(InsertTrade(sorted, t)) && NoneAfter(InsertTrade(sorted, t), top)
  {
    hide Precedes;
    if sorted != [] {
      var front, last := sorted[..|sorted| - 1], sorted[|sorted| - 1];
      if Precedes(t, last) {
        PrecedesOneWay(t, last);
        assert NoneAfter(front, last);
        InsertKeepsTies(front, t, last);
        var inserted := InsertTrade(front, t);
        forall i | 0 <= i < |inserted|
          ensures !Precedes(top, inserted[i])
        {
          NotAfter(inserted[i], last, top);
        }
      } else {
        LastIsLatest(sorted, t);
      }
    }
  }

  /** Trades that open together are offered in the alphabetical order of their symbols. */
  lemma {:induction false} SortTradesOrdersTies(trades: seq<PortfolioTrade>)
    ensures Arranged(SortTrades(trades))
  {
    hide Precedes, InsertTrade;
    if trades != [] {
      var front, t := trades[..|trades| - 1], trades[|trades| - 1];
      SortTradesOrdersTies(front);
      var sorted := SortTrades(front);
      if sorted == [] || Precedes(t, sorted[|sorted| - 1]) {
        InsertedInOrder(sorted, t);
      } else {
        LastIsLatest(sorted, t);
        InsertedLast(sorted, t);
      }
    }
  }

  lemma InsertedInOrder(sorted: seq<PortfolioTrade>, t: PortfolioTrade)
    requires Arranged(sorted) && (sorted == [] || Precedes(t, sorted[|sorted| - 1]))
    ensures Arranged(InsertTrade(sorted, t))
  {
    hide Precedes;
    if sorted != [] {
      var last := sorted[|sorted| - 1];
      PrecedesOneWay(t, last);
      SameIsNotBefore(last);
      assert NoneAfter(sorted, last);
      InsertKeepsTies(sorted, t, last);
    }
  }

  lemma SameIsNotBefore(t: PortfolioTrade)
    ensures !Precedes(t, t)
  {
    SymbolsDiffer(t.symbol, t.symbol);
  }

  lemma InsertedLast(sorted: seq<PortfolioTrade>, t: PortfolioTrade)
    requires Arranged(sorted) && NoneAfter(sorted, t) && sorted != [] && !Precedes(t, sorted[|sorted| - 1])
    ensures Arranged(InsertTrade(sorted, t))
  {
    hide Precedes;
  }
}
