/**
 * The list operations of the dark dashboard page: the live merge that copies
 * the relay's percentage change, the portfolio value, and the empty-portfolio
 * guard of the optimise button.
 */
module DashboardNew {
  import opened Common
  import opened Portfolio

  // ------------------------------------------------------------ live merge

  /** onMessage: every row of the quoted symbol takes the quote's price and percentage change. */
  function MergeLive(stocks: seq<Stock>, data: Quote): (r: seq<Stock>)
    ensures |r| == |stocks|
    ensures forall i :: 0 <= i < |r| ==>
      r[i].symbol == stocks[i].symbol && r[i].price == stocks[i].price && r[i].quantity == stocks[i].quantity
    ensures forall i :: 0 <= i < |r| && stocks[i].symbol != data.symbol ==> r[i] == stocks[i]
    ensures forall i :: 0 <= i < |r| && stocks[i].symbol == data.symbol ==>
      r[i].livePrice == Some(data.price) && r[i].percentageChange == data.percentageChange
  {
    if stocks == [] then []
    else
      var init := MergeLive(stocks[..|stocks| - 1], data);
      var s := stocks[|stocks| - 1];
      init + [if s.symbol == data.symbol
              then s.(livePrice := Some(data.price), percentageChange := data.percentageChange)
              else s]
  }

  /** Delivering the same quote again changes nothing. */
  lemma MergeLiveIdempotent(stocks: seq<Stock>, data: Quote)
    ensures MergeLive(MergeLive(stocks, data), data) == MergeLive(stocks, data)
  {
    var once := MergeLive(stocks, data);
    var twice := MergeLive(once, data);
    assert forall i :: 0 <= i < |twice| ==> twice[i] == once[i];
  }

  /** Quotes for different symbols touch disjoint rows, so their order does not matter. */
  lemma MergeLiveCommutes(stocks: seq<Stock>, d1: Quote, d2: Quote)
    requires d1.symbol != d2.symbol
    ensures MergeLive(MergeLive(stocks, d1), d2) == MergeLive(MergeLive(stocks, d2), d1)
  {
    var a := MergeLive(MergeLive(stocks, d1), d2);
    var b := MergeLive(MergeLive(stocks, d2), d1);
    assert forall i :: 0 <= i < |a| ==> a[i] == b[i];
  }

  // --------------------------------------------------------- portfolio value

  /** What one row adds to the portfolio value. */
  function RowValue(s: Stock): real {
    EffectivePrice(s) * s.quantity as real
  }

  /** `stocks.reduce((acc, stock) => acc + (stock.livePrice || stock.price) * stock.quantity, 0)`. */
  function PortfolioValue(stocks: seq<Stock>): (r: real)
    ensures (forall i :: 0 <= i < |stocks| ==> RowValue(stocks[i]) >= 0.0) ==> r >= 0.0
  {
    if stocks == [] then 0.0
    else PortfolioValue(stocks[..|stocks| - 1]) + RowValue(stocks[|stocks| - 1])
  }

  /** The value of a concatenation is the sum of the values, so appending a stock adds its own term. */
  lemma {:induction false} PortfolioValueAppend(a: seq<Stock>, b: seq<Stock>)
    ensures PortfolioValue(a + b) == PortfolioValue(a) + PortfolioValue(b)
    decreases |b|
  {
    if b != [] {
      var init := b[..|b| - 1];
      PortfolioValueAppend(a, init);
      assert (a + b)[..|a + b| - 1] == a + init;
      assert (a + b)[|a + b| - 1] == b[|b| - 1];
    } else {
      assert a + b == a;
    }
  }

  /** The rows for other symbols, in order. */
  function OtherSymbols(stocks: seq<Stock>, symbol: string): (r: seq<Stock>)
    ensures forall s :: s in r ==> s in stocks && s.symbol != symbol
  {
    if stocks == [] then []
    else
      var s := stocks[|stocks| - 1];
      OtherSymbols(stocks[..|stocks| - 1], symbol) + (if s.symbol != symbol then [s] else [])
  }

  /** The number of shares held in `symbol` over all its rows. */
  function SharesOf(stocks: seq<Stock>, symbol: string): real {
    if stocks == [] then 0.0
    else
      var s := stocks[|stocks| - 1];
      SharesOf(stocks[..|stocks| - 1], symbol) + (if s.symbol == symbol then s.quantity as real else 0.0)
  }

  /** The value of the rows of `symbol` at `price`, row by row. */
  function ValueAt(stocks: seq<Stock>, symbol: string, price: real): real {
    if stocks == [] then 0.0
    else
      var s := stocks[|stocks| - 1];
      ValueAt(stocks[..|stocks| - 1], symbol, price) + RowAt(s, symbol, price)
  }

  function RowAt(s: Stock, symbol: string, price: real): real {
    if s.symbol == symbol then price * s.quantity as real else 0.0
  }

  /** Valuing the rows of one symbol at one price is that price times the shares held. */
  lemma {:induction false} ValueAtShares(stocks: seq<Stock>, symbol: string, price: real)
    ensures ValueAt(stocks, symbol, price) == price * SharesOf(stocks, symbol)
    decreases |stocks|
  {
    if stocks != [] {
      var init := stocks[..|stocks| - 1];
      var s := stocks[|stocks| - 1];
      ValueAtShares(init, symbol, price);
      var q := if s.symbol == symbol then s.quantity as real else 0.0;
      assert RowAt(s, symbol, price) == price * q;
      Distribute(price, SharesOf(init, symbol), q);
    }
  }

  lemma Distribute(p: real, x: real, y: real)
    ensures p * (x + y) == p * x + p * y
  {
  }

  /**
   * After a non-zero quote the portfolio is worth its other rows, untouched,
   * plus every row of the quoted symbol valued at the quoted price (which
   * ValueAtShares turns into the price times the shares held).
   */
  lemma {:induction false} MergeLiveValue(stocks: seq<Stock>, data: Quote)
    requires data.price != 0.0
    ensures PortfolioValue(MergeLive(stocks, data))
      == PortfolioValue(OtherSymbols(stocks, data.symbol)) + ValueAt(stocks, data.symbol, data.price)
    decreases |stocks|
  {
    if stocks != [] {
      var init := stocks[..|stocks| - 1];
      var s := stocks[|stocks| - 1];
      MergeLiveValue(init, data);
      var merged := if s.symbol == data.symbol
        then s.(livePrice := Some(data.price), percentageChange := data.percentageChange) else s;
      assert MergeLive(stocks, data) == MergeLive(init, data) + [merged];
      PortfolioValueSnoc(MergeLive(init, data), merged);
      var others := OtherSymbols(init, data.symbol);
      var atInit := ValueAt(init, data.symbol, data.price);
      if s.symbol == data.symbol {
        assert OtherSymbols(stocks, data.symbol) == others + [];
        assert others + [] == others;
        MergedRowValue(s, data);
      } else {
        assert OtherSymbols(stocks, data.symbol) == others + [s];
        PortfolioValueSnoc(others, s);
        assert RowAt(s, data.symbol, data.price) == 0.0;
      }
    } else {
      assert OtherSymbols(stocks, data.symbol) == [];
    }
  }

  /** A row that took a non-zero live price is worth that price times its quantity. */
  lemma MergedRowValue(s: Stock, data: Quote)
    requires s.symbol == data.symbol && data.price != 0.0
    ensures RowValue(s.(livePrice := Some(data.price), percentageChange := data.percentageChange))
      == RowAt(s, data.symbol, data.price)
  {
  }

  lemma PortfolioValueSnoc(stocks: seq<Stock>, s: Stock)
    ensures PortfolioValue(stocks + [s]) == PortfolioValue(stocks) + RowValue(s)
  {
    assert (stocks + [s])[..|stocks|] == stocks;
  }

  // -------------------------------------------------------- optimise guard

  const AddStocksFirst: string := "Please add some stocks to your portfolio first."

  /**
   * The synchronous part of handleOptimize: with no stocks it only raises the
   * alert; otherwise it marks the optimisation as running. The portfolio is
   * left as it is either way; the later random result is not modelled.
   */
  function HandleOptimize<P>(stocks: seq<Stock>, portfolio: P, isOptimizing: bool): (r: (P, bool, Option<string>))
    ensures r.0 == portfolio
    ensures r.2.Some? <==> stocks == []
    ensures stocks == [] ==> r.1 == isOptimizing && r.2 == Some(AddStocksFirst)
    ensures stocks != [] ==> r.1
  {
    if |stocks| == 0 then (portfolio, isOptimizing, Some(AddStocksFirst))
    else (portfolio, true, None)
  }
}
