/**
 * The list operations of the basic dashboard page: an add button that only
 * checks the symbol, and a weight entry that appends without de-duplication.
 * Its per-index edits and its delete are Portfolio.EditPrice,
 * Portfolio.EditQuantity and Portfolio.RemoveConfirmed; its rows never carry
 * live fields, so they are always None there.
 */
module DashboardBasic {
  import opened Common
  import opened Portfolio

  /** The add button: append the form's stock when it has a symbol, then clear the form. */
  function AddIfSymbol(stocks: seq<Stock>, newStock: Stock): (r: (seq<Stock>, Stock))
    ensures newStock.symbol != "" ==> r.0 == stocks + [newStock] && r.1 == EmptyStock
    ensures newStock.symbol == "" ==> r.0 == stocks && r.1 == newStock
  {
    if newStock.symbol != "" then (stocks + [newStock], EmptyStock)
    else (stocks, newStock)
  }

  /** The list only ever grows at its end, and only by a stock with a symbol. */
  lemma AddIfSymbolGrows(stocks: seq<Stock>, newStock: Stock)
    ensures var r := AddIfSymbol(stocks, newStock).0;
      r[..|stocks|] == stocks
      && (|r| == |stocks| + 1 <==> newStock.symbol != "")
      && (|r| == |stocks| + 1 ==> r[|stocks|].symbol != "")
  {
    var r := AddIfSymbol(stocks, newStock).0;
    assert r[..|stocks|] == stocks;
  }

  /**
   * Price and quantity are not checked here: a stock the validating pages
   * refuse is appended by this one.
   */
  lemma AddSkipsPriceAndQuantityChecks()
    ensures var s := Stock("0700.HK", 0.0, 0, None, None);
      AddIfSymbol([], s).0 == [s]
      && !Acceptable(s)
      && SubmitNewStock([], AddForm(s, "", true, FormErrors(None, None, None))).0 == []
  {
  }

  /** handleAddStock: `[...portfolio, { symbol, weight }]`. */
  function AppendHolding(portfolio: seq<Holding>, symbol: string, weight: real): (r: seq<Holding>)
    ensures |r| == |portfolio| + 1 && r[..|portfolio|] == portfolio
    ensures r[|portfolio|] == Holding(symbol, weight)
  {
    portfolio + [Holding(symbol, weight)]
  }

  /** Entering a weight again for the same symbol adds a second entry rather than replacing the first. */
  lemma AppendHoldingDuplicates(portfolio: seq<Holding>, symbol: string, weight: real)
    ensures CountSymbol(AppendHolding(portfolio, symbol, weight), symbol) == CountSymbol(portfolio, symbol) + 1
  {
    CountSymbolAppend(portfolio, [Holding(symbol, weight)], symbol);
    assert [Holding(symbol, weight)][1..] == [];
  }
}
