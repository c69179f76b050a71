/**
 * The list operations of the full dashboard page: the weight upsert, the
 * value-proportional weights, the symbol typeahead and the live-price merge
 * that derives its own percentage change.
 */
module DashboardClean {
  import opened Common
  import opened Portfolio
  import Strings

  // ---------------------------------------------------------------- upsert

  /** `prev.find(p => p.symbol === symbol)` finds something. */
  predicate HasSymbol(portfolio: seq<Holding>, symbol: string) {
    exists h | h in portfolio :: h.symbol == symbol
  }

  lemma {:induction false} HasSymbolCount(portfolio: seq<Holding>, symbol: string)
    ensures HasSymbol(portfolio, symbol) <==> CountSymbol(portfolio, symbol) > 0
    decreases |portfolio|
  {
    if portfolio != [] {
      HasSymbolCount(portfolio[1..], symbol);
      assert forall h :: h in portfolio <==> h == portfolio[0] || h in portfolio[1..];
    }
  }

  /** `prev.map(p => p.symbol === symbol ? { ...p, weight } : p)`. */
  function SetWeight(portfolio: seq<Holding>, symbol: string, weight: real): (r: seq<Holding>)
    ensures |r| == |portfolio|
    ensures forall i :: 0 <= i < |r| ==>
      r[i].symbol == portfolio[i].symbol
      && r[i].weight == (if portfolio[i].symbol == symbol then weight else portfolio[i].weight)
  {
    if portfolio == [] then []
    else
      [if portfolio[0].symbol == symbol then portfolio[0].(weight := weight) else portfolio[0]]
      + SetWeight(portfolio[1..], symbol, weight)
  }

  /** handleAddStock: overwrite the weight of a recorded symbol, or append a new entry. */
  function Upsert(portfolio: seq<Holding>, symbol: string, weight: real): (r: seq<Holding>)
    ensures HasSymbol(portfolio, symbol) ==>
      |r| == |portfolio|
      && forall i :: 0 <= i < |r| ==>
        r[i].symbol == portfolio[i].symbol
        && r[i].weight == (if portfolio[i].symbol == symbol then weight else portfolio[i].weight)
    ensures !HasSymbol(portfolio, symbol) ==> r == portfolio + [Holding(symbol, weight)]
  {
    if HasSymbol(portfolio, symbol) then SetWeight(portfolio, symbol, weight)
    else portfolio + [Holding(symbol, weight)]
  }

  /** After an upsert the symbol is recorded, and every entry for it carries the new weight. */
  lemma UpsertRecords(portfolio: seq<Holding>, symbol: string, weight: real)
    ensures HasSymbol(Upsert(portfolio, symbol, weight), symbol)
    ensures forall h :: h in Upsert(portfolio, symbol, weight) && h.symbol == symbol ==> h.weight == weight
  {
    var r := Upsert(portfolio, symbol, weight);
    if HasSymbol(portfolio, symbol) {
      var h :| h in portfolio && h.symbol == symbol;
      var i :| 0 <= i < |portfolio| && portfolio[i] == h;
      assert r[i] in r;
    } else {
      assert r[|portfolio|] in r;
    }
  }

  lemma {:induction false} SetWeightCount(portfolio: seq<Holding>, symbol: string, weight: real)
    ensures CountSymbol(SetWeight(portfolio, symbol, weight), symbol) == CountSymbol(portfolio, symbol)
    decreases |portfolio|
  {
    if portfolio != [] {
      SetWeightCount(portfolio[1..], symbol, weight);
      var r := SetWeight(portfolio, symbol, weight);
      assert r[1..] == SetWeight(portfolio[1..], symbol, weight);
    }
  }

  /** Upserting never duplicates: a symbol seen before keeps its count, a new one appears once. */
  lemma UpsertCount(portfolio: seq<Holding>, symbol: string, weight: real)
    ensures CountSymbol(Upsert(portfolio, symbol, weight), symbol)
      == if CountSymbol(portfolio, symbol) == 0 then 1 else CountSymbol(portfolio, symbol)
  {
    HasSymbolCount(portfolio, symbol);
    if HasSymbol(portfolio, symbol) {
      SetWeightCount(portfolio, symbol, weight);
    } else {
      CountSymbolAppend(portfolio, [Holding(symbol, weight)], symbol);
      assert [Holding(symbol, weight)][1..] == [];
    }
  }

  /** The latest weight wins: a second upsert of the same symbol replaces the first. */
  lemma UpsertLatestWins(portfolio: seq<Holding>, symbol: string, w1: real, w2: real)
    ensures Upsert(Upsert(portfolio, symbol, w1), symbol, w2) == Upsert(portfolio, symbol, w2)
  {
    UpsertRecords(portfolio, symbol, w1);
    var once := Upsert(portfolio, symbol, w1);
    var twice := Upsert(once, symbol, w2);
    var direct := Upsert(portfolio, symbol, w2);
    if !HasSymbol(portfolio, symbol) {
      assert forall i :: 0 <= i < |portfolio| ==> portfolio[i] in portfolio;
    }
    assert |twice| == |direct|;
    assert forall i :: 0 <= i < |twice| ==> twice[i] == direct[i];
  }

  // --------------------------------------------------------------- weights

  /** The value handleOptimize weighs a stock by: entered price times quantity. */
  function HoldingValue(s: Stock): real {
    s.price * s.quantity as real
  }

  /** `stocks.reduce((sum, stock) => sum + stock.price * stock.quantity, 0)`. */
  function TotalValue(stocks: seq<Stock>): (r: real)
    ensures (forall i :: 0 <= i < |stocks| ==> HoldingValue(stocks[i]) >= 0.0) ==> r >= 0.0
  {
    if stocks == [] then 0.0
    else TotalValue(stocks[..|stocks| - 1]) + HoldingValue(stocks[|stocks| - 1])
  }

  /** The sum of a list of weights. */
  function SumWeights(portfolio: seq<Holding>): real {
    if portfolio == [] then 0.0
    else SumWeights(portfolio[..|portfolio| - 1]) + portfolio[|portfolio| - 1].weight
  }

  /** `value / total * 100`: the percentage of `total` that `v` makes up. */
  function Share(v: real, total: real): real
    requires total != 0.0
  {
    v / total * 100.0
  }

  /** A share scaled back by its total is the value times one hundred. */
  lemma ShareScales(v: real, total: real)
    requires total != 0.0
    ensures Share(v, total) * total == v * 100.0
  {
  }

  /** Shares of one total add up like the values they are shares of. */
  lemma ShareAdd(v: real, w: real, total: real)
    requires total != 0.0
    ensures Share(v, total) + Share(w, total) == Share(v + w, total)
  {
  }

  /** `stocks.map(stock => ({ symbol, weight: value / total * 100 }))`. */
  function Weights(stocks: seq<Stock>, total: real): (r: seq<Holding>)
    requires stocks == [] || total != 0.0
    ensures |r| == |stocks|
    ensures forall i :: 0 <= i < |r| ==> r[i].symbol == stocks[i].symbol
  {
    if stocks == [] then []
    else
      var last := stocks[|stocks| - 1];
      Weights(stocks[..|stocks| - 1], total) + [Holding(last.symbol, Share(HoldingValue(last), total))]
  }

  /** Each stock's weight is its value's share of the total. */
  lemma {:induction false} WeightsAt(stocks: seq<Stock>, total: real)
    requires stocks == [] || total != 0.0
    ensures forall i :: 0 <= i < |stocks| ==> Weights(stocks, total)[i].weight == Share(HoldingValue(stocks[i]), total)
    decreases |stocks|
  {
    if stocks != [] {
      var init := stocks[..|stocks| - 1];
      WeightsAt(init, total);
      var w := Weights(stocks, total);
      assert w[..|w| - 1] == Weights(init, total);
      forall i | 0 <= i < |stocks|
        ensures w[i].weight == Share(HoldingValue(stocks[i]), total)
      {
        if i < |init| {
          assert w[i] == Weights(init, total)[i];
          assert stocks[i] == init[i];
        }
      }
    }
  }

  /**
   * handleOptimize: one entry per stock, in stock order, weighted by its share
   * of the total value. An empty list maps to no weights without dividing.
   */
  function OptimizeWeights(stocks: seq<Stock>): (r: seq<Holding>)
    requires stocks == [] || TotalValue(stocks) != 0.0
    ensures stocks == [] ==> r == []
    ensures |r| == |stocks|
    ensures forall i :: 0 <= i < |r| ==>
      r[i].symbol == stocks[i].symbol && r[i].weight == Share(HoldingValue(stocks[i]), TotalValue(stocks))
  {
    WeightsAt(stocks, TotalValue(stocks));
    Weights(stocks, TotalValue(stocks))
  }

  /** The weights together are the share of the whole list's value. */
  lemma {:induction false} WeightsSum(stocks: seq<Stock>, total: real)
    requires total != 0.0
    ensures SumWeights(Weights(stocks, total)) == Share(TotalValue(stocks), total)
    decreases |stocks|
  {
    if stocks != [] {
      var init := stocks[..|stocks| - 1];
      WeightsSum(init, total);
      WeightsSnoc(init, stocks[|stocks| - 1], total);
      assert init + [stocks[|stocks| - 1]] == stocks;
      ShareAdd(TotalValue(init), HoldingValue(stocks[|stocks| - 1]), total);
    } else {
      ShareZero(total);
    }
  }

  lemma WeightsSnoc(init: seq<Stock>, last: Stock, total: real)
    requires total != 0.0
    ensures SumWeights(Weights(init + [last], total)) == SumWeights(Weights(init, total)) + Share(HoldingValue(last), total)
    ensures TotalValue(init + [last]) == TotalValue(init) + HoldingValue(last)
  {
    var stocks := init + [last];
    assert stocks[..|stocks| - 1] == init;
    var w := Weights(stocks, total);
    assert w[..|w| - 1] == Weights(init, total);
  }

  lemma ShareZero(total: real)
    requires total != 0.0
    ensures SumWeights(Weights([], total)) == Share(TotalValue([]), total)
  {
  }

  lemma ShareWhole(total: real)
    requires total != 0.0
    ensures Share(total, total) == 100.0
  {
    assert total / total == 1.0;
  }

  /** The optimised weights add up to one hundred percent. */
  lemma OptimizeWeightsSumTo100(stocks: seq<Stock>)
    requires TotalValue(stocks) != 0.0
    ensures SumWeights(OptimizeWeights(stocks)) == 100.0
  {
    var t := TotalValue(stocks);
    assert OptimizeWeights(stocks) == Weights(stocks, t);
    WeightsSum(stocks, t);
    ShareWhole(t);
  }

  // ------------------------------------------------------------- typeahead

  /** `slice(0, 10)`. */
  const SuggestionLimit: nat := 10

  function Take(s: seq<string>, n: nat): (r: seq<string>)
    ensures |r| <= n && |r| <= |s| && r == s[..|r|]
    ensures |s| <= n ==> r == s
  {
    if |s| <= n then s else s[..n]
  }

  /** `available.filter(s => s.includes(q))`. */
  function Matching(available: seq<string>, q: string): (r: seq<string>)
    ensures |r| <= |available|
    ensures forall s :: s in r ==> s in available && Strings.Includes(s, q)
    ensures forall s :: s in available && Strings.Includes(s, q) ==> s in r
  {
    if available == [] then []
    else (if Strings.Includes(available[0], q) then [available[0]] else []) + Matching(available[1..], q)
  }

  /** The filter keeps list order: matching a concatenation concatenates the matches. */
  lemma {:induction false} MatchingAppend(a: seq<string>, b: seq<string>, q: string)
    ensures Matching(a + b, q) == Matching(a, q) + Matching(b, q)
    decreases |a|
  {
    if a == [] {
      assert a + b == b;
    } else {
      var head := if Strings.Includes(a[0], q) then [a[0]] else [];
      assert (a + b)[0] == a[0];
      assert (a + b)[1..] == a[1..] + b;
      calc {
        Matching(a + b, q);
        head + Matching(a[1..] + b, q);
        { MatchingAppend(a[1..], b, q); }
        head + (Matching(a[1..], q) + Matching(b, q));
        (head + Matching(a[1..], q)) + Matching(b, q);
        Matching(a, q) + Matching(b, q);
      }
    }
  }

  /** The empty query matches everything, so the `!q` shortcut agrees with the filter. */
  lemma {:induction false} MatchingEmptyQuery(available: seq<string>)
    ensures Matching(available, "") == available
    decreases |available|
  {
    if available != [] {
      Strings.IncludesEmpty(available[0]);
      MatchingEmptyQuery(available[1..]);
    }
  }

  /** The suggestion list shown for the current symbol query. */
  function Typeahead(available: seq<string>, symbolQuery: string): (r: seq<string>)
    ensures |r| <= SuggestionLimit
    ensures symbolQuery == "" ==> r == Take(available, SuggestionLimit)
    ensures symbolQuery != "" ==> r == Take(Matching(available, Strings.ToUpper(symbolQuery)), SuggestionLimit)
  {
    var q := Strings.ToUpper(symbolQuery);
    if q == "" then Take(available, SuggestionLimit)
    else Take(Matching(available, q), SuggestionLimit)
  }

  /** Whatever the query, the list is the first ten symbols containing its upper-cased form. */
  lemma TypeaheadIsFilter(available: seq<string>, symbolQuery: string)
    ensures Typeahead(available, symbolQuery) == Take(Matching(available, Strings.ToUpper(symbolQuery)), SuggestionLimit)
  {
    if symbolQuery == "" {
      MatchingEmptyQuery(available);
    }
  }

  /** Every suggestion is an available symbol in which the upper-cased query occurs. */
  lemma TypeaheadSound(available: seq<string>, symbolQuery: string, s: string)
    requires s in Typeahead(available, symbolQuery)
    ensures s in available
    ensures exists i :: Strings.OccursAt(s, Strings.ToUpper(symbolQuery), i)
  {
    TypeaheadIsFilter(available, symbolQuery);
    var m := Matching(available, Strings.ToUpper(symbolQuery));
    var r := Take(m, SuggestionLimit);
    var k :| 0 <= k < |r| && r[k] == s;
    assert m[k] == s;
    Strings.IncludesMeansOccurs(s, Strings.ToUpper(symbolQuery));
  }

  /** A matching symbol is left out only when ten suggestions are already shown. */
  lemma TypeaheadComplete(available: seq<string>, symbolQuery: string, s: string)
    requires s in available && Strings.Includes(s, Strings.ToUpper(symbolQuery))
    requires s !in Typeahead(available, symbolQuery)
    ensures |Typeahead(available, symbolQuery)| == SuggestionLimit
  {
    TypeaheadIsFilter(available, symbolQuery);
  }

  /**
   * Clicking a suggestion: it becomes both the stored symbol and the query,
   * and the handler empties the suggestion list. The query change re-runs
   * the typeahead afterwards, which Typeahead models.
   */
  function PickSuggestion(form: AddForm, s: string): (r: (AddForm, seq<string>))
    ensures r.0.newStock.symbol == s && r.0.symbolQuery == s && r.1 == []
    ensures r.0.newStock == form.newStock.(symbol := s)
    ensures r.0 == form.(newStock := r.0.newStock, symbolQuery := s)
  {
    (form.(newStock := form.newStock.(symbol := s), symbolQuery := s), [])
  }

  /** A picked suggestion satisfies the symbol check of the add button. */
  lemma PickedSymbolIsValid(form: AddForm, available: seq<string>, s: string)
    requires s in Typeahead(available, form.symbolQuery) && s != ""
    ensures Validate(PickSuggestion(form, s).0.newStock).symbol.None?
  {
  }

  // ------------------------------------------------------------ live merge

  /** `(current - previous) / previous * 100`, None where that is not a finite number. */
  function RelativeChange(current: real, previous: real): (r: Option<real>)
    ensures r.Some? <==> previous != 0.0
    ensures r.Some? ==> r.value * previous == (current - previous) * 100.0
  {
    if previous == 0.0 then None else Some((current - previous) / previous * 100.0)
  }

  /** handleMessage: every row of the quoted symbol takes the live price and the change from its previous price. */
  function MergeLive(stocks: seq<Stock>, data: Quote): (r: seq<Stock>)
    ensures |r| == |stocks|
    ensures forall i :: 0 <= i < |r| ==>
      r[i].symbol == stocks[i].symbol && r[i].price == stocks[i].price && r[i].quantity == stocks[i].quantity
    ensures forall i :: 0 <= i < |r| && stocks[i].symbol != data.symbol ==> r[i] == stocks[i]
    ensures forall i :: 0 <= i < |r| && stocks[i].symbol == data.symbol ==>
      r[i].livePrice == Some(data.price)
      && r[i].percentageChange == RelativeChange(data.price, EffectivePrice(stocks[i]))
  {
    seq(|stocks|, i requires 0 <= i < |stocks| =>
      var s := stocks[i];
      if s.symbol == data.symbol
      then s.(livePrice := Some(data.price), percentageChange := RelativeChange(data.price, EffectivePrice(s)))
      else s)
  }

  /**
   * The change is measured from the last live price, so the same non-zero
   * quote delivered twice reports no change the second time.
   */
  lemma MergeLiveRepeat(stocks: seq<Stock>, data: Quote, i: nat)
    requires i < |stocks| && stocks[i].symbol == data.symbol && data.price != 0.0
    ensures MergeLive(MergeLive(stocks, data), data)[i].livePrice == Some(data.price)
    ensures MergeLive(MergeLive(stocks, data), data)[i].percentageChange == Some(0.0)
  {
    var once := MergeLive(stocks, data);
    assert EffectivePrice(once[i]) == data.price;
    var c := RelativeChange(data.price, data.price);
    assert c.value * data.price == 0.0;
  }

  /** Updates for different symbols touch disjoint rows, so their order does not matter. */
  lemma MergeLiveCommutes(stocks: seq<Stock>, d1: Quote, d2: Quote)
    requires d1.symbol != d2.symbol
    ensures MergeLive(MergeLive(stocks, d1), d2) == MergeLive(MergeLive(stocks, d2), d1)
  {
    var a := MergeLive(MergeLive(stocks, d1), d2);
    var b := MergeLive(MergeLive(stocks, d2), d1);
    assert forall i :: 0 <= i < |a| ==> a[i] == b[i];
  }
}
