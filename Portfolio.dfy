/**
 * The portfolio list and the operations the dashboard pages share: the
 * add-stock form and its validation, the per-index price and quantity edits,
 * and removal of a stock together with its portfolio weights.
 */
module Portfolio {
  import opened Common
  import Strings

  /** A stock row; the live fields are absent until a quote arrives. */
  datatype Stock = Stock(
    symbol: string,
    price: real,
    quantity: int,
    livePrice: Option<real>,
    percentageChange: Option<real>)

  /**
   * `stock.livePrice || stock.price`: the live price once a quote has
   * arrived, the entered price before.
   */
  function EffectivePrice(s: Stock): real {
    OrElse(s.livePrice, s.price)
  }

  /** A portfolio weight. */
  datatype Holding = Holding(symbol: string, weight: real)

  /** `{ symbol: "", price: 0, quantity: 0 }`, the empty form. */
  const EmptyStock: Stock := Stock("", 0.0, 0, None, None)

  const SymbolRequired: string := "Symbol is required"
  const PriceMustBePositive: string := "Price must be > 0"
  const QuantityMustBePositive: string := "Quantity must be > 0"

  /** The error object of the add form: one optional message per field. */
  datatype FormErrors = FormErrors(symbol: Option<string>, price: Option<string>, quantity: Option<string>)

  /** `Object.keys(e).length === 0`. */
  predicate NoErrors(e: FormErrors) {
    e.symbol.None? && e.price.None? && e.quantity.None?
  }

  /** The validation of the add button: one message per failed check. */
  function Validate(s: Stock): (e: FormErrors)
    ensures e.symbol == (if s.symbol == "" then Some(SymbolRequired) else None)
    ensures e.price == (if s.price <= 0.0 then Some(PriceMustBePositive) else None)
    ensures e.quantity == (if s.quantity <= 0 then Some(QuantityMustBePositive) else None)
  {
    FormErrors(
      if s.symbol == "" then Some(SymbolRequired) else None,
      if s.price <= 0.0 then Some(PriceMustBePositive) else None,
      if s.quantity <= 0 then Some(QuantityMustBePositive) else None)
  }

  /** A stock the add form accepts. */
  predicate Acceptable(s: Stock) {
    s.symbol != "" && s.price > 0.0 && s.quantity > 0
  }

  lemma ValidateAcceptable(s: Stock)
    ensures NoErrors(Validate(s)) <==> Acceptable(s)
  {
  }

  /** The add-stock form's state. */
  datatype AddForm = AddForm(newStock: Stock, symbolQuery: string, showAddForm: bool, errors: FormErrors)

  /**
   * The add button with validation: the errors are recorded; only when there
   * are none is the stock appended and the form reset and closed.
   */
  function SubmitNewStock(stocks: seq<Stock>, form: AddForm): (r: (seq<Stock>, AddForm))
    ensures r.1.errors == Validate(form.newStock)
    ensures Acceptable(form.newStock) ==>
      r.0 == stocks + [form.newStock]
      && r.1 == AddForm(EmptyStock, "", false, FormErrors(None, None, None))
    ensures !Acceptable(form.newStock) ==> r.0 == stocks && r.1 == form.(errors := Validate(form.newStock))
  {
    var e := Validate(form.newStock);
    if NoErrors(e) then (stocks + [form.newStock], AddForm(EmptyStock, "", false, e))
    else (stocks, form.(errors := e))
  }

  /** Every stock the form adds passes all three checks, and nothing else changes the list. */
  lemma {:induction false} SubmitAddsOnlyAcceptable(stocks: seq<Stock>, form: AddForm)
    ensures var r := SubmitNewStock(stocks, form);
      (|r.0| == |stocks| + 1 && r.0[..|stocks|] == stocks && Acceptable(r.0[|stocks|]))
      || (r.0 == stocks && !NoErrors(r.1.errors))
  {
    var r := SubmitNewStock(stocks, form);
    if Acceptable(form.newStock) {
      assert r.0[..|stocks|] == stocks;
    } else {
      ValidateAcceptable(form.newStock);
    }
  }

  /** The symbol field: the query keeps what was typed, the stock stores it upper-cased. */
  function SetSymbolInput(form: AddForm, input: string): (r: AddForm)
    ensures r.symbolQuery == input && r.newStock.symbol == Strings.ToUpper(input)
    ensures r.newStock == form.newStock.(symbol := r.newStock.symbol)
    ensures r.showAddForm == form.showAddForm && r.errors == form.errors
  {
    form.(symbolQuery := input, newStock := form.newStock.(symbol := Strings.ToUpper(input)))
  }

  /** The stored symbol has the typed length and no lower-case ASCII letter. */
  lemma SetSymbolInputUpperCase(form: AddForm, input: string)
    ensures var s := SetSymbolInput(form, input).newStock.symbol;
      |s| == |input| && forall i :: 0 <= i < |s| ==> !Strings.IsLowerAscii(s[i])
  {
  }

  /** `parseFloat(v) || 0` and `parseInt(v) || 0`: None stands for NaN. */
  function NumberOrZero(parsed: Option<real>): real {
    OrElse(parsed, 0.0)
  }

  function IntOrZero(parsed: Option<int>): int {
    if parsed.Some? then parsed.value else 0
  }

  /** The price input of row `index`: copy the list, then replace that row's price. */
  method EditPrice(stocks: seq<Stock>, index: nat, parsed: Option<real>) returns (updated: seq<Stock>)
    requires index < |stocks|
    ensures |updated| == |stocks|
    ensures updated[index] == stocks[index].(price := NumberOrZero(parsed))
    ensures forall j :: 0 <= j < |stocks| && j != index ==> updated[j] == stocks[j]
  {
    var val := NumberOrZero(parsed);
    var copy := new Stock[|stocks|](j requires 0 <= j < |stocks| => stocks[j]);
    copy[index] := copy[index].(price := val);
    updated := copy[..];
  }

  /** The quantity input of row `index`: copy the list, then replace that row's quantity. */
  method EditQuantity(stocks: seq<Stock>, index: nat, parsed: Option<int>) returns (updated: seq<Stock>)
    requires index < |stocks|
    ensures |updated| == |stocks|
    ensures updated[index] == stocks[index].(quantity := IntOrZero(parsed))
    ensures forall j :: 0 <= j < |stocks| && j != index ==> updated[j] == stocks[j]
  {
    var val := IntOrZero(parsed);
    var copy := new Stock[|stocks|](j requires 0 <= j < |stocks| => stocks[j]);
    copy[index] := copy[index].(quantity := val);
    updated := copy[..];
  }

  /** `portfolio.filter(p => p.symbol !== symbol)`. */
  function WithoutSymbol(portfolio: seq<Holding>, symbol: string): (r: seq<Holding>)
    ensures |r| <= |portfolio|
    ensures forall h :: h in r ==> h in portfolio && h.symbol != symbol
    ensures forall h :: h in portfolio && h.symbol != symbol ==> h in r
  {
    if portfolio == [] then []
    else (if portfolio[0].symbol != symbol then [portfolio[0]] else []) + WithoutSymbol(portfolio[1..], symbol)
  }

  /** The filter keeps the order of what it keeps. */
  lemma {:induction false} WithoutSymbolAppend(a: seq<Holding>, b: seq<Holding>, symbol: string)
    ensures WithoutSymbol(a + b, symbol) == WithoutSymbol(a, symbol) + WithoutSymbol(b, symbol)
    decreases |a|
  {
    if a == [] {
      assert a + b == b;
    } else {
      var head := if a[0].symbol != symbol then [a[0]] else [];
      assert (a + b)[0] == a[0];
      assert (a + b)[1..] == a[1..] + b;
      calc {
        WithoutSymbol(a + b, symbol);
        head + WithoutSymbol(a[1..] + b, symbol);
        { WithoutSymbolAppend(a[1..], b, symbol); }
        head + (WithoutSymbol(a[1..], symbol) + WithoutSymbol(b, symbol));
        (head + WithoutSymbol(a[1..], symbol)) + WithoutSymbol(b, symbol);
        WithoutSymbol(a, symbol) + WithoutSymbol(b, symbol);
      }
    }
  }

  /**
   * The confirmed delete: the row at the confirmed index is spliced out, every
   * weight for its symbol is dropped, and the confirmation is cleared.
   */
  method RemoveConfirmed(stocks: seq<Stock>, portfolio: seq<Holding>, confirm: Option<nat>)
    returns (newStocks: seq<Stock>, newPortfolio: seq<Holding>, newConfirm: Option<nat>)
    requires confirm.Some? ==> confirm.value < |stocks|
    ensures confirm.None? ==> newStocks == stocks && newPortfolio == portfolio && newConfirm == None
    ensures confirm.Some? ==>
      var i := confirm.value;
      && |newStocks| == |stocks| - 1
      && (forall j :: 0 <= j < i ==> newStocks[j] == stocks[j])
      && (forall j :: i <= j < |newStocks| ==> newStocks[j] == stocks[j + 1])
      && newPortfolio == WithoutSymbol(portfolio, stocks[i].symbol)
      && newConfirm == None
  {
    newStocks, newPortfolio, newConfirm := stocks, portfolio, None;
    if confirm.None? {
      return;
    }
    var idx := confirm.value;
    var removed := stocks[idx];
    newStocks := stocks[..idx] + stocks[idx + 1..];
    newPortfolio := WithoutSymbol(portfolio, removed.symbol);
  }

  /** The number of weights recorded for `symbol`. */
  function CountSymbol(portfolio: seq<Holding>, symbol: string): nat {
    if portfolio == [] then 0
    else (if portfolio[0].symbol == symbol then 1 else 0) + CountSymbol(portfolio[1..], symbol)
  }

  lemma {:induction false} CountSymbolAppend(a: seq<Holding>, b: seq<Holding>, symbol: string)
    ensures CountSymbol(a + b, symbol) == CountSymbol(a, symbol) + CountSymbol(b, symbol)
    decreases |a|
  {
    if a == [] {
      assert a + b == b;
    } else {
      CountSymbolAppend(a[1..], b, symbol);
      assert (a + b)[0] == a[0];
      assert (a + b)[1..] == a[1..] + b;
    }
  }

  /** After a delete no weight for the removed symbol is left. */
  lemma {:induction false} WithoutSymbolCount(portfolio: seq<Holding>, symbol: string)
    ensures CountSymbol(WithoutSymbol(portfolio, symbol), symbol) == 0
    decreases |portfolio|
  {
    if portfolio != [] {
      WithoutSymbolCount(portfolio[1..], symbol);
      var head := if portfolio[0].symbol != symbol then [portfolio[0]] else [];
      CountSymbolAppend(head, WithoutSymbol(portfolio[1..], symbol), symbol);
    }
  }
}
