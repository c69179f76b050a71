/**
 * The quote source adapter: turning the upstream chart response for one
 * symbol into a normalised quote, or into no quote at all.
 */
module QuoteSource {
  import opened Common

  /** The parts of the upstream chart response the adapter reads. */
  datatype Meta = Meta(regularMarketPrice: Option<real>, previousClose: real)
  datatype Series = Series(close: seq<real>)
  /** `indicators` is the `indicators.quote` array; None when that path is missing. */
  datatype ChartResult = ChartResult(meta: Meta, indicators: Option<seq<Series>>)
  datatype Chart = Chart(result: Option<seq<ChartResult>>)
  datatype Payload = Payload(chart: Option<Chart>)

  /** `data.chart && data.chart.result && data.chart.result.length > 0`. */
  predicate HasResult(p: Payload) {
    p.chart.Some? && p.chart.value.result.Some? && |p.chart.value.result.value| > 0
  }

  function FirstResult(p: Payload): ChartResult
    requires HasResult(p)
  {
    p.chart.value.result.value[0]
  }

  /** The last close of the first quote series, when there is one. */
  function LastClose(series: seq<Series>): (c: Option<real>)
    ensures c.Some? <==> |series| > 0 && |series[0].close| > 0
    ensures c.Some? ==> c.value == series[0].close[|series[0].close| - 1]
  {
    if |series| > 0 && |series[0].close| > 0 then Some(series[0].close[|series[0].close| - 1])
    else None
  }

  /**
   * `meta.regularMarketPrice || quote.close[quote.close.length - 1]` on a
   * result whose `indicators.quote` exists.
   */
  function CurrentPrice(meta: Meta, series: seq<Series>): (p: Option<real>)
    ensures Truthy(meta.regularMarketPrice) ==> p == meta.regularMarketPrice
    ensures !Truthy(meta.regularMarketPrice) ==> p == LastClose(series)
  {
    if Truthy(meta.regularMarketPrice) then meta.regularMarketPrice else LastClose(series)
  }

  /** `priceChange / previousClose * 100`, None where that is not a finite number. */
  function PercentageChange(priceChange: real, previousClose: real): (r: Option<real>)
    ensures r.Some? <==> previousClose != 0.0
    ensures r.Some? ==> r.value * previousClose == priceChange * 100.0
  {
    if previousClose == 0.0 then None else Some(priceChange / previousClose * 100.0)
  }

  /** The quote built from a price and the previous close, stamped with `now`. */
  function Normalise(symbol: string, price: real, previousClose: real, now: string): (q: Quote)
    ensures q.symbol == symbol && q.price == price && q.previousClose == previousClose
    ensures q.priceChange + previousClose == price
    ensures q.percentageChange == PercentageChange(price - previousClose, previousClose)
    ensures q.timestamp == now
  {
    var change := price - previousClose;
    Quote(symbol, price, previousClose, change, PercentageChange(change, previousClose), now)
  }

  /**
   * fetchStockData: `response` is the parsed body, None when the request or
   * the parse failed; every failure is reported as no quote.
   */
  function FetchStockData(symbol: string, response: Option<Payload>, now: string): (q: Option<Quote>)
    ensures response.None? ==> q.None?
    ensures response.Some? && !HasResult(response.value) ==> q.None?
    ensures q.Some? <==>
      response.Some? && HasResult(response.value)
      && FirstResult(response.value).indicators.Some?
      && CurrentPrice(FirstResult(response.value).meta, FirstResult(response.value).indicators.value).Some?
    ensures q.Some? ==>
      var r := FirstResult(response.value);
      && q.value.symbol == symbol
      && q.value.price == (if Truthy(r.meta.regularMarketPrice) then r.meta.regularMarketPrice.value
                           else LastClose(r.indicators.value).value)
      && q.value.previousClose == r.meta.previousClose
      && q.value.priceChange == q.value.price - r.meta.previousClose
      && q.value.percentageChange == PercentageChange(q.value.priceChange, r.meta.previousClose)
      && q.value.timestamp == now
  {
    if response.None? || !HasResult(response.value) then None
    else
      var r := FirstResult(response.value);
      if r.indicators.None? then None
      else
        var price := CurrentPrice(r.meta, r.indicators.value);
        if price.None? then None
        else Some(Normalise(symbol, price.value, r.meta.previousClose, now))
  }

  /** A price of 105 against a previous close of 100 is a change of 5, or 5 percent. */
  lemma PercentageExample()
    ensures Normalise("0700.HK", 105.0, 100.0, "t").priceChange == 5.0
    ensures Normalise("0700.HK", 105.0, 100.0, "t").percentageChange == Some(5.0)
  {
    assert PercentageChange(5.0, 100.0).value * 100.0 == 500.0;
  }
}
