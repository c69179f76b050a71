/**
 * The quote relay: a registry of live connections, a last-known-value cache
 * from symbol to quote, and the handlers that refresh the cache from the
 * upstream source and fan every refreshed quote out to the open connections.
 *
 * The upstream source is an oracle `upstream` from symbol to parsed response
 * (None when the request fails), and the clock is the parameter `now`. Each
 * handler runs as one atomic step.
 */
module RelayServer {
  import opened Common
  import opened QuoteSource
  import Strings

  /** One subscriber connection; `send` appends to its outbox. */
  class Connection {
    var readyState: ReadyState
    var outbox: seq<Message>

    constructor (state: ReadyState)
      ensures readyState == state && outbox == []
    {
      readyState := state;
      outbox := [];
    }
  }

  /** What fetchStockData yields for `symbol` against the oracle. */
  function Fetch(symbol: string, upstream: string -> Option<Payload>, now: string): Option<Quote> {
    FetchStockData(symbol, upstream(symbol), now)
  }

  /** The cache after updateStockData has processed `symbols` in order. */
  function RefreshCache(cache: map<string, Quote>, symbols: seq<string>,
                        upstream: string -> Option<Payload>, now: string): (r: map<string, Quote>)
    ensures cache.Keys <= r.Keys
    ensures forall k :: k in r && k !in cache ==> k in symbols
  {
    if symbols == [] then cache
    else
      var last := symbols[|symbols| - 1];
      var before := RefreshCache(cache, symbols[..|symbols| - 1], upstream, now);
      match Fetch(last, upstream, now)
      case Some(q) => before[last := q]
      case None => before
  }

  /** The STOCK_UPDATE messages updateStockData broadcasts for `symbols`, in order. */
  function Broadcasts(symbols: seq<string>, upstream: string -> Option<Payload>, now: string): (r: seq<Message>)
    ensures |r| <= |symbols|
    ensures forall i :: 0 <= i < |r| ==> r[i].StockUpdate? && r[i].data.symbol in symbols
  {
    if symbols == [] then []
    else
      var last := symbols[|symbols| - 1];
      Broadcasts(symbols[..|symbols| - 1], upstream, now)
        + match Fetch(last, upstream, now)
          case Some(q) => [StockUpdate(q)]
          case None => []
  }

  /** The snapshot a new connection is sent: one STOCK_UPDATE per cached symbol in `order`. */
  function Snapshot(cache: map<string, Quote>, order: seq<string>): (msgs: seq<Message>)
    requires forall i :: 0 <= i < |order| ==> order[i] in cache
    ensures |msgs| == |order|
    ensures forall i :: 0 <= i < |order| ==> msgs[i] == StockUpdate(cache[order[i]])
  {
    seq(|order|, i requires 0 <= i < |order| => StockUpdate(cache[order[i]]))
  }

  /** The symbols of `symbols` whose fetch succeeds. */
  ghost function Succeeded(symbols: seq<string>, upstream: string -> Option<Payload>, now: string): set<string> {
    set s | s in symbols && Fetch(s, upstream, now).Some?
  }

  /**
   * After a refresh the cache holds a symbol exactly when it held it before
   * or its fetch succeeded; a successful symbol maps to its fetched quote, and
   * every other entry is left as it was.
   */
  lemma {:induction false} RefreshEntry(cache: map<string, Quote>, symbols: seq<string>,
                                        upstream: string -> Option<Payload>, now: string, s: string)
    ensures var r := RefreshCache(cache, symbols, upstream, now);
      && (s in r <==> s in cache || s in Succeeded(symbols, upstream, now))
      && (s in Succeeded(symbols, upstream, now) ==> r[s] == Fetch(s, upstream, now).value)
      && (s !in Succeeded(symbols, upstream, now) && s in cache ==> r[s] == cache[s])
    decreases |symbols|
  {
    if symbols != [] {
      var init := symbols[..|symbols| - 1];
      var last := symbols[|symbols| - 1];
      RefreshEntry(cache, init, upstream, now, s);
      assert symbols == init + [last];
      assert s in Succeeded(symbols, upstream, now) <==>
        s in Succeeded(init, upstream, now) || (s == last && Fetch(last, upstream, now).Some?);
    }
  }

  /** The cache only grows: its keys become the old keys plus the successfully fetched symbols. */
  lemma RefreshKeys(cache: map<string, Quote>, symbols: seq<string>,
                    upstream: string -> Option<Payload>, now: string)
    ensures RefreshCache(cache, symbols, upstream, now).Keys
         == cache.Keys + Succeeded(symbols, upstream, now)
  {
    forall s ensures s in RefreshCache(cache, symbols, upstream, now).Keys
                 <==> s in cache.Keys + Succeeded(symbols, upstream, now)
    {
      RefreshEntry(cache, symbols, upstream, now, s);
    }
  }

  /** Refreshing `a` then `b` broadcasts `a`'s updates, then `b`'s: input order is kept. */
  lemma {:induction false} BroadcastsAppend(a: seq<string>, b: seq<string>,
                                            upstream: string -> Option<Payload>, now: string)
    ensures Broadcasts(a + b, upstream, now) == Broadcasts(a, upstream, now) + Broadcasts(b, upstream, now)
    decreases |b|
  {
    if b == [] {
      assert a + b == a;
    } else {
      var init := b[..|b| - 1];
      BroadcastsAppend(a, init, upstream, now);
      assert (a + b)[..|a + b| - 1] == a + init;
      assert (a + b)[|a + b| - 1] == b[|b| - 1];
    }
  }

  /**
   * Every broadcast carries a successfully fetched quote for one of the
   * symbols, and every successfully fetched symbol is broadcast: a failure
   * for one symbol does not keep the others from being delivered.
   */
  lemma {:induction false} BroadcastsCover(symbols: seq<string>, upstream: string -> Option<Payload>, now: string)
    ensures forall m :: m in Broadcasts(symbols, upstream, now) ==>
      m.StockUpdate? && m.data.symbol in symbols && Fetch(m.data.symbol, upstream, now) == Some(m.data)
    ensures forall s :: s in symbols && Fetch(s, upstream, now).Some? ==>
      StockUpdate(Fetch(s, upstream, now).value) in Broadcasts(symbols, upstream, now)
    ensures |Broadcasts(symbols, upstream, now)| <= |symbols|
    decreases |symbols|
  {
    if symbols != [] {
      var init := symbols[..|symbols| - 1];
      BroadcastsCover(init, upstream, now);
      assert symbols == init + [symbols[|symbols| - 1]];
    }
  }

  /** A refresh in which every fetch fails changes nothing and broadcasts nothing. */
  lemma {:induction false} RefreshAllFailed(cache: map<string, Quote>, symbols: seq<string>,
                                            upstream: string -> Option<Payload>, now: string)
    requires forall i :: 0 <= i < |symbols| ==> Fetch(symbols[i], upstream, now).None?
    ensures RefreshCache(cache, symbols, upstream, now) == cache
    ensures Broadcasts(symbols, upstream, now) == []
    decreases |symbols|
  {
    if symbols != [] {
      RefreshAllFailed(cache, symbols[..|symbols| - 1], upstream, now);
    }
  }

  /** `symbols.map(s => stockData.get(s)).filter(Boolean)`. */
  function CachedQuotes(cache: map<string, Quote>, symbols: seq<string>): (r: seq<Quote>)
    ensures |r| <= |symbols|
    ensures forall q :: q in r ==> q in cache.Values
  {
    if symbols == [] then []
    else (if symbols[0] in cache then [cache[symbols[0]]] else []) + CachedQuotes(cache, symbols[1..])
  }

  /** Request order is kept: the answer for `a + b` is the answer for `a`, then for `b`. */
  lemma {:induction false} CachedQuotesAppend(cache: map<string, Quote>, a: seq<string>, b: seq<string>)
    ensures CachedQuotes(cache, a + b) == CachedQuotes(cache, a) + CachedQuotes(cache, b)
    decreases |a|
  {
    if a == [] {
      assert a + b == b;
    } else {
      CachedQuotesAppend(cache, a[1..], b);
      var head := if a[0] in cache then [cache[a[0]]] else [];
      assert (a + b)[0] == a[0];
      assert (a + b)[1..] == a[1..] + b;
      assert CachedQuotes(cache, a + b) == head + CachedQuotes(cache, a[1..] + b);
      assert CachedQuotes(cache, a) == head + CachedQuotes(cache, a[1..]);
    }
  }

  /** When every requested symbol is cached, the answer is their quotes, one for one. */
  lemma {:induction false} CachedQuotesAllCached(cache: map<string, Quote>, symbols: seq<string>)
    requires forall i :: 0 <= i < |symbols| ==> symbols[i] in cache
    ensures |CachedQuotes(cache, symbols)| == |symbols|
    ensures forall i :: 0 <= i < |symbols| ==> CachedQuotes(cache, symbols)[i] == cache[symbols[i]]
    decreases |symbols|
  {
    if symbols != [] {
      CachedQuotesAllCached(cache, symbols[1..]);
    }
  }

  /** Symbols that are not cached are dropped silently. */
  lemma {:induction false} CachedQuotesNoneCached(cache: map<string, Quote>, symbols: seq<string>)
    requires forall i :: 0 <= i < |symbols| ==> symbols[i] !in cache
    ensures CachedQuotes(cache, symbols) == []
    decreases |symbols|
  {
    if symbols != [] {
      CachedQuotesNoneCached(cache, symbols[1..]);
    }
  }

  /** GET /api/stocks: `query` is the `symbols` query parameter, if given. */
  function StocksQuery(cache: map<string, Quote>, query: Option<string>): (r: seq<Quote>)
    ensures query.None? || query == Some("") ==> r == []
    ensures query.Some? && query.value != "" ==> r == CachedQuotes(cache, Strings.Split(query.value, ','))
  {
    if query.Some? && query.value != "" then CachedQuotes(cache, Strings.Split(query.value, ','))
    else []
  }

  /** The relay's process-wide state: the `clients` set and the `stockData` cache. */
  class Relay {
    var clients: set<Connection>
    var stockData: map<string, Quote>

    constructor ()
      ensures clients == {} && stockData == map[]
    {
      clients := {};
      stockData := map[];
    }

    /** broadcastToClients: the same message once to every OPEN connection, nothing to the others. */
    method BroadcastToClients(msg: Message)
      modifies clients
      ensures forall c :: c in clients ==> c.readyState == old(c.readyState)
      ensures forall c :: c in clients ==>
        c.outbox == old(c.outbox) + (if c.readyState == Open then [msg] else [])
    {
      var pending := clients;
      while pending != {}
        invariant pending <= clients
        invariant forall c :: c in clients ==> c.readyState == old(c.readyState)
        invariant forall c :: c in pending ==> c.outbox == old(c.outbox)
        invariant forall c :: c in clients && c !in pending ==>
          c.outbox == old(c.outbox) + (if c.readyState == Open then [msg] else [])
        decreases pending
      {
        var c :| c in pending;
        if c.readyState == Open {
          c.outbox := c.outbox + [msg];
        }
        pending := pending - {c};
      }
    }

    /**
     * updateStockData: fetch each symbol in order; each success is written to
     * the cache and broadcast at once, each failure is skipped.
     */
    method UpdateStockData(symbols: seq<string>, upstream: string -> Option<Payload>, now: string)
      modifies this, clients
      ensures clients == old(clients)
      ensures stockData == RefreshCache(old(stockData), symbols, upstream, now)
      ensures forall c :: c in clients ==> c.readyState == old(c.readyState)
      ensures forall c :: c in clients ==>
        c.outbox == old(c.outbox) + (if c.readyState == Open then Broadcasts(symbols, upstream, now) else [])
    {
      var i := 0;
      while i < |symbols|
        invariant 0 <= i <= |symbols|
        invariant clients == old(clients)
        invariant stockData == RefreshCache(old(stockData), symbols[..i], upstream, now)
        invariant forall c :: c in clients ==> c.readyState == old(c.readyState)
        invariant forall c :: c in clients ==>
          c.outbox == old(c.outbox) + (if c.readyState == Open then Broadcasts(symbols[..i], upstream, now) else [])
      {
        assert symbols[..i + 1][..i] == symbols[..i];
        var data := FetchStockData(symbols[i], upstream(symbols[i]), now);
        if data.Some? {
          stockData := stockData[symbols[i] := data.value];
          BroadcastToClients(StockUpdate(data.value));
        }
        i := i + 1;
      }
      assert symbols[..i] == symbols;
    }

    /** The connection handler: register `ws` and send it the whole cache, one update per entry. */
    method Accept(ws: Connection) returns (ghost order: seq<string>)
      modifies this, ws
      ensures clients == old(clients) + {ws}
      ensures stockData == old(stockData)
      ensures Enumerates(order, stockData.Keys)
      ensures ws.readyState == old(ws.readyState)
      ensures ws.outbox == old(ws.outbox) + Snapshot(stockData, order)
    {
      clients := clients + {ws};
      var keys := Enumerate(stockData.Keys);
      order := keys;
      var i := 0;
      while i < |keys|
        invariant 0 <= i <= |keys|
        invariant clients == old(clients) + {ws}
        invariant stockData == old(stockData)
        invariant Enumerates(keys, stockData.Keys)
        invariant ws.readyState == old(ws.readyState)
        invariant ws.outbox == old(ws.outbox) + Snapshot(stockData, keys[..i])
      {
        ws.outbox := ws.outbox + [StockUpdate(stockData[keys[i]])];
        i := i + 1;
      }
      assert keys[..i] == keys;
    }

    /** The message handler: a SUBSCRIBE refreshes exactly the requested symbols; anything else is ignored. */
    method HandleMessage(msg: Message, upstream: string -> Option<Payload>, now: string)
      modifies this, clients
      ensures clients == old(clients)
      ensures stockData == if msg.Subscribe? then RefreshCache(old(stockData), msg.symbols, upstream, now)
                           else old(stockData)
      ensures forall c :: c in clients ==> c.readyState == old(c.readyState)
      ensures forall c :: c in clients ==>
        c.outbox == old(c.outbox)
          + (if msg.Subscribe? && c.readyState == Open then Broadcasts(msg.symbols, upstream, now) else [])
    {
      if msg.Subscribe? {
        UpdateStockData(msg.symbols, upstream, now);
      }
    }

    /** The close and error handlers: unregister `ws`; unregistering an absent connection changes nothing. */
    method Unregister(ws: Connection)
      modifies this
      ensures clients == old(clients) - {ws}
      ensures ws !in old(clients) ==> clients == old(clients)
      ensures stockData == old(stockData)
    {
      clients := clients - {ws};
    }

    /** The periodic tick: refresh every symbol the cache holds, or nothing when it is empty. */
    method Tick(upstream: string -> Option<Payload>, now: string) returns (ghost refreshed: seq<string>)
      modifies this, clients
      ensures Enumerates(refreshed, old(stockData).Keys)
      ensures clients == old(clients)
      ensures stockData == RefreshCache(old(stockData), refreshed, upstream, now)
      ensures stockData.Keys == old(stockData).Keys
      ensures forall c :: c in clients ==> c.readyState == old(c.readyState)
      ensures forall c :: c in clients ==>
        c.outbox == old(c.outbox) + (if c.readyState == Open then Broadcasts(refreshed, upstream, now) else [])
    {
      refreshed := [];
      if |stockData| > 0 {
        var symbols := Enumerate(stockData.Keys);
        refreshed := symbols;
        UpdateStockData(symbols, upstream, now);
      }
      RefreshKeys(old(stockData), refreshed, upstream, now);
    }
  }
}
