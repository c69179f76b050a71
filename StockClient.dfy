/**
 * The resilient subscriber client: a per-symbol observer map with a "*"
 * wildcard, the set of symbols it has subscribed to, and a bounded reconnect
 * counter. The socket is its readyState (None when the client holds no
 * socket); open, message and close are event methods; callbacks are opaque
 * identities whose invocations are logged; the runtime's pending reconnect
 * timers are a set of timer ids.
 */
module StockClient {
  import opened Common

  /** The identity of a callback a page registered. */
  type CallbackId = nat

  /** One call of a registered callback with an incoming quote. */
  datatype Invocation = Invocation(callback: CallbackId, data: Quote)

  const Wildcard: string := "*"
  const MaxReconnectAttempts: nat := 5
  const ReconnectInterval: nat := 5000
  const DefaultUrl: string := "ws://localhost:3001"

  /**
   * handleStockUpdate: the callbacks an update invokes, in order: the
   * observer of its symbol, then the wildcard observer.
   */
  function Dispatch(subscribers: map<string, CallbackId>, data: Quote): (calls: seq<Invocation>)
    ensures |calls| == (if data.symbol in subscribers then 1 else 0) + (if Wildcard in subscribers then 1 else 0)
    ensures forall i :: 0 <= i < |calls| ==> calls[i].data == data
    ensures data.symbol in subscribers ==> calls[0].callback == subscribers[data.symbol]
    ensures Wildcard in subscribers ==> calls[|calls| - 1].callback == subscribers[Wildcard]
  {
    (if data.symbol in subscribers then [Invocation(subscribers[data.symbol], data)] else [])
    + (if Wildcard in subscribers then [Invocation(subscribers[Wildcard], data)] else [])
  }

  /** Only the symbol's own observer and the wildcard observer are ever invoked. */
  lemma DispatchOnlyRegistered(subscribers: map<string, CallbackId>, data: Quote, cb: CallbackId)
    requires forall k :: k in subscribers && subscribers[k] == cb ==> k != data.symbol && k != Wildcard
    ensures forall i :: 0 <= i < |Dispatch(subscribers, data)| ==> Dispatch(subscribers, data)[i].callback != cb
  {
  }

  /**
   * attemptReconnect on the counter: the counter after the call, and whether
   * a reconnect timer is scheduled.
   */
  function ReconnectStep(attempts: nat): (r: (nat, bool))
    ensures attempts >= MaxReconnectAttempts ==> r == (attempts, false)
    ensures attempts < MaxReconnectAttempts ==> r == (attempts + 1, true)
  {
    if attempts >= MaxReconnectAttempts then (attempts, false) else (attempts + 1, true)
  }

  /** The counter after `closes` close events with no open in between. */
  function AttemptsAfter(attempts: nat, closes: nat): nat
    decreases closes
  {
    if closes == 0 then attempts else AttemptsAfter(ReconnectStep(attempts).0, closes - 1)
  }

  /** The reconnect timers those close events schedule. */
  function ScheduledAfter(attempts: nat, closes: nat): nat
    decreases closes
  {
    if closes == 0 then 0
    else (if ReconnectStep(attempts).1 then 1 else 0) + ScheduledAfter(ReconnectStep(attempts).0, closes - 1)
  }

  function Min(a: int, b: int): int {
    if a <= b then a else b
  }

  /**
   * However many closes arrive between two opens, the counter stops at the
   * maximum and at most `MaxReconnectAttempts - attempts` reconnects are
   * scheduled: from a fresh open, never a sixth.
   */
  lemma {:induction false} ReconnectsBounded(attempts: nat, closes: nat)
    requires attempts <= MaxReconnectAttempts
    ensures AttemptsAfter(attempts, closes) == Min(attempts + closes, MaxReconnectAttempts)
    ensures ScheduledAfter(attempts, closes) == Min(closes, MaxReconnectAttempts - attempts)
    decreases closes
  {
    if closes > 0 {
      ReconnectsBounded(ReconnectStep(attempts).0, closes - 1);
    }
  }

  class StockWebSocketClient {
    const url: string
    var ws: Option<ReadyState>
    var reconnectTimeoutId: Option<nat>
    var subscribers: map<string, CallbackId>
    var subscribedSymbols: set<string>
    var reconnectAttempts: nat
    /** Every message written to a socket of this client, in order. */
    var sent: seq<Message>
    /** Every callback invocation, in order. */
    var invoked: seq<Invocation>
    /** The reconnect timers the runtime holds pending, and how many ids were handed out. */
    var timers: set<nat>
    var timersCreated: nat

    ghost predicate Valid()
      reads this
    {
      && reconnectAttempts <= MaxReconnectAttempts
      && (forall t :: t in timers ==> t < timersCreated)
      && (reconnectTimeoutId.Some? ==> reconnectTimeoutId.value < timersCreated)
    }

    constructor (url: string)
      ensures Valid()
      ensures this.url == url && ws == None && reconnectTimeoutId == None
      ensures subscribers == map[] && subscribedSymbols == {} && reconnectAttempts == 0
      ensures sent == [] && invoked == [] && timers == {}
    {
      this.url := url;
      ws := None;
      reconnectTimeoutId := None;
      subscribers := map[];
      subscribedSymbols := {};
      reconnectAttempts := 0;
      sent := [];
      invoked := [];
      timers := {};
      timersCreated := 0;
    }

    /** isConnected. */
    predicate IsConnected()
      reads this
    {
      ws == Some(Open)
    }

    /** connect: a new socket, CONNECTING; nothing else changes. */
    method Connect()
      requires Valid()
      modifies this`ws
      ensures Valid()
      ensures ws == Some(Connecting)
    {
      ws := Some(Connecting);
    }

    /**
     * The open event: the counter is reset, and when the client has
     * subscribed symbols one SUBSCRIBE carrying exactly those is sent.
     */
    method OnOpen() returns (ghost resent: seq<string>)
      requires Valid() && ws == Some(Connecting)
      modifies this
      ensures Valid()
      ensures ws == Some(Open) && reconnectAttempts == 0
      ensures old(subscribedSymbols) == {} ==> sent == old(sent)
      ensures old(subscribedSymbols) != {} ==>
        Enumerates(resent, old(subscribedSymbols)) && sent == old(sent) + [Message.Subscribe(resent)]
      ensures subscribedSymbols == old(subscribedSymbols) && subscribers == old(subscribers)
      ensures reconnectTimeoutId == old(reconnectTimeoutId) && timers == old(timers)
      ensures timersCreated == old(timersCreated) && invoked == old(invoked)
    {
      ws := Some(Open);
      reconnectAttempts := 0;
      resent := [];
      if |subscribedSymbols| > 0 {
        var symbols := Enumerate(subscribedSymbols);
        resent := symbols;
        SubscribeToSymbols(symbols);
        assert (set x | x in symbols) == old(subscribedSymbols);
      }
    }

    /**
     * The message event: a STOCK_UPDATE invokes the symbol's observer then
     * the wildcard observer; any other message invokes nothing.
     */
    method OnMessage(msg: Message)
      modifies this`invoked
      ensures msg.StockUpdate? ==> invoked == old(invoked) + Dispatch(subscribers, msg.data)
      ensures !msg.StockUpdate? ==> invoked == old(invoked)
    {
      if msg.StockUpdate? {
        HandleStockUpdate(msg.data);
      }
    }

    method HandleStockUpdate(data: Quote)
      modifies this`invoked
      ensures invoked == old(invoked) + Dispatch(subscribers, data)
    {
      if data.symbol in subscribers {
        invoked := invoked + [Invocation(subscribers[data.symbol], data)];
      }
      if Wildcard in subscribers {
        invoked := invoked + [Invocation(subscribers[Wildcard], data)];
      }
    }

    /**
     * The close event. Every socket the client ever opened keeps its close
     * handler, so a close can also come from a socket the client has already
     * replaced (`stale`): a later `connect` or `disconnect` let go of it. Such
     * a close leaves the held socket as it is, but still attempts a reconnect.
     */
    method OnClose(stale: bool)
      requires Valid()
      modifies this
      ensures Valid()
      ensures ws == if stale || old(ws).None? then old(ws) else Some(Closed)
      ensures (reconnectAttempts, reconnectTimeoutId != old(reconnectTimeoutId)) == ReconnectStep(old(reconnectAttempts))
      ensures reconnectTimeoutId != old(reconnectTimeoutId) ==>
        reconnectTimeoutId == Some(old(timersCreated)) && timers == old(timers) + {old(timersCreated)}
      ensures reconnectTimeoutId == old(reconnectTimeoutId) ==> timers == old(timers)
      ensures subscribers == old(subscribers) && subscribedSymbols == old(subscribedSymbols)
      ensures sent == old(sent) && invoked == old(invoked)
    {
      if !stale && ws.Some? {
        ws := Some(Closed);
      }
      AttemptReconnect();
    }

    /**
     * attemptReconnect: at the limit nothing happens; below it the counter
     * goes up by one and one fresh timer is scheduled, whose id overwrites
     * `reconnectTimeoutId` without clearing the timer held there before. The
     * timer is set for ReconnectInterval milliseconds; that delay is not modelled.
     */
    method AttemptReconnect()
      requires Valid()
      modifies this`reconnectAttempts, this`reconnectTimeoutId, this`timers, this`timersCreated
      ensures Valid()
      ensures (reconnectAttempts, reconnectTimeoutId != old(reconnectTimeoutId)) == ReconnectStep(old(reconnectAttempts))
      ensures reconnectTimeoutId != old(reconnectTimeoutId) ==>
        reconnectTimeoutId == Some(old(timersCreated)) && timers == old(timers) + {old(timersCreated)}
      ensures reconnectTimeoutId == old(reconnectTimeoutId) ==> timers == old(timers)
    {
      if reconnectAttempts >= MaxReconnectAttempts {
        return;
      }
      reconnectAttempts := reconnectAttempts + 1;
      var id := timersCreated;
      timersCreated := timersCreated + 1;
      timers := timers + {id};
      reconnectTimeoutId := Some(id);
    }

    /** A pending reconnect timer fires: it is no longer pending, and the client connects again. */
    method OnReconnectTimer(id: nat)
      requires Valid() && id in timers
      modifies this`timers, this`ws
      ensures Valid()
      ensures timers == old(timers) - {id}
      ensures ws == Some(Connecting)
    {
      timers := timers - {id};
      Connect();
    }

    /**
     * subscribeToSymbols: only on an OPEN socket, one SUBSCRIBE carrying
     * exactly `symbols` is sent and the symbols join `subscribedSymbols`.
     */
    method SubscribeToSymbols(symbols: seq<string>)
      modifies this`sent, this`subscribedSymbols
      ensures ws != Some(Open) ==> sent == old(sent) && subscribedSymbols == old(subscribedSymbols)
      ensures ws == Some(Open) ==> sent == old(sent) + [Message.Subscribe(symbols)]
      ensures ws == Some(Open) ==>
        subscribedSymbols == old(subscribedSymbols) + (set x | x in symbols)
    {
      if ws == Some(Open) {
        sent := sent + [Message.Subscribe(symbols)];
        for i := 0 to |symbols|
          invariant sent == old(sent) + [Message.Subscribe(symbols)]
          invariant subscribedSymbols == old(subscribedSymbols) + (set x | x in symbols[..i])
        {
          assert symbols[..i + 1] == symbols[..i] + [symbols[i]];
          subscribedSymbols := subscribedSymbols + {symbols[i]};
        }
        assert symbols[..|symbols|] == symbols;
      }
    }

    /**
     * subscribe: `callback` becomes the observer of `symbol`, replacing any
     * earlier one; the symbol is recorded and requested only on an OPEN socket.
     */
    method Subscribe(symbol: string, callback: CallbackId)
      modifies this`subscribers, this`sent, this`subscribedSymbols
      ensures subscribers == old(subscribers)[symbol := callback]
      ensures ws == Some(Open) ==>
        subscribedSymbols == old(subscribedSymbols) + {symbol} && sent == old(sent) + [Message.Subscribe([symbol])]
      ensures ws != Some(Open) ==>
        subscribedSymbols == old(subscribedSymbols) && sent == old(sent)
    {
      subscribers := subscribers[symbol := callback];
      if ws == Some(Open) {
        SubscribeToSymbols([symbol]);
        assert (set x | x in [symbol]) == {symbol};
      }
    }

    /** The disposer `subscribe` returns: forget `symbol` in both collections, and no other key. */
    method Unsubscribe(symbol: string)
      modifies this`subscribers, this`subscribedSymbols
      ensures subscribers == old(subscribers) - {symbol}
      ensures subscribedSymbols == old(subscribedSymbols) - {symbol}
    {
      subscribers := subscribers - {symbol};
      subscribedSymbols := subscribedSymbols - {symbol};
    }

    /** subscribeToAll: `callback` becomes the wildcard observer. */
    method SubscribeToAll(callback: CallbackId)
      modifies this`subscribers
      ensures subscribers == old(subscribers)[Wildcard := callback]
    {
      subscribers := subscribers[Wildcard := callback];
    }

    /** The disposer `subscribeToAll` returns: forget the wildcard observer only. */
    method UnsubscribeAll()
      modifies this`subscribers
      ensures subscribers == old(subscribers) - {Wildcard}
    {
      subscribers := subscribers - {Wildcard};
    }

    /**
     * disconnect: cancel the timer whose id is held, let go of the socket
     * and forget every observer and every subscribed symbol.
     */
    method Disconnect()
      requires Valid()
      modifies this
      ensures Valid()
      ensures reconnectTimeoutId == None && ws == None && !IsConnected()
      ensures subscribers == map[] && subscribedSymbols == {}
      ensures timers == if old(reconnectTimeoutId).Some? then old(timers) - {old(reconnectTimeoutId).value}
                        else old(timers)
      ensures reconnectAttempts == old(reconnectAttempts) && timersCreated == old(timersCreated)
      ensures sent == old(sent) && invoked == old(invoked)
    {
      if reconnectTimeoutId.Some? {
        timers := timers - {reconnectTimeoutId.value};
        reconnectTimeoutId := None;
      }
      if ws.Some? {
        ws := None;
      }
      subscribers := map[];
      subscribedSymbols := {};
    }
  }

  /** The module's singleton slot. */
  class ClientSlot {
    var instance: StockWebSocketClient?

    constructor ()
      ensures instance == null
    {
      instance := null;
    }

    /** getStockWebSocketClient: create the client on the first call, return that same client ever after. */
    method GetStockWebSocketClient() returns (c: StockWebSocketClient)
      modifies this
      ensures instance == c
      ensures old(instance) != null ==> c == old(instance)
      ensures old(instance) == null ==>
        fresh(c) && c.Valid() && c.url == DefaultUrl && c.ws == None && c.subscribers == map[]
    {
      if instance == null {
        instance := new StockWebSocketClient(DefaultUrl);
      }
      c := instance;
    }
  }

  /**
   * A close from the socket `disconnect` let go of, arriving after a new
   * `connect`, schedules a reconnect but does not stop the new socket from
   * opening.
   */
  method CloseOfReplacedSocket() returns (c: StockWebSocketClient)
    ensures c.ws == Some(Open) && c.reconnectAttempts == 0 && |c.timers| == 1
  {
    c := new StockWebSocketClient(DefaultUrl);
    c.Connect();
    c.Disconnect();
    c.Connect();
    c.OnClose(true);
    assert c.ws == Some(Connecting) && |c.timers| == 1;
    var resent := c.OnOpen();
  }

  /** Two calls of getStockWebSocketClient give the same client. */
  method SingletonTwice(slot: ClientSlot) returns (a: StockWebSocketClient, b: StockWebSocketClient)
    modifies slot
    ensures a == b
  {
    a := slot.GetStockWebSocketClient();
    b := slot.GetStockWebSocketClient();
  }
}
