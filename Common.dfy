/** Values shared by the quote relay, its subscriber client and the dashboard pages. */
module Common {

  datatype Option<+T> = None | Some(value: T)

  /** JavaScript truthiness of an optional number: present and not zero. */
  predicate Truthy(x: Option<real>) {
    x.Some? && x.value != 0.0
  }

  /** `x || fallback` on an optional number. */
  function OrElse(x: Option<real>, fallback: real): (r: real)
    ensures Truthy(x) ==> r == x.value
    ensures !Truthy(x) ==> r == fallback
  {
    if Truthy(x) then x.value else fallback
  }

  /**
   * A normalised quote, as cached by the relay and sent on the wire.
   * `percentageChange` is None where the source computes a non-finite number
   * (a zero previous close), which JSON serialisation writes as null.
   */
  datatype Quote = Quote(
    symbol: string,
    price: real,
    previousClose: real,
    priceChange: real,
    percentageChange: Option<real>,
    timestamp: string)

  /** The wire messages in either direction, after JSON parsing. */
  datatype Message =
    | StockUpdate(data: Quote)
    | Subscribe(symbols: seq<string>)
    | Malformed   // did not parse, or carried a type the receiver ignores

  /** The readyState of a WebSocket. */
  datatype ReadyState = Connecting | Open | Closing | Closed

  /** `order` lists every element of `s` exactly once. */
  ghost predicate Enumerates(order: seq<string>, s: set<string>) {
    && |order| == |s|
    && (forall i :: 0 <= i < |order| ==> order[i] in s)
    && (forall x :: x in s ==> x in order)
    && (forall i, j :: 0 <= i < j < |order| ==> order[i] != order[j])
  }

  /** `Array.from(s)`, and the iteration order of `forEach`, in some order. */
  method Enumerate(s: set<string>) returns (order: seq<string>)
    ensures Enumerates(order, s)
  {
    var rest := s;
    order := [];
    while rest != {}
      invariant rest <= s
      invariant |order| + |rest| == |s|
      invariant forall i :: 0 <= i < |order| ==> order[i] in s && order[i] !in rest
      invariant forall x :: x in s ==> x in rest || x in order
      invariant forall i, j :: 0 <= i < j < |order| ==> order[i] != order[j]
      decreases rest
    {
      var x :| x in rest;
      order := order + [x];
      rest := rest - {x};
    }
  }
}
