/** Records exchanged between the trading harness and a strategy: products,
    order books, trades, the per-tick state and the orders a strategy emits. */
module Datamodel {

  /** A product name such as "KELP". */
  type Symbol = string

  datatype Option<T> = None | Some(value: T)

  /** A proposed order: a positive quantity buys, a negative one sells. */
  datatype Order = Order(symbol: Symbol, price: int, quantity: int)

  /** One entry of a price -> volume dictionary of an order book. */
  datatype Level = Level(price: int, volume: int)

  /** The resting bids and asks of one product, each side in the order the
      harness listed its price levels. */
  datatype OrderDepth = OrderDepth(buyOrders: seq<Level>, sellOrders: seq<Level>)

  /** A completed market trade. */
  datatype Trade = Trade(symbol: Symbol, price: int, quantity: int, timestamp: int)

  /** What the harness hands to a strategy at every tick. `orderDepths` keeps
      the dictionary's iteration order. */
  datatype TradingState = TradingState(
    timestamp: int,
    traderData: string,
    orderDepths: seq<(Symbol, OrderDepth)>,
    position: map<Symbol, int>,
    marketTrades: map<Symbol, seq<Trade>>)

  /** The value stored under `k`, or `default` when there is none (Python's `dict.get`). */
  function GetOr<K, V>(m: map<K, V>, k: K, default: V): (v: V)
    ensures k in m ==> v == m[k]
    ensures k !in m ==> v == default
  {
    if k in m then m[k] else default
  }

  function Min(a: int, b: int): int { if a <= b then a else b }

  function Max(a: int, b: int): int { if a >= b then a else b }

  function Abs(a: int): nat { if a < 0 then -a else a }

  /** The value held by `o` as a list of at most one element. */
  function AsList<T>(o: Option<T>): seq<T>
  {
    if o.Some? then [o.value] else []
  }

  /** The sum of the quantities of `orders`. */
  function TotalQuantity(orders: seq<Order>): int
  {
    if orders == [] then 0 else TotalQuantity(orders[..|orders| - 1]) + orders[|orders| - 1].quantity
  }

  /** `a` and `b` hold the same value, or none, for `p`. */
  predicate SameEntry<V(==)>(a: map<Symbol, V>, b: map<Symbol, V>, p: Symbol)
  {
    (p in a <==> p in b) && (p in a ==> a[p] == b[p])
  }

  /** True when no product appears twice, as for the keys of a dictionary. */
  predicate DistinctSymbols<V>(entries: seq<(Symbol, V)>)
  {
    forall i, j :: 0 <= i < j < |entries| ==> entries[i].0 != entries[j].0
  }
}
