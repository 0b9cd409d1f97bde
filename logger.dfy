/** The two pure pieces of the diagnostics logger: shortening a string to a
    length budget, and flattening the per-product order lists into rows. */
module Logger {
  import opened Datamodel

  /** Python's `s[:n]`: a non-negative `n` keeps at most `n` characters, a
      negative `n` drops the last `-n` characters. */
  function PyPrefix(s: string, n: int): (r: string)
    ensures |r| == (if n >= 0 then Min(n, |s|) else Max(|s| + n, 0))
    ensures r == s[..|r|]
  {
    if n >= 0 then s[..Min(n, |s|)] else s[..Max(|s| + n, 0)]
  }

  /** `Logger.truncate`, as written: a value that fits is kept, a longer one
      is cut to `maxLength - 3` characters (Python slice semantics) followed
      by "...". */
  function Truncate(value: string, maxLength: int): (r: string)
    ensures |value| <= maxLength ==> r == value
    ensures |value| > maxLength ==>
              3 <= |r| <= |value| + 3 && r == value[..|r| - 3] + "..."
    ensures |value| > maxLength && maxLength >= 3 ==>
              |r| == maxLength && r == value[..maxLength - 3] + "..."
  {
    if |value| <= maxLength then value else PyPrefix(value, maxLength - 3) + "..."
  }

  /** A budget below 3 cannot hold the "..." marker: every value longer than
      such a budget comes back longer than the budget. */
  lemma TruncateOverrunsSmallBudget(value: string, maxLength: int)
    requires maxLength < 3 && |value| > maxLength
    ensures |Truncate(value, maxLength)| > maxLength
    ensures |Truncate(value, maxLength)| >= 3
  {
  }

  /** Two instances: a six-character value cut to a budget of -1 comes back
      five characters long, and a budget of 0 turns any one-character value
      into "...". */
  lemma TruncateSmallBudgetExamples()
    ensures Truncate("abcdef", -1) == "ab..."
    ensures Truncate("a", 0) == "..."
  {
    assert PyPrefix("abcdef", -4) == "ab";
    assert PyPrefix("a", -3) == "";
  }

  /** The evidently intended truncation: identical to `Truncate` whenever the
      budget can hold the marker, and never longer than the budget. */
  function TruncateWithin(value: string, maxLength: int): (r: string)
    ensures |r| <= Max(maxLength, 0)
    ensures |value| <= maxLength ==> r == value
    ensures |value| > maxLength ==> |r| == Max(maxLength, 0)
    ensures maxLength >= 3 ==> r == Truncate(value, maxLength)
    ensures maxLength < 3 ==> r == value[..|r|]
  {
    if |value| <= maxLength then value
    else if maxLength < 3 then value[..Max(maxLength, 0)]
    else value[..maxLength - 3] + "..."
  }

  /** One `[symbol, price, quantity]` row of the compressed log. */
  type OrderRow = (Symbol, int, int)

  /** The rows for one product's order list, one per order, in list order. */
  function CompressList(orders: seq<Order>): (rows: seq<OrderRow>)
    ensures |rows| == |orders|
    ensures forall k :: 0 <= k < |orders| ==>
              rows[k] == (orders[k].symbol, orders[k].price, orders[k].quantity)
  {
    if orders == [] then []
    else [(orders[0].symbol, orders[0].price, orders[0].quantity)] + CompressList(orders[1..])
  }

  /** The number of orders over all products. */
  function OrderCount(orders: seq<(Symbol, seq<Order>)>): nat
  {
    if orders == [] then 0 else |orders[0].1| + OrderCount(orders[1..])
  }

  /** `Logger.compress_orders`: every order of every product, products in
      dictionary order and orders in list order. */
  function CompressOrders(orders: seq<(Symbol, seq<Order>)>): (rows: seq<OrderRow>)
    ensures |rows| == OrderCount(orders)
    ensures orders != [] ==> rows[..|orders[0].1|] == CompressList(orders[0].1)
  {
    if orders == [] then [] else CompressList(orders[0].1) + CompressOrders(orders[1..])
  }

  /** Compressing two dictionaries laid end to end gives the two row lists end
      to end, so the rows keep the products' order. */
  lemma {:induction false} CompressOrdersAppend(a: seq<(Symbol, seq<Order>)>, b: seq<(Symbol, seq<Order>)>)
    ensures CompressOrders(a + b) == CompressOrders(a) + CompressOrders(b)
    ensures OrderCount(a + b) == OrderCount(a) + OrderCount(b)
  {
    if a == [] {
      assert a + b == b;
    } else {
      assert (a + b)[1..] == a[1..] + b;
      CompressOrdersAppend(a[1..], b);
    }
  }
}
