/** The sample trader: for every product it buys the first-listed ask when
    that is priced below 10 and sells into the first-listed bid when that is
    priced above 10, as long as its own record of the position is inside the
    limit, and it adds the quantities it sends to that record. */
module Sample {
  import opened Datamodel

  /** The price the first-listed quotes are compared with. */
  const AcceptablePrice: int := 10

  /** The constructor's default arguments. */
  const DefaultSpread: real := 0.02
  const DefaultOrderSize: int := 10
  const DefaultPositionLimit: int := 50

  /** The buy order: the whole first-listed ask, negated, at its price, when
      the ask side is not empty, the recorded position is below the limit and
      that ask is priced below the acceptable price. */
  function SampleBuy(product: Symbol, od: OrderDepth, pos: int, limit: int): Option<Order>
  {
    if |od.sellOrders| > 0 && pos < limit && od.sellOrders[0].price < AcceptablePrice then
      Some(Order(product, od.sellOrders[0].price, -od.sellOrders[0].volume))
    else None
  }

  /** The sell order: the whole first-listed bid, negated, at its price, when
      the bid side is not empty, the recorded position is above minus the
      limit and that bid is priced above the acceptable price. */
  function SampleSell(product: Symbol, od: OrderDepth, pos: int, limit: int): Option<Order>
  {
    if |od.buyOrders| > 0 && pos > -limit && od.buyOrders[0].price > AcceptablePrice then
      Some(Order(product, od.buyOrders[0].price, -od.buyOrders[0].volume))
    else None
  }

  /** The orders for one product: the buy, if any, then the sell, if any. */
  function SampleOrders(product: Symbol, od: OrderDepth, pos: int, limit: int): seq<Order>
  {
    AsList(SampleBuy(product, od, pos, limit)) + AsList(SampleSell(product, od, pos, limit))
  }

  /** At most two orders, all for `product`; the buy comes first exactly when
      its guard holds, the sell comes last exactly when its guard holds, and
      nothing else is sent. */
  lemma SampleOrdersGuards(product: Symbol, od: OrderDepth, pos: int, limit: int)
    ensures var r := SampleOrders(product, od, pos, limit);
            var buys := |od.sellOrders| > 0 && pos < limit && od.sellOrders[0].price < AcceptablePrice;
            var sells := |od.buyOrders| > 0 && pos > -limit && od.buyOrders[0].price > AcceptablePrice;
            |r| == (if buys then 1 else 0) + (if sells then 1 else 0) &&
            (buys ==> r[0] == Order(product, od.sellOrders[0].price, -od.sellOrders[0].volume)) &&
            (sells ==> r[|r| - 1] == Order(product, od.buyOrders[0].price, -od.buyOrders[0].volume)) &&
            forall o :: o in r ==> o.symbol == product
  {
  }

  /** With an empty book nothing is sent, whatever the recorded position. */
  lemma SampleEmptyBook(product: Symbol, pos: int, limit: int)
    ensures SampleOrders(product, OrderDepth([], []), pos, limit) == []
  {
  }

  /** The limit is checked against the recorded position only, not against
      the position the order would lead to: from 49 with a limit of 50, a
      first-listed ask of 100 units at 9 is bought whole and the record goes
      to 149. */
  lemma SampleMayExceedLimit()
    ensures var orders := SampleOrders("KELP", OrderDepth([], [Level(9, -100)]), 49, DefaultPositionLimit);
            orders == [Order("KELP", 9, 100)] && 49 + TotalQuantity(orders) == 149
  {
    var orders := SampleOrders("KELP", OrderDepth([], [Level(9, -100)]), 49, DefaultPositionLimit);
    assert orders == [Order("KELP", 9, 100)];
    assert orders[..0] == [];
  }

  datatype SampleStepResult = SampleStepResult(positions: map<Symbol, int>, orders: seq<Order>)

  /** One iteration of the product loop: the orders, decided on the recorded
      position (0 when there is none), and the record increased by their
      total quantity. */
  function SampleStep(positions: map<Symbol, int>, product: Symbol, od: OrderDepth, limit: int): SampleStepResult
  {
    var pos := GetOr(positions, product, 0);
    var orders := SampleOrders(product, od, pos, limit);
    SampleStepResult(positions[product := pos + TotalQuantity(orders)], orders)
  }

  /** The record of `product` grows by the total quantity sent for it, from 0
      when it had none. */
  lemma SampleStepPosition(positions: map<Symbol, int>, product: Symbol, od: OrderDepth, limit: int)
    ensures var r := SampleStep(positions, product, od, limit);
            product in r.positions &&
            r.positions[product] == GetOr(positions, product, 0) + TotalQuantity(r.orders)
  {
  }

  /** A step touches no other product's record, and its orders and the new
      record of its product depend on nothing but that product's record. */
  lemma SampleStepIsLocal(p1: map<Symbol, int>, p2: map<Symbol, int>, product: Symbol, od: OrderDepth, limit: int)
    requires SameEntry(p1, p2, product)
    ensures forall q :: q != product ==> SameEntry(SampleStep(p1, product, od, limit).positions, p1, q)
    ensures SampleStep(p1, product, od, limit).orders == SampleStep(p2, product, od, limit).orders
    ensures SameEntry(SampleStep(p1, product, od, limit).positions, SampleStep(p2, product, od, limit).positions, product)
  {
    assert GetOr(p1, product, 0) == GetOr(p2, product, 0);
  }

  datatype SampleTick = SampleTick(positions: map<Symbol, int>, result: seq<(Symbol, seq<Order>)>)

  /** One product's step of the loop, given the records so far. */
  type SampleStepFn = (map<Symbol, int>, Symbol, OrderDepth) -> SampleStepResult

  /** The product loop over `ods` in order: each product gets an entry in
      the result and the records are threaded from one product to the next. */
  function SampleLoop(positions: map<Symbol, int>, ods: seq<(Symbol, OrderDepth)>, step: SampleStepFn): SampleTick
  {
    if ods == [] then SampleTick(positions, [])
    else
      var prev := SampleLoop(positions, ods[..|ods| - 1], step);
      var r := step(prev.positions, ods[|ods| - 1].0, ods[|ods| - 1].1);
      SampleTick(r.positions, prev.result + [(ods[|ods| - 1].0, r.orders)])
  }

  function LimitStep(limit: int): SampleStepFn
  {
    (positions: map<Symbol, int>, product: Symbol, od: OrderDepth) => SampleStep(positions, product, od, limit)
  }

  /** The product loop of one tick of `Trader.run`. */
  function SampleRun(positions: map<Symbol, int>, ods: seq<(Symbol, OrderDepth)>, limit: int): SampleTick
  {
    SampleLoop(positions, ods, LimitStep(limit))
  }

  lemma SampleLoopSnoc(positions: map<Symbol, int>, ods: seq<(Symbol, OrderDepth)>, i: nat, step: SampleStepFn)
    requires i < |ods|
    ensures var prev := SampleLoop(positions, ods[..i], step);
            var r := step(prev.positions, ods[i].0, ods[i].1);
            SampleLoop(positions, ods[..i + 1], step) == SampleTick(r.positions, prev.result + [(ods[i].0, r.orders)])
  {
    assert ods[..i + 1][..i] == ods[..i];
  }

  /** Every product of the book gets an entry in the result, possibly an
      empty list, in the book's order. */
  lemma {:induction false} SampleLoopShape(positions: map<Symbol, int>, ods: seq<(Symbol, OrderDepth)>, step: SampleStepFn)
    ensures var r := SampleLoop(positions, ods, step).result;
            |r| == |ods| && forall i :: 0 <= i < |ods| ==> r[i].0 == ods[i].0
  {
    if ods != [] {
      var n := |ods| - 1;
      SampleLoopShape(positions, ods[..n], step);
      var prev := SampleLoop(positions, ods[..n], step).result;
      var r := SampleLoop(positions, ods, step).result;
      forall i | 0 <= i < n
        ensures r[i].0 == ods[i].0
      {
        assert r[i] == prev[i];
        assert ods[..n][i] == ods[i];
      }
    }
  }

  /** `step` touches no other product's record, and its orders and the new
      record of its product depend on nothing but that product's record. */
  ghost predicate IsLocalStep(step: SampleStepFn)
  {
    (forall m, p, od, q :: q != p ==> SameEntry(step(m, p, od).positions, m, q)) &&
    (forall m1, m2, p, od :: SameEntry(m1, m2, p) ==>
       step(m1, p, od).orders == step(m2, p, od).orders &&
       SameEntry(step(m1, p, od).positions, step(m2, p, od).positions, p))
  }

  lemma LimitStepIsLocal(limit: int)
    ensures IsLocalStep(LimitStep(limit))
  {
    var step := LimitStep(limit);
    forall m, p, od, q | q != p
      ensures SameEntry(step(m, p, od).positions, m, q)
    {
      SampleStepIsLocal(m, m, p, od, limit);
    }
    forall m1, m2, p, od | SameEntry(m1, m2, p)
      ensures step(m1, p, od).orders == step(m2, p, od).orders
      ensures SameEntry(step(m1, p, od).positions, step(m2, p, od).positions, p)
    {
      SampleStepIsLocal(m1, m2, p, od, limit);
    }
  }

  /** A product the book does not list keeps its record. */
  lemma {:induction false} SampleLoopUntouched(positions: map<Symbol, int>, ods: seq<(Symbol, OrderDepth)>, step: SampleStepFn, p: Symbol)
    requires IsLocalStep(step)
    requires forall i :: 0 <= i < |ods| ==> ods[i].0 != p
    ensures SameEntry(SampleLoop(positions, ods, step).positions, positions, p)
  {
    if ods != [] {
      var n := |ods| - 1;
      SampleLoopUntouched(positions, ods[..n], step, p);
      var prev := SampleLoop(positions, ods[..n], step).positions;
      assert SameEntry(step(prev, ods[n].0, ods[n].1).positions, prev, p);
    }
  }

  /** When no product is listed twice, each product is handled as if it
      were the only one: its orders and its final record are those of one
      step from the record at the start of the tick. */
  lemma {:induction false} SampleLoopPerProduct(positions: map<Symbol, int>, ods: seq<(Symbol, OrderDepth)>, step: SampleStepFn)
    requires IsLocalStep(step) && DistinctSymbols(ods)
    ensures var r := SampleLoop(positions, ods, step);
            |r.result| == |ods| &&
            forall i :: 0 <= i < |ods| ==>
              r.result[i] == (ods[i].0, step(positions, ods[i].0, ods[i].1).orders) &&
              SameEntry(r.positions, step(positions, ods[i].0, ods[i].1).positions, ods[i].0)
  {
    SampleLoopShape(positions, ods, step);
    if ods != [] {
      var n := |ods| - 1;
      var init := ods[..n];
      var prev := SampleLoop(positions, init, step);
      var last := SampleLoop(positions, ods, step);
      SampleLoopPerProduct(positions, init, step);
      SampleLoopUntouched(positions, init, step, ods[n].0);
      forall i | 0 <= i < n
        ensures last.result[i] == (ods[i].0, step(positions, ods[i].0, ods[i].1).orders)
        ensures SameEntry(last.positions, step(positions, ods[i].0, ods[i].1).positions, ods[i].0)
      {
        assert init[i] == ods[i];
        assert last.result[i] == prev.result[i];
        assert SameEntry(last.positions, prev.positions, ods[i].0);
      }
    }
  }

  /** Every product of the book gets an entry in the result of a tick, in
      the book's order. */
  lemma SampleRunShape(positions: map<Symbol, int>, ods: seq<(Symbol, OrderDepth)>, limit: int)
    ensures var r := SampleRun(positions, ods, limit).result;
            |r| == |ods| && forall i :: 0 <= i < |ods| ==> r[i].0 == ods[i].0
  {
    SampleLoopShape(positions, ods, LimitStep(limit));
  }

  /** A product the book does not list keeps its record through a tick. */
  lemma SampleRunUntouched(positions: map<Symbol, int>, ods: seq<(Symbol, OrderDepth)>, limit: int, p: Symbol)
    requires forall i :: 0 <= i < |ods| ==> ods[i].0 != p
    ensures SameEntry(SampleRun(positions, ods, limit).positions, positions, p)
  {
    LimitStepIsLocal(limit);
    SampleLoopUntouched(positions, ods, LimitStep(limit), p);
  }

  /** When no product is listed twice, each product's orders are decided on
      its record at the start of the tick, and its record ends increased by
      their total quantity. */
  lemma SampleRunOwnRecord(positions: map<Symbol, int>, ods: seq<(Symbol, OrderDepth)>, limit: int)
    requires DistinctSymbols(ods)
    ensures var r := SampleRun(positions, ods, limit);
            |r.result| == |ods| &&
            forall i :: 0 <= i < |ods| ==>
              r.result[i].1 == SampleOrders(ods[i].0, ods[i].1, GetOr(positions, ods[i].0, 0), limit) &&
              ods[i].0 in r.positions &&
              r.positions[ods[i].0] == GetOr(positions, ods[i].0, 0) + TotalQuantity(r.result[i].1)
  {
    LimitStepIsLocal(limit);
    SampleLoopPerProduct(positions, ods, LimitStep(limit));
    forall i | 0 <= i < |ods|
      ensures SampleStep(positions, ods[i].0, ods[i].1, limit).orders
              == SampleOrders(ods[i].0, ods[i].1, GetOr(positions, ods[i].0, 0), limit)
    {
      SampleStepPosition(positions, ods[i].0, ods[i].1, limit);
    }
  }

  /** `Trader` of `main.py`: its parameters and its own record of positions. */
  class SampleTrader {
    var spread: real
    var orderSize: int
    var positionLimit: int
    var positions: map<Symbol, int>

    /** Stores the parameters and starts with no recorded position. */
    constructor (spread: real := DefaultSpread, orderSize: int := DefaultOrderSize,
                 positionLimit: int := DefaultPositionLimit)
      ensures this.spread == spread && this.orderSize == orderSize && this.positionLimit == positionLimit
      ensures positions == map[]
    {
      this.spread := spread;
      this.orderSize := orderSize;
      this.positionLimit := positionLimit;
      positions := map[];
    }

    /** One tick. Decisions read only the book and the trader's own record
        of positions, never the position the harness reports. */
    method Run(state: TradingState) returns (result: seq<(Symbol, seq<Order>)>, conversions: int, traderData: string)
      modifies this
      ensures positions == SampleRun(old(positions), state.orderDepths, positionLimit).positions
      ensures result == SampleRun(old(positions), state.orderDepths, positionLimit).result
      ensures conversions == 1 && traderData == "SAMPLE"
      ensures spread == old(spread) && orderSize == old(orderSize) && positionLimit == old(positionLimit)
    {
      result := [];
      var ods := state.orderDepths;
      for i := 0 to |ods|
        invariant spread == old(spread) && orderSize == old(orderSize) && positionLimit == old(positionLimit)
        invariant positions == SampleLoop(old(positions), ods[..i], LimitStep(positionLimit)).positions
        invariant result == SampleLoop(old(positions), ods[..i], LimitStep(positionLimit)).result
      {
        SampleLoopSnoc(old(positions), ods, i, LimitStep(positionLimit));
        var orders := TradeProduct(ods[i].0, ods[i].1);
        result := result + [(ods[i].0, orders)];
      }
      assert ods[..|ods|] == ods;
      traderData := "SAMPLE";
      conversions := 1;
    }

    /** The body of the product loop for one product: the two checks on
        the book, then the record update. */
    method TradeProduct(product: Symbol, orderDepth: OrderDepth) returns (orders: seq<Order>)
      modifies this
      ensures positions == SampleStep(old(positions), product, orderDepth, positionLimit).positions
      ensures orders == SampleStep(old(positions), product, orderDepth, positionLimit).orders
      ensures spread == old(spread) && orderSize == old(orderSize) && positionLimit == old(positionLimit)
    {
      orders := DecideOrders(product, orderDepth);
      RecordOrders(product, orders);
    }

    /** The buy check on the first-listed ask, then the sell check on the
        first-listed bid, both against the recorded position. */
    method DecideOrders(product: Symbol, orderDepth: OrderDepth) returns (orders: seq<Order>)
      ensures orders == SampleOrders(product, orderDepth, GetOr(positions, product, 0), positionLimit)
    {
      orders := [];
      var currentPosition := GetOr(positions, product, 0);

      if |orderDepth.sellOrders| > 0 {
        var bestAsk := orderDepth.sellOrders[0].price;
        var bestAskAmount := orderDepth.sellOrders[0].volume;
        if currentPosition < positionLimit && bestAsk < AcceptablePrice {
          orders := orders + [Order(product, bestAsk, -bestAskAmount)];
        }
      }
      assert orders == AsList(SampleBuy(product, orderDepth, currentPosition, positionLimit));

      if |orderDepth.buyOrders| > 0 {
        var bestBid := orderDepth.buyOrders[0].price;
        var bestBidAmount := orderDepth.buyOrders[0].volume;
        if currentPosition > -positionLimit && bestBid > AcceptablePrice {
          orders := orders + [Order(product, bestBid, -bestBidAmount)];
        }
      }
    }

    /** Starts the record of `product` at 0 when there is none, then adds
        the total quantity of `orders` to it. */
    method RecordOrders(product: Symbol, orders: seq<Order>)
      modifies this
      ensures positions == old(positions)[product := GetOr(old(positions), product, 0) + TotalQuantity(orders)]
      ensures spread == old(spread) && orderSize == old(orderSize) && positionLimit == old(positionLimit)
    {
      if product !in positions {
        positions := positions[product := 0];
      }
      positions := positions[product := positions[product] + TotalQuantity(orders)];
    }
  }
}
